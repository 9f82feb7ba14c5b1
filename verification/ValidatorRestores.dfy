/**
 A server whose validators come back. What a restore may do to the download is decided when it
 happens: a lemma says for every restore whether the download can still end as a mixture.
 */
module ValidatorRestores {
  import opened Base
  import opened Validators
  import opened ValidatorProofs
  import opened ValidatorExtents
  import opened ValidatorTheorems

  // ---- The invariant when validators may come back ----

  ghost predicate Sound(s: State) {
    Agree(s.counted, s.file) || Unclaimed(s.f)
  }

  /** Whatever is asked for next, the counted bytes are given up before a byte is appended. */
  ghost predicate GivesUp(s: State) {
    (Restarts(s.f) && s.work == map[]) || (OtherLength(s.f, s.history) && AllAsking(s.work))
  }

  ghost predicate RestInv(s: State) {
    && Basis(s) && (Sound(s) || GivesUp(s))
    && (s.saved.Some? ==> Coherent(s.saved.value.f, s.saved.value.counted, s.history))
  }

  lemma Sound206(s: State, c: nat, prefetched: nat)
    requires Basis(s) && Sound(s) && Enabled(true, s, Answer206(c, prefetched))
    ensures Sound(DoAnswer206(s, c, prefetched))
  {
    assert ItemOk(s, c, s.work[c]);
    var q := s.work[c].q;
    var total := |s.server.content|;
    Take206Guards(s, c, q, q.start, if q.asked.Some? && q.asked.value < total then q.asked.value else total - 1,
                  total, prefetched);
  }

  lemma Sound200(s: State, c: nat, prefetched: nat, sized: bool)
    requires Basis(s) && Sound(s) && Enabled(true, s, Answer200(c, prefetched, sized))
    ensures Sound(DoAnswer200(s, c, prefetched, sized))
  {
    assert ItemOk(s, c, s.work[c]);
    Take200StartsOver(s, c, s.work[c].q, if sized then Some(|s.server.content|) else None);
  }

  lemma SoundStep(s: State, step: Step)
    requires Basis(s) && Sound(s) && Enabled(true, s, step) && !step.Change? && !step.Store? && !step.Crash?
    ensures Sound(Next(true, s, step))
  {
    match step
    case Read(c, n) => ReadLive(s, c, n);
    case Answer206(c, prefetched) => Sound206(s, c, prefetched);
    case Answer200(c, prefetched, sized) => Sound200(s, c, prefetched, sized);
    case End(c) => assert ItemOk(s, c, s.work[c]);
    case ResolveWins(c) => ResolveWinsKeeps(s, c);
    case _ =>
  }

  /** The total of a 206 gives away that the validator stands for another length. */
  lemma GivesUp206(s: State, c: nat, prefetched: nat)
    requires Basis(s) && GivesUp(s) && Enabled(true, s, Answer206(c, prefetched))
    ensures GivesUp(DoAnswer206(s, c, prefetched))
  {
    assert ItemOk(s, c, s.work[c]);
    var q := s.work[c].q;
    assert q.guard == s.f.ifRange == s.server.validator;
    assert Verdict206(s, c, q, prefetched) == Refuse(s.f);
    assert DoAnswer206(s, c, prefetched) == s.(work := Without(s.work, c));
  }

  lemma GivesUp200(s: State, c: nat, prefetched: nat, sized: bool)
    requires Basis(s) && GivesUp(s) && Enabled(true, s, Answer200(c, prefetched, sized))
    ensures DoAnswer200(s, c, prefetched, sized).counted == map[]
  {
    assert ItemOk(s, c, s.work[c]);
    Take200StartsOver(s, c, s.work[c].q, if sized then Some(|s.server.content|) else None);
  }

  lemma GivesUpAttempt(s: State, c: nat, start: nat, asked: Option<nat>)
    requires Basis(s) && GivesUp(s) && Enabled(true, s, Attempt(c, start, asked))
    ensures Sound(DoAttempt(s, c, start, asked)) || GivesUp(DoAttempt(s, c, start, asked))
  {
  }

  lemma GivesUpStep(s: State, step: Step)
    requires Basis(s) && GivesUp(s) && Enabled(true, s, step) && !step.Change? && !step.Store? && !step.Crash?
    ensures Sound(Next(true, s, step)) || GivesUp(Next(true, s, step))
  {
    match step
    case Attempt(c, start, asked) => GivesUpAttempt(s, c, start, asked);
    case Answer206(c, prefetched) => GivesUp206(s, c, prefetched);
    case Answer200(c, prefetched, sized) => GivesUp200(s, c, prefetched, sized);
    case _ =>
  }

  /** What a validator that comes back stands for is already known. */
  lemma HistoryGrows(s: State, rep: Rep, f: Fetch, counted: map<int, Rep>)
    requires Enabled(false, s, Change(rep)) && Coherent(f, counted, s.history)
    ensures Coherent(f, counted, Next(false, s, Change(rep)).history)
    ensures OtherLength(f, s.history) ==> OtherLength(f, Next(false, s, Change(rep)).history)
  {
    if rep.validator != "" && rep.validator !in s.history {
      GenuineGrows(f, counted, s.history, rep);
    } else {
      assert Next(false, s, Change(rep)).history == s.history;
    }
  }

  lemma WorkGrows(s: State, rep: Rep)
    requires WorkOk(s) && Enabled(false, s, Change(rep))
    ensures WorkOk(Next(false, s, Change(rep)))
  {
    var s' := Next(false, s, Change(rep));
    forall c | c in s'.work ensures ItemOk(s', c, s'.work[c]) {
      assert ItemOk(s, c, s.work[c]);
    }
  }

  lemma RestChange(s: State, rep: Rep)
    requires RestInv(s) && Enabled(false, s, Change(rep))
    ensures RestInv(Next(false, s, Change(rep)))
    ensures Sound(s) ==> Sound(Next(false, s, Change(rep)))
  {
    HistoryGrows(s, rep, s.f, s.counted);
    if s.saved.Some? {
      HistoryGrows(s, rep, s.saved.value.f, s.saved.value.counted);
    }
    WorkGrows(s, rep);
  }

  lemma RestOther(s: State, step: Step)
    requires RestInv(s) && Enabled(true, s, step) && !step.Change? && !step.Store? && !step.Crash?
    ensures RestInv(Next(true, s, step))
    ensures Sound(s) ==> Sound(Next(true, s, step))
  {
    Frame(s, step);
    BasisKeeps(s, step);
    if Sound(s) {
      SoundStep(s, step);
    } else {
      GivesUpStep(s, step);
    }
  }

  lemma RestStep(s: State, step: Step)
    requires RestInv(s) && Enabled(false, s, step) && !step.Crash?
    ensures RestInv(Next(false, s, step))
    ensures Sound(s) ==> Sound(Next(false, s, step))
  {
    match step
    case Change(rep) => RestChange(s, rep);
    case Store =>
    case _ => RestOther(s, step);
  }

  // ---- Restoring only snapshots no 200 was answered after ----

  predicate NoneRestarted(steps: seq<Step>, k: nat)
    requires k <= |steps|
  {
    forall i :: 0 <= i < k && steps[i].Answer200? ==> exists m :: i < m < k && steps[m].Store?
  }

  /** Between the Store that a Crash restores and that Crash, no 200 is answered. */
  predicate Fresh(steps: seq<Step>) {
    forall j :: 0 <= j < |steps| && steps[j].Crash? ==> NoneRestarted(steps, j)
  }

  ghost predicate Extends(counted: map<int, Rep>, saved: map<int, Rep>) {
    forall o :: o in saved ==> o in counted
  }

  /** What the snapshot counts is on disk and will not be overwritten. */
  ghost predicate Held(s: State, saved: Saved) {
    || Unclaimed(saved.f)
    || (Agree(saved.counted, s.file) && !Unclaimed(s.f)
        && (Extends(s.counted, saved.counted) || (!s.f.ranged && s.f.got == 0 && AllAsking(s.work))))
  }

  lemma AttemptHeld(s: State, c: nat, start: nat, asked: Option<nat>, saved: Saved)
    requires Basis(s) && Held(s, saved) && Enabled(true, s, Attempt(c, start, asked))
    ensures Held(DoAttempt(s, c, start, asked), saved)
  {
    if !s.f.ranged {
      forall d | d in s.work ensures d == 0 {
        assert ItemOk(s, d, s.work[d]);
      }
    }
  }

  lemma Answer206Held(s: State, c: nat, prefetched: nat, saved: Saved)
    requires Basis(s) && Held(s, saved) && Enabled(true, s, Answer206(c, prefetched))
    ensures Held(DoAnswer206(s, c, prefetched), saved)
  {
    assert ItemOk(s, c, s.work[c]);
  }

  lemma ReadHeld(s: State, c: nat, n: nat, saved: Saved)
    requires Basis(s) && Held(s, saved) && Enabled(true, s, Read(c, n))
    ensures Held(DoRead(s, c, n), saved)
  {
    assert ItemOk(s, c, s.work[c]);
  }

  lemma EndHeld(s: State, c: nat, saved: Saved)
    requires Basis(s) && Held(s, saved) && Enabled(true, s, End(c))
    ensures Held(DoEnd(s, c), saved)
  {
    assert ItemOk(s, c, s.work[c]);
  }

  lemma HeldStep(s: State, step: Step, saved: Saved)
    requires Basis(s) && Held(s, saved) && Enabled(false, s, step)
    requires !step.Answer200? && !step.Store? && !step.Crash?
    ensures Held(Next(false, s, step), saved)
  {
    match step
    case Attempt(c, start, asked) => AttemptHeld(s, c, start, asked, saved);
    case Answer206(c, prefetched) => Answer206Held(s, c, prefetched, saved);
    case Read(c, n) => ReadHeld(s, c, n, saved);
    case End(c) => EndHeld(s, c, saved);
    case _ =>
  }

  lemma StoreHeld(s: State)
    requires Basis(s) && Sound(s)
    ensures Held(Next(false, s, Store), Saved(s.f, s.counted))
  {
  }

  lemma CrashHeld(s: State)
    requires RestInv(s) && s.saved.Some? && Held(s, s.saved.value)
    ensures RestInv(Next(false, s, Crash)) && Sound(Next(false, s, Crash))
    ensures Held(Next(false, s, Crash), s.saved.value)
  {
  }

  /** What is not a Store, a Crash or a 200 keeps the snapshot, and keeps it held. */
  lemma HeldAlong(s: State, step: Step)
    requires RestInv(s) && Enabled(false, s, step) && !step.Answer200? && !step.Store? && !step.Crash?
    requires s.saved.Some? ==> Held(s, s.saved.value)
    ensures Next(false, s, step).saved == s.saved
    ensures s.saved.Some? ==> Held(Next(false, s, step), s.saved.value)
  {
    if s.saved.Some? {
      HeldStep(s, step, s.saved.value);
    }
  }

  lemma {:induction false} FreshRun(run: seq<State>, steps: seq<Step>, k: nat)
    requires IsRun(false, run, steps) && k < |run| && Fresh(steps)
    ensures RestInv(run[k]) && Sound(run[k])
    ensures NoneRestarted(steps, k) && run[k].saved.Some? ==> Held(run[k], run[k].saved.value)
  {
    if k == 0 {
      StartHolds(run[0]);
    } else {
      FreshRun(run, steps, k - 1);
      var s, step := run[k - 1], steps[k - 1];
      if step.Store? {
        RestStep(s, step);
        StoreHeld(s);
      } else if step.Crash? {
        CrashHeld(s);
      } else {
        RestStep(s, step);
        if NoneRestarted(steps, k) {
          assert NoneRestarted(steps, k - 1);
          HeldAlong(s, step);
        }
      }
    }
  }

  /**
   Whatever the server does with its validators, a run that restores only fresh snapshots keeps
   every counted byte of a pinned or sequential download equal to the file and of one content.
   */
  lemma AnyServerAgrees(run: seq<State>, steps: seq<Step>, k: nat, o: int, p: int)
    requires IsRun(false, run, steps) && k < |run| && (run[k].f.pinned || !run[k].f.ranged)
    requires Fresh(steps)
    requires o in run[k].counted && p in run[k].counted
    ensures run[k].counted[o].content == run[k].counted[p].content
    ensures Reproduces(run[k], run[k].counted[o].content)
  {
    FreshRun(run, steps, k);
    var s := run[k];
    forall q | q in s.counted ensures s.counted[q].content == s.counted[o].content {
      assert Genuine(s.history, s.counted[q]);
    }
  }

  // ---- Which restores are safe ----

  /**
   The first guard of a restore: the counted bytes of the snapshot are the ones on disk, or the
   restored fetcher does not rely on them.
   */
  ghost predicate Usable(s: State) {
    && s.saved.Some?
    && var f := s.saved.value.f;
      Agree(s.saved.value.counted, s.file) || Unclaimed(f) || Restarts(f) || OtherLength(f, s.history)
  }

  /** Both guards: the bytes the snapshot counts, and the end of the file. */
  ghost predicate Safe(s: State) {
    Usable(s) && TailOk(s.saved.value.f, s.file, s.history)
  }

  /** Where a download that counts as finished ends. */
  function Ends(f: Fetch): nat {
    if f.completed then f.got else f.size
  }

  /**
   The download counts as finished, but its counted bytes are not the ones in the file, or bytes of
   something else lie behind them.
   */
  ghost predicate Mixed(s: State) {
    (s.f.completed || (s.f.pinned && Full(s.f, s.counted))) && (!Agree(s.counted, s.file) || !Fits(s.file, Ends(s.f)))
  }

  /** No crash, and no accepted 200 that announces an empty body. */
  ghost predicate Quiet(run: seq<State>, steps: seq<Step>)
    requires |run| == |steps| + 1
  {
    forall k :: 0 <= k < |steps| ==> QuietStep(run[k], steps[k])
  }

  ghost predicate QuietStep(s: State, step: Step) {
    !step.Crash? && !EmptyTaken(s, step)
  }

  ghost predicate Mixes(s: State, run: seq<State>, steps: seq<Step>) {
    Leads(false, s, run, steps) && Quiet(run, steps) && Mixed(run[|steps|])
  }

  ghost predicate CanMix(s: State) {
    exists run: seq<State>, steps: seq<Step> :: Mixes(s, run, steps)
  }

  lemma UsableCrash(s: State)
    requires RestInv(s) && Usable(s)
    ensures RestInv(Next(false, s, Crash))
  {
  }

  lemma {:induction false} RestAlong(s: State, run: seq<State>, steps: seq<Step>, k: nat)
    requires RestInv(s) && Leads(false, s, run, steps) && k < |run|
    requires forall j :: 0 <= j < |steps| && steps[j].Crash? ==> Usable(run[j])
    ensures RestInv(run[k])
  {
    if k > 0 {
      RestAlong(s, run, steps, k - 1);
      if steps[k - 1].Crash? {
        UsableCrash(run[k - 1]);
      } else {
        RestStep(run[k - 1], steps[k - 1]);
      }
    }
  }

  lemma NotMixed(s: State)
    requires RestInv(s) && Neat(s)
    ensures !Mixed(s)
  {
    NeatFits(s);
  }

  lemma EveryBasis(s: State, run: seq<State>, steps: seq<Step>)
    requires RestInv(s) && Leads(false, s, run, steps)
    requires forall j :: 0 <= j < |steps| && steps[j].Crash? ==> Usable(run[j])
    ensures forall j :: 0 <= j < |run| ==> Basis(run[j])
  {
    forall j | 0 <= j < |run| ensures Basis(run[j]) {
      RestAlong(s, run, steps, j);
    }
  }

  /**
   A run in which every restore is safe, and no accepted 200 announces an empty body, never finishes
   with anything but one representation.
   */
  lemma SafeRestoresNeverMix(run: seq<State>, steps: seq<Step>, k: nat)
    requires IsRun(false, run, steps) && k < |run|
    requires forall j :: 0 <= j < |steps| ==>
               !EmptyTaken(run[j], steps[j]) && (steps[j].Crash? ==> Safe(run[j]))
    ensures !Mixed(run[k])
  {
    StartHolds(run[0]);
    StartIsNeat(run[0]);
    EveryBasis(run[0], run, steps);
    RestAlong(run[0], run, steps, k);
    assert Trimmed(run, steps) by {
      forall j | 0 <= j < |steps| ensures StepTrimmed(run[j], steps[j]) {
      }
    }
    NeatAlong(false, run[0], run, steps, k);
    NotMixed(run[k]);
  }

  // ---- Every other restore can end in a mixture ----

  lemma Prepend(s: State, step: Step, run: seq<State>, steps: seq<Step>)
    requires Enabled(false, s, step) && Leads(false, Next(false, s, step), run, steps)
    ensures Leads(false, s, [s] + run, [step] + steps)
  {
    forall k | 0 <= k < |[step] + steps|
      ensures Enabled(false, ([s] + run)[k], ([step] + steps)[k])
      ensures ([s] + run)[k + 1] == Next(false, ([s] + run)[k], ([step] + steps)[k])
    {
      if k > 0 {
        assert Enabled(false, run[k - 1], steps[k - 1]) && run[k] == Next(false, run[k - 1], steps[k - 1]);
      }
    }
  }

  lemma PrependQuiet(s: State, step: Step, run: seq<State>, steps: seq<Step>)
    requires |run| == |steps| + 1 && Quiet(run, steps) && QuietStep(s, step)
    ensures Quiet([s] + run, [step] + steps)
  {
    forall k | 0 <= k < |[step] + steps| ensures QuietStep(([s] + run)[k], ([step] + steps)[k]) {
      if k > 0 {
        assert QuietStep(run[k - 1], steps[k - 1]);
      }
    }
  }

  lemma MixesFirst(s: State, step: Step, run: seq<State>, steps: seq<Step>)
    requires Enabled(false, s, step) && QuietStep(s, step) && Mixes(Next(false, s, step), run, steps)
    ensures Mixes(s, [s] + run, [step] + steps)
  {
    Prepend(s, step, run, steps);
    PrependQuiet(s, step, run, steps);
  }

  lemma MixFirst(s: State, step: Step)
    requires Enabled(false, s, step) && QuietStep(s, step) && CanMix(Next(false, s, step))
    ensures CanMix(s)
  {
    var run: seq<State>, steps: seq<Step> :| Mixes(Next(false, s, step), run, steps);
    MixesFirst(s, step, run, steps);
  }

  lemma MixNow(s: State)
    requires Mixed(s)
    ensures CanMix(s)
  {
    var run, steps: seq<Step> := [s], [];
    assert Mixes(s, run, steps);
  }

  /** A counted byte is not the one in the file, or a byte lies past the known size. */
  ghost predicate Bad(s: State) {
    !Agree(s.counted, s.file) || !Fits(s.file, s.f.size)
  }

  /** An idle pinned fetcher whose server serves the pinned representation again. */
  ghost predicate Filling(s: State) {
    && s.f.ranged && s.f.pinned && !s.f.fallback && !s.f.completed && !s.f.unknown && s.f.conns > 0
    && s.f.ifRange != "" && s.f.ifRange == s.server.validator && s.f.size == |s.server.content| > 0
    && s.work == map[]
  }

  function Asked(s: State, o: nat): Work {
    Asking(Req(o, Some(o), true, false, s.f.ifRange, false))
  }

  function Answered(s: State, o: nat): Work {
    Reading(Stream(s.server, o, false, false, true))
  }

  /** The state after a single byte was asked for, answered, read and the connection given back. */
  ghost function OneMore(s: State, o: nat): State
    requires o < |s.server.content|
  {
    DoRead(s.(work := map[0 := Answered(s, o)]), 0, 1).(work := map[])
  }

  lemma OneMoreKeeps(s: State, o: nat)
    requires Filling(s) && o < s.f.size && o !in s.counted
    ensures Filling(OneMore(s, o)) && OneMore(s, o).f == s.f
    ensures forall p :: p in OneMore(s, o).counted <==> p in s.counted || p == o
    ensures Bad(s) ==> Bad(OneMore(s, o))
  {
  }

  lemma AskOne(s: State, o: nat)
    requires Filling(s) && o < s.f.size && o !in s.counted
    ensures Enabled(false, s, Attempt(0, o, Some(o)))
    ensures Next(false, s, Attempt(0, o, Some(o))) == s.(work := map[0 := Asked(s, o)])
  {
  }

  lemma AnswerOne(s: State, o: nat)
    requires Filling(s) && o < s.f.size
    ensures Enabled(false, s.(work := map[0 := Asked(s, o)]), Answer206(0, 0))
    ensures Next(false, s.(work := map[0 := Asked(s, o)]), Answer206(0, 0)) == s.(work := map[0 := Answered(s, o)])
  {
  }

  lemma ReadOne(s: State, o: nat)
    requires Filling(s) && o < s.f.size && o !in s.counted
    ensures Enabled(false, s.(work := map[0 := Answered(s, o)]), Read(0, 1))
  {
  }

  lemma NobodyLeft(work: map<nat, Work>)
    requires forall c :: c in work ==> c == 0
    ensures Without(work, 0) == map[]
  {
  }

  lemma DropOne(s: State, o: nat)
    requires Filling(s) && o < s.f.size && o !in s.counted
    ensures var v := DoRead(s.(work := map[0 := Answered(s, o)]), 0, 1);
      Enabled(false, v, Drop(0, true)) && Next(false, v, Drop(0, true)) == OneMore(s, o)
  {
    NobodyLeft(DoRead(s.(work := map[0 := Answered(s, o)]), 0, 1).work);
  }

  lemma FillOne(s: State, o: nat)
    requires Filling(s) && o < s.f.size && o !in s.counted && CanMix(OneMore(s, o))
    ensures CanMix(s)
  {
    var u1 := s.(work := map[0 := Asked(s, o)]);
    var u2 := s.(work := map[0 := Answered(s, o)]);
    DropOne(s, o);
    MixFirst(DoRead(u2, 0, 1), Drop(0, true));
    ReadOne(s, o);
    MixFirst(u2, Read(0, 1));
    AnswerOne(s, o);
    MixFirst(u1, Answer206(0, 0));
    AskOne(s, o);
    MixFirst(s, Attempt(0, o, Some(o)));
  }

  /** The bytes that are missing from `o` on arrive one by one; the wrong ones are never read again. */
  lemma {:induction false} FillsUp(s: State, o: nat)
    requires Filling(s) && o <= s.f.size && Bad(s)
    requires forall p :: 0 <= p < o ==> p in s.counted
    ensures CanMix(s)
    decreases s.f.size - o
  {
    if o == s.f.size {
      MixNow(s);
    } else if o in s.counted {
      FillsUp(s, o + 1);
    } else {
      OneMoreKeeps(s, o);
      FillsUp(OneMore(s, o), o + 1);
      FillOne(s, o);
    }
  }

  ghost function Back(s: State): Rep
    requires s.f.ifRange in s.history
  {
    Rep(s.f.ifRange, s.history[s.f.ifRange])
  }

  /** The old representation is served again. */
  lemma ComesBack(s: State)
    requires s.f.ifRange != "" && s.f.ifRange in s.history && CanMix(s.(server := Back(s)))
    ensures CanMix(s)
  {
    assert s.history[s.f.ifRange := s.history[s.f.ifRange]] == s.history;
    assert Next(false, s, Change(Back(s))) == s.(server := Back(s));
    MixFirst(s, Change(Back(s)));
  }

  lemma PinnedMixes(s: State)
    requires s.f.pinned && Coherent(s.f, s.counted, s.history) && !s.f.fallback && s.work == map[]
    requires Bad(s)
    ensures CanMix(s)
  {
    FillsUp(s.(server := Back(s)), 0);
    ComesBack(s);
  }

  /** An idle sequential fetcher that probes for the rest, with the right representation served. */
  ghost predicate Probing(s: State) {
    && CanProbe(s.f) && !s.f.fallback && !s.f.completed && s.work == map[]
    && s.f.ifRange == s.server.validator && s.f.size == |s.server.content|
    && forall o :: o in s.counted <==> 0 <= o < s.f.got
  }

  function Probe(f: Fetch): Req
    requires f.size > 0
  {
    Req(f.got, Some(f.size - 1), true, true, f.ifRange, false)
  }

  function Pinned(f: Fetch): Fetch {
    f.(ranged := true, reprobe := false, pinned := true, unknown := false)
  }

  lemma ProbeIsSent(s: State)
    requires Probing(s)
    ensures Enabled(false, s, Attempt(0, 0, None))
    ensures Next(false, s, Attempt(0, 0, None)) == s.(work := map[0 := Asking(Probe(s.f))])
  {
  }

  lemma ProbeIsAnswered(s: State)
    requires Probing(s)
    ensures var u := s.(work := map[0 := Asking(Probe(s.f))]);
      && Enabled(false, u, Answer206(0, 0))
      && Next(false, u, Answer206(0, 0))
         == s.(f := Pinned(s.f), work := map[0 := Reading(Stream(s.server, s.f.got, false, false, true))])
  {
  }

  lemma RestIsRead(s: State)
    requires Probing(s) && Bad(s)
    ensures var u := s.(f := Pinned(s.f), work := map[0 := Reading(Stream(s.server, s.f.got, false, false, true))]);
      Enabled(false, u, Read(0, s.f.size - s.f.got)) && Mixed(Next(false, u, Read(0, s.f.size - s.f.got)))
  {
    var u := s.(f := Pinned(s.f), work := map[0 := Reading(Stream(s.server, s.f.got, false, false, true))]);
    var v := DoRead(u, 0, s.f.size - s.f.got);
    if !Agree(s.counted, s.file) {
      var o :| o in s.counted
        && !(o in s.file && 0 <= o < |s.counted[o].content| && s.file[o] == s.counted[o].content[o]);
      assert o in v.counted && v.counted[o] == s.counted[o];
    } else {
      var o :| o in s.file && o >= s.f.size;
      assert o in v.file;
    }
  }

  lemma ProbeMixes(s: State)
    requires Probing(s) && Bad(s)
    ensures CanMix(s)
  {
    var u1 := s.(work := map[0 := Asking(Probe(s.f))]);
    var u2 := s.(f := Pinned(s.f), work := map[0 := Reading(Stream(s.server, s.f.got, false, false, true))]);
    RestIsRead(s);
    MixNow(Next(false, u2, Read(0, s.f.size - s.f.got)));
    MixFirst(u2, Read(0, s.f.size - s.f.got));
    ProbeIsAnswered(s);
    MixFirst(u1, Answer206(0, 0));
    ProbeIsSent(s);
    MixFirst(s, Attempt(0, 0, None));
  }

  lemma SequentialMixes(s: State)
    requires CanProbe(s.f) && Coherent(s.f, s.counted, s.history) && !s.f.completed && s.work == map[]
    requires !OtherLength(s.f, s.history) && Bad(s)
    ensures CanMix(s)
  {
    ProbeMixes(s.(server := Back(s)));
    ComesBack(s);
  }

  /** One whole plain download, up to its last byte, leads to a mixture. */
  lemma PlainRoundMixes(s: State)
    requires Plain(s) && Fitting(s) && CanMix(PlainRead(s))
    ensures CanMix(s)
  {
    ReadPlain(false, s);
    MixFirst(PlainAnswered(s), Read(0, |s.server.content|));
    AnswerPlain(false, s);
    MixFirst(PlainAsked(s), Answer200(0, 0, true));
    AskPlain(false, s);
    MixFirst(s, Attempt(0, 0, None));
  }

  /** A representation without a validator. */
  function Zeros(n: nat): Rep {
    Rep("", seq(n, i => 0))
  }

  ghost function Served(s: State, n: nat): State {
    s.(server := Zeros(n))
  }

  lemma ServedMixes(s: State, n: nat)
    requires "" !in s.history && CanMix(Served(s, n))
    ensures CanMix(s)
  {
    assert Next(false, s, Change(Zeros(n))) == Served(s, n);
    MixFirst(s, Change(Zeros(n)));
  }

  /** What has the expected length is taken over a longer file. */
  lemma OverLongerMixes(s: State, n: nat)
    requires Plain(s) && "" !in s.history && n > 0 && (s.f.size == 0 || s.f.size == n) && !Fits(s.file, n)
    ensures CanMix(s)
  {
    var u := Served(s, n);
    var o :| o in s.file && o >= n;
    assert o in PlainEnded(u).file;
    MixNow(PlainEnded(u));
    EndPlain(false, u);
    MixFirst(PlainRead(u), End(0));
    PlainRoundMixes(u);
    ServedMixes(s, n);
  }

  ghost function Dropped(s: State): State {
    s.(work := map[])
  }

  /** Without a known size, a longer representation may come first. */
  lemma NoSizeMixes(s: State)
    requires Plain(s) && "" !in s.history && s.f.size == 0
    ensures CanMix(s)
  {
    var u := Served(s, 2);
    var v := PlainRead(u);
    assert 1 in v.file;
    OverLongerMixes(Dropped(v), 1);
    NobodyLeft(v.work);
    assert Next(false, v, Drop(0, true)) == Dropped(v);
    MixFirst(v, Drop(0, true));
    PlainRoundMixes(u);
    ServedMixes(s, 2);
  }

  lemma PlainMixes(s: State)
    requires Plain(s) && "" !in s.history && (s.f.size == 0 || !Fits(s.file, s.f.size))
    ensures CanMix(s)
  {
    if s.f.size == 0 {
      NoSizeMixes(s);
    } else {
      OverLongerMixes(s, s.f.size);
    }
  }

  /** An attempt that is given up leaves a prefix that cannot be probed forgotten, and the file as it was. */
  lemma UnprobedMixes(s: State)
    requires Coherent(s.f, s.counted, s.history) && "" !in s.history && s.work == map[]
    requires !s.f.ranged && !s.f.completed && !s.f.unknown && HasPrefix(s.f) && !CanProbe(s.f)
    requires !Fits(s.file, s.f.size)
    ensures CanMix(s)
  {
    var u := DoAttempt(s, 0, 0, None);
    NobodyLeft(u.work);
    assert Next(false, u, Drop(0, true)) == Dropped(u);
    PlainMixes(Dropped(u));
    MixFirst(u, Drop(0, true));
    MixFirst(s, Attempt(0, 0, None));
  }

  lemma UnusableMixes(s: State)
    requires RestInv(s) && s.saved.Some? && !Usable(s)
    ensures CanMix(Next(false, s, Crash))
  {
    var r := Next(false, s, Crash);
    if r.f.pinned {
      PinnedMixes(r);
    } else if r.f.completed {
      MixNow(r);
    } else {
      SequentialMixes(r);
    }
  }

  lemma UntrimmedMixes(s: State)
    requires RestInv(s) && s.saved.Some? && !TailOk(s.saved.value.f, s.file, s.history)
    ensures CanMix(Next(false, s, Crash))
  {
    var r := Next(false, s, Crash);
    if r.f.pinned {
      PinnedMixes(r);
    } else if r.f.completed {
      MixNow(r);
    } else if CanProbe(r.f) {
      SequentialMixes(r);
    } else if HasPrefix(r.f) {
      UnprobedMixes(r);
    } else {
      PlainMixes(r);
    }
  }

  lemma SafeNeverMixes(s: State, run: seq<State>, steps: seq<Step>)
    requires RestInv(s) && Neat(s) && Leads(false, s, run, steps) && Quiet(run, steps)
    ensures !Mixed(run[|steps|])
  {
    assert forall j :: 0 <= j < |steps| ==> QuietStep(run[j], steps[j]);
    EveryBasis(s, run, steps);
    RestAlong(s, run, steps, |steps|);
    assert Trimmed(run, steps) by {
      forall j | 0 <= j < |steps| ensures StepTrimmed(run[j], steps[j]) {
        assert QuietStep(run[j], steps[j]);
      }
    }
    NeatAlong(false, s, run, steps, |steps|);
    NotMixed(run[|steps|]);
  }

  /**
   After a run whose earlier restores were usable, a restore can end in a finished download that is
   not, byte for byte and to its end, what was counted, if and only if the restore is not safe.
   */
  lemma RestoreIsSafeIff(run: seq<State>, steps: seq<Step>)
    requires IsRun(false, run, steps) && Enabled(false, run[|steps|], Crash)
    requires forall j :: 0 <= j < |steps| && steps[j].Crash? ==> Usable(run[j])
    ensures CanMix(Next(false, run[|steps|], Crash)) <==> !Safe(run[|steps|])
  {
    var s := run[|steps|];
    StartHolds(run[0]);
    RestAlong(run[0], run, steps, |steps|);
    if !Usable(s) {
      UnusableMixes(s);
    } else if !Safe(s) {
      UntrimmedMixes(s);
    } else if CanMix(Next(false, s, Crash)) {
      var more: seq<State>, later: seq<Step> :| Mixes(Next(false, s, Crash), more, later);
      UsableCrash(s);
      CrashNeat(false, s);
      SafeNeverMixes(Next(false, s, Crash), more, later);
    }
  }

  lemma EmptyTakenMixes(s: State, step: Step)
    requires Basis(s) && Enabled(false, s, step) && EmptyTaken(s, step)
    ensures CanMix(Next(false, s, step))
  {
    assert ItemOk(s, step.c, s.work[step.c]);
    var u := Next(false, s, step);
    Take200StartsOver(s, step.c, s.work[step.c].q, Some(0));
    assert u.f.size == 0 && !u.f.ranged;
    forall d | d in u.work ensures d == 0 {
      if d in s.work {
        assert ItemOk(s, d, s.work[d]);
      }
    }
    NobodyLeft(u.work);
    assert Next(false, u, Drop(0, true)) == Dropped(u);
    PlainMixes(Dropped(u));
    MixFirst(u, Drop(0, true));
  }

  /** Once an empty body is taken the file may end as a mixture, whatever was in it before. */
  lemma EmptyAnswerMixes(run: seq<State>, steps: seq<Step>, k: nat)
    requires IsRun(false, run, steps) && k < |steps| && EmptyTaken(run[k], steps[k])
    requires forall j :: 0 <= j < |steps| && steps[j].Crash? ==> Usable(run[j])
    ensures CanMix(run[k + 1])
  {
    StartHolds(run[0]);
    RestAlong(run[0], run, steps, k);
    EmptyTakenMixes(run[k], steps[k]);
  }

  // ---- Fresh snapshots are safe ----

  /** The file will still end where the snapshot says when it is restored. */
  ghost predicate HeldTail(s: State, saved: Saved) {
    if saved.f.completed then s.f == saved.f && Fits(s.file, saved.f.got)
    else
      || Truncates(saved.f, s.history)
      || (!s.f.unknown && !Unclaimed(s.f) && s.f.size == saved.f.size > 0 && Fits(s.file, s.f.size))
  }

  lemma Answer206Tail(s: State, c: nat, prefetched: nat, saved: Saved)
    requires Basis(s) && HeldTail(s, saved) && Enabled(true, s, Answer206(c, prefetched))
    ensures HeldTail(DoAnswer206(s, c, prefetched), saved)
  {
    assert ItemOk(s, c, s.work[c]);
  }

  lemma ReadTail(s: State, c: nat, n: nat, saved: Saved)
    requires Basis(s) && HeldTail(s, saved) && Enabled(true, s, Read(c, n))
    ensures HeldTail(DoRead(s, c, n), saved)
  {
    assert ItemOk(s, c, s.work[c]);
  }

  lemma EndTail(s: State, c: nat, saved: Saved)
    requires Basis(s) && HeldTail(s, saved) && Enabled(true, s, End(c))
    ensures HeldTail(DoEnd(s, c), saved)
  {
    assert ItemOk(s, c, s.work[c]);
  }

  lemma TailStep(s: State, step: Step, saved: Saved)
    requires Basis(s) && HeldTail(s, saved) && Enabled(false, s, step)
    requires Coherent(saved.f, saved.counted, s.history)
    requires !step.Answer200? && !step.Store? && !step.Crash?
    ensures HeldTail(Next(false, s, step), saved)
  {
    match step
    case Answer206(c, prefetched) => Answer206Tail(s, c, prefetched, saved);
    case Read(c, n) => ReadTail(s, c, n, saved);
    case End(c) => EndTail(s, c, saved);
    case ResolveWins(c) => assert ItemOk(s, c, s.work[c]);
    case Change(rep) => HistoryGrows(s, rep, saved.f, saved.counted);
    case _ =>
  }

  lemma StoreTail(s: State)
    requires Neat(s)
    ensures HeldTail(Next(false, s, Store), Saved(s.f, s.counted))
  {
  }

  lemma CrashTail(s: State)
    requires RestInv(s) && s.saved.Some? && HeldTail(s, s.saved.value)
    ensures TailOk(s.saved.value.f, s.file, s.history)
    ensures HeldTail(Next(false, s, Crash), s.saved.value)
  {
  }

  lemma TailAlong(s: State, step: Step)
    requires RestInv(s) && Enabled(false, s, step) && !step.Answer200? && !step.Store? && !step.Crash?
    requires s.saved.Some? ==> HeldTail(s, s.saved.value)
    ensures Next(false, s, step).saved == s.saved
    ensures s.saved.Some? ==> HeldTail(Next(false, s, step), s.saved.value)
  {
    if s.saved.Some? {
      TailStep(s, step, s.saved.value);
    }
  }

  /** One step of a run that answers no 200 between a Store and the Crash that restores it. */
  ghost predicate TailKept(s: State, next: State, step: Step) {
    && Neat(next)
    && (!step.Crash? && !step.Store? ==> next.saved == s.saved)
    && (step.Store? || (!step.Answer200? && (s.saved.Some? ==> HeldTail(s, s.saved.value))) ==>
          next.saved.Some? ==> HeldTail(next, next.saved.value))
  }

  lemma TailNext(s: State, step: Step)
    requires RestInv(s) && Neat(s) && Enabled(false, s, step) && !EmptyTaken(s, step)
    requires step.Crash? ==> HeldTail(s, s.saved.value)
    ensures TailKept(s, Next(false, s, step), step)
  {
    if step.Crash? {
      CrashTail(s);
      CrashNeat(false, s);
    } else {
      StepNeat(false, s, step);
      if step.Store? {
        StoreTail(s);
      } else if !step.Answer200? && (s.saved.Some? ==> HeldTail(s, s.saved.value)) {
        TailAlong(s, step);
      }
    }
  }

  lemma {:induction false} FreshTail(run: seq<State>, steps: seq<Step>, k: nat)
    requires IsRun(false, run, steps) && k < |run| && Fresh(steps)
    requires forall j :: 0 <= j < |steps| ==> !EmptyTaken(run[j], steps[j])
    ensures Neat(run[k])
    ensures NoneRestarted(steps, k) && run[k].saved.Some? ==> HeldTail(run[k], run[k].saved.value)
  {
    if k == 0 {
      StartIsNeat(run[0]);
    } else {
      FreshTail(run, steps, k - 1);
      FreshRun(run, steps, k - 1);
      TailNext(run[k - 1], steps[k - 1]);
      if NoneRestarted(steps, k) && !steps[k - 1].Store? {
        assert NoneRestarted(steps, k - 1);
      }
    }
  }

  /**
   A run that restores only fresh snapshots, and takes no empty body, restores safely every time and
   never finishes with anything but what was counted, whatever the server does with its validators.
   */
  lemma FreshFinishes(run: seq<State>, steps: seq<Step>, k: nat)
    requires IsRun(false, run, steps) && k < |run| && Fresh(steps)
    requires forall j :: 0 <= j < |steps| ==> !EmptyTaken(run[j], steps[j])
    ensures !Mixed(run[k])
    ensures k < |steps| && steps[k].Crash? ==> Safe(run[k])
  {
    FreshRun(run, steps, k);
    FreshTail(run, steps, k);
    NotMixed(run[k]);
    if k < |steps| && steps[k].Crash? {
      CrashTail(run[k]);
    }
  }
}
