/**
 Bytes behind the end: whether a finished download can leave in the file what an earlier, longer
 representation wrote there. A 200 that restarts truncates the file, one that does not, and a
 206, leave it alone.
 */
module ValidatorExtents {
  import opened Base
  import opened Validators
  import opened ValidatorProofs

  /** Nothing is appended and counted before a restart has truncated the file. */
  predicate Truncates(f: Fetch, history: map<string, seq<Byte>>) {
    Unclaimed(f) || f.unknown || OtherLength(f, history)
  }

  /** The guard of a restore: the file ends where the restored fetcher thinks, or will be truncated. */
  ghost predicate TailOk(f: Fetch, file: map<int, Byte>, history: map<string, seq<Byte>>) {
    if f.completed then Fits(file, f.got)
    else Truncates(f, history) || (f.size > 0 && Fits(file, f.size))
  }

  /** The same for a fetcher at work. */
  ghost predicate Neat(s: State) {
    && (s.f.fallback ==> Fits(s.file, s.f.size))
    && if s.f.completed then Fits(s.file, s.f.got)
       else || Unclaimed(s.f) || s.f.unknown
            || (OtherLength(s.f, s.history) && AllAsking(s.work))
            || (s.f.size > 0 && Fits(s.file, s.f.size))
  }

  /** An accepted 200 announces an empty body, after which the size reads as not known. */
  ghost predicate EmptyTaken(s: State, step: Step) {
    && step.Answer200? && step.sized && s.server.content == []
    && step.c in s.work && s.work[step.c].Asking?
    && Take200(s.f, step.c, s.work[step.c].q, s.server.validator, Some(0)).Accept?
  }

  // ---- Every step ----

  lemma AttemptNeat(s: State, c: nat, start: nat, asked: Option<nat>)
    requires Basis(s) && Neat(s) && Enabled(true, s, Attempt(c, start, asked))
    ensures Neat(DoAttempt(s, c, start, asked))
  {
  }

  /** What a 206 is accepted for ends where the resource does. */
  lemma Answer206Neat(s: State, c: nat, prefetched: nat)
    requires Basis(s) && Neat(s) && Enabled(true, s, Answer206(c, prefetched))
    ensures Neat(DoAnswer206(s, c, prefetched))
  {
    assert ItemOk(s, c, s.work[c]);
    var q := s.work[c].q;
    var total := |s.server.content|;
    Take206Guards(s, c, q, q.start, if q.asked.Some? && q.asked.value < total then q.asked.value else total - 1,
                  total, prefetched);
  }

  lemma RestartedNeat(s: State, c: nat, prefetched: nat, sized: bool)
    requires Basis(s) && Neat(s) && Enabled(true, s, Answer200(c, prefetched, sized))
    requires !EmptyTaken(s, Answer200(c, prefetched, sized)) && (s.work[c].q.ranged || s.work[c].q.restart)
    requires Take200(s.f, c, s.work[c].q, s.server.validator, if sized then Some(|s.server.content|) else None).Accept?
    ensures Neat(DoAnswer200(s, c, prefetched, sized))
  {
    assert ItemOk(s, c, s.work[c]);
    Take200StartsOver(s, c, s.work[c].q, if sized then Some(|s.server.content|) else None);
  }

  /** A 200 that does not restart must have the length of the file. */
  lemma NotRestartedNeat(s: State, c: nat, prefetched: nat, sized: bool)
    requires Basis(s) && Neat(s) && Enabled(true, s, Answer200(c, prefetched, sized))
    requires !s.work[c].q.ranged && !s.work[c].q.restart
    ensures Neat(DoAnswer200(s, c, prefetched, sized))
  {
    assert ItemOk(s, c, s.work[c]);
    Take200StartsOver(s, c, s.work[c].q, if sized then Some(|s.server.content|) else None);
  }

  lemma RefusedNeat(s: State, c: nat, prefetched: nat, sized: bool)
    requires Basis(s) && Neat(s) && Enabled(true, s, Answer200(c, prefetched, sized))
    requires s.work[c].q.ranged || s.work[c].q.restart
    requires Take200(s.f, c, s.work[c].q, s.server.validator, if sized then Some(|s.server.content|) else None).Refuse?
    ensures Neat(DoAnswer200(s, c, prefetched, sized))
  {
    assert ItemOk(s, c, s.work[c]);
    Take200StartsOver(s, c, s.work[c].q, if sized then Some(|s.server.content|) else None);
  }

  lemma Answer200Neat(s: State, c: nat, prefetched: nat, sized: bool)
    requires Basis(s) && Neat(s) && Enabled(true, s, Answer200(c, prefetched, sized))
    requires !EmptyTaken(s, Answer200(c, prefetched, sized))
    ensures Neat(DoAnswer200(s, c, prefetched, sized))
  {
    if !s.work[c].q.ranged && !s.work[c].q.restart {
      NotRestartedNeat(s, c, prefetched, sized);
    } else if Take200(s.f, c, s.work[c].q, s.server.validator,
                      if sized then Some(|s.server.content|) else None).Accept? {
      RestartedNeat(s, c, prefetched, sized);
    } else {
      RefusedNeat(s, c, prefetched, sized);
    }
  }

  lemma ReadNeat(s: State, c: nat, n: nat)
    requires Basis(s) && Neat(s) && Enabled(true, s, Read(c, n))
    ensures Neat(DoRead(s, c, n))
  {
    assert ItemOk(s, c, s.work[c]);
  }

  lemma EndNeat(s: State, c: nat)
    requires Basis(s) && Neat(s) && Enabled(true, s, End(c))
    ensures Neat(DoEnd(s, c))
  {
    assert ItemOk(s, c, s.work[c]);
  }

  lemma ChangeNeat(strict: bool, s: State, rep: Rep)
    requires Basis(s) && Neat(s) && Enabled(strict, s, Change(rep))
    ensures Neat(Next(strict, s, Change(rep)))
  {
  }

  lemma WorkNeat(s: State, step: Step)
    requires Basis(s) && Neat(s) && Enabled(true, s, step) && !EmptyTaken(s, step)
    requires step.Attempt? || step.Answer206? || step.Answer200? || step.Read? || step.End?
    ensures Neat(Next(true, s, step))
  {
    match step
    case Attempt(c, start, asked) => AttemptNeat(s, c, start, asked);
    case Answer206(c, prefetched) => Answer206Neat(s, c, prefetched);
    case Answer200(c, prefetched, sized) => Answer200Neat(s, c, prefetched, sized);
    case Read(c, n) => ReadNeat(s, c, n);
    case End(c) => EndNeat(s, c);
  }

  lemma StepNeat(strict: bool, s: State, step: Step)
    requires Basis(s) && Neat(s) && Enabled(strict, s, step) && !step.Crash? && !EmptyTaken(s, step)
    ensures Neat(Next(strict, s, step))
  {
    match step
    case Change(rep) => ChangeNeat(strict, s, rep);
    case Drop(_, _) =>
    case ResolveWins(_) =>
    case Pause(_) =>
    case Expand =>
    case Store =>
    case _ => WorkNeat(s, step);
  }

  // ---- Runs ----

  /** Every restore of the run meets its guard, and no accepted 200 announces an empty body. */
  ghost predicate Trimmed(run: seq<State>, steps: seq<Step>)
    requires |run| == |steps| + 1
  {
    forall j :: 0 <= j < |steps| ==> StepTrimmed(run[j], steps[j])
  }

  ghost predicate StepTrimmed(s: State, step: Step) {
    && !EmptyTaken(s, step)
    && (step.Crash? && s.saved.Some? ==> TailOk(s.saved.value.f, s.file, s.history))
  }

  lemma CrashNeat(strict: bool, s: State)
    requires Enabled(strict, s, Crash) && TailOk(s.saved.value.f, s.file, s.history)
    ensures Neat(Next(strict, s, Crash))
  {
  }

  lemma {:induction false} NeatAlong(strict: bool, s: State, run: seq<State>, steps: seq<Step>, k: nat)
    requires Leads(strict, s, run, steps) && Neat(s) && k < |run| && Trimmed(run, steps)
    requires forall j :: 0 <= j < |run| ==> Basis(run[j])
    ensures Neat(run[k])
  {
    if k > 0 {
      NeatAlong(strict, s, run, steps, k - 1);
      assert StepTrimmed(run[k - 1], steps[k - 1]);
      if steps[k - 1].Crash? {
        CrashNeat(strict, run[k - 1]);
      } else {
        StepNeat(strict, run[k - 1], steps[k - 1]);
      }
    }
  }

  lemma StartIsNeat(s: State)
    requires Start(s)
    ensures Neat(s)
  {
  }

  /** A finished fetcher has nothing behind its end. */
  lemma NeatFits(s: State)
    requires Neat(s) && Coherent(s.f, s.counted, s.history)
    ensures s.f.completed ==> Fits(s.file, s.f.got)
    ensures s.f.pinned ==> Fits(s.file, s.f.size)
  {
  }

  // ---- A download from byte 0 over what is in the file ----

  /** An idle sequential fetcher whose next request is a plain one for everything. */
  predicate Plain(s: State) {
    && !s.f.ranged && s.f.reprobe && !s.f.pinned && !s.f.unknown && !s.f.fallback && !s.f.completed
    && s.f.conns == 1 && !HasPrefix(s.f) && s.work == map[]
  }

  /** The served representation has a length the fetcher does not object to. */
  predicate Fitting(s: State) {
    s.server.content != [] && (s.f.size == 0 || s.f.size == |s.server.content|)
  }

  function PlainAsked(s: State): State {
    s.(f := s.f.(got := 0), counted := map[], work := map[0 := Asking(Req(0, None, false, false, "", false))])
  }

  function PlainAnswered(s: State): State {
    s.(f := s.f.(got := 0, ifRange := s.server.validator), counted := map[],
       work := map[0 := Reading(Stream(s.server, 0, true, false, true))])
  }

  /** The whole representation has been read; what was in the file behind it still is. */
  function PlainRead(s: State): State {
    var n := |s.server.content|;
    s.(f := s.f.(got := n, ifRange := s.server.validator), counted := Counts(s.server, 0, n),
       file := s.file + Bytes(s.server, 0, n), work := map[0 := Reading(Stream(s.server, n, true, false, true))])
  }

  function PlainEnded(s: State): State {
    var u := PlainRead(s);
    u.(f := u.f.(completed := true), work := map[])
  }

  lemma AskPlain(strict: bool, s: State)
    requires Plain(s)
    ensures Enabled(strict, s, Attempt(0, 0, None)) && Next(strict, s, Attempt(0, 0, None)) == PlainAsked(s)
  {
  }

  lemma AnswerPlain(strict: bool, s: State)
    requires Plain(s) && Fitting(s)
    ensures Enabled(strict, PlainAsked(s), Answer200(0, 0, true)) && !EmptyTaken(PlainAsked(s), Answer200(0, 0, true))
    ensures Next(strict, PlainAsked(s), Answer200(0, 0, true)) == PlainAnswered(s)
  {
  }

  lemma OnlyItem(v: Work, w: Work)
    ensures map[0 as nat := v][0 := w] == map[0 := w] && Without(map[0 := v], 0) == map[]
  {
  }

  lemma ReadPlain(strict: bool, s: State)
    requires Plain(s) && Fitting(s)
    ensures Enabled(strict, PlainAnswered(s), Read(0, |s.server.content|))
    ensures Next(strict, PlainAnswered(s), Read(0, |s.server.content|)) == PlainRead(s)
  {
    var n := |s.server.content|;
    OnlyItem(Reading(Stream(s.server, 0, true, false, true)), Reading(Stream(s.server, n, true, false, true)));
    assert map[] + Counts(s.server, 0, n) == Counts(s.server, 0, n);
  }

  lemma EndPlain(strict: bool, s: State)
    requires Plain(s) && Fitting(s)
    ensures Enabled(strict, PlainRead(s), End(0)) && Next(strict, PlainRead(s), End(0)) == PlainEnded(s)
  {
    OnlyItem(PlainRead(s).work[0], PlainRead(s).work[0]);
  }
}
