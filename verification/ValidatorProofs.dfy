/** Bytes counted under a validator, or in a sequential prefix, come from one representation. */
module ValidatorProofs {
  import opened Base
  import opened Validators

  // ---- The invariant ----

  /** What the fetcher's own fields say about the bytes it counts. */
  ghost predicate Coherent(f: Fetch, counted: map<int, Rep>, history: map<string, seq<Byte>>) {
    && f.conns >= 1
    && (f.ifRange != "" ==> f.ifRange in history)
    && (f.unknown ==> f.ifRange == "")
    && (f.pinned ==> f.ranged && f.ifRange != "" && f.size > 0 && |history[f.ifRange]| == f.size)
    && (f.ranged && f.size == 0 ==> f.conns == 1)
    && (f.ranged ==> !f.reprobe && !f.unknown && !f.completed)
    && (!f.ranged ==> f.conns == 1 && (f.reprobe || f.completed) && !f.fallback)
    && (f.fallback ==> !f.pinned && counted == map[] && f.conns == 1)
    && (!f.ranged ==> forall o :: o in counted <==> 0 <= o < f.got)
    && (forall o :: o in counted ==> 0 <= o < |counted[o].content| && Genuine(history, counted[o]))
    && (f.pinned || !f.ranged ==> f.ifRange != "" ==> forall o :: o in counted ==> counted[o].validator == f.ifRange)
    && (!f.ranged ==> forall o :: o in counted ==> 0 in counted && counted[o] == counted[0])
    && (f.completed ==> (f.size > 0 ==> f.got == f.size) && forall o :: o in counted ==> |counted[o].content| == f.got)
  }

  ghost predicate Agree(counted: map<int, Rep>, file: map<int, Byte>) {
    forall o :: o in counted ==> o in file && 0 <= o < |counted[o].content| && file[o] == counted[o].content[o]
  }

  /** The next attempt is guarded by a validator the server has given up. */
  ghost predicate Stale(f: Fetch, counted: map<int, Rep>, server: Rep) {
    && f.ifRange != "" && f.ifRange != server.validator
    && ((f.pinned && !Full(f, counted)) || CanProbe(f))
  }

  /** The next attempt starts over at byte 0. */
  predicate Restarts(f: Fetch) {
    !f.ranged && !f.completed && !CanProbe(f)
  }

  /** The validator stands for a content of another length, so no range of it is ever accepted. */
  predicate OtherLength(f: Fetch, history: map<string, seq<Byte>>) {
    CanProbe(f) && f.ifRange in history && |history[f.ifRange]| != f.size
  }

  /** Before the first validator is pinned, parallel ranges are not guarded at all. */
  predicate Unclaimed(f: Fetch) {
    f.ranged && !f.pinned
  }

  ghost predicate AskingOk(s: State, c: nat, q: Req) {
    && c < s.f.conns && !s.f.completed
    && (s.f.ranged ==>
          && q.ranged && !q.probe && !q.restart
          && (s.f.pinned || s.f.fallback ==> q.guard == s.f.ifRange)
          && (s.f.conns == 1 ==> q.start !in s.counted)
          && (s.f.size > 0 ==> q.start < s.f.size && q.asked.Some?)
          && (q.asked.Some? ==> s.f.size > 0))
    && (!s.f.ranged ==>
          && (q.ranged <==> q.probe)
          && (q.probe ==> CanProbe(s.f) && q.guard == s.f.ifRange && q.start == s.f.got)
          && (!q.probe ==> s.f.got == 0 && (s.f.unknown ==> q.restart) && (q.restart ==> s.f.ifRange == "")))
  }

  ghost predicate ReadingOk(s: State, c: nat, st: Stream) {
    && c < s.f.conns && !s.f.completed
    && Genuine(s.history, st.rep) && st.pos <= |st.rep.content|
    && (s.f.ranged ==> !st.sequential && !s.f.fallback && (s.f.pinned ==> st.rep.validator == s.f.ifRange))
    && (!s.f.ranged ==>
          && st.sequential && st.pos == s.f.got
          && (forall o :: o in s.counted ==> s.counted[o] == st.rep)
          && (s.f.unknown <==> st.restart && !st.sized)
          && (st.restart && st.sized ==> s.f.size == |st.rep.content|)
          && s.f.ifRange == if s.f.unknown then "" else st.rep.validator)
  }

  ghost predicate ItemOk(s: State, c: nat, w: Work) {
    match w
    case Asking(q) => AskingOk(s, c, q)
    case Reading(st) => ReadingOk(s, c, st)
  }

  ghost predicate WorkOk(s: State) {
    forall c :: c in s.work ==> ItemOk(s, c, s.work[c])
  }

  ghost predicate AllAsking(work: map<nat, Work>) {
    forall c :: c in work ==> work[c].Asking?
  }

  ghost predicate Trust(s: State) {
    || Agree(s.counted, s.file)
    || Unclaimed(s.f)
    || ((Stale(s.f, s.counted, s.server) || OtherLength(s.f, s.history)) && AllAsking(s.work))
    || (Restarts(s.f) && s.work == map[])
  }

  predicate Claims(f: Fetch) {
    f.pinned || CanProbe(f)
  }

  /** The bytes of a snapshot are on disk, or they are given up before one is appended. */
  ghost predicate SavedBytes(s: State, saved: Saved) {
    || Unclaimed(saved.f) || Restarts(saved.f) || Agree(saved.counted, s.file)
    || Stale(saved.f, saved.counted, s.server) || OtherLength(saved.f, s.history)
  }

  /** While the server still serves what the snapshot claims, so does the live fetcher. */
  ghost predicate SavedGuard(s: State, saved: Saved) {
    Claims(saved.f) && saved.f.ifRange == s.server.validator ==>
      s.f.ifRange == saved.f.ifRange && !s.f.unknown && !s.f.fallback && (s.f.ranged ==> s.f.pinned)
  }

  ghost predicate SavedFull(s: State, saved: Saved) {
    saved.f.pinned && Full(saved.f, saved.counted) ==>
      && s.f.pinned && s.f.ifRange == saved.f.ifRange && s.f.size == saved.f.size
      && (forall o :: o in saved.counted ==> o in s.counted && s.counted[o] == saved.counted[o])
      && Agree(s.counted, s.file)
  }

  ghost predicate SavedDone(s: State, saved: Saved) {
    saved.f.completed ==> s.f == saved.f && s.counted == saved.counted && Agree(s.counted, s.file)
  }

  /** What a snapshot is worth after the run went on without it. */
  ghost predicate SavedOk(s: State, saved: Saved) {
    && Coherent(saved.f, saved.counted, s.history)
    && SavedBytes(s, saved) && SavedGuard(s, saved) && SavedFull(s, saved) && SavedDone(s, saved)
    && (Unclaimed(s.f) ==> Unclaimed(saved.f))
  }

  /** The invariant without what it says of the snapshot. */
  ghost predicate Basis(s: State) {
    && "" !in s.history
    && Genuine(s.history, s.server) && Genuine(s.history, s.resolved)
    && (s.f.fallback ==> s.f.ifRange == s.resolved.validator)
    && Coherent(s.f, s.counted, s.history)
    && WorkOk(s)
    && Trust(s)
  }

  ghost predicate Inv(s: State) {
    Basis(s) && (s.saved.Some? ==> SavedOk(s, s.saved.value))
  }

  lemma StartHolds(s: State)
    requires Start(s)
    ensures Inv(s)
  {
  }

  /** The part of `Inv` about the live fetcher. */
  ghost predicate Live(s: State) {
    Coherent(s.f, s.counted, s.history) && WorkOk(s) && Trust(s)
  }

  lemma AttemptCoherent(s: State, c: nat, start: nat, asked: Option<nat>)
    requires Basis(s) && Enabled(true, s, Attempt(c, start, asked))
    ensures Coherent(DoAttempt(s, c, start, asked).f, DoAttempt(s, c, start, asked).counted, s.history)
    ensures Trust(DoAttempt(s, c, start, asked))
  {
  }

  lemma AttemptWork(s: State, c: nat, start: nat, asked: Option<nat>)
    requires Basis(s) && Enabled(true, s, Attempt(c, start, asked))
    ensures WorkOk(DoAttempt(s, c, start, asked))
  {
    var s' := DoAttempt(s, c, start, asked);
    forall d | d in s'.work ensures ItemOk(s', d, s'.work[d]) {
      if d != c {
        assert ItemOk(s, d, s.work[d]);
      }
    }
  }

  lemma AttemptKeeps(s: State, c: nat, start: nat, asked: Option<nat>)
    requires Basis(s) && Enabled(true, s, Attempt(c, start, asked))
    ensures Basis(DoAttempt(s, c, start, asked))
  {
    AttemptCoherent(s, c, start, asked);
    AttemptWork(s, c, start, asked);
  }

  lemma DropKeeps(s: State, c: nat, keep: bool)
    requires Basis(s) && Enabled(true, s, Drop(c, keep))
    ensures Basis(Next(true, s, Drop(c, keep)))
  {
    var s' := Next(true, s, Drop(c, keep));
    forall d | d in s'.work ensures ItemOk(s', d, s'.work[d]) {
      assert ItemOk(s, d, s.work[d]);
    }
  }

  /** The Resolve stream is of one representation, and while it lives nothing else was counted. */
  lemma ResolveWinsKeeps(s: State, c: nat)
    requires Basis(s) && Enabled(true, s, ResolveWins(c))
    ensures Basis(DoResolveWins(s, c)) && Agree(DoResolveWins(s, c).counted, DoResolveWins(s, c).file)
  {
    forall d | d in s.work ensures d == 0 {
      assert ItemOk(s, d, s.work[d]);
    }
    assert DoResolveWins(s, c).work == map[];
  }

  lemma PauseKeeps(s: State, prefetched: nat)
    requires Basis(s) && Enabled(true, s, Pause(prefetched))
    ensures Basis(DoPause(s, prefetched))
  {
  }

  lemma ExpandKeeps(s: State)
    requires Basis(s) && Enabled(true, s, Expand)
    ensures Basis(Next(true, s, Expand))
  {
  }

  lemma GenuineGrows(f: Fetch, counted: map<int, Rep>, history: map<string, seq<Byte>>, rep: Rep)
    requires Coherent(f, counted, history) && rep.validator !in history
    ensures Coherent(f, counted, history[rep.validator := rep.content])
  {
  }

  lemma ChangeWork(s: State, rep: Rep)
    requires WorkOk(s) && Enabled(true, s, Change(rep))
    ensures WorkOk(Next(true, s, Change(rep)))
  {
    var s' := Next(true, s, Change(rep));
    forall c | c in s'.work ensures ItemOk(s', c, s'.work[c]) {
      assert ItemOk(s, c, s.work[c]);
    }
  }

  lemma ChangeCoherent(s: State, rep: Rep, f: Fetch, counted: map<int, Rep>)
    requires Coherent(f, counted, s.history) && Enabled(true, s, Change(rep))
    ensures Coherent(f, counted, Next(true, s, Change(rep)).history)
    ensures OtherLength(f, s.history) ==> OtherLength(f, Next(true, s, Change(rep)).history)
  {
    if rep.validator != "" {
      GenuineGrows(f, counted, s.history, rep);
    }
  }

  /** A validator that was replaced does not come back, so what was stale stays stale. */
  lemma ChangeTrust(s: State, rep: Rep)
    requires Trust(s) && Coherent(s.f, s.counted, s.history) && Enabled(true, s, Change(rep))
    ensures Trust(Next(true, s, Change(rep)))
  {
    ChangeCoherent(s, rep, s.f, s.counted);
  }

  lemma ChangeSaved(s: State, rep: Rep, saved: Saved)
    requires SavedOk(s, saved) && "" !in s.history && Enabled(true, s, Change(rep))
    ensures SavedOk(Next(true, s, Change(rep)), saved)
  {
    ChangeCoherent(s, rep, saved.f, saved.counted);
  }

  lemma ChangeKeeps(s: State, rep: Rep)
    requires Inv(s) && Enabled(true, s, Change(rep))
    ensures Inv(Next(true, s, Change(rep)))
  {
    ChangeWork(s, rep);
    ChangeCoherent(s, rep, s.f, s.counted);
    ChangeTrust(s, rep);
    if s.saved.Some? {
      ChangeSaved(s, rep, s.saved.value);
    }
  }

  lemma StoreKeeps(s: State)
    requires Inv(s)
    ensures Inv(Next(true, s, Store))
  {
  }

  lemma CrashKeeps(s: State)
    requires Inv(s) && Enabled(true, s, Crash)
    ensures Inv(Next(true, s, Crash))
  {
  }

  // ---- Answers ----

  lemma OnlyWorker(s: State, c: nat)
    requires WorkOk(s) && s.f.conns == 1 && c in s.work
    ensures s.work == map[0 := s.work[c]] && c == 0
  {
    forall d | d in s.work ensures d == 0 {
      assert ItemOk(s, d, s.work[d]);
    }
  }

  lemma Take206Guards(s: State, c: nat, q: Req, start: nat, end: nat, total: nat, prefetched: nat)
    requires Basis(s) && AskingOk(s, c, q) && q.ranged && start == q.start && total > 0
    requires q.guard == "" || q.guard == s.server.validator
    ensures var v := Take206(s.f, c, q, start, end, total, prefetched);
      && (v.Accept? ==>
            && v.f.ranged && !v.f.reprobe && !v.f.unknown && !v.f.completed && !v.f.fallback
            && v.f.conns == s.f.conns && v.f.ifRange == s.f.ifRange && v.f.size == total
            && (v.f.pinned <==> s.f.pinned || q.probe || (s.f.fallback && s.f.ifRange != ""))
            && (v.f.pinned ==> v.f.ifRange == s.server.validator != "")
            && (s.f.size > 0 ==> v.f.size == s.f.size))
      && (v.Refuse? ==>
            v.f.(fallback := s.f.fallback, size := s.f.size) == s.f
            && (v.f.fallback ==> s.f.fallback)
            && (v.f.size != s.f.size ==> s.f.ranged && s.f.size == 0 && v.f.size > 0))
  {
  }

  lemma WithoutKeeps(s: State, c: nat)
    requires Live(s) && c in s.work
    ensures Live(s.(work := Without(s.work, c)))
  {
    var s' := s.(work := Without(s.work, c));
    forall d | d in s'.work ensures ItemOk(s', d, s'.work[d]) {
      assert ItemOk(s, d, s.work[d]);
    }
  }

  /** The last byte a 206 covers, and the verdict on it. */
  function Verdict206(s: State, c: nat, q: Req, prefetched: nat): Verdict
    requires s.server.content != []
  {
    var total := |s.server.content|;
    Take206(s.f, c, q, q.start, if q.asked.Some? && q.asked.value < total then q.asked.value else total - 1,
            total, prefetched)
  }

  /** A guarded range comes from the representation the counted bytes belong to. */
  lemma GuardMeansAgree(s: State, c: nat)
    requires Trust(s) && Coherent(s.f, s.counted, s.history) && Genuine(s.history, s.server)
    requires s.f.pinned || (CanProbe(s.f) && c in s.work && |s.server.content| == s.f.size)
    requires s.f.ifRange == s.server.validator
    ensures Agree(s.counted, s.file)
  {
  }

  lemma Crowd206(s: State, c: nat, prefetched: nat)
    requires Basis(s) && Enabled(true, s, Answer206(c, prefetched)) && s.f.conns > 1
    ensures Live(DoAnswer206(s, c, prefetched))
  {
    assert ItemOk(s, c, s.work[c]);
    var q := s.work[c].q;
    var s' := DoAnswer206(s, c, prefetched);
    if Verdict206(s, c, q, prefetched).Refuse? {
      assert s' == s.(work := Without(s.work, c));
      WithoutKeeps(s, c);
    } else {
      assert s' == s.(work := s.work[c := Reading(Stream(s.server, q.start, false, false, true))]);
      if s.f.pinned {
        GuardMeansAgree(s, c);
      }
      forall d | d in s'.work ensures ItemOk(s', d, s'.work[d]) {
        assert d in s.work && ItemOk(s, d, s.work[d]);
      }
    }
  }

  lemma Refused206(s: State, c: nat, prefetched: nat)
    requires Basis(s) && Enabled(true, s, Answer206(c, prefetched)) && c == 0 && s.work == map[0 := s.work[0]]
    requires Verdict206(s, c, s.work[c].q, prefetched).Refuse? && s.f.conns == 1
    ensures Live(DoAnswer206(s, c, prefetched))
  {
    assert ItemOk(s, c, s.work[c]);
    assert DoAnswer206(s, c, prefetched).work == map[];
  }

  lemma Landed206(s: State, c: nat, prefetched: nat) returns (st: Stream)
    requires Enabled(true, s, Answer206(c, prefetched)) && c == 0 && s.work == map[0 := s.work[0]]
    requires Verdict206(s, c, s.work[c].q, prefetched).Accept?
    ensures DoAnswer206(s, c, prefetched).work == map[0 := Reading(st)]
    ensures st == DoAnswer206(s, c, prefetched).work[0].st
  {
    st := DoAnswer206(s, c, prefetched).work[0].st;
  }

  lemma Accepted206Trust(s: State, c: nat, prefetched: nat)
    requires Basis(s) && Enabled(true, s, Answer206(c, prefetched)) && AskingOk(s, c, s.work[c].q)
    requires Verdict206(s, c, s.work[c].q, prefetched).Accept? && s.f.conns == 1 && c == 0
    ensures Trust(DoAnswer206(s, c, prefetched))
  {
    var q := s.work[c].q;
    var total := |s.server.content|;
    Take206Guards(s, c, q, q.start, if q.asked.Some? && q.asked.value < total then q.asked.value else total - 1,
                  total, prefetched);
    if s.f.pinned || q.probe {
      GuardMeansAgree(s, c);
    }
  }

  lemma Accepted206Live(s: State, c: nat, prefetched: nat)
    requires Basis(s) && Enabled(true, s, Answer206(c, prefetched)) && AskingOk(s, c, s.work[c].q)
    requires Verdict206(s, c, s.work[c].q, prefetched).Accept? && s.f.conns == 1 && c == 0
    requires s.work == map[0 := s.work[0]]
    ensures Coherent(DoAnswer206(s, c, prefetched).f, DoAnswer206(s, c, prefetched).counted, s.history)
    ensures WorkOk(DoAnswer206(s, c, prefetched))
  {
    var q := s.work[c].q;
    var total := |s.server.content|;
    Take206Guards(s, c, q, q.start, if q.asked.Some? && q.asked.value < total then q.asked.value else total - 1,
                  total, prefetched);
    var st := Landed206(s, c, prefetched);
  }

  lemma Accepted206(s: State, c: nat, prefetched: nat)
    requires Basis(s) && Enabled(true, s, Answer206(c, prefetched)) && c == 0 && s.work == map[0 := s.work[0]]
    requires Verdict206(s, c, s.work[c].q, prefetched).Accept? && s.f.conns == 1
    ensures Live(DoAnswer206(s, c, prefetched))
  {
    assert ItemOk(s, c, s.work[c]);
    Accepted206Trust(s, c, prefetched);
    Accepted206Live(s, c, prefetched);
  }

  /** A range answer is taken only from the representation the prefix belongs to. */
  lemma Answer206Live(s: State, c: nat, prefetched: nat)
    requires Basis(s) && Enabled(true, s, Answer206(c, prefetched))
    ensures Live(DoAnswer206(s, c, prefetched))
  {
    if s.f.conns > 1 {
      Crowd206(s, c, prefetched);
    } else {
      OnlyWorker(s, c);
      if Verdict206(s, c, s.work[c].q, prefetched).Accept? {
        Accepted206(s, c, prefetched);
      } else {
        Refused206(s, c, prefetched);
      }
    }
  }

  lemma Answer206Saved(s: State, c: nat, prefetched: nat, saved: Saved)
    requires Inv(s) && Enabled(true, s, Answer206(c, prefetched)) && s.saved == Some(saved)
    ensures SavedOk(DoAnswer206(s, c, prefetched), saved)
  {
    assert ItemOk(s, c, s.work[c]);
  }

  lemma Answer206Keeps(s: State, c: nat, prefetched: nat)
    requires Basis(s) && Enabled(true, s, Answer206(c, prefetched))
    ensures Basis(DoAnswer206(s, c, prefetched))
  {
    assert ItemOk(s, c, s.work[c]);
    Answer206Live(s, c, prefetched);
  }

  /** While a single connection asks for a byte, no snapshot of a pinned download was complete. */
  lemma AskingMeansMissing(s: State, saved: Saved, c: nat)
    requires Inv(s) && s.saved == Some(saved) && saved.f.pinned
    requires c in s.work && s.work[c].Asking? && s.f.conns == 1
    ensures !Full(saved.f, saved.counted)
  {
    assert ItemOk(s, c, s.work[c]);
  }

  /**
   A 200 that is accepted always starts over: no byte stays counted, the fetcher is sequential,
   and its validator is the new one (or none while the length is not known).
   */
  lemma Take200StartsOver(s: State, c: nat, q: Req, length: Option<nat>)
    requires Coherent(s.f, s.counted, s.history) && AskingOk(s, c, q)
    ensures var v := Take200(s.f, c, q, s.server.validator, length);
      && (v.Accept? ==>
            && !v.f.ranged && v.f.reprobe && !v.f.pinned && !v.f.fallback && !v.f.completed
            && v.f.got == 0 && v.f.conns == 1 && c == 0
            && (v.f.unknown <==> v.restart && length.None?)
            && v.f.ifRange == (if v.f.unknown then "" else s.server.validator)
            && (v.restart && length.Some? ==> v.f.size == length.value))
      && (v.Refuse? ==>
            || (s.f.ranged && v.f == s.f && s.f.conns > 1)
            || (!s.f.ranged && s.f.got == 0 && !s.f.unknown && v.f == s.f.(ifRange := s.server.validator)))
      && (s.f.ranged && v.Accept? ==> q.ranged && s.f.conns == 1)
  {
  }

  lemma Landed200(s: State, c: nat, prefetched: nat, sized: bool) returns (st: Stream)
    requires Coherent(s.f, s.counted, s.history) && Enabled(true, s, Answer200(c, prefetched, sized))
    requires AskingOk(s, c, s.work[c].q) && c == 0 && s.work == map[0 := s.work[0]]
    requires Take200(s.f, c, s.work[c].q, s.server.validator, if sized then Some(|s.server.content|) else None).Accept?
    ensures DoAnswer200(s, c, prefetched, sized).counted == map[]
    ensures DoAnswer200(s, c, prefetched, sized).work == map[0 := Reading(st)]
    ensures st == DoAnswer200(s, c, prefetched, sized).work[0].st
  {
    Take200StartsOver(s, c, s.work[c].q, if sized then Some(|s.server.content|) else None);
    st := DoAnswer200(s, c, prefetched, sized).work[0].st;
  }

  lemma Accepted200(s: State, c: nat, prefetched: nat, sized: bool)
    requires Coherent(s.f, s.counted, s.history) && Enabled(true, s, Answer200(c, prefetched, sized))
    requires AskingOk(s, c, s.work[c].q) && "" !in s.history && Genuine(s.history, s.server)
    requires c == 0 && s.work == map[0 := s.work[0]]
    requires Take200(s.f, c, s.work[c].q, s.server.validator, if sized then Some(|s.server.content|) else None).Accept?
    ensures Live(DoAnswer200(s, c, prefetched, sized))
  {
    Take200StartsOver(s, c, s.work[c].q, if sized then Some(|s.server.content|) else None);
    var st := Landed200(s, c, prefetched, sized);
  }

  lemma Refused200(s: State, c: nat, prefetched: nat, sized: bool)
    requires Coherent(s.f, s.counted, s.history) && Enabled(true, s, Answer200(c, prefetched, sized))
    requires AskingOk(s, c, s.work[c].q) && "" !in s.history && Genuine(s.history, s.server)
    requires c == 0 && s.work == map[0 := s.work[0]] && !s.f.ranged
    requires Take200(s.f, c, s.work[c].q, s.server.validator, if sized then Some(|s.server.content|) else None).Refuse?
    ensures Live(DoAnswer200(s, c, prefetched, sized))
  {
    var s' := DoAnswer200(s, c, prefetched, sized);
    Take200StartsOver(s, c, s.work[c].q, if sized then Some(|s.server.content|) else None);
    assert forall o :: o !in s.counted;
    assert s'.counted == map[] && s'.work == map[];
  }

  lemma Answer200Live(s: State, c: nat, prefetched: nat, sized: bool)
    requires Basis(s) && Enabled(true, s, Answer200(c, prefetched, sized))
    ensures Live(DoAnswer200(s, c, prefetched, sized))
  {
    assert ItemOk(s, c, s.work[c]);
    var v := Take200(s.f, c, s.work[c].q, s.server.validator, if sized then Some(|s.server.content|) else None);
    Take200StartsOver(s, c, s.work[c].q, if sized then Some(|s.server.content|) else None);
    if s.f.conns > 1 || (s.f.ranged && v.Refuse?) {
      assert DoAnswer200(s, c, prefetched, sized) == s.(work := Without(s.work, c));
      WithoutKeeps(s, c);
    } else {
      OnlyWorker(s, c);
      if v.Accept? {
        Accepted200(s, c, prefetched, sized);
      } else {
        Refused200(s, c, prefetched, sized);
      }
    }
  }

  /** What a restart means for a snapshot that claims a prefix: its validator has been given up. */
  lemma RestartMeansStale(s: State, c: nat, prefetched: nat, sized: bool, saved: Saved)
    requires Inv(s) && Enabled(true, s, Answer200(c, prefetched, sized)) && s.saved == Some(saved)
    requires s.work[c].q.ranged || s.work[c].q.restart
    ensures Claims(saved.f) ==> saved.f.ifRange != s.server.validator || s.f.conns > 1
    ensures !saved.f.completed
  {
    assert ItemOk(s, c, s.work[c]);
  }

  lemma GivenUp(s: State, saved: Saved)
    requires Coherent(saved.f, saved.counted, s.history)
    requires !(saved.f.pinned && Full(saved.f, saved.counted)) && !saved.f.completed
    requires Claims(saved.f) ==> saved.f.ifRange != s.server.validator
    requires !Unclaimed(s.f)
    ensures SavedOk(s, saved)
  {
  }

  /** Taking a full answer without a restart: the snapshot may still name the validator. */
  lemma Fresh200Saved(s: State, c: nat, prefetched: nat, sized: bool, saved: Saved)
    requires Coherent(s.f, s.counted, s.history) && Enabled(true, s, Answer200(c, prefetched, sized))
    requires AskingOk(s, c, s.work[c].q) && SavedOk(s, saved)
    requires !s.work[c].q.ranged && !s.work[c].q.restart && !saved.f.completed
    requires !(saved.f.pinned && Full(saved.f, saved.counted))
    requires Take200(s.f, c, s.work[c].q, s.server.validator, if sized then Some(|s.server.content|) else None).Accept?
    ensures SavedOk(DoAnswer200(s, c, prefetched, sized), saved)
  {
    Take200StartsOver(s, c, s.work[c].q, if sized then Some(|s.server.content|) else None);
    var s' := DoAnswer200(s, c, prefetched, sized);
    assert s'.file == s.file && s'.server == s.server && s'.history == s.history;
    assert s'.f.ifRange == s.server.validator && !s'.f.unknown && !s'.f.ranged && !s'.f.fallback;
  }

  lemma Restarted200Saved(s: State, c: nat, prefetched: nat, sized: bool, saved: Saved)
    requires Inv(s) && Enabled(true, s, Answer200(c, prefetched, sized)) && s.saved == Some(saved)
    requires s.work[c].q.ranged || s.work[c].q.restart
    requires saved.f.pinned ==> !Full(saved.f, saved.counted)
    requires Take200(s.f, c, s.work[c].q, s.server.validator, if sized then Some(|s.server.content|) else None).Accept?
    ensures SavedOk(DoAnswer200(s, c, prefetched, sized), saved)
  {
    assert ItemOk(s, c, s.work[c]);
    Take200StartsOver(s, c, s.work[c].q, if sized then Some(|s.server.content|) else None);
    RestartMeansStale(s, c, prefetched, sized, saved);
    GivenUp(DoAnswer200(s, c, prefetched, sized), saved);
  }

  lemma Accepted200Saved(s: State, c: nat, prefetched: nat, sized: bool, saved: Saved)
    requires Inv(s) && Enabled(true, s, Answer200(c, prefetched, sized)) && s.saved == Some(saved)
    requires Take200(s.f, c, s.work[c].q, s.server.validator, if sized then Some(|s.server.content|) else None).Accept?
    ensures SavedOk(DoAnswer200(s, c, prefetched, sized), saved)
  {
    assert ItemOk(s, c, s.work[c]);
    Take200StartsOver(s, c, s.work[c].q, if sized then Some(|s.server.content|) else None);
    if saved.f.pinned {
      AskingMeansMissing(s, saved, c);
    }
    if s.work[c].q.ranged || s.work[c].q.restart {
      Restarted200Saved(s, c, prefetched, sized, saved);
    } else {
      Fresh200Saved(s, c, prefetched, sized, saved);
    }
  }

  lemma Refused200Saved(s: State, c: nat, prefetched: nat, sized: bool, saved: Saved)
    requires Inv(s) && Enabled(true, s, Answer200(c, prefetched, sized)) && s.saved == Some(saved)
    requires Take200(s.f, c, s.work[c].q, s.server.validator, if sized then Some(|s.server.content|) else None).Refuse?
    ensures SavedOk(DoAnswer200(s, c, prefetched, sized), saved)
  {
    assert ItemOk(s, c, s.work[c]);
    Take200StartsOver(s, c, s.work[c].q, if sized then Some(|s.server.content|) else None);
    if saved.f.pinned && s.f.conns == 1 {
      AskingMeansMissing(s, saved, c);
    }
  }

  lemma Answer200Saved(s: State, c: nat, prefetched: nat, sized: bool, saved: Saved)
    requires Inv(s) && Enabled(true, s, Answer200(c, prefetched, sized)) && s.saved == Some(saved)
    ensures SavedOk(DoAnswer200(s, c, prefetched, sized), saved)
  {
    if Take200(s.f, c, s.work[c].q, s.server.validator, if sized then Some(|s.server.content|) else None).Accept? {
      Accepted200Saved(s, c, prefetched, sized, saved);
    } else {
      Refused200Saved(s, c, prefetched, sized, saved);
    }
  }

  lemma Answer200Keeps(s: State, c: nat, prefetched: nat, sized: bool)
    requires Basis(s) && Enabled(true, s, Answer200(c, prefetched, sized))
    ensures Basis(DoAnswer200(s, c, prefetched, sized))
  {
    assert ItemOk(s, c, s.work[c]);
    Answer200Live(s, c, prefetched, sized);
  }

  /** Counting more bytes where none were counted keeps the file in agreement. */
  lemma ReadAgrees(s: State, c: nat, n: nat)
    requires Agree(s.counted, s.file) && Enabled(true, s, Read(c, n))
    requires !s.f.ranged ==> s.work[c].st.pos == s.f.got && forall o :: o in s.counted <==> 0 <= o < s.f.got
    ensures Agree(DoRead(s, c, n).counted, DoRead(s, c, n).file)
  {
  }

  lemma ReadingAgrees(s: State, c: nat)
    requires Trust(s) && c in s.work && s.work[c].Reading? && (s.f.pinned || !s.f.ranged)
    ensures Agree(s.counted, s.file)
  {
  }

  lemma ReadSequentialCounts(s: State, c: nat, n: nat)
    requires Enabled(true, s, Read(c, n)) && !s.f.ranged && ReadingOk(s, c, s.work[c].st)
    requires forall o :: o in s.counted <==> 0 <= o < s.f.got
    ensures forall o :: o in DoRead(s, c, n).counted <==> 0 <= o < s.f.got + n
    ensures forall o :: o in DoRead(s, c, n).counted ==> DoRead(s, c, n).counted[o] == s.work[c].st.rep
  {
  }

  lemma ReadSequentialCoherent(s: State, c: nat, n: nat)
    requires Coherent(s.f, s.counted, s.history) && Enabled(true, s, Read(c, n)) && !s.f.ranged
    requires ReadingOk(s, c, s.work[c].st)
    ensures Coherent(DoRead(s, c, n).f, DoRead(s, c, n).counted, s.history)
  {
    ReadSequentialCounts(s, c, n);
    Sequential(s.f, s.f.got + n, DoRead(s, c, n).counted, s.work[c].st.rep, s.history);
  }

  /** A sequential fetcher may count any prefix of the representation its validator names. */
  lemma Sequential(f: Fetch, got: nat, counted: map<int, Rep>, rep: Rep, history: map<string, seq<Byte>>)
    requires !f.ranged && f.conns == 1 && f.reprobe && !f.fallback && !f.pinned && !f.completed
    requires f.ifRange == (if f.unknown then "" else rep.validator) && (f.ifRange != "" ==> f.ifRange in history)
    requires Genuine(history, rep) && got <= |rep.content|
    requires forall o :: o in counted <==> 0 <= o < got
    requires forall o :: o in counted ==> counted[o] == rep
    ensures Coherent(f.(got := got), counted, history)
  {
  }

  lemma ReadSequentialWork(s: State, c: nat, n: nat)
    requires Enabled(true, s, Read(c, n)) && !s.f.ranged && s.f.conns == 1 && s.work == map[0 := s.work[c]] && c == 0
    requires ReadingOk(s, c, s.work[c].st)
    ensures WorkOk(DoRead(s, c, n))
  {
    assert ItemOk(DoRead(s, c, n), 0, DoRead(s, c, n).work[0]);
  }

  lemma ReadSequential(s: State, c: nat, n: nat)
    requires Basis(s) && Enabled(true, s, Read(c, n)) && !s.f.ranged
    ensures Coherent(DoRead(s, c, n).f, DoRead(s, c, n).counted, s.history) && WorkOk(DoRead(s, c, n))
  {
    assert ItemOk(s, c, s.work[c]);
    OnlyWorker(s, c);
    ReadSequentialCoherent(s, c, n);
    ReadSequentialWork(s, c, n);
  }

  lemma ReadRangedCoherent(s: State, c: nat, n: nat)
    requires Coherent(s.f, s.counted, s.history) && Enabled(true, s, Read(c, n)) && s.f.ranged
    requires ReadingOk(s, c, s.work[c].st)
    ensures Coherent(s.f, DoRead(s, c, n).counted, s.history)
  {
  }

  lemma ReadRanged(s: State, c: nat, n: nat)
    requires Basis(s) && Enabled(true, s, Read(c, n)) && s.f.ranged
    ensures Coherent(s.f, DoRead(s, c, n).counted, s.history) && WorkOk(DoRead(s, c, n))
  {
    assert ItemOk(s, c, s.work[c]);
    ReadRangedCoherent(s, c, n);
    var s' := DoRead(s, c, n);
    forall d | d in s'.work ensures ItemOk(s', d, s'.work[d]) {
      assert ItemOk(s, d, s.work[d]);
    }
  }

  lemma ReadLive(s: State, c: nat, n: nat)
    requires Basis(s) && Enabled(true, s, Read(c, n))
    ensures Live(DoRead(s, c, n))
    ensures s.f.pinned || !s.f.ranged ==> Agree(DoRead(s, c, n).counted, DoRead(s, c, n).file)
  {
    assert ItemOk(s, c, s.work[c]);
    if s.f.ranged {
      ReadRanged(s, c, n);
    } else {
      ReadSequential(s, c, n);
    }
    if s.f.pinned || !s.f.ranged {
      ReadingAgrees(s, c);
    }
    if Agree(s.counted, s.file) {
      ReadAgrees(s, c, n);
    }
  }

  lemma ReadKeeps(s: State, c: nat, n: nat)
    requires Basis(s) && Enabled(true, s, Read(c, n))
    ensures Basis(DoRead(s, c, n))
  {
    ReadLive(s, c, n);
  }

  lemma ReadSavedBytes(s: State, c: nat, n: nat, saved: Saved)
    requires Coherent(s.f, s.counted, s.history) && Coherent(saved.f, saved.counted, s.history)
    requires Enabled(true, s, Read(c, n)) && ReadingOk(s, c, s.work[c].st)
    requires SavedBytes(s, saved) && SavedGuard(s, saved) && SavedFull(s, saved) && SavedDone(s, saved)
    ensures SavedBytes(DoRead(s, c, n), saved)
  {
  }

  lemma ReadSavedFull(s: State, c: nat, n: nat, saved: Saved)
    requires Enabled(true, s, Read(c, n)) && (s.f.pinned ==> Agree(DoRead(s, c, n).counted, DoRead(s, c, n).file))
    requires s.f.pinned ==> s.f.ranged
    requires SavedFull(s, saved)
    ensures SavedFull(DoRead(s, c, n), saved)
  {
  }

  lemma ReadSaved(s: State, c: nat, n: nat, saved: Saved)
    requires Inv(s) && Enabled(true, s, Read(c, n)) && s.saved == Some(saved)
    ensures SavedOk(DoRead(s, c, n), saved)
  {
    assert ItemOk(s, c, s.work[c]);
    ReadLive(s, c, n);
    ReadSavedBytes(s, c, n, saved);
    ReadSavedFull(s, c, n, saved);
  }

  lemma EndKeeps(s: State, c: nat)
    requires Basis(s) && Enabled(true, s, End(c))
    ensures Basis(DoEnd(s, c))
  {
    assert ItemOk(s, c, s.work[c]);
  }

  lemma EndSaved(s: State, c: nat, saved: Saved)
    requires Inv(s) && Enabled(true, s, End(c)) && s.saved == Some(saved)
    ensures SavedOk(DoEnd(s, c), saved)
  {
    assert ItemOk(s, c, s.work[c]);
  }

  lemma AnswersKeep(s: State, step: Step)
    requires Basis(s) && Enabled(true, s, step)
    requires step.Answer206? || step.Answer200? || step.Read? || step.End?
    ensures Basis(Next(true, s, step))
  {
    match step
    case Answer206(c, prefetched) => Answer206Keeps(s, c, prefetched);
    case Answer200(c, prefetched, sized) => Answer200Keeps(s, c, prefetched, sized);
    case Read(c, n) => ReadKeeps(s, c, n);
    case End(c) => EndKeeps(s, c);
  }

  /** No step but Change and Crash needs to know what was saved or how validators are chosen. */
  lemma BasisKeeps(s: State, step: Step)
    requires Basis(s) && Enabled(true, s, step) && !step.Change? && !step.Crash?
    ensures Basis(Next(true, s, step))
  {
    match step
    case Attempt(c, start, asked) => AttemptKeeps(s, c, start, asked);
    case Drop(c, keep) => DropKeeps(s, c, keep);
    case ResolveWins(c) => ResolveWinsKeeps(s, c);
    case Pause(prefetched) => PauseKeeps(s, prefetched);
    case Expand => ExpandKeeps(s);
    case Store =>
    case _ => AnswersKeep(s, step);
  }

  lemma Frame(s: State, step: Step)
    requires Enabled(true, s, step) && !step.Change? && !step.Store? && !step.Crash?
    ensures Next(true, s, step).saved == s.saved && Next(true, s, step).history == s.history
  {
  }

  /** While the Resolve stream lives nothing was claimed, so no snapshot claims anything either. */
  lemma ResolveSaved(s: State, s': State, saved: Saved)
    requires Inv(s) && s.saved == Some(saved) && Unclaimed(s.f)
    requires s'.saved == s.saved && s'.history == s.history
    ensures SavedOk(s', saved)
  {
  }

  lemma PauseSaved(s: State, prefetched: nat, saved: Saved)
    requires Inv(s) && Enabled(true, s, Pause(prefetched)) && s.saved == Some(saved)
    ensures SavedOk(DoPause(s, prefetched), saved)
  {
    if s.f.fallback {
      ResolveSaved(s, DoPause(s, prefetched), saved);
    } else {
      assert DoPause(s, prefetched) == s;
    }
  }

  lemma QuietSaved(s: State, step: Step, saved: Saved)
    requires Inv(s) && Enabled(true, s, step) && s.saved == Some(saved)
    requires step.Attempt? || step.Drop? || step.Expand?
    ensures SavedOk(Next(true, s, step), saved)
  {
  }

  lemma SavedKeeps(s: State, step: Step, saved: Saved)
    requires Inv(s) && Enabled(true, s, step) && s.saved == Some(saved)
    requires !step.Change? && !step.Crash? && !step.Store?
    ensures SavedOk(Next(true, s, step), saved)
  {
    match step
    case Answer206(c, prefetched) => Answer206Saved(s, c, prefetched, saved);
    case Answer200(c, prefetched, sized) => Answer200Saved(s, c, prefetched, sized, saved);
    case Read(c, n) => ReadSaved(s, c, n, saved);
    case End(c) => EndSaved(s, c, saved);
    case ResolveWins(c) => ResolveSaved(s, DoResolveWins(s, c), saved);
    case Pause(prefetched) => PauseSaved(s, prefetched, saved);
    case _ => QuietSaved(s, step, saved);
  }

  lemma OtherKeeps(s: State, step: Step)
    requires Inv(s) && Enabled(true, s, step) && !step.Change? && !step.Crash? && !step.Store?
    ensures Inv(Next(true, s, step))
  {
    BasisKeeps(s, step);
    Frame(s, step);
    if s.saved.Some? {
      SavedKeeps(s, step, s.saved.value);
    }
  }

  lemma StepKeeps(s: State, step: Step)
    requires Inv(s) && Enabled(true, s, step)
    ensures Inv(Next(true, s, step))
  {
    match step
    case Change(rep) => ChangeKeeps(s, rep);
    case Store => StoreKeeps(s);
    case Crash => CrashKeeps(s);
    case _ => OtherKeeps(s, step);
  }

  lemma {:induction false} EveryRun(run: seq<State>, steps: seq<Step>, k: nat)
    requires IsRun(true, run, steps) && k < |run|
    ensures Inv(run[k])
  {
    if k == 0 {
      StartHolds(run[0]);
    } else {
      EveryRun(run, steps, k - 1);
      StepKeeps(run[k - 1], steps[k - 1]);
    }
  }
}
