/**
 What the fetcher decides about a request and an answer, read off its fields and the numbers of
 the answer: what is asked for, and exactly which answers are taken.
 */
module ValidatorDecisions {
  import opened Base
  import opened Validators
  import opened ValidatorProofs

  // ---- The request ----

  /** A sequential prefix of a known whole that a range request can go on from. */
  predicate Prefixed(f: Fetch) {
    !f.ranged && f.reprobe && f.conns == 1 && 0 < f.got < f.size
  }

  /**
   A range is asked for in range mode, or after a prefix whose validator is known and whose whole
   is; the latter, and a pinned range, are guarded by the validator. Everything else starts over.
   */
  lemma RequestIs(f: Fetch, start: nat, asked: Option<nat>)
    ensures var q := Request(f, start, asked); var probe := Prefixed(f) && f.ifRange != "" && !f.unknown;
      && (q.probe <==> probe)
      && (q.ranged <==> f.ranged || probe)
      && (probe ==> q.start == f.got && q.asked == Some(f.size - 1) && q.guard == f.ifRange)
      && (f.ranged ==> q.start == start && q.asked == asked
                       && q.guard == if (f.pinned && !f.unknown) || f.fallback then f.ifRange else "")
      && (!q.ranged ==> q.start == 0 && q.asked == None && q.guard == "")
      && (q.restart <==> f.unknown || (Prefixed(f) && f.ifRange == ""))
  {
  }

  /** What is counted survives an attempt only if the attempt goes on behind it. */
  lemma PreparedIs(f: Fetch, start: nat, asked: Option<nat>)
    ensures var g := Prepared(f); var q := Request(f, start, asked);
      && g.ranged == f.ranged && g.reprobe == f.reprobe && g.unknown == f.unknown && g.fallback == f.fallback
      && g.ifRange == f.ifRange && g.size == f.size && g.conns == f.conns
      && g.got == (if f.ranged || q.probe then f.got else 0)
      && (g.completed <==> f.completed && (f.ranged || q.probe))
      && (g.pinned <==> f.pinned && !q.restart)
  {
  }

  // ---- The answers ----

  /** The Resolve stream of the first connection is over and its prefix continues into the range. */
  predicate Joins(f: Fetch, c: nat, start: nat, total: nat, prefetched: nat) {
    c != 0 || !f.fallback || start <= prefetched <= total
  }

  /** A 206 for start-end/total is what was asked for, of a resource of the known size. */
  predicate IsAsked(f: Fetch, q: Req, start: nat, end: nat, total: nat) {
    && start == q.start
    && end + 1 == (if q.asked.Some? then q.asked.value + 1 else total)
    && (f.size == 0 || f.size == total)
  }

  /**
   A 206 is taken exactly when it is what was asked for and, on the first connection, joins what
   the Resolve stream delivered. Taking it settles the size, ends the stream and pins its
   validator; after a probe the download is ranged from then on.
   */
  lemma Take206Is(f: Fetch, c: nat, q: Req, start: nat, end: nat, total: nat, prefetched: nat)
    requires q.asked.Some? ==> f.size > 0
    ensures var v := Take206(f, c, q, start, end, total, prefetched);
      && (v.Accept? <==> IsAsked(f, q, start, end, total) && Joins(f, c, start, total, prefetched))
      && (v.Accept? ==>
            && !v.restart
            && v.f.size == total && v.f.ifRange == f.ifRange && v.f.conns == f.conns
            && v.f.got == f.got && v.f.completed == f.completed
            && (v.f.fallback <==> f.fallback && c != 0)
            && (v.f.ranged <==> f.ranged || q.probe) && (v.f.reprobe <==> f.reprobe && !q.probe)
            && (v.f.unknown <==> f.unknown && !q.probe)
            && (v.f.pinned <==> f.pinned || q.probe || (c == 0 && f.fallback && f.ifRange != "")))
      && (v.Refuse? && !IsAsked(f, q, start, end, total) ==> v.f == f)
      && (v.Refuse? && IsAsked(f, q, start, end, total) ==> v.f == f.(fallback := false, size := total))
  {
  }

  /**
   A 200 to a range request is taken exactly when the connection probed, or is alone and first; a
   200 to a plain one exactly when it may restart, or its length does not contradict the size.
   */
  lemma Take200Is(s: State, c: nat, q: Req, validator: string, length: Option<nat>)
    requires Coherent(s.f, s.counted, s.history) && AskingOk(s, c, q)
    ensures var v := Take200(s.f, c, q, validator, length);
      && (v.Accept? <==>
            if q.ranged then q.probe || (c == 0 && s.f.conns == 1)
            else q.restart || s.f.size == 0 || length.None? || length.value == s.f.size)
      && (v.Accept? ==>
            && (v.restart <==> q.ranged || q.restart)
            && !v.f.ranged && v.f.reprobe && !v.f.pinned && !v.f.fallback && !v.f.completed
            && v.f.got == 0 && v.f.conns == 1
            && v.f.size == (if !v.restart then s.f.size else if length.Some? then length.value else 0)
            && (v.f.unknown <==> v.restart && length.None?)
            && v.f.ifRange == if v.f.unknown then "" else validator)
      && (v.Refuse? ==> v.f == if q.ranged then s.f else s.f.(ifRange := validator))
  {
  }

  /** A connection that asks for a range of what is served, of the known length, gets to read it. */
  lemma ServedRangeIsRead(run: seq<State>, steps: seq<Step>, k: nat, c: nat, prefetched: nat)
    requires IsRun(true, run, steps) && k < |steps| && steps[k] == Answer206(c, prefetched)
    requires var n := |run[k].server.content|; var q := run[k].work[c].q;
      && (run[k].f.size == 0 || run[k].f.size == n) && (q.asked.Some? ==> q.asked.value < n) && prefetched <= n
    ensures c in run[k + 1].work && run[k + 1].work[c].Reading?
    ensures run[k + 1].work[c].st.rep == run[k].server && run[k + 1].f.size == |run[k].server.content|
    ensures run[k + 1].work[c].st.pos ==
              if c == 0 && run[k].f.fallback then prefetched else run[k].work[c].q.start
  {
    EveryRun(run, steps, k);
    var s := run[k];
    var q, n := s.work[c].q, |s.server.content|;
    assert ItemOk(s, c, s.work[c]) && run[k + 1] == Next(true, s, steps[k]);
    Take206Is(s.f, c, q, q.start, if q.asked.Some? then q.asked.value else n - 1, n, prefetched);
  }

  /** What an accepted 200 leaves in the file: the prefix of a Resolve stream it ends, cut or filled to its length. */
  lemma FileAfter200(s: State, c: nat, prefetched: nat, sized: bool, o: int)
    requires Basis(s) && Enabled(true, s, Answer200(c, prefetched, sized))
    requires c in DoAnswer200(s, c, prefetched, sized).work
    ensures var u := DoAnswer200(s, c, prefetched, sized); var q := s.work[c].q;
      if !q.ranged && !q.restart then u.file == s.file
      else if !sized then u.file == map[]
      else
        && (o in u.file <==> 0 <= o < |s.server.content|)
        && (o in u.file && s.f.fallback && o < prefetched ==> u.file[o] == s.resolved.content[o])
        && (o in u.file && o in s.file && !(s.f.fallback && o < prefetched) ==> u.file[o] == s.file[o])
  {
    assert ItemOk(s, c, s.work[c]);
    Take200StartsOver(s, c, s.work[c].q, if sized then Some(|s.server.content|) else None);
  }
}
