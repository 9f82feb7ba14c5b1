/**
 Which representation the downloaded bytes come from.

 The resource may change on the server while it is downloaded. A fetcher guards what it appends
 with the validator of what it already has (section 13.1.5 of RFC 9110): a server that obeys
 If-Range answers 206 when its current validator is the one named, and 200 with the whole
 current representation otherwise.
 */
module Validators {
  import opened Base

  /** A representation of the resource; an empty validator is no validator. */
  datatype Rep = Rep(validator: string, content: seq<Byte>)

  /**
   The fields that decide how the next request is made and its answer is taken. `got` is the
   length of the sequential prefix, `size` is 0 while it is not known.
   */
  datatype Fetch = Fetch(
    ranged: bool, reprobe: bool, pinned: bool, unknown: bool, fallback: bool,
    ifRange: string, size: nat, conns: nat, got: nat, completed: bool)

  datatype Req = Req(start: nat, asked: Option<nat>, ranged: bool, probe: bool, guard: string, restart: bool)

  /** A response body being read; `pos` is the offset of its next byte. */
  datatype Stream = Stream(rep: Rep, pos: nat, sequential: bool, restart: bool, sized: bool)

  datatype Work = Asking(q: Req) | Reading(st: Stream)

  // ---- The decisions of the fetcher ----

  /** A single sequential connection with a useful prefix. */
  predicate HasPrefix(f: Fetch) {
    !f.ranged && f.reprobe && f.size > 0 && f.conns == 1 && 0 < f.got < f.size
  }

  predicate CanProbe(f: Fetch) {
    !f.unknown && f.ifRange != "" && HasPrefix(f)
  }

  /** Without range support a new request starts from byte 0. */
  function Reset(f: Fetch): Fetch {
    if f.ranged then f else f.(got := 0, completed := false)
  }

  /** The prefix a retry or a resume starts from: none, unless it may be probed. */
  function Retried(f: Fetch): Fetch {
    if HasPrefix(f) then f else Reset(f)
  }

  /** What an attempt does to the fetcher before the request is built. */
  function Prepared(f: Fetch): Fetch {
    var g := Retried(f);
    if g.unknown || (HasPrefix(g) && !CanProbe(g)) then Reset(g).(pinned := false) else g
  }

  function Request(f: Fetch, start: nat, asked: Option<nat>): Req {
    var g := Retried(f);
    var restart := g.unknown || (HasPrefix(g) && !CanProbe(g));
    var probe := CanProbe(g);
    if probe then Req(g.got, Some(g.size - 1), true, true, g.ifRange, restart)
    else if g.ranged then
      Req(start, asked, true, false, if Prepared(f).pinned || g.fallback then g.ifRange else "", restart)
    else Req(0, None, false, false, "", restart)
  }

  /** A 200 answer makes the whole new representation the resource. */
  function Restarted(f: Fetch, validator: string): Fetch {
    Reset(f.(ranged := false)).(reprobe := true, pinned := false, ifRange := validator)
  }

  datatype Verdict = Accept(f: Fetch, restart: bool) | Refuse(f: Fetch)

  /** Taking the status line and headers of a 200; `length` is its Content-Length if it has one. */
  function Take200(f: Fetch, c: nat, q: Req, validator: string, length: Option<nat>): Verdict {
    var live := f.(fallback := f.fallback && !(q.ranged && c == 0));
    if q.ranged && !q.probe && live.ranged && (c != 0 || live.conns != 1) then Refuse(live)
    else
      var restart := q.restart || q.ranged;
      var g := if q.ranged && (q.probe || live.ranged) then Restarted(live, validator)
               else if !q.ranged && live.reprobe then live.(ifRange := validator)
               else live;
      if g.ranged then Accept(g, restart)
      else if restart then
        if length.Some? then Accept(g.(size := length.value, unknown := false), true)
        else Accept(g.(size := 0, unknown := true, ifRange := "", pinned := false), true)
      else if g.size > 0 && length.Some? && length.value != g.size then Refuse(g)
      else Accept(g, false)
  }

  /** Whether a 206 for bytes start-end/total is the answer to the request. */
  predicate Answers(f: Fetch, q: Req, start: nat, end: nat, total: nat) {
    && start == q.start && (q.asked.Some? ==> end == q.asked.value) && (q.asked.None? ==> end + 1 == total)
    && (f.size > 0 ==> total == f.size)
  }

  /** Stopping the Resolve stream at `prefetched` for the first connection's range at `start`. */
  function TakenOver(f: Fetch, c: nat, start: nat, prefetched: nat): Verdict {
    if c != 0 || !f.fallback then Accept(f, false)
    else if start <= prefetched <= f.size then
      Accept(f.(fallback := false, pinned := f.pinned || f.ifRange != ""), false)
    else Refuse(f.(fallback := false))
  }

  /** Taking a 206 for bytes start-end/total; `prefetched` is how far the Resolve stream got. */
  function Take206(f: Fetch, c: nat, q: Req, start: nat, end: nat, total: nat, prefetched: nat): Verdict {
    if !Answers(f, q, start, end, total) then Refuse(f)
    else
      var v := TakenOver(if q.asked.None? then f.(size := total) else f, c, q.start, prefetched);
      if v.Accept? && q.probe
      then Accept(v.f.(ranged := true, reprobe := false, pinned := true, unknown := false), false)
      else v
  }

  // ---- The transition system ----

  datatype Saved = Saved(f: Fetch, counted: map<int, Rep>)

  /**
   `counted` records for every byte counted as downloaded the representation it was read from;
   `history` is the content every validator ever served stands for; `resolved` is what the
   Resolve stream delivers.
   */
  datatype State = State(
    f: Fetch, file: map<int, Byte>, counted: map<int, Rep>, work: map<nat, Work>,
    server: Rep, history: map<string, seq<Byte>>, resolved: Rep, saved: Option<Saved>)

  datatype Step =
    | Attempt(c: nat, start: nat, asked: Option<nat>)
    | Answer206(c: nat, prefetched: nat)
    | Answer200(c: nat, prefetched: nat, sized: bool)
    | Read(c: nat, n: nat)
    | End(c: nat)
    | Drop(c: nat, keep: bool)
    | ResolveWins(c: nat)
    | Pause(prefetched: nat)
    | Expand
    | Change(rep: Rep)
    | Store
    | Crash

  function ByteFrom(content: seq<Byte>, o: int): Byte
    requires 0 <= o < |content|
  {
    content[o]
  }

  /** The bytes from `a` up to `b` of a representation, at their own offsets. */
  function Bytes(rep: Rep, a: nat, b: nat): (m: map<int, Byte>)
    requires b <= |rep.content|
    ensures forall o :: o in m <==> a <= o < b
    ensures forall o :: o in m ==> m[o] == rep.content[o]
  {
    map o: int | a <= o < b :: ByteFrom(rep.content, o)
  }

  function Same(rep: Rep, o: int): Rep {
    rep
  }

  function Counts(rep: Rep, a: nat, b: nat): (m: map<int, Rep>)
    ensures forall o :: o in m <==> a <= o < b
    ensures forall o :: o in m ==> m[o] == rep
  {
    map o: int | a <= o < b :: Same(rep, o)
  }

  function ByteOrZero(file: map<int, Byte>, o: int): Byte {
    if o in file then file[o] else 0
  }

  /** Setting the length of a file cuts it, or fills it up with zeros. */
  function Resized(file: map<int, Byte>, size: nat): (m: map<int, Byte>)
    ensures forall o :: o in m <==> 0 <= o < size
    ensures forall o :: o in m && o in file ==> m[o] == file[o]
  {
    map o: int | 0 <= o < size :: ByteOrZero(file, o)
  }

  /** The file ends at `n` or before. */
  ghost predicate Fits(file: map<int, Byte>, n: int) {
    forall o :: o in file ==> o < n
  }

  ghost predicate Full(f: Fetch, counted: map<int, Rep>) {
    forall o :: 0 <= o < f.size ==> o in counted
  }

  /**
   `strict`: a validator that was replaced never comes back. What an attempt in range mode asks
   for starts at a byte its connection has not counted.
   */
  ghost predicate Enabled(strict: bool, s: State, step: Step) {
    match step
    case Attempt(c, start, asked) =>
      && c < s.f.conns && c !in s.work && !s.f.completed
      && (s.f.ranged ==> start !in s.counted && (asked.Some? ==> start <= asked.value)
                         && (s.f.size > 0 ==> start < s.f.size)
                         && (asked.None? <==> s.f.size == 0))
    case Answer206(c, prefetched) =>
      && c in s.work && s.work[c].Asking? && s.work[c].q.ranged
      && (s.work[c].q.guard == "" || s.work[c].q.guard == s.server.validator)
      && s.work[c].q.start < |s.server.content|
      && (s.work[c].q.asked.Some? ==> s.work[c].q.start <= s.work[c].q.asked.value)
      && prefetched <= |s.resolved.content|
      && (c == 0 && s.f.fallback ==> s.work[c].q.start <= prefetched)
    case Answer200(c, prefetched, sized) =>
      && c in s.work && s.work[c].Asking? && prefetched <= |s.resolved.content|
      && !(s.work[c].q.ranged && s.work[c].q.guard != "" && s.work[c].q.guard == s.server.validator)
    case Read(c, n) =>
      && c in s.work && s.work[c].Reading? && n > 0
      && s.work[c].st.pos + n <= |s.work[c].st.rep.content|
      && (!s.f.ranged && !s.work[c].st.restart && s.f.size > 0 ==> s.work[c].st.pos + n <= s.f.size)
      && (s.f.ranged ==> forall o :: s.work[c].st.pos <= o < s.work[c].st.pos + n ==> o !in s.counted)
    case End(c) =>
      && c in s.work && s.work[c].Reading? && s.work[c].st.sequential
      && s.work[c].st.pos == |s.work[c].st.rep.content|
      && (!s.work[c].st.restart && s.f.size > 0 ==> s.work[c].st.pos == s.f.size)
    case Drop(c, _) => c in s.work
    case ResolveWins(c) =>
      c == 0 && c in s.work && s.f.fallback && (s.f.size > 0 ==> |s.resolved.content| == s.f.size)
    case Pause(prefetched) => s.work == map[] && prefetched <= |s.resolved.content|
    case Expand => s.f.ranged && !s.f.fallback && s.f.size > 0
    case Change(rep) =>
      if strict then rep.validator == "" || rep.validator !in s.history
      else rep.validator !in s.history || s.history[rep.validator] == rep.content
    case Store => true
    case Crash => s.saved.Some?
  }

  function Without(work: map<nat, Work>, c: nat): map<nat, Work> {
    work - {c}
  }

  ghost function DoAttempt(s: State, c: nat, start: nat, asked: Option<nat>): State {
    var g := Prepared(s.f);
    s.(f := g, work := s.work[c := Asking(Request(s.f, start, asked))],
       counted := if !g.ranged && g.got == 0 then map[] else s.counted)
  }

  /**
   The server sends what was asked of its current representation, cut at its end. The first total
   of an open-ended download gives the file its length.
   */
  ghost function DoAnswer206(s: State, c: nat, prefetched: nat): State
    requires c in s.work && s.work[c].Asking? && prefetched <= |s.resolved.content|
    requires s.work[c].q.start < |s.server.content|
  {
    var q := s.work[c].q;
    var total := |s.server.content|;
    var end := if q.asked.Some? && q.asked.value < total then q.asked.value else total - 1;
    var v := Take206(s.f, c, q, q.start, end, total, prefetched);
    var took := s.f.fallback && !v.f.fallback;
    var sized := q.asked.None? && Answers(s.f, q, q.start, end, total);
    var kept := if sized then Resized(s.file, total) else s.file;
    var file := if took then kept + Bytes(s.resolved, 0, prefetched) else kept;
    if v.Refuse? then s.(f := v.f, file := file, work := Without(s.work, c))
    else
      s.(f := v.f, file := file,
         counted := if took then Counts(s.resolved, 0, prefetched) else s.counted,
         work := s.work[c := Reading(Stream(s.server, if took then prefetched else q.start, false, false, true))])
  }

  ghost function DoAnswer200(s: State, c: nat, prefetched: nat, sized: bool): State
    requires c in s.work && s.work[c].Asking? && prefetched <= |s.resolved.content|
  {
    var q := s.work[c].q;
    var v := Take200(s.f, c, q, s.server.validator, if sized then Some(|s.server.content|) else None);
    var file := if s.f.fallback && !v.f.fallback then s.file + Bytes(s.resolved, 0, prefetched) else s.file;
    if v.Refuse? then s.(f := v.f, file := file, work := Without(s.work, c))
    else
      s.(f := v.f,
         counted := if !v.f.ranged && v.f.got == 0 then map[] else s.counted,
         file := if v.f.ranged || !v.restart then file
                 else if sized then Resized(file, |s.server.content|)
                 else map[],
         work := s.work[c := Reading(Stream(s.server, 0, true, v.restart, sized))])
  }

  /** A sequential body is written where the prefix ends, a ranged one at its own offset. */
  ghost function DoRead(s: State, c: nat, n: nat): State
    requires c in s.work && s.work[c].Reading? && s.work[c].st.pos + n <= |s.work[c].st.rep.content|
  {
    var st := s.work[c].st;
    s.(f := if s.f.ranged then s.f else s.f.(got := s.f.got + n),
       file := s.file + Bytes(st.rep, st.pos, st.pos + n),
       counted := s.counted + Counts(st.rep, st.pos, st.pos + n),
       work := s.work[c := Reading(st.(pos := st.pos + n))])
  }

  ghost function DoEnd(s: State, c: nat): State
    requires c in s.work && s.work[c].Reading?
  {
    var st := s.work[c].st;
    if st.restart && !st.sized then
      s.(f := s.f.(size := st.pos, unknown := false, completed := true), work := Without(s.work, c),
         file := Resized(s.file, st.pos))
    else s.(f := s.f.(completed := true), work := Without(s.work, c))
  }

  /** The Resolve stream delivered everything while the first range attempt failed. */
  ghost function DoResolveWins(s: State, c: nat): State {
    var n := |s.resolved.content|;
    s.(f := s.f.(ranged := false, reprobe := false, pinned := false, fallback := false,
                 size := n, got := n, completed := true),
       file := s.file + Bytes(s.resolved, 0, n), counted := Counts(s.resolved, 0, n), work := Without(s.work, c))
  }

  /** Pause after every goroutine is gone: what a live Resolve stream delivered is kept and counted. */
  ghost function DoPause(s: State, prefetched: nat): State
    requires prefetched <= |s.resolved.content|
  {
    var stopped := s.(f := s.f.(fallback := false));
    if s.f.fallback && prefetched > 0 then
      stopped.(file := s.file + Bytes(s.resolved, 0, prefetched), counted := Counts(s.resolved, 0, prefetched))
    else stopped
  }

  ghost function Next(strict: bool, s: State, step: Step): State
    requires Enabled(strict, s, step)
  {
    match step
    case Attempt(c, start, asked) => DoAttempt(s, c, start, asked)
    case Answer206(c, prefetched) => DoAnswer206(s, c, prefetched)
    case Answer200(c, prefetched, sized) => DoAnswer200(s, c, prefetched, sized)
    case Read(c, n) => DoRead(s, c, n)
    case End(c) => DoEnd(s, c)
    case Drop(c, keep) => s.(f := s.f.(fallback := s.f.fallback && keep), work := Without(s.work, c))
    case ResolveWins(c) => DoResolveWins(s, c)
    case Pause(prefetched) => DoPause(s, prefetched)
    case Expand => s.(f := s.f.(conns := s.f.conns + 1))
    case Change(rep) =>
      s.(server := rep,
         history := if rep.validator == "" then s.history else s.history[rep.validator := rep.content])
    case Store => s.(saved := Some(Saved(s.f, s.counted)))
    case Crash =>
      s.(f := s.saved.value.f.(fallback := false), counted := s.saved.value.counted, work := map[])
  }

  /** A fresh start, on a file that is new or not longer than the resource. */
  ghost predicate Start(s: State) {
    && s.f.ranged && !s.f.reprobe && !s.f.pinned && !s.f.unknown && !s.f.completed
    && s.f.conns == 1 && s.f.got == 0
    && s.f.ifRange == s.resolved.validator
    && s.counted == map[] && s.work == map[] && s.saved.None? && Fits(s.file, s.f.size)
    && "" !in s.history && Genuine(s.history, s.server) && Genuine(s.history, s.resolved)
  }

  /** A validator stands for one content. */
  predicate Genuine(history: map<string, seq<Byte>>, rep: Rep) {
    rep.validator == "" || (rep.validator in history && history[rep.validator] == rep.content)
  }

  /** A run from the state `s`. */
  ghost predicate Leads(strict: bool, s: State, run: seq<State>, steps: seq<Step>) {
    && |run| == |steps| + 1
    && run[0] == s
    && forall k :: 0 <= k < |steps| ==>
         Enabled(strict, run[k], steps[k]) && run[k + 1] == Next(strict, run[k], steps[k])
  }

  ghost predicate IsRun(strict: bool, run: seq<State>, steps: seq<Step>) {
    |run| > 0 && Start(run[0]) && Leads(strict, run[0], run, steps)
  }
}
