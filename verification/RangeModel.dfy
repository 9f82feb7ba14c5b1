/**
 The parallel HTTP range download as a transition system.

 One step is one critical section of the fetcher (or one network or disk event between two of
 them), so every run of `Next` is one interleaving of the connection goroutines, the Resolve
 prefetch, the download loop, Pause, Store and a crash.
 */
module RangeModel {
  import opened Base

  /** The size of the buffer one body read fills. */
  const BUFFER := 8192
  /** The smallest remainder a finished connection may steal from. */
  const STEAL_MIN := 524288
  /** What a split or a steal leaves its victim at the least. */
  const LEFT_BEHIND := 262143

  datatype ConnState = NotStarted | Connecting | Downloading | Completed | Failed

  /** How an attempt failed, as far as the retry loop tells failures apart. */
  datatype Failure =
    | Integrity  // the response contradicts the requested range: never retried
    | Forbidden  // HTTP 403: this connection gives up
    | Counted    // another client error: three of them end the connection
    | Exempt     // 408, 429, 440, 499 and 5xx: retried without counting
    | Network    // no HTTP status at all: retried without counting

  /** Where the goroutine of a connection stands. */
  datatype Activity =
    | Stopped
    | Idle
    | Requesting(start: nat, asked: Option<int>)
    | Receiving(pos: nat, last: int, discard: nat)
    | Writing(pos: nat, last: int, data: seq<Byte>, finished: bool, landed: nat)
    | Finished
    | Awaiting(cause: Failure)

  /** A connection and the chunk it owns. `end` is unknown for an open-ended chunk. */
  datatype Conn = Conn(
    begin: int, end: Option<int>, got: int,
    total: int, state: ConnState, completed: bool,
    failed: bool, err: Option<Failure>, retries: int,
    activity: Activity, steals: int)

  /** What Store keeps. `orphan`: the first chunk's prefix was only in the prefetch file. */
  datatype Snapshot = Snapshot(size: int, conns: seq<Conn>, orphan: bool)

  /**
   The fetcher between two steps. `size` is 0 while the total is unknown; `temp` is the length
   of the prefetch file while it exists; `p0` is where the first chunk was allocated; `lost`
   records that the bytes before `p0` were thrown away with the prefetch file.
   */
  datatype State = State(
    size: int, conns: seq<Conn>, file: map<int, Byte>,
    temp: Option<int>, fallback: bool, p0: int, lost: bool,
    active: bool, saved: Option<Snapshot>)

  // ---- Chunks ----

  /** The next offset a connection will write. */
  function Lo(c: Conn): int {
    c.begin + c.got
  }

  function Hi(c: Conn, n: int): int {
    match c.end
    case None => n
    case Some(e) => e + 1
  }

  function Remain(c: Conn, n: int): int {
    Hi(c, n) - Lo(c)
  }

  predicate Holds(c: Conn, n: int, o: int) {
    Lo(c) <= o < Hi(c, n)
  }

  ghost predicate Held(conns: seq<Conn>, n: int, o: int) {
    exists i :: 0 <= i < |conns| && Holds(conns[i], n, o)
  }

  function SumTotal(conns: seq<Conn>): int {
    if conns == [] then 0 else conns[0].total + SumTotal(conns[1..])
  }

  function SumRemain(conns: seq<Conn>, n: int): int {
    if conns == [] then 0 else Remain(conns[0], n) + SumRemain(conns[1..], n)
  }

  function SumSteals(conns: seq<Conn>): int {
    if conns == [] then 0 else conns[0].steals + SumSteals(conns[1..])
  }

  function Fresh(begin: int, end: Option<int>, total: int): Conn {
    Conn(begin, end, 0, total, NotStarted, false, false, None, 0, Idle, 0)
  }

  // ---- Splitting during slow start ----

  predicate Splittable(c: Conn) {
    !c.completed && c.state != Failed && c.end.Some? && Remain(c, 0) > 2 * STEAL_MIN
  }

  /** The first of the first `k` connections with the most work left among the splittable ones. */
  function MostWork(conns: seq<Conn>, k: nat): (r: Option<nat>)
    requires k <= |conns|
    ensures r.Some? ==> r.value < k && Splittable(conns[r.value])
  {
    if k == 0 then None
    else
      var best := MostWork(conns, k - 1);
      if Splittable(conns[k - 1])
         && (best.None? || Remain(conns[k - 1], 0) > Remain(conns[best.value], 0))
      then Some(k - 1)
      else best
  }

  /** Connection `v` keeps the first half of its remainder; a new connection owns the rest. */
  function Split(conns: seq<Conn>, v: nat): seq<Conn>
    requires v < |conns| && conns[v].end.Some?
  {
    var last := conns[v].end.value;
    var cut := last - Remain(conns[v], 0) / 2;
    conns[v := conns[v].(end := Some(cut))] + [Fresh(cut + 1, Some(last), 0)]
  }

  function ExpandBy(conns: seq<Conn>, batch: nat): seq<Conn>
    decreases batch
  {
    if batch == 0 then conns
    else
      var v := MostWork(conns, |conns|);
      if v.None? then conns else ExpandBy(Split(conns, v.value), batch - 1)
  }

  // ---- Work stealing ----

  predicate Stealable(c: Conn) {
    !c.completed && c.state != Failed && c.end.Some? && Remain(c, 0) >= STEAL_MIN
  }

  /** The finished connection `h` takes the second half of what `v` still has to do. */
  function StealFrom(conns: seq<Conn>, h: nat, v: nat): seq<Conn>
    requires h < |conns| && v < |conns| && h != v && conns[v].end.Some?
  {
    var last := conns[v].end.value;
    var cut := last - Remain(conns[v], 0) / 2;
    conns[h := conns[h].(begin := cut, end := Some(last), got := 0, retries := 0,
                         activity := Idle, steals := conns[h].steals + 1)]
         [v := conns[v].(end := Some(cut - 1))]
  }

  // ---- Failures ----

  /** The bookkeeping of the retry loop once the Resolve stream is no help. */
  function AfterFailure(c: Conn, cause: Failure): Conn {
    match cause
    case Integrity => c.(state := Failed, failed := true, err := Some(cause), activity := Stopped)
    case Forbidden => c.(state := Failed, failed := true, err := Some(cause), activity := Stopped)
    case Counted =>
      c.(state := Failed, failed := true, err := Some(cause), retries := c.retries + 1,
         activity := if c.retries + 1 >= 3 then Stopped else Idle)
    case Exempt => c.(state := Failed, err := Some(cause), activity := Idle)
    case Network => c.(state := Failed, err := Some(cause), activity := Idle)
  }

  // ---- Persistence ----

  /** The serialised part of a connection. */
  function Strip(c: Conn): Conn {
    Conn(c.begin, c.end, c.got, c.total, c.state, c.completed, false, None, 0, Stopped, 0)
  }

  function StripAll(conns: seq<Conn>): seq<Conn> {
    seq(|conns|, i requires 0 <= i < |conns| => Strip(conns[i]))
  }

  function Resumed(c: Conn, afterError: bool): Conn {
    if c.completed || c.state == Completed then c
    else if !afterError && c.state == Failed && c.failed
            && (c.err == Some(Forbidden) || c.retries >= 3) then c
    else c.(state := NotStarted, failed := false, retries := 0, activity := Idle,
            err := if afterError then None else c.err)
  }

  function ResumeAll(conns: seq<Conn>, afterError: bool): seq<Conn> {
    seq(|conns|, i requires 0 <= i < |conns| => Resumed(conns[i], afterError))
  }

  // ---- Steps ----

  datatype Step =
    | Prefetch(k: nat)
    | Request(i: nat)
    | Respond(i: nat)
    | Receive(i: nat, k: nat)
    | Land(i: nat, k: nat)
    | Commit(i: nat)
    | BodyEnd(i: nat)
    | Steal(i: nat, victim: nat)
    | Retire(i: nat)
    | Fail(i: nat, cause: Failure)
    | ResolveWins
    | ResolveLost
    | AwaitCancelled
    | Expand(batch: nat)
    | Cancel
    | Exit(i: nat)
    | PauseDone
    | Resume(afterError: bool)
    | Store
    | Crash

  predicate AllStopped(conns: seq<Conn>) {
    forall i :: 0 <= i < |conns| ==> conns[i].activity == Stopped
  }

  /** When the fetcher, the disk or the server can take a step. */
  predicate Enabled(src: seq<Byte>, s: State, step: Step) {
    match step
    case Prefetch(k) => s.temp.Some? && k > 0 && s.temp.value + k <= |src|
    case Request(i) => s.active && i < |s.conns| && s.conns[i].activity == Idle
    case Respond(i) => i < |s.conns| && s.conns[i].activity.Requesting?
                       && s.conns[i].activity.start < |src|
    case Receive(i, k) => i < |s.conns| && s.conns[i].activity.Receiving?
                          && 0 < k <= BUFFER
                          && s.conns[i].activity.pos + k <= s.conns[i].activity.last + 1 <= |src|
    case Land(i, k) => i < |s.conns| && s.conns[i].activity.Writing?
                       && s.conns[i].activity.landed <= k <= |s.conns[i].activity.data|
    case Commit(i) => i < |s.conns| && s.conns[i].activity.Writing?
                      && s.conns[i].activity.landed == |s.conns[i].activity.data|
    case BodyEnd(i) => i < |s.conns| && s.conns[i].activity.Receiving?
                       && s.conns[i].activity.pos == s.conns[i].activity.last + 1
    case Steal(i, v) => i < |s.conns| && v < |s.conns| && i != v
                        && s.conns[i].activity == Finished && Stealable(s.conns[v])
    case Retire(i) => i < |s.conns| && s.conns[i].activity == Finished
    case Fail(i, cause) => i < |s.conns|
                           && (s.conns[i].activity.Requesting? || s.conns[i].activity.Receiving?
                               || s.conns[i].activity.Writing?)
    case ResolveWins => s.conns != [] && s.conns[0].activity.Awaiting? && s.temp == Some(|src|)
    case ResolveLost => s.conns != [] && s.conns[0].activity.Awaiting?
    case AwaitCancelled => s.conns != [] && s.conns[0].activity.Awaiting? && !s.active
    case Expand(_) => s.temp.None?
    case Cancel => s.active
    case Exit(i) => !s.active && i < |s.conns| && !s.conns[i].activity.Writing?
                    && !s.conns[i].activity.Awaiting? && s.conns[i].activity != Finished
    case PauseDone => !s.active && AllStopped(s.conns)
    case Resume(_) => s.temp.None? && AllStopped(s.conns)
    case Store => true
    case Crash => s.saved.Some?
  }

  function SetConn(s: State, i: nat, c: Conn): State
    requires i < |s.conns|
  {
    s.(conns := s.conns[i := c])
  }

  function ByteFor(off: int, data: seq<Byte>, o: int): Byte
    requires off <= o < off + |data|
  {
    data[o - off]
  }

  /** The bytes of `data` on disk from offset `off` on. */
  function Put(off: int, data: seq<Byte>): (m: map<int, Byte>)
    ensures forall o :: o in m <==> off <= o < off + |data|
    ensures forall o :: o in m ==> m[o] == data[o - off]
  {
    map o | off <= o < off + |data| :: ByteFor(off, data, o)
  }

  /** The start of an attempt: an exhausted chunk needs no request. */
  function DoRequest(s: State, i: nat): State
    requires i < |s.conns|
  {
    var c := s.conns[i];
    SetConn(s, i,
      if c.end.Some? && Remain(c, 0) <= 0 then c.(activity := Finished)
      else c.(state := if c.state == NotStarted then Connecting else c.state,
              activity := Requesting(Max(Lo(c), 0), c.end)))
  }

  /**
   A validated 206: the total of an open-ended chunk becomes known, and the first response
   takes over from the Resolve stream, whose prefix is copied to the target file.
   */
  function DoRespond(src: seq<Byte>, s: State, i: nat): State
    requires i < |s.conns| && s.conns[i].activity.Requesting?
  {
    var c := s.conns[i];
    var start := c.activity.start;
    var last := if c.activity.asked.Some? then c.activity.asked.value else |src| - 1;
    var sized := c.(end := if c.end.None? then Some(|src| - 1) else c.end,
                    state := Downloading, failed := false);
    var known := s.(size := if c.activity.asked.None? then |src| else s.size);
    if i == 0 && s.fallback && s.temp.Some? && start <= s.temp.value <= |src| then
      var overlap := s.temp.value - start;
      SetConn(known.(fallback := false, temp := None, file := s.file + Put(0, src[..s.temp.value])),
              i, sized.(got := overlap, total := s.temp.value,
                        activity := Receiving(start, last, overlap)))
    else
      SetConn(known, i, sized.(activity := Receiving(start, last, 0)))
  }

  /** One body read of `k` bytes and the critical section that decides what to write, and where. */
  function Received(src: seq<Byte>, c: Conn, k: nat): Conn
    requires c.activity.Receiving? && c.activity.pos + k <= |src|
  {
    var a := c.activity;
    var dropped := Min(k, a.discard);
    var useful := k - dropped;
    var remain := Remain(c, |src|);
    if useful == 0 then c.(activity := Receiving(a.pos + k, a.last, a.discard - dropped))
    else if remain <= 0 then c.(activity := Finished)
    else
      var from := a.pos + dropped;
      c.(activity := Writing(a.pos + k, a.last, src[from..from + Min(useful, remain)], remain < useful, 0))
  }

  /** Some prefix of an in-flight write reaches the disk. */
  function DoLand(s: State, i: nat, k: nat): State
    requires i < |s.conns| && s.conns[i].activity.Writing?
    requires k <= |s.conns[i].activity.data|
  {
    var c := s.conns[i];
    SetConn(s.(file := s.file + Put(Lo(c), c.activity.data[..k])), i,
            c.(activity := c.activity.(landed := k)))
  }

  /** The second critical section: the written bytes are counted. */
  function DoCommit(s: State, i: nat): State
    requires i < |s.conns| && s.conns[i].activity.Writing?
  {
    var c := s.conns[i];
    var a := c.activity;
    SetConn(s, i, c.(got := c.got + |a.data|, total := c.total + |a.data|,
                     activity := if a.finished then Finished else Receiving(a.pos, a.last, 0)))
  }

  function DoFail(s: State, i: nat, cause: Failure): State
    requires i < |s.conns|
  {
    if i == 0 && s.fallback && cause != Exempt then
      SetConn(s.(fallback := false), 0, s.conns[0].(activity := Awaiting(cause)))
    else
      SetConn(s, i, AfterFailure(s.conns[i], cause))
  }

  /** The Resolve stream delivered the whole resource: it becomes the result. */
  function DoResolveWins(src: seq<Byte>, s: State): State
    requires s.conns != []
  {
    var c := s.conns[0];
    SetConn(s.(size := |src|, temp := None, file := s.file + Put(0, src)), 0,
            c.(begin := 0, end := Some(|src| - 1), got := |src|, total := |src|,
               completed := true, state := Completed, failed := false, err := None,
               activity := Stopped))
  }

  /** The Resolve stream failed too: its file is removed and the attempt's failure is handled. */
  function DoResolveLost(s: State): State
    requires s.conns != [] && s.conns[0].activity.Awaiting?
  {
    SetConn(s.(temp := None, lost := s.p0 > 0), 0, AfterFailure(s.conns[0], s.conns[0].activity.cause))
  }

  /** Pause after every goroutine is gone: the prefix of a live prefetch file is kept. */
  function DoPauseDone(src: seq<Byte>, s: State): State {
    if s.temp.None? then s.(fallback := false)
    else if 0 < s.temp.value <= |src| then
      var put := s.(temp := None, fallback := false, file := s.file + Put(0, src[..s.temp.value]));
      if |s.conns| == 1 && !s.conns[0].completed then
        SetConn(put, 0, s.conns[0].(begin := s.temp.value, got := 0, total := s.temp.value,
                                    end := if s.size > 0 then Some(s.size - 1) else None))
      else put
    else s.(temp := None, fallback := false)
  }

  ghost predicate PrefixOnDisk(s: State) {
    forall o :: 0 <= o < s.p0 ==> o in s.file
  }

  function DoStore(s: State): State {
    s.(saved := Some(Snapshot(s.size, StripAll(s.conns), s.p0 > 0 && (s.temp.Some? || s.lost))))
  }

  /** The process dies and the last snapshot is restored over whatever the disk now holds. */
  ghost function DoCrash(s: State): State
    requires s.saved.Some?
  {
    State(s.saved.value.size, s.saved.value.conns, s.file, None, false, s.p0,
          s.saved.value.orphan && !PrefixOnDisk(s), false, s.saved)
  }

  ghost function Next(src: seq<Byte>, s: State, step: Step): State
    requires Enabled(src, s, step)
  {
    match step
    case Prefetch(k) => s.(temp := Some(s.temp.value + k))
    case Request(i) => DoRequest(s, i)
    case Respond(i) => DoRespond(src, s, i)
    case Receive(i, k) => SetConn(s, i, Received(src, s.conns[i], k))
    case Land(i, k) => DoLand(s, i, k)
    case Commit(i) => DoCommit(s, i)
    case BodyEnd(i) => SetConn(s, i, s.conns[i].(activity := Finished))
    case Steal(i, v) => s.(conns := StealFrom(s.conns, i, v))
    case Retire(i) => SetConn(s, i, s.conns[i].(completed := true, state := Completed, activity := Stopped))
    case Fail(i, cause) => DoFail(s, i, cause)
    case ResolveWins => DoResolveWins(src, s)
    case ResolveLost => DoResolveLost(s)
    case AwaitCancelled => SetConn(s, 0, AfterFailure(s.conns[0], s.conns[0].activity.cause))
    case Expand(batch) => s.(conns := ExpandBy(s.conns, batch))
    case Cancel => s.(active := false)
    case Exit(i) => SetConn(s, i, s.conns[i].(activity := Stopped))
    case PauseDone => DoPauseDone(src, s)
    case Resume(afterError) => s.(conns := ResumeAll(s.conns, afterError), active := true)
    case Store => DoStore(s)
    case Crash => DoCrash(s)
  }

  /**
   A download as Start leaves it once the first chunk is allocated: either Resolve is still
   downloading into the prefetch file, or its prefix is already in the target.
   */
  ghost predicate Start(src: seq<Byte>, s: State) {
    && (s.size == 0 || s.size == |src|)
    && 0 <= s.p0 <= |src| && (s.size > 0 ==> s.p0 < s.size)
    && s.conns == [Fresh(s.p0, if s.size > 0 then Some(s.size - 1) else None, s.p0)]
    && !s.lost && s.active && s.saved.None?
    && ((s.fallback && s.temp.Some? && s.p0 <= s.temp.value <= |src| && s.file == map[])
        || (!s.fallback && s.temp.None? && s.file == Put(0, src[..s.p0])))
  }

  ghost predicate IsRun(src: seq<Byte>, run: seq<State>, steps: seq<Step>) {
    && |run| == |steps| + 1
    && Start(src, run[0])
    && forall k :: 0 <= k < |steps| ==>
         Enabled(src, run[k], steps[k]) && run[k + 1] == Next(src, run[k], steps[k])
  }

  // ---- Completion ----

  datatype Outcome = Success | Error

  predicate NeedsMore(c: Conn) {
    c.end.None? || Remain(c, 0) > 0
  }

  predicate ChunkDone(c: Conn) {
    !NeedsMore(c) || c.completed || c.state == Completed
    || (c.state == Failed && c.failed && c.err == Some(Forbidden))
  }

  predicate FailedOnIntegrity(c: Conn) {
    c.state == Failed && c.failed && c.err == Some(Integrity)
  }

  predicate FailedForGood(c: Conn) {
    c.state == Failed && c.failed && c.err != Some(Forbidden)
  }

  /** The verdict passed on once every goroutine has exited. */
  predicate Succeeds(s: State) {
    var enough := s.size > 0 && SumTotal(s.conns) >= s.size;
    var chunks := forall i :: 0 <= i < |s.conns| ==> ChunkDone(s.conns[i]);
    && (forall i :: 0 <= i < |s.conns| ==> !FailedOnIntegrity(s.conns[i]))
    && (enough || chunks || forall i :: 0 <= i < |s.conns| ==> !FailedForGood(s.conns[i]))
  }
}
