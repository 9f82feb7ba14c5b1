/**
 What every run of the parallel range download keeps.

 `n` is always the length of the resource. The bytes counted as downloaded are the offsets no
 connection holds; `Core` says that those offsets, and only those, are settled on disk.
 */
module RangeProofs {
  import opened Base
  import opened RangeModel

  // ---- The invariant ----

  ghost predicate Ranges(conns: seq<Conn>, n: int) {
    forall i :: 0 <= i < |conns| ==>
      && 0 <= conns[i].begin && 0 <= conns[i].got && Lo(conns[i]) <= Hi(conns[i], n) <= n
  }

  predicate Apart(a: Conn, b: Conn, n: int) {
    Lo(a) >= Hi(a, n) || Lo(b) >= Hi(b, n) || Hi(a, n) <= Lo(b) || Hi(b, n) <= Lo(a)
  }

  ghost predicate Disjoint(conns: seq<Conn>, n: int) {
    forall i, j :: 0 <= i < |conns| && 0 <= j < |conns| && i != j ==> Apart(conns[i], conns[j], n)
  }

  predicate Right(src: seq<Byte>, file: map<int, Byte>, o: int) {
    0 <= o < |src| && o in file && file[o] == src[o]
  }

  /** Every offset is held by a connection, on disk, or (below `prefix`) excused. */
  ghost predicate Tiled(src: seq<Byte>, conns: seq<Conn>, file: map<int, Byte>, prefix: int) {
    forall o :: 0 <= o < |src| ==> o < prefix || Held(conns, |src|, o) || Right(src, file, o)
  }

  /** An open-ended chunk is alone and its total is not known yet. */
  ghost predicate Extents(conns: seq<Conn>, size: int) {
    forall i :: 0 <= i < |conns| && conns[i].end.None? ==> |conns| == 1 && size == 0
  }

  ghost predicate Marks(conns: seq<Conn>, n: int) {
    forall i :: 0 <= i < |conns| ==>
      && (conns[i].completed <==> conns[i].state == Completed)
      && (conns[i].completed ==> conns[i].activity == Stopped && conns[i].end.Some? && Remain(conns[i], n) == 0)
  }

  ghost predicate Core(src: seq<Byte>, size: int, conns: seq<Conn>, file: map<int, Byte>, prefix: int) {
    && Shape(src, size, conns, file, prefix)
    && Conserved(conns, |src|)
  }

  /** Bytes counted and bytes still owed add up to the whole resource. */
  ghost predicate Conserved(conns: seq<Conn>, n: int) {
    SumTotal(conns) + SumRemain(conns, n) == n
  }

  ghost predicate Shape(src: seq<Byte>, size: int, conns: seq<Conn>, file: map<int, Byte>, prefix: int) {
    && (size == 0 || size == |src|)
    && conns != []
    && Ranges(conns, |src|)
    && Disjoint(conns, |src|)
    && Tiled(src, conns, file, prefix)
    && Extents(conns, size)
    && Marks(conns, |src|)
  }

  /** What a goroutine knows about the chunk while others may shrink it. */
  ghost predicate Busy(src: seq<Byte>, c: Conn, file: map<int, Byte>) {
    match c.activity
    case Stopped => true
    case Idle => true
    case Awaiting(_) => true
    case Finished => c.end.Some? && Remain(c, 0) == 0
    case Requesting(start, asked) =>
      && start == Lo(c)
      && (asked.None? <==> c.end.None?)
      && (asked.Some? ==> c.end.value <= asked.value < |src| && start <= asked.value)
    case Receiving(pos, last, discard) =>
      && c.end.Some? && c.end.value <= last < |src|
      && pos + discard == Lo(c) && pos <= last + 1
    case Writing(pos, last, data, finished, landed) =>
      && c.end.Some? && c.end.value <= last < |src|
      && 1 <= |data| <= BUFFER && |data| <= Remain(c, 0)
      && 0 <= Lo(c) && Lo(c) + |data| <= |src| && data == src[Lo(c)..Lo(c) + |data|]
      && pos <= last + 1
      && (if finished then |data| == Remain(c, 0) else pos == Lo(c) + |data|)
      && landed <= |data|
      && forall o :: Lo(c) <= o < Lo(c) + landed ==> o in file
  }

  /** Between two steals a connection commits at least LEFT_BEHIND bytes. */
  predicate StealBudget(c: Conn) {
    && 0 <= c.steals
    && (c.steals - 1) * LEFT_BEHIND <= c.total
    && (c.end.Some? ==> c.steals * LEFT_BEHIND <= c.total + Remain(c, 0))
    && (c.end.None? ==> c.steals == 0)
    && 0 <= c.total
  }

  ghost predicate Workers(src: seq<Byte>, s: State) {
    forall i :: 0 <= i < |s.conns| ==>
      && Busy(src, s.conns[i], s.file)
      && StealBudget(s.conns[i])
      && (s.active && s.conns[i].activity == Stopped && !s.conns[i].completed ==>
            s.conns[i].state == Failed && s.conns[i].failed)
      && (s.conns[i].activity.Awaiting? ==> i == 0 && s.temp.Some? && !s.fallback)
  }

  /** While the Resolve stream can still win, nothing but the first request has happened. */
  ghost predicate Resolving(s: State, n: int) {
    && (s.fallback ==> s.temp.Some?)
    && (s.temp.Some? ==>
          && s.p0 <= s.temp.value <= n && !s.lost && s.file == map[]
          && |s.conns| == 1 && !s.conns[0].completed
          && s.conns[0].begin == s.p0 && s.conns[0].got == 0 && s.conns[0].total == s.p0
          && s.conns[0].steals == 0
          && Hi(s.conns[0], n) == n && (s.conns[0].end.None? || s.p0 < n)
          && (s.conns[0].activity.Idle? || s.conns[0].activity.Requesting?
              || s.conns[0].activity.Awaiting?
              || (s.conns[0].activity.Stopped? && !s.active))
          && (s.fallback || s.conns[0].activity.Awaiting?
              || (!s.active && (s.conns[0].activity.Idle? || s.conns[0].activity.Stopped?))))
  }

  ghost predicate NothingBelow(conns: seq<Conn>, file: map<int, Byte>, p: int) {
    && (forall o :: o in file ==> p <= o)
    && (forall i :: 0 <= i < |conns| ==> p <= conns[i].begin)
  }

  ghost predicate AllBelow(file: map<int, Byte>, p: int) {
    forall o :: 0 <= o < p ==> o in file
  }

  ghost predicate FileTrue(src: seq<Byte>, file: map<int, Byte>) {
    forall o :: o in file ==> Right(src, file, o)
  }

  function Excused(s: State): int {
    if s.temp.Some? then s.temp.value else if s.lost then s.p0 else 0
  }

  /** A snapshot stays a resume point whatever the run does after it. */
  ghost predicate Resumable(src: seq<Byte>, s: State, snap: Snapshot) {
    && Core(src, snap.size, snap.conns, s.file, if snap.orphan then s.p0 else 0)
    && AllStopped(snap.conns)
    && (forall i :: 0 <= i < |snap.conns| ==>
          StealBudget(snap.conns[i]) && !snap.conns[i].failed)
    && (!snap.orphan ==> AllBelow(s.file, s.p0))
    && (snap.orphan ==> s.p0 > 0 && forall i :: 0 <= i < |snap.conns| ==> s.p0 <= snap.conns[i].begin)
  }

  ghost predicate Inv(src: seq<Byte>, s: State) {
    && 0 <= s.p0 <= |src|
    && Core(src, s.size, s.conns, s.file, Excused(s))
    && FileTrue(src, s.file)
    && Workers(src, s)
    && Resolving(s, |src|)
    && (s.lost ==> s.p0 > 0 && NothingBelow(s.conns, s.file, s.p0))
    && (s.temp.None? && !s.lost ==> AllBelow(s.file, s.p0))
    && (s.saved.Some? ==> Resumable(src, s, s.saved.value))
  }

  // ---- Sums ----

  lemma {:induction false} SumsUpdate(conns: seq<Conn>, i: nat, c: Conn, n: int)
    requires i < |conns|
    ensures SumTotal(conns[i := c]) == SumTotal(conns) - conns[i].total + c.total
    ensures SumRemain(conns[i := c], n) == SumRemain(conns, n) - Remain(conns[i], n) + Remain(c, n)
    ensures SumSteals(conns[i := c]) == SumSteals(conns) - conns[i].steals + c.steals
  {
    if i == 0 {
      assert conns[i := c][1..] == conns[1..];
    } else {
      assert conns[i := c][1..] == conns[1..][i - 1 := c];
      SumsUpdate(conns[1..], i - 1, c, n);
    }
  }

  lemma {:induction false} SumsAppend(conns: seq<Conn>, c: Conn, n: int)
    ensures SumTotal(conns + [c]) == SumTotal(conns) + c.total
    ensures SumRemain(conns + [c], n) == SumRemain(conns, n) + Remain(c, n)
    ensures SumSteals(conns + [c]) == SumSteals(conns) + c.steals
  {
    if conns == [] {
      assert conns + [c] == [c];
    } else {
      assert (conns + [c])[1..] == conns[1..] + [c];
      SumsAppend(conns[1..], c, n);
    }
  }

  /** Sums depend on nothing but the fields they add up. */
  lemma {:induction false} SumsSame(a: seq<Conn>, b: seq<Conn>, n: int)
    requires |a| == |b|
    requires forall i :: 0 <= i < |a| ==>
      a[i].total == b[i].total && Remain(a[i], n) == Remain(b[i], n)
    ensures SumTotal(a) == SumTotal(b) && SumRemain(a, n) == SumRemain(b, n)
  {
    if a != [] {
      SumsSame(a[1..], b[1..], n);
    }
  }

  lemma {:induction false} SumRemainBounds(conns: seq<Conn>, n: int)
    requires forall i :: 0 <= i < |conns| ==> 0 <= Remain(conns[i], n)
    ensures 0 <= SumRemain(conns, n)
    ensures forall i :: 0 <= i < |conns| ==> Remain(conns[i], n) <= SumRemain(conns, n)
  {
    if conns != [] {
      SumRemainBounds(conns[1..], n);
      forall i | 0 <= i < |conns| ensures Remain(conns[i], n) <= SumRemain(conns, n) {
        if i > 0 {
          assert conns[i] == conns[1..][i - 1];
        }
      }
    }
  }

  // ---- Replacing one connection ----

  /** What `c` owns is part of what `was` owned; what it gave up is counted. */
  predicate Follows(was: Conn, c: Conn, n: int) {
    && 0 <= c.begin && 0 <= c.got && Lo(c) <= Hi(c, n) <= n
    && (Lo(c) == Hi(c, n) || (Lo(was) <= Lo(c) && Hi(c, n) <= Hi(was, n)))
    && c.total + Remain(c, n) == was.total + Remain(was, n)
    && (c.completed <==> c.state == Completed)
    && (c.completed ==> c.activity == Stopped && c.end.Some? && Remain(c, n) == 0)
  }

  /** Everything `was` owned and `c` does not is on disk, or excused. */
  ghost predicate Settles(src: seq<Byte>, was: Conn, c: Conn, file: map<int, Byte>, prefix: int) {
    forall o :: Holds(was, |src|, o) ==> o < prefix || Holds(c, |src|, o) || Right(src, file, o)
  }

  lemma UpdateDisjoint(conns: seq<Conn>, i: nat, c: Conn, n: int)
    requires Disjoint(conns, n) && i < |conns| && Follows(conns[i], c, n)
    ensures Disjoint(conns[i := c], n)
  {
    var next := conns[i := c];
    forall a, b | 0 <= a < |next| && 0 <= b < |next| && a != b ensures Apart(next[a], next[b], n) {
      assert Apart(conns[a], conns[b], n);
    }
  }

  lemma UpdateTiled(src: seq<Byte>, conns: seq<Conn>, i: nat, c: Conn,
                    file: map<int, Byte>, file': map<int, Byte>, prefix: int, prefix': int)
    requires Tiled(src, conns, file, prefix) && i < |conns| && Settles(src, conns[i], c, file', prefix')
    requires forall o :: Right(src, file, o) ==> Right(src, file', o)
    requires forall o :: 0 <= o < prefix && o < |src| ==> o < prefix' || Right(src, file', o) || Holds(c, |src|, o)
    ensures Tiled(src, conns[i := c], file', prefix')
  {
    var next := conns[i := c];
    forall o | 0 <= o < |src| ensures o < prefix' || Held(next, |src|, o) || Right(src, file', o) {
      if Held(conns, |src|, o) {
        var j :| 0 <= j < |conns| && Holds(conns[j], |src|, o);
        assert j != i ==> Holds(next[j], |src|, o);
      }
      assert Holds(c, |src|, o) ==> Holds(next[i], |src|, o);
    }
  }

  lemma UpdateRest(conns: seq<Conn>, size: int, size': int, i: nat, c: Conn, n: int)
    requires Ranges(conns, n) && Extents(conns, size) && Marks(conns, n)
    requires i < |conns| && Follows(conns[i], c, n)
    requires c.end.None? ==> |conns| == 1 && size' == 0
    requires size' != size ==> |conns| == 1
    ensures Ranges(conns[i := c], n) && Extents(conns[i := c], size') && Marks(conns[i := c], n)
  {
  }

  /** `Core` when one connection changes without letting go of an unsettled offset. */
  lemma CoreUpdate(src: seq<Byte>, size: int, size': int, conns: seq<Conn>, i: nat, c: Conn,
                   file: map<int, Byte>, file': map<int, Byte>, prefix: int, prefix': int)
    requires Core(src, size, conns, file, prefix) && i < |conns|
    requires size' == 0 || size' == |src|
    requires Follows(conns[i], c, |src|) && Settles(src, conns[i], c, file', prefix')
    requires c.end.None? ==> |conns| == 1 && size' == 0
    requires size' != size ==> |conns| == 1
    requires forall o :: Right(src, file, o) ==> Right(src, file', o)
    requires forall o :: 0 <= o < prefix && o < |src| ==> o < prefix' || Right(src, file', o) || Holds(c, |src|, o)
    ensures Core(src, size', conns[i := c], file', prefix')
  {
    SumsUpdate(conns, i, c, |src|);
    UpdateRest(conns, size, size', i, c, |src|);
    UpdateDisjoint(conns, i, c, |src|);
    UpdateTiled(src, conns, i, c, file, file', prefix, prefix');
  }

  // ---- A growing file ----

  ghost predicate Grows(src: seq<Byte>, file: map<int, Byte>, file': map<int, Byte>) {
    && FileTrue(src, file')
    && forall o :: o in file ==> o in file'
  }

  lemma RightGrows(src: seq<Byte>, file: map<int, Byte>, file': map<int, Byte>)
    requires FileTrue(src, file) && Grows(src, file, file')
    ensures forall o :: Right(src, file, o) ==> Right(src, file', o)
  {
    forall o | Right(src, file, o) ensures Right(src, file', o) {
      assert o in file';
    }
  }

  lemma ResumableGrows(src: seq<Byte>, s: State, s': State, snap: Snapshot)
    requires Resumable(src, s, snap) && FileTrue(src, s.file) && Grows(src, s.file, s'.file)
    requires s'.p0 == s.p0
    ensures Resumable(src, s', snap)
  {
    RightGrows(src, s.file, s'.file);
  }

  lemma BusyGrows(src: seq<Byte>, c: Conn, file: map<int, Byte>, file': map<int, Byte>)
    requires Busy(src, c, file) && Grows(src, file, file')
    ensures Busy(src, c, file')
  {
  }

  lemma UpdateWorkers(src: seq<Byte>, s: State, i: nat, c: Conn, file': map<int, Byte>, fallback': bool)
    requires Workers(src, s) && i < |s.conns| && Grows(src, s.file, file')
    requires Busy(src, c, file') && StealBudget(c)
    requires s.active && c.activity == Stopped && !c.completed ==> c.state == Failed && c.failed
    requires c.activity.Awaiting? ==> i == 0 && s.temp.Some? && !fallback'
    requires fallback' ==> s.fallback
    ensures Workers(src, s.(conns := s.conns[i := c], file := file', fallback := fallback'))
  {
    forall j | 0 <= j < |s.conns| && j != i ensures Busy(src, s.conns[j], file') {
      BusyGrows(src, s.conns[j], s.file, file');
    }
  }

  /** One connection changes, the file grows by right bytes, and nothing else happens. */
  lemma InvUpdate(src: seq<Byte>, s: State, i: nat, c: Conn, file': map<int, Byte>, fallback': bool)
    requires Inv(src, s) && i < |s.conns| && Grows(src, s.file, file')
    requires Follows(s.conns[i], c, |src|) && (c.end.None? ==> s.conns[i].end.None?)
    requires Settles(src, s.conns[i], c, file', 0)
    requires Workers(src, s.(conns := s.conns[i := c], file := file', fallback := fallback'))
    requires Resolving(s.(conns := s.conns[i := c], file := file', fallback := fallback'), |src|)
    requires s.lost ==> s.p0 <= c.begin && forall o :: o in file' ==> s.p0 <= o
    ensures Inv(src, s.(conns := s.conns[i := c], file := file', fallback := fallback'))
  {
    var s' := s.(conns := s.conns[i := c], file := file', fallback := fallback');
    RightGrows(src, s.file, file');
    CoreUpdate(src, s.size, s.size, s.conns, i, c, s.file, file', Excused(s), Excused(s));
    if s.saved.Some? {
      ResumableGrows(src, s, s', s.saved.value);
    }
  }

  /** A connection goes on with the same chunk; the Resolve stream is in `fallback'`. */
  lemma InvActs(src: seq<Byte>, s: State, i: nat, c: Conn, fallback': bool)
    requires Inv(src, s) && i < |s.conns|
    requires c.begin == s.conns[i].begin && c.end == s.conns[i].end && c.got == s.conns[i].got
    requires c.total == s.conns[i].total && c.steals == s.conns[i].steals
    requires c.completed <==> c.state == Completed
    requires c.completed ==> c.activity == Stopped && c.end.Some? && Remain(c, |src|) == 0
    requires Busy(src, c, s.file)
    requires s.active && c.activity == Stopped && !c.completed ==> c.state == Failed && c.failed
    requires c.activity.Awaiting? ==> i == 0 && s.temp.Some? && !fallback'
    requires fallback' ==> s.fallback
    requires s.temp.Some? ==> Resolving(s.(conns := s.conns[i := c], fallback := fallback'), |src|)
    ensures Inv(src, s.(conns := s.conns[i := c], fallback := fallback'))
  {
    UpdateWorkers(src, s, i, c, s.file, fallback');
    InvUpdate(src, s, i, c, s.file, fallback');
  }

  // ---- One lemma per step ----

  lemma RequestKeeps(src: seq<Byte>, s: State, i: nat)
    requires Inv(src, s) && Enabled(src, s, Request(i))
    ensures Inv(src, DoRequest(s, i))
  {
    InvActs(src, s, i, DoRequest(s, i).conns[i], s.fallback);
  }

  /** The bytes a read hands to the disk are those of the offset they are written at. */
  lemma ReceivedBusy(src: seq<Byte>, c: Conn, file: map<int, Byte>, k: nat)
    requires 0 <= Lo(c) <= Hi(c, |src|) && Busy(src, c, file)
    requires c.activity.Receiving? && 0 < k <= BUFFER
    requires c.activity.pos + k <= c.activity.last + 1
    ensures Busy(src, Received(src, c, k), file)
  {
    var a := c.activity;
    var remain := Remain(c, |src|);
    if k <= a.discard {
    } else if remain > 0 {
      var len := Min(k - a.discard, remain);
      assert a.pos + a.discard == Lo(c);
      assert Received(src, c, k).activity.data == src[Lo(c)..Lo(c) + len];
    }
  }

  lemma ReceivedActs(src: seq<Byte>, c: Conn, k: nat)
    requires c.activity.Receiving? && c.activity.pos + k <= |src|
    ensures var a := Received(src, c, k).activity;
      Received(src, c, k) == c.(activity := a) && (a.Receiving? || a.Finished? || a.Writing?)
  {
  }

  lemma ReceiveKeeps(src: seq<Byte>, s: State, i: nat, k: nat)
    requires Inv(src, s) && Enabled(src, s, Receive(i, k))
    ensures Inv(src, SetConn(s, i, Received(src, s.conns[i], k)))
  {
    ReceivedBusy(src, s.conns[i], s.file, k);
    ReceivedActs(src, s.conns[i], k);
    ReceivingGoesOn(src, s, i, s.conns[i].(activity := Received(src, s.conns[i], k).activity));
  }

  /** A connection in the middle of a response goes on; the Resolve stream is long over. */
  lemma ReceivingGoesOn(src: seq<Byte>, s: State, i: nat, c: Conn)
    requires Inv(src, s) && i < |s.conns| && (s.conns[i].activity.Receiving? || s.conns[i].activity.Writing?)
    requires c == s.conns[i].(activity := c.activity) && Busy(src, c, s.file)
    requires c.activity.Receiving? || c.activity.Finished? || c.activity.Writing?
    ensures Inv(src, SetConn(s, i, c))
  {
    assert s.temp.None?;
    InvActs(src, s, i, c, s.fallback);
  }

  /** The bytes of an in-flight write are the right ones, wherever the write stops. */
  lemma LandGrows(src: seq<Byte>, c: Conn, file: map<int, Byte>, k: nat)
    requires Busy(src, c, file) && c.activity.Writing? && k <= |c.activity.data| && FileTrue(src, file)
    ensures Grows(src, file, file + Put(Lo(c), c.activity.data[..k]))
    ensures c.activity.landed <= k ==>
              Busy(src, c.(activity := c.activity.(landed := k)), file + Put(Lo(c), c.activity.data[..k]))
  {
    var file' := file + Put(Lo(c), c.activity.data[..k]);
    forall o | o in file' ensures Right(src, file', o) {
      if Lo(c) <= o < Lo(c) + k {
        assert c.activity.data[..k][o - Lo(c)] == c.activity.data[o - Lo(c)] == src[o];
      } else {
        assert Right(src, file, o);
      }
    }
  }

  lemma LandKeeps(src: seq<Byte>, s: State, i: nat, k: nat)
    requires Inv(src, s) && Enabled(src, s, Land(i, k))
    ensures Inv(src, DoLand(s, i, k))
  {
    var c := s.conns[i];
    var c', file' := c.(activity := c.activity.(landed := k)), s.file + Put(Lo(c), c.activity.data[..k]);
    LandGrows(src, c, s.file, k);
    UpdateWorkers(src, s, i, c', file', s.fallback);
    assert s.temp.None?;
    InvUpdate(src, s, i, c', file', s.fallback);
  }

  /** A landed write is on disk. */
  lemma CommitSettles(src: seq<Byte>, c: Conn, c': Conn, file: map<int, Byte>)
    requires Busy(src, c, file) && c.activity.Writing? && c.activity.landed == |c.activity.data| && FileTrue(src, file)
    requires Lo(c') == Lo(c) + |c.activity.data| && c'.end == c.end
    ensures Settles(src, c, c', file, 0)
  {
    forall o | Holds(c, |src|, o) ensures Holds(c', |src|, o) || Right(src, file, o) {
      if o < Lo(c) + |c.activity.data| {
        assert o in file;
      }
    }
  }

  lemma CommitKeeps(src: seq<Byte>, s: State, i: nat)
    requires Inv(src, s) && Enabled(src, s, Commit(i))
    ensures Inv(src, DoCommit(s, i))
  {
    var c, c' := s.conns[i], DoCommit(s, i).conns[i];
    CommitSettles(src, c, c', s.file);
    UpdateWorkers(src, s, i, c', s.file, s.fallback);
    assert s.temp.None?;
    InvUpdate(src, s, i, c', s.file, s.fallback);
  }

  lemma BodyEndKeeps(src: seq<Byte>, s: State, i: nat)
    requires Inv(src, s) && Enabled(src, s, BodyEnd(i))
    ensures Inv(src, SetConn(s, i, s.conns[i].(activity := Finished)))
  {
    ReceivingGoesOn(src, s, i, s.conns[i].(activity := Finished));
  }

  lemma RetireKeeps(src: seq<Byte>, s: State, i: nat)
    requires Inv(src, s) && Enabled(src, s, Retire(i))
    ensures Inv(src, Next(src, s, Retire(i)))
  {
    InvActs(src, s, i, Next(src, s, Retire(i)).conns[i], s.fallback);
  }

  lemma ExitKeeps(src: seq<Byte>, s: State, i: nat)
    requires Inv(src, s) && Enabled(src, s, Exit(i))
    ensures Inv(src, Next(src, s, Exit(i)))
  {
    InvActs(src, s, i, s.conns[i].(activity := Stopped), s.fallback);
  }

  /** The Resolve stream, still alive, is asked first. */
  lemma FailAwaits(src: seq<Byte>, s: State, cause: Failure)
    requires Inv(src, s) && Enabled(src, s, Fail(0, cause)) && s.fallback
    ensures Inv(src, s.(conns := s.conns[0 := s.conns[0].(activity := Awaiting(cause))], fallback := false))
  {
    InvActs(src, s, 0, s.conns[0].(activity := Awaiting(cause)), false);
  }

  lemma FailRetries(src: seq<Byte>, s: State, i: nat, cause: Failure)
    requires Inv(src, s) && Enabled(src, s, Fail(i, cause)) && !(i == 0 && s.fallback && cause != Exempt)
    ensures Inv(src, SetConn(s, i, AfterFailure(s.conns[i], cause)))
  {
    assert s.temp.None? || cause == Exempt;
    InvActs(src, s, i, AfterFailure(s.conns[i], cause), s.fallback);
  }

  lemma FailKeeps(src: seq<Byte>, s: State, i: nat, cause: Failure)
    requires Inv(src, s) && Enabled(src, s, Fail(i, cause))
    ensures Inv(src, DoFail(s, i, cause))
  {
    if i == 0 && s.fallback && cause != Exempt {
      FailAwaits(src, s, cause);
    } else {
      FailRetries(src, s, i, cause);
    }
  }

  lemma PrefetchKeeps(src: seq<Byte>, s: State, k: nat)
    requires Inv(src, s) && Enabled(src, s, Prefetch(k))
    ensures Inv(src, Next(src, s, Prefetch(k)))
  {
    forall o | 0 <= o < |src| && o >= s.temp.value ensures Held(s.conns, |src|, o) || Right(src, s.file, o) {
      assert Held(s.conns, |src|, o);
    }
  }

  lemma CancelKeeps(src: seq<Byte>, s: State)
    requires Inv(src, s) && Enabled(src, s, Cancel)
    ensures Inv(src, Next(src, s, Cancel))
  {
  }

  lemma AwaitCancelledKeeps(src: seq<Byte>, s: State)
    requires Inv(src, s) && Enabled(src, s, AwaitCancelled)
    ensures Inv(src, Next(src, s, AwaitCancelled))
  {
    InvActs(src, s, 0, AfterFailure(s.conns[0], s.conns[0].activity.cause), s.fallback);
  }

  /** The copied prefix of the Resolve stream is right, and it is all the file holds. */
  lemma PrefixGrows(src: seq<Byte>, s: State, m: nat)
    requires Inv(src, s) && s.temp.Some? && m <= |src|
    ensures Grows(src, s.file, s.file + Put(0, src[..m]))
    ensures AllBelow(s.file + Put(0, src[..m]), m)
    ensures forall o :: 0 <= o < m ==> Right(src, s.file + Put(0, src[..m]), o)
  {
  }

  /** The only connection of a download whose Resolve stream is still alive is replaced. */
  lemma TakeoverKeeps(src: seq<Byte>, s: State, c: Conn, size: int, m: nat)
    requires Inv(src, s) && s.temp == Some(m)
    requires size == |src| || (size == s.size && (c.end.None? ==> size == 0))
    requires 0 <= c.begin && 0 <= c.got && Lo(c) == m <= Hi(c, |src|) == |src|
    requires c.end.None? ==> size == 0
    requires c.total == m
    requires c.completed <==> c.state == Completed
    requires c.completed ==> c.activity == Stopped && c.end.Some? && Remain(c, |src|) == 0
    requires Busy(src, c, map[]) && c.steals == 0 && !c.activity.Awaiting?
    requires s.active && c.activity == Stopped && !c.completed ==> c.state == Failed && c.failed
    ensures Inv(src, s.(size := size, conns := s.conns[0 := c], temp := None, fallback := false,
                        file := s.file + Put(0, src[..m])))
  {
    var s' := s.(size := size, conns := s.conns[0 := c], temp := None, fallback := false,
                 file := s.file + Put(0, src[..m]));
    PrefixGrows(src, s, m);
    RightGrows(src, s.file, s'.file);
    CoreUpdate(src, s.size, size, s.conns, 0, c, s.file, s'.file, m, 0);
    BusyGrows(src, c, map[], s'.file);
    if s.saved.Some? {
      ResumableGrows(src, s, s', s.saved.value);
    }
  }

  /** The first validated range response takes over from the Resolve stream. */
  lemma RespondTakesOver(src: seq<Byte>, s: State)
    requires Inv(src, s) && Enabled(src, s, Respond(0)) && s.fallback
    ensures Inv(src, DoRespond(src, s, 0))
  {
    var s' := DoRespond(src, s, 0);
    TakeoverKeeps(src, s, s'.conns[0], s'.size, s.temp.value);
  }

  /** An open-ended chunk learns its end from the response. */
  lemma RespondSizes(src: seq<Byte>, s: State, i: nat)
    requires Inv(src, s) && Enabled(src, s, Respond(i)) && !(i == 0 && s.fallback)
    requires s.conns[i].end.None?
    ensures Inv(src, DoRespond(src, s, i))
  {
    var s' := DoRespond(src, s, i);
    assert s.temp.None?;
    CoreUpdate(src, s.size, |src|, s.conns, i, s'.conns[i], s.file, s.file, Excused(s), Excused(s));
  }

  lemma RespondPlain(src: seq<Byte>, s: State, i: nat)
    requires Inv(src, s) && Enabled(src, s, Respond(i)) && !(i == 0 && s.fallback)
    requires s.conns[i].end.Some?
    ensures Inv(src, DoRespond(src, s, i))
  {
    assert s.temp.None?;
    InvActs(src, s, i, DoRespond(src, s, i).conns[i], s.fallback);
  }

  lemma RespondKeeps(src: seq<Byte>, s: State, i: nat)
    requires Inv(src, s) && Enabled(src, s, Respond(i))
    ensures Inv(src, DoRespond(src, s, i))
  {
    if i == 0 && s.fallback {
      RespondTakesOver(src, s);
    } else if s.conns[i].end.None? {
      RespondSizes(src, s, i);
    } else {
      RespondPlain(src, s, i);
    }
  }

  lemma ResolveWinsKeeps(src: seq<Byte>, s: State)
    requires Inv(src, s) && Enabled(src, s, ResolveWins)
    ensures Inv(src, DoResolveWins(src, s))
  {
    assert src[..|src|] == src;
    var s' := DoResolveWins(src, s);
    TakeoverKeeps(src, s, s'.conns[0], |src|, |src|);
  }

  lemma PauseNothing(src: seq<Byte>, s: State)
    requires Inv(src, s) && AllStopped(s.conns) && s.temp == Some(0) && !s.active
    ensures Inv(src, s.(temp := None, fallback := false))
  {
    assert s.conns == s.conns[0 := s.conns[0]];
    assert s.file + Put(0, src[..0]) == s.file;
    TakeoverKeeps(src, s, s.conns[0], s.size, 0);
  }

  lemma PausePrefix(src: seq<Byte>, s: State, m: nat)
    requires Inv(src, s) && AllStopped(s.conns) && s.temp == Some(m) && 0 < m && !s.active
    ensures Inv(src, DoPauseDone(src, s))
  {
    TakeoverKeeps(src, s, DoPauseDone(src, s).conns[0], s.size, m);
  }

  lemma PauseDoneKeeps(src: seq<Byte>, s: State)
    requires Inv(src, s) && Enabled(src, s, PauseDone)
    ensures Inv(src, DoPauseDone(src, s))
  {
    if s.temp.Some? && s.temp.value > 0 {
      PausePrefix(src, s, s.temp.value);
    } else if s.temp.Some? {
      PauseNothing(src, s);
    }
  }

  /** While the Resolve stream is alive, everything from `p0` on is held by the only connection. */
  lemma OrphanCore(src: seq<Byte>, s: State)
    requires Inv(src, s) && s.temp.Some?
    ensures Core(src, s.size, s.conns, s.file, s.p0)
  {
    forall o | s.p0 <= o < |src| ensures Held(s.conns, |src|, o) {
      assert Holds(s.conns[0], |src|, o);
    }
  }

  lemma ResolveLostWorkers(src: seq<Byte>, s: State, c: Conn)
    requires Workers(src, s) && |s.conns| == 1 && !s.conns[0].completed && s.conns[0].activity.Awaiting?
    requires c == AfterFailure(s.conns[0], s.conns[0].activity.cause)
    ensures Workers(src, DoResolveLost(s))
    ensures !c.completed && (c.activity.Stopped? || c.activity.Idle?)
  {
    assert DoResolveLost(s).conns == [c];
  }

  /** Throwing the prefetch file away costs exactly the bytes before the first chunk. */
  lemma ResolveLostKeeps(src: seq<Byte>, s: State)
    requires Inv(src, s) && Enabled(src, s, ResolveLost)
    ensures Inv(src, DoResolveLost(s))
  {
    var c := AfterFailure(s.conns[0], s.conns[0].activity.cause);
    assert s.temp.Some?;
    OrphanCore(src, s);
    ReshapeCore(src, s.size, s.conns, s.conns[0 := c], s.file, s.p0);
    ResolveLostWorkers(src, s, c);
  }

  // ---- Splitting and stealing ----

  /** What a shrunk owner keeps is at least LEFT_BEHIND bytes, so its in-flight write still fits. */
  lemma ShrinkIsSafe(src: seq<Byte>, c: Conn, file: map<int, Byte>, end: int)
    requires Busy(src, c, file) && StealBudget(c) && c.end.Some?
    requires end < c.end.value && end + 1 - Lo(c) >= LEFT_BEHIND
    ensures Busy(src, c.(end := Some(end)), file)
    ensures StealBudget(c.(end := Some(end)))
    ensures c.activity.Writing? ==> Lo(c) + |c.activity.data| <= end + 1
  {
  }

  /** What `c` holds is cut in two; `a` keeps the front and `b` takes the rest. */
  ghost predicate Halves(c: Conn, a: Conn, b: Conn, n: int) {
    && Lo(a) == Lo(c) <= Hi(a, n) == Lo(b) <= Hi(b, n) == Hi(c, n)
    && a == c.(end := a.end) && a.end.Some? && b.end.Some? && 0 <= b.begin && b.got == 0
    && !b.completed && b.state != Completed
  }

  lemma SplitIs(conns: seq<Conn>, n: int, v: nat) returns (a: Conn, b: Conn)
    requires v < |conns| && Splittable(conns[v])
    requires 0 <= conns[v].begin && 0 <= conns[v].got
    ensures Split(conns, v) == conns[v := a] + [b]
    ensures Halves(conns[v], a, b, n)
    ensures b == Fresh(b.begin, conns[v].end, 0)
    ensures a.end.value < conns[v].end.value && Remain(a, n) >= LEFT_BEHIND
  {
    a, b := Split(conns, v)[v], Split(conns, v)[|conns|];
  }

  lemma HalvesApart(c: Conn, a: Conn, b: Conn, d: Conn, n: int)
    requires Halves(c, a, b, n) && Apart(c, d, n)
    ensures Apart(a, d, n) && Apart(d, a, n) && Apart(b, d, n) && Apart(d, b, n)
  {
  }

  lemma SplitDisjoint(conns: seq<Conn>, n: int, v: nat, a: Conn, b: Conn)
    requires v < |conns| && Halves(conns[v], a, b, n) && Disjoint(conns, n)
    ensures Disjoint(conns[v := a] + [b], n)
  {
    var next := conns[v := a] + [b];
    forall i, j | 0 <= i < |next| && 0 <= j < |next| && i != j ensures Apart(next[i], next[j], n) {
      if i < |conns| && i != v {
        assert Apart(conns[v], conns[i], n);
        HalvesApart(conns[v], a, b, conns[i], n);
      }
      if j < |conns| && j != v {
        assert Apart(conns[v], conns[j], n);
        HalvesApart(conns[v], a, b, conns[j], n);
      }
      if i < |conns| && j < |conns| {
        assert Apart(conns[i], conns[j], n);
      }
    }
  }

  lemma SplitHeld(conns: seq<Conn>, n: int, v: nat, a: Conn, b: Conn, o: int)
    requires v < |conns| && Halves(conns[v], a, b, n)
    ensures Held(conns, n, o) <==> Held(conns[v := a] + [b], n, o)
  {
    var next := conns[v := a] + [b];
    if Held(conns, n, o) {
      var i :| 0 <= i < |conns| && Holds(conns[i], n, o);
      assert Holds(next[i], n, o) || Holds(next[|conns|], n, o);
    }
    if Held(next, n, o) {
      var i :| 0 <= i < |next| && Holds(next[i], n, o);
      assert Holds(conns[if i == |conns| then v else i], n, o);
    }
  }

  lemma SplitSums(conns: seq<Conn>, n: int, v: nat, a: Conn, b: Conn)
    requires v < |conns| && Halves(conns[v], a, b, n) && Conserved(conns, n) && b.total == 0
    ensures Conserved(conns[v := a] + [b], n)
  {
    SumsUpdate(conns, v, a, n);
    SumsAppend(conns[v := a], b, n);
  }

  lemma SplitCore(src: seq<Byte>, size: int, conns: seq<Conn>, file: map<int, Byte>, prefix: int,
                  v: nat, a: Conn, b: Conn)
    requires Core(src, size, conns, file, prefix) && v < |conns| && Halves(conns[v], a, b, |src|)
    requires b.total == 0 && conns[v].end.Some?
    ensures Core(src, size, conns[v := a] + [b], file, prefix)
  {
    SplitSums(conns, |src|, v, a, b);
    SplitDisjoint(conns, |src|, v, a, b);
    forall o ensures Held(conns, |src|, o) <==> Held(conns[v := a] + [b], |src|, o) {
      SplitHeld(conns, |src|, v, a, b, o);
    }
  }

  /** The connections are rearranged; the disk and the Resolve stream are not touched. */
  lemma Rearranged(src: seq<Byte>, s: State, next: seq<Conn>, active: bool)
    requires Inv(src, s)
    requires Core(src, s.size, next, s.file, Excused(s))
    requires Workers(src, s.(conns := next, active := active))
    requires Resolving(s.(conns := next, active := active), |src|)
    requires s.lost ==> NothingBelow(next, s.file, s.p0)
    ensures Inv(src, s.(conns := next, active := active))
  {
  }

  lemma SplitWorkers(src: seq<Byte>, s: State, v: nat, a: Conn, b: Conn)
    requires Workers(src, s) && v < |s.conns| && s.conns[v].end.Some? && s.temp.None?
    requires Halves(s.conns[v], a, b, |src|) && a.end.value < s.conns[v].end.value && Remain(a, |src|) >= LEFT_BEHIND
    requires b == Fresh(b.begin, s.conns[v].end, 0)
    ensures Workers(src, s.(conns := s.conns[v := a] + [b]))
  {
    ShrinkIsSafe(src, s.conns[v], s.file, a.end.value);
  }

  lemma SplitKeeps(src: seq<Byte>, s: State, v: nat)
    requires Inv(src, s) && s.temp.None?
    requires v < |s.conns| && Splittable(s.conns[v])
    ensures Inv(src, s.(conns := Split(s.conns, v)))
  {
    var a, b := SplitIs(s.conns, |src|, v);
    SplitCore(src, s.size, s.conns, s.file, Excused(s), v, a, b);
    SplitWorkers(src, s, v, a, b);
    Rearranged(src, s, s.conns[v := a] + [b], s.active);
  }

  /** A chain of splits that leads from `conns` to the result of an expansion. */
  lemma {:induction false} ExpandChain(conns: seq<Conn>, batch: nat) returns (chain: seq<seq<Conn>>, picks: seq<nat>)
    ensures |chain| == |picks| + 1 && |picks| <= batch
    ensures chain[0] == conns && chain[|picks|] == ExpandBy(conns, batch)
    ensures forall k :: 0 <= k < |picks| ==>
      picks[k] < |chain[k]| && Splittable(chain[k][picks[k]]) && chain[k + 1] == Split(chain[k], picks[k])
    decreases batch
  {
    var v := if batch == 0 then None else MostWork(conns, |conns|);
    if v.None? {
      chain, picks := [conns], [];
    } else {
      var rest, others := ExpandChain(Split(conns, v.value), batch - 1);
      chain, picks := [conns] + rest, [v.value] + others;
    }
  }

  lemma ExpandKeeps(src: seq<Byte>, s: State, batch: nat)
    requires Inv(src, s) && s.temp.None?
    ensures Inv(src, s.(conns := ExpandBy(s.conns, batch)))
  {
    var chain, picks := ExpandChain(s.conns, batch);
    var t := s;
    for k := 0 to |picks|
      invariant t == s.(conns := chain[k])
      invariant Inv(src, t)
    {
      SplitKeeps(src, t, picks[k]);
      t := t.(conns := chain[k + 1]);
    }
  }

  lemma StealIs(conns: seq<Conn>, n: int, h: nat, v: nat) returns (a: Conn, b: Conn)
    requires h < |conns| && v < |conns| && h != v && Stealable(conns[v])
    requires 0 <= conns[v].begin && 0 <= conns[v].got
    requires !conns[h].completed && conns[h].state != Completed
    ensures StealFrom(conns, h, v) == conns[h := b][v := a]
    ensures Halves(conns[v], a, b, n) && b.total == conns[h].total
    ensures b.activity == Idle && b.steals == conns[h].steals + 1
    ensures conns[v].begin <= b.begin && b.state == conns[h].state
    ensures a.end.value < conns[v].end.value && Remain(a, n) >= LEFT_BEHIND && Remain(b, n) > LEFT_BEHIND
  {
    a, b := StealFrom(conns, h, v)[v], StealFrom(conns, h, v)[h];
  }

  lemma StealDisjoint(conns: seq<Conn>, n: int, h: nat, v: nat, a: Conn, b: Conn)
    requires h < |conns| && v < |conns| && h != v && Halves(conns[v], a, b, n) && Disjoint(conns, n)
    ensures Disjoint(conns[h := b][v := a], n)
  {
    var next := conns[h := b][v := a];
    forall i, j | 0 <= i < |next| && 0 <= j < |next| && i != j ensures Apart(next[i], next[j], n) {
      if i != v {
        assert Apart(conns[v], conns[i], n);
        HalvesApart(conns[v], a, b, conns[i], n);
      }
      if j != v {
        assert Apart(conns[v], conns[j], n);
        HalvesApart(conns[v], a, b, conns[j], n);
      }
      assert Apart(conns[i], conns[j], n);
    }
  }

  lemma StealHeld(conns: seq<Conn>, n: int, h: nat, v: nat, a: Conn, b: Conn, o: int)
    requires h < |conns| && v < |conns| && h != v && Halves(conns[v], a, b, n)
    requires Remain(conns[h], n) == 0
    ensures Held(conns, n, o) <==> Held(conns[h := b][v := a], n, o)
  {
    var next := conns[h := b][v := a];
    if Held(conns, n, o) {
      var i :| 0 <= i < |conns| && Holds(conns[i], n, o);
      assert Holds(next[i], n, o) || Holds(next[h], n, o);
    }
    if Held(next, n, o) {
      var i :| 0 <= i < |next| && Holds(next[i], n, o);
      assert Holds(conns[if i == h then v else i], n, o);
    }
  }

  lemma StealSums(conns: seq<Conn>, n: int, h: nat, v: nat, a: Conn, b: Conn)
    requires h < |conns| && v < |conns| && h != v && Halves(conns[v], a, b, n)
    requires Remain(conns[h], n) == 0 && b.total == conns[h].total && Conserved(conns, n)
    ensures Conserved(conns[h := b][v := a], n)
  {
    SumsUpdate(conns, h, b, n);
    SumsUpdate(conns[h := b], v, a, n);
  }

  lemma StealCore(src: seq<Byte>, size: int, conns: seq<Conn>, file: map<int, Byte>, prefix: int,
                  h: nat, v: nat, a: Conn, b: Conn)
    requires Core(src, size, conns, file, prefix) && h < |conns| && v < |conns| && h != v
    requires Halves(conns[v], a, b, |src|) && conns[v].end.Some?
    requires Remain(conns[h], |src|) == 0 && b.total == conns[h].total
    ensures Core(src, size, conns[h := b][v := a], file, prefix)
  {
    StealSums(conns, |src|, h, v, a, b);
    StealDisjoint(conns, |src|, h, v, a, b);
    forall o ensures Held(conns, |src|, o) <==> Held(conns[h := b][v := a], |src|, o) {
      StealHeld(conns, |src|, h, v, a, b, o);
    }
  }

  lemma StealWorkers(src: seq<Byte>, s: State, h: nat, v: nat, a: Conn, b: Conn)
    requires Workers(src, s) && h < |s.conns| && v < |s.conns| && h != v
    requires s.conns[h].activity == Finished && s.conns[v].end.Some?
    requires Halves(s.conns[v], a, b, |src|) && a.end.value < s.conns[v].end.value
    requires Remain(a, |src|) >= LEFT_BEHIND && Remain(b, |src|) > LEFT_BEHIND
    requires b.total == s.conns[h].total && b.activity == Idle && b.steals == s.conns[h].steals + 1
    ensures Workers(src, s.(conns := s.conns[h := b][v := a]))
  {
    ShrinkIsSafe(src, s.conns[v], s.file, a.end.value);
  }

  lemma StealKeeps(src: seq<Byte>, s: State, h: nat, v: nat)
    requires Inv(src, s) && Enabled(src, s, Steal(h, v))
    ensures Inv(src, Next(src, s, Steal(h, v)))
  {
    var a, b := StealIs(s.conns, |src|, h, v);
    StealCore(src, s.size, s.conns, s.file, Excused(s), h, v, a, b);
    StealWorkers(src, s, h, v, a, b);
    Rearranged(src, s, s.conns[h := b][v := a], s.active);
  }

  // ---- Persistence ----

  /** Ranges, tiling and conservation do not depend on what a connection is doing. */
  lemma ReshapeCore(src: seq<Byte>, size: int, conns: seq<Conn>, next: seq<Conn>, file: map<int, Byte>, prefix: int)
    requires Core(src, size, conns, file, prefix) && |next| == |conns|
    requires forall i :: 0 <= i < |conns| ==>
      && next[i].begin == conns[i].begin && next[i].end == conns[i].end && next[i].got == conns[i].got
      && next[i].total == conns[i].total
    requires Marks(next, |src|)
    ensures Core(src, size, next, file, prefix)
  {
    SumsSame(conns, next, |src|);
    forall o | Held(conns, |src|, o) ensures Held(next, |src|, o) {
      var i :| 0 <= i < |conns| && Holds(conns[i], |src|, o);
      assert Holds(next[i], |src|, o);
    }
    forall a, b | 0 <= a < |next| && 0 <= b < |next| && a != b ensures Apart(next[a], next[b], |src|) {
      assert Apart(conns[a], conns[b], |src|);
    }
  }

  lemma ResumeWorkers(src: seq<Byte>, s: State, afterError: bool)
    requires Workers(src, s) && AllStopped(s.conns)
    requires forall i :: 0 <= i < |s.conns| ==> (s.conns[i].completed <==> s.conns[i].state == Completed)
    ensures Workers(src, s.(conns := ResumeAll(s.conns, afterError), active := true))
  {
  }

  lemma ResumeKeeps(src: seq<Byte>, s: State, afterError: bool)
    requires Inv(src, s) && Enabled(src, s, Resume(afterError))
    ensures Inv(src, Next(src, s, Resume(afterError)))
  {
    var next := ResumeAll(s.conns, afterError);
    ReshapeCore(src, s.size, s.conns, next, s.file, Excused(s));
    ResumeWorkers(src, s, afterError);
    Rearranged(src, s, next, true);
  }

  lemma SnapshotResumable(src: seq<Byte>, s: State, snap: Snapshot, prefix: int)
    requires Inv(src, s) && snap == DoStore(s).saved.value
    requires prefix == if s.temp.Some? then s.p0 else Excused(s)
    requires Core(src, snap.size, snap.conns, s.file, prefix)
    ensures Resumable(src, s, snap)
  {
  }

  lemma StoreKeeps(src: seq<Byte>, s: State)
    requires Inv(src, s)
    ensures Inv(src, DoStore(s))
  {
    var snap := DoStore(s).saved.value;
    var prefix := if s.temp.Some? then s.p0 else Excused(s);
    if s.temp.Some? {
      OrphanCore(src, s);
    }
    ReshapeCore(src, s.size, s.conns, snap.conns, s.file, prefix);
    SnapshotResumable(src, s, snap, prefix);
    assert Resumable(src, DoStore(s), snap);
  }

  lemma CrashKeeps(src: seq<Byte>, s: State)
    requires Inv(src, s) && Enabled(src, s, Crash)
    ensures Inv(src, DoCrash(s))
  {
    var snap := s.saved.value;
    if snap.orphan && PrefixOnDisk(s) {
      forall o | 0 <= o < s.p0 ensures Right(src, s.file, o) {
        assert o in s.file;
      }
    }
  }

  // ---- The main theorem ----

  predicate OfWrite(step: Step) {
    step.Request? || step.Receive? || step.Land? || step.Commit? || step.BodyEnd?
  }

  predicate OfConnection(step: Step) {
    step.Respond? || step.Steal? || step.Retire? || step.Fail? || step.Exit?
  }

  predicate OfResolve(step: Step) {
    step.Prefetch? || step.ResolveWins? || step.ResolveLost? || step.AwaitCancelled?
  }

  /** The steps of the read and write loop. */
  lemma WriteStepKeeps(src: seq<Byte>, s: State, step: Step)
    requires Inv(src, s) && Enabled(src, s, step) && OfWrite(step)
    ensures Inv(src, Next(src, s, step))
  {
    match step
    case Request(i) => RequestKeeps(src, s, i);
    case Receive(i, k) => ReceiveKeeps(src, s, i, k);
    case Land(i, k) => LandKeeps(src, s, i, k);
    case Commit(i) => CommitKeeps(src, s, i);
    case BodyEnd(i) => BodyEndKeeps(src, s, i);
  }

  /** The other steps of one connection. */
  lemma ConnectionStepKeeps(src: seq<Byte>, s: State, step: Step)
    requires Inv(src, s) && Enabled(src, s, step) && OfConnection(step)
    ensures Inv(src, Next(src, s, step))
  {
    match step
    case Respond(i) => RespondKeeps(src, s, i);
    case Steal(i, v) => StealKeeps(src, s, i, v);
    case Retire(i) => RetireKeeps(src, s, i);
    case Fail(i, cause) => FailKeeps(src, s, i, cause);
    case Exit(i) => ExitKeeps(src, s, i);
  }

  lemma ResolveStepKeeps(src: seq<Byte>, s: State, step: Step)
    requires Inv(src, s) && Enabled(src, s, step) && OfResolve(step)
    ensures Inv(src, Next(src, s, step))
  {
    match step
    case Prefetch(k) => PrefetchKeeps(src, s, k);
    case ResolveWins => ResolveWinsKeeps(src, s);
    case ResolveLost => ResolveLostKeeps(src, s);
    case AwaitCancelled => AwaitCancelledKeeps(src, s);
  }

  lemma LifecycleStepKeeps(src: seq<Byte>, s: State, step: Step)
    requires Inv(src, s) && Enabled(src, s, step) && !OfWrite(step) && !OfConnection(step) && !OfResolve(step)
    ensures Inv(src, Next(src, s, step))
  {
    match step
    case Expand(batch) => ExpandKeeps(src, s, batch);
    case Cancel => CancelKeeps(src, s);
    case PauseDone => PauseDoneKeeps(src, s);
    case Resume(afterError) => ResumeKeeps(src, s, afterError);
    case Store => StoreKeeps(src, s);
    case Crash => CrashKeeps(src, s);
  }

  lemma StepKeeps(src: seq<Byte>, s: State, step: Step)
    requires Inv(src, s) && Enabled(src, s, step)
    ensures Inv(src, Next(src, s, step))
  {
    if OfWrite(step) {
      WriteStepKeeps(src, s, step);
    } else if OfConnection(step) {
      ConnectionStepKeeps(src, s, step);
    } else if OfResolve(step) {
      ResolveStepKeeps(src, s, step);
    } else {
      LifecycleStepKeeps(src, s, step);
    }
  }

  lemma StartHolds(src: seq<Byte>, s: State)
    requires Start(src, s)
    ensures Inv(src, s)
  {
    forall o | 0 <= o < |src| && s.p0 <= o ensures Held(s.conns, |src|, o) {
      assert Holds(s.conns[0], |src|, o);
    }
  }

  /** Every state of every interleaving satisfies the invariant. */
  lemma {:induction false} EveryRun(src: seq<Byte>, run: seq<State>, steps: seq<Step>, k: nat)
    requires IsRun(src, run, steps) && k < |run|
    ensures Inv(src, run[k])
  {
    if k == 0 {
      StartHolds(src, run[0]);
    } else {
      EveryRun(src, run, steps, k - 1);
      assert run[k - 1 + 1] == Next(src, run[k - 1], steps[k - 1]);
      StepKeeps(src, run[k - 1], steps[k - 1]);
    }
  }
}
