/**
 The fetcher's own code: connections are objects whose fields the goroutines update under the
 lock. Every method is one critical section (or one loop inside one) and is proved against the
 function of `RangeModel` that the transition system takes for it.
 */
module RangeFetcher {
  import opened Base
  import opened RangeDecisions
  import opened RangeModel
  import opened RangeProofs
  import opened SlowStart

  class Connection {
    var begin: int
    var end: Option<int>
    var got: int
    var total: int
    var state: ConnState
    var completed: bool
    var failed: bool
    var err: Option<Failure>
    var retries: int
    var speed: int
    ghost var activity: Activity
    ghost var steals: int

    constructor (begin: int, end: Option<int>, total: int)
      ensures Value() == Fresh(begin, end, total) && speed == 0
    {
      this.begin, this.end, this.got, this.total := begin, end, 0, total;
      state, completed, failed, err, retries, speed := NotStarted, false, false, None, 0, 0;
      activity, steals := Idle, 0;
    }

    ghost function Value(): Conn
      reads this
    {
      Conn(begin, end, got, total, state, completed, failed, err, retries, activity, steals)
    }

    function Remaining(): int
      requires end.Some?
      reads this
    {
      end.value - begin + 1 - got
    }
  }

  ghost predicate Distinct(conns: seq<Connection>) {
    forall i, j :: 0 <= i < |conns| && 0 <= j < |conns| && i != j ==> conns[i] != conns[j]
  }

  ghost function View(conns: seq<Connection>): (v: seq<Conn>)
    reads conns
    ensures |v| == |conns|
    ensures forall i :: 0 <= i < |conns| ==> v[i] == conns[i].Value()
  {
    seq(|conns|, i requires 0 <= i < |conns| reads conns => conns[i].Value())
  }

  class Fetcher {
    var connections: seq<Connection>
    var size: int
    var resolveDataPos: int
    var resolveFallback: bool
    var steady: bool
    var done: bool
    var file: map<int, Byte>       // the target file
    var temp: Option<int>          // the length of the prefetch file while it exists
    var active: bool               // the context of this cycle is not cancelled
    ghost var p0: int
    ghost var lost: bool
    ghost var saved: Option<Snapshot>
    const slowStart: SlowStartController
    ghost var Repr: set<Connection>

    ghost predicate Valid()
      reads this, slowStart
    {
      && Distinct(connections) && slowStart.Valid()
      && Repr == set c | c in connections
    }

    /** The fetcher as the transition system sees it. */
    ghost function Abstract(): State
      reads this, connections
    {
      State(size, View(connections), file, temp, resolveFallback, p0, lost, active, saved)
    }

    /** A started download whose Resolve prefix is (`temp`) or was (`file`) downloaded that far. */
    constructor (size: int, prefetched: int, file: map<int, Byte>, temp: Option<int>, maxConnections: nat)
      requires maxConnections >= 1
      ensures Valid() && connections == [] && fresh(slowStart)
      ensures this.size == size && resolveDataPos == prefetched && resolveFallback == temp.Some?
      ensures this.file == file && this.temp == temp && active && !done
      ensures p0 == prefetched && !lost && saved == None
      ensures slowStart.totalLaunched == 0 && slowStart.commits == 0 && !slowStart.paused
      ensures slowStart.maxConnections == maxConnections
    {
      connections, this.size, resolveDataPos, resolveFallback := [], size, prefetched, temp.Some?;
      steady, done, Repr := false, false, {};
      this.file, this.temp, active := file, temp, true;
      p0, lost, saved := prefetched, false, None;
      slowStart := new SlowStartController(maxConnections);
    }

    /** The first chunk covers everything the Resolve stream has not delivered yet. */
    method LaunchFirst()
      requires Valid() && connections == [] && slowStart.totalLaunched == 0
      modifies this, slowStart
      ensures Valid() && size == old(size) && resolveDataPos == old(resolveDataPos)
      ensures resolveFallback == old(resolveFallback)
      ensures done <==> old(done) || (size > 0 && resolveDataPos >= size)
      ensures !(size > 0 && resolveDataPos >= size) ==>
        && |connections| == 1 && fresh(connections[0])
        && View(connections) == [Fresh(resolveDataPos, if size > 0 then Some(size - 1) else None, resolveDataPos)]
      ensures slowStart.totalLaunched == |connections|
    {
      if size > 0 && resolveDataPos >= size {
        done := true;
        return;
      }
      var conn := new Connection(resolveDataPos, if size > 0 then Some(size - 1) else None, resolveDataPos);
      connections := [conn];
      Repr := {conn};
      slowStart.CommitBatch(1);
    }

    /** The scan for the connection with the most work left. */
    method FindMostWork() returns (best: Option<nat>)
      requires Valid()
      ensures best == MostWork(View(connections), |connections|)
    {
      best := None;
      var maxRemain := 0;
      for k := 0 to |connections|
        invariant best == MostWork(View(connections), k)
        invariant best.Some? ==> maxRemain == Remain(View(connections)[best.value], 0)
        invariant best.None? ==> maxRemain == 0
      {
        var conn := connections[k];
        if conn.completed || conn.state == Failed {
          continue;
        }
        if conn.end.None? {
          continue;
        }
        var remain := conn.Remaining();
        if remain > maxRemain && remain > STEAL_MIN * 2 {
          best := Some(k);
          maxRemain := remain;
        }
      }
    }

    /** One split of the loop below: `v` keeps its first half, a new connection gets the rest. */
    method SplitConnection(v: nat)
      requires Valid() && v < |connections| && connections[v].end.Some?
      modifies this`connections, this`Repr, Repr
      ensures Valid() && |connections| == |old(connections)| + 1
      ensures old(connections) <= connections
      ensures fresh(Repr - old(Repr))
      ensures View(connections) == Split(old(View(connections)), v)
    {
      var victim := connections[v];
      ghost var was := View(connections);
      var chunkEnd := victim.end.value;
      assert victim.Remaining() == Remain(was[v], 0);
      var splitPoint := chunkEnd - victim.Remaining() / 2;
      victim.end := Some(splitPoint);
      assert View(connections) == was[v := was[v].(end := Some(splitPoint))];
      var conn := new Connection(splitPoint + 1, Some(chunkEnd), 0);
      connections := connections + [conn];
      Repr := Repr + {conn};
      assert View(connections) == was[v := was[v].(end := Some(splitPoint))] + [conn.Value()];
    }

    /** One round of the loop over a batch. */
    method SplitBusiest() returns (split: bool)
      requires Valid()
      modifies this`connections, this`Repr, Repr
      ensures Valid() && old(connections) <= connections
      ensures fresh(Repr - old(Repr))
      ensures |connections| == |old(connections)| + if split then 1 else 0
      ensures split ==> SplitsTo(old(View(connections)), View(connections))
      ensures !split ==> unchanged(this) && unchanged(connections)
      ensures !split ==> MostWork(View(connections), |connections|).None?
    {
      var busiest := FindMostWork();
      split := busiest.Some?;
      if split {
        SplitConnection(busiest.value);
      }
    }

    /** The loop over one batch: it stops early when nobody has enough work left to split. */
    method SplitBatch(batchSize: nat) returns (launched: nat)
      requires Valid()
      modifies this`connections, this`Repr, Repr
      ensures Valid() && launched <= batchSize && |connections| == |old(connections)| + launched
      ensures old(connections) <= connections
      ensures fresh(Repr - old(Repr))
      ensures View(connections) == ExpandBy(old(View(connections)), batchSize)
    {
      launched := 0;
      ghost var chain := [View(connections)];
      var more := true;
      while launched < batchSize && more
        invariant Valid() && launched <= batchSize && |connections| == |old(connections)| + launched
        invariant old(connections) <= connections
        invariant fresh(Repr - old(Repr))
        invariant |chain| == launched + 1 && chain[0] == old(View(connections)) && chain[launched] == View(connections)
        invariant forall k :: 0 <= k < launched ==> SplitsTo(chain[k], chain[k + 1])
        invariant !more ==> MostWork(View(connections), |connections|).None?
        decreases batchSize - launched, more
      {
        more := SplitBusiest();
        if more {
          launched := launched + 1;
          chain := chain + [View(connections)];
        }
      }
      ChainIsExpansion(chain, batchSize);
    }

    /**
     A batch of connections is carved out of the busiest ones. On a fresh range download the
     controller's count of launched connections is the number of connections.
     */
    method ExpandConnections() returns (launched: nat)
      requires Valid() && connections != [] && slowStart.totalLaunched == |connections|
      modifies this`connections, this`Repr, this`steady, Repr, slowStart
      ensures Valid() && slowStart.totalLaunched == |connections| == |old(connections)| + launched
      ensures old(connections) <= connections
      ensures fresh(Repr - old(Repr))
      ensures View(connections) == ExpandBy(old(View(connections)), old(slowStart.NextBatch()))
      ensures launched <= old(slowStart.NextBatch())
      ensures steady <==> old(steady) || launched == 0
    {
      var batchSize := slowStart.GetNextBatchSize();
      if batchSize <= 0 {
        steady := true;
        return 0;
      }
      launched := SplitBatch(batchSize);
      if launched == 0 {
        steady := true;
        return;
      }
      slowStart.CommitBatch(launched);
    }

    // ---- Work stealing ----

    /** How long a connection still needs, as far as its measured speed tells. */
    ghost function Needed(v: nat): int
      requires v < |connections|
      reads this, connections
    {
      var remain := Remain(connections[v].Value(), 0);
      if connections[v].speed > 0 && remain >= 0 then remain / connections[v].speed else 4
    }

    ghost predicate Victim(v: nat, helper: nat)
      requires v < |connections|
      reads this, connections
    {
      v != helper && Stealable(connections[v].Value()) && Needed(v) > 3
    }

    /** The scan for the connection that would need longest to finish on its own. */
    method FindSlowest(helper: nat) returns (slowest: Option<nat>)
      requires Valid() && helper < |connections|
      ensures slowest.Some? ==> slowest.value < |connections| && Victim(slowest.value, helper)
      ensures forall k :: 0 <= k < |connections| && Victim(k, helper) ==>
        slowest.Some? && Needed(k) <= Needed(slowest.value)
    {
      slowest := None;
      var maxRemainSeconds := 0;
      for k := 0 to |connections|
        invariant slowest.Some? ==> slowest.value < k && Victim(slowest.value, helper)
        invariant slowest.Some? ==> maxRemainSeconds == Needed(slowest.value)
        invariant slowest.None? ==> maxRemainSeconds == 0
        invariant forall j :: 0 <= j < k && Victim(j, helper) ==>
          && slowest.Some?
          && Needed(j) <= maxRemainSeconds
      {
        var r := connections[k];
        if k == helper || r.completed || r.state == Failed {
          continue;
        }
        if r.end.None? {
          continue;
        }
        var remain := r.Remaining();
        if remain < STEAL_MIN {
          continue;
        }
        var remainSeconds := if r.speed > 0 then remain / r.speed else 3 + 1;
        if remainSeconds > 3 && remainSeconds > maxRemainSeconds {
          slowest := Some(k);
          maxRemainSeconds := remainSeconds;
        }
      }
    }

    /** The second half of what `v` still has to do becomes the helper's chunk. */
    method TakeHalf(helper: nat, v: nat)
      requires Valid() && helper < |connections| && v < |connections| && v != helper
      requires connections[v].end.Some?
      modifies Repr
      ensures View(connections) == StealFrom(old(View(connections)), helper, v)
    {
      var victim, h := connections[v], connections[helper];
      assert victim.Remaining() == Remain(View(connections)[v], 0);
      var chunkEnd := victim.end.value;
      h.begin := chunkEnd - victim.Remaining() / 2;
      h.end := Some(chunkEnd);
      h.got := 0;
      victim.end := Some(h.begin - 1);
      h.retries := 0;
      h.activity, h.steals := Idle, h.steals + 1;
    }

    /** A finished connection helps the slowest one, if any is worth helping. */
    method HelpOtherConnection(helper: nat) returns (helped: bool)
      requires Valid() && helper < |connections|
      modifies Repr
      ensures !helped ==> unchanged(connections)
      ensures !helped ==> forall v :: 0 <= v < |connections| ==> !Victim(v, helper)
      ensures helped ==> exists v: nat ::
        && v < |connections| && old(Victim(v, helper))
        && View(connections) == StealFrom(old(View(connections)), helper, v)
    {
      var slowest := FindSlowest(helper);
      if slowest.None? {
        return false;
      }
      TakeHalf(helper, slowest.value);
      return true;
    }

    // ---- Reading and writing ----

    /**
     One read of `chunk` bytes from the response body, up to the point where the write is in
     flight: the overlap with the Resolve stream is dropped first, then the rest is cut to what
     the connection still owns at this moment.
     */
    method BeginWrite(i: nat, src: seq<Byte>, chunk: seq<Byte>, toDiscard: nat)
      returns (data: seq<Byte>, discardLeft: nat, finished: bool, offset: int, stop: bool)
      requires Valid() && i < |connections| && connections[i].activity.Receiving?
      requires connections[i].activity.discard == toDiscard && connections[i].end.Some?
      requires connections[i].activity.pos + |chunk| <= |src|
      requires chunk == src[connections[i].activity.pos..connections[i].activity.pos + |chunk|]
      modifies connections[i]
      ensures View(connections)
           == old(View(connections))[i := Received(src, old(connections[i].Value()), |chunk|)]
      ensures stop <==> connections[i].activity == Finished
      ensures data != [] && !stop <==> connections[i].activity.Writing?
      ensures connections[i].activity.Writing? ==>
        && data == connections[i].activity.data && finished == connections[i].activity.finished
        && offset == Lo(connections[i].Value()) && discardLeft == 0
      ensures connections[i].activity.Receiving? ==> discardLeft == connections[i].activity.discard
    {
      var conn := connections[i];
      data, discardLeft, finished, stop := CutRead(conn.Value(), src, chunk, toDiscard, conn.Remaining());
      offset := conn.begin + conn.got;
      conn.activity := Received(src, conn.Value(), |chunk|).activity;
    }

    /** The write returned: its bytes are counted, on the chunk and on the connection. */
    method CommitWrite(i: nat, data: seq<Byte>)
      requires Valid() && i < |connections| && connections[i].activity.Writing?
      requires data == connections[i].activity.data
      modifies connections[i]
      ensures View(connections)
           == old(View(connections))[i := DoCommit(AtRest(old(View(connections))), i).conns[i]]
    {
      var conn := connections[i];
      conn.got := conn.got + |data|;
      conn.total := conn.total + |data|;
      conn.activity := if conn.activity.finished then Finished
                       else Receiving(conn.activity.pos, conn.activity.last, 0);
    }

    // ---- The first response ----

    /** The total named by the response ends an open-ended chunk. */
    method ResolveOpenEndedRange(i: nat, total: int)
      requires Valid() && i < |connections|
      modifies this`size, Repr
      ensures Abstract() == SizedAt(old(Abstract()), i, total)
    {
      var conn := connections[i];
      size := total;
      conn.end := Some(total - 1);
      assert View(connections) == SizedAt(old(Abstract()), i, total).conns;
    }

    /**
     The first validated range response ends the Resolve stream, of which `stream` arrived. The
     prefix is copied, and the answer is how many bytes of the response body it covers already; a
     stream that stopped before the range or ran past the resource is an error.
     */
    method CommitResolveTakeover(i: nat, requestedStart: nat, stream: seq<Byte>) returns (overlap: int, ok: bool)
      requires Valid() && i < |connections|
      requires i == 0 && resolveFallback ==> temp == Some(|stream|)
      modifies this`file, this`temp, this`resolveFallback, this`resolveDataPos, Repr
      ensures ok <==> (i == 0 && old(resolveFallback) ==> requestedStart <= |stream| <= size)
      ensures overlap == if ok && i == 0 && old(resolveFallback) then |stream| - requestedStart else 0
      ensures resolveDataPos == if ok && i == 0 && old(resolveFallback) then |stream| else old(resolveDataPos)
      ensures Abstract() ==
        if i != 0 || !old(resolveFallback) then old(Abstract())
        else if ok then TakenAt(old(Abstract()), stream, overlap) else StreamEnded(old(Abstract()), stream)
    {
      if i != 0 || !resolveFallback {
        return 0, true;
      }
      resolveFallback := false;
      var prefetched := |stream|;
      file := file + Put(0, stream);
      temp := None;
      if prefetched < requestedStart || prefetched > size {
        return 0, false;
      }
      resolveDataPos := prefetched;
      overlap, ok := prefetched - requestedStart, true;
      var conn := connections[i];
      conn.got := overlap;
      conn.total := prefetched;
      assert View(connections) == TakenAt(old(Abstract()), stream, overlap).conns;
    }

    method MarkDownloading(i: nat, ghost activity: Activity)
      requires Valid() && i < |connections|
      modifies Repr
      ensures Abstract() == MarkedAt(old(Abstract()), i, activity)
    {
      var conn := connections[i];
      conn.state := Downloading;
      conn.failed := false;
      conn.activity := activity;
      assert View(connections) == MarkedAt(old(Abstract()), i, activity).conns;
    }

    /** The total and the takeover of a validated 206. */
    method SettleResponse(i: nat, requestedStart: nat, requestedEnd: Option<int>, src: seq<Byte>, stream: seq<Byte>)
      returns (overlap: int, ok: bool)
      requires Valid() && i < |connections| && connections[i].activity == Requesting(requestedStart, requestedEnd)
      requires requestedEnd.Some? ==> size == |src|
      requires i == 0 && resolveFallback ==> temp == Some(|stream|)
      modifies this`size, this`file, this`temp, this`resolveFallback, this`resolveDataPos, Repr
      ensures ok <==> (i == 0 && old(resolveFallback) ==> requestedStart <= |stream| <= |src|)
      ensures Abstract() == Settled(old(Abstract()), i, |src|, stream, ok)
      ensures overlap == Overlap(old(Abstract()), i, stream, ok)
    {
      ghost var was := Abstract();
      if requestedEnd.None? {
        ResolveOpenEndedRange(i, |src|);
      }
      assert Abstract() == Published(was, i, |src|);
      overlap, ok := CommitResolveTakeover(i, requestedStart, stream);
    }

    /** What downloadChunkOnce does with a validated 206 before it reads the body. */
    method AcceptPartialContent(i: nat, requestedStart: nat, requestedEnd: Option<int>, src: seq<Byte>,
                                stream: seq<Byte>) returns (overlap: int, ok: bool)
      requires Valid() && i < |connections| && connections[i].activity == Requesting(requestedStart, requestedEnd)
      requires requestedEnd.None? <==> connections[i].end.None?
      requires requestedEnd.Some? ==> size == |src|
      requires i == 0 && resolveFallback ==> temp == Some(|stream|)
      modifies this`size, this`file, this`temp, this`resolveFallback, this`resolveDataPos, Repr
      ensures ok <==> (i == 0 && old(resolveFallback) ==> requestedStart <= |stream| <= |src|)
      ensures ok && (i == 0 && old(resolveFallback) ==> stream == src[..|stream|]) ==>
                Abstract() == DoRespond(src, old(Abstract()), i)
      ensures !ok ==> Abstract() == StreamEnded(Published(old(Abstract()), i, |src|), stream)
    {
      ghost var was := Abstract();
      overlap, ok := SettleResponse(i, requestedStart, requestedEnd, src, stream);
      if ok {
        var last := if requestedEnd.Some? then requestedEnd.value else |src| - 1;
        MarkDownloading(i, Receiving(requestedStart, last, overlap));
        RespondInParts(src, stream, was, i);
      }
    }

    // ---- Pausing, resuming, storing ----

    /** The first connection starts over at the end of the copied prefix. */
    method MoveFirstChunk(prefetched: int)
      requires Valid() && |connections| == 1 && !connections[0].completed
      modifies Repr
      ensures View(connections) == [old(connections[0].Value()).(begin := prefetched, got := 0, total := prefetched,
                                    end := if size > 0 then Some(size - 1) else None)]
    {
      var conn := connections[0];
      conn.begin := prefetched;
      if size > 0 {
        conn.end := Some(size - 1);
      } else {
        conn.end := None;
      }
      conn.got := 0;
      conn.total := prefetched;
    }

    /** The last act of Pause: a live prefix is kept and the only chunk moves to its end. */
    method MaterialisePrefix(src: seq<Byte>)
      requires Valid() && (temp.Some? ==> 0 <= temp.value <= |src|)
      modifies this`file, this`temp, this`resolveFallback, this`resolveDataPos, Repr
      ensures Abstract() == DoPauseDone(src, old(Abstract()))
    {
      resolveFallback := false;
      if temp.Some? {
        var prefetched := temp.value;
        temp := None;
        if prefetched > 0 {
          file := file + Put(0, src[..prefetched]);
          resolveDataPos := prefetched;
          if |connections| == 1 && !connections[0].completed {
            MoveFirstChunk(prefetched);
            assert View(connections) == DoPauseDone(src, old(Abstract())).conns;
          }
        }
      }
    }

    /** One connection of the loop below: whether it gets a goroutine again. */
    method ResumeOne(conn: Connection) returns (again: bool)
      modifies conn
      ensures conn.Value() == Resumed(old(conn.Value()), false) && (again <==> !LeftAlone(old(conn.Value())))
    {
      if conn.completed || conn.state == Completed {
        return false;
      }
      if conn.state == Failed && conn.failed {
        if conn.err == Some(Forbidden) {
          return false;
        }
        if conn.retries >= 3 {
          return false;
        }
      }
      conn.state := NotStarted;
      conn.failed := false;
      conn.retries := 0;
      conn.activity := Idle;
      again := true;
    }

    /** Exactly the connections that are not left alone get a goroutine again, each of them once. */
    method ResumeConnections() returns (toResume: seq<Connection>)
      requires Valid()
      modifies Repr
      ensures View(connections) == ResumeAll(old(View(connections)), false)
      ensures forall c :: c in toResume <==> c in connections && !LeftAlone(old(c.Value()))
      ensures Distinct(toResume)
    {
      toResume := [];
      for k := 0 to |connections|
        invariant forall j :: 0 <= j < k ==> connections[j].Value() == Resumed(old(connections[j].Value()), false)
        invariant forall j :: k <= j < |connections| ==> connections[j].Value() == old(connections[j].Value())
        invariant forall c :: c in toResume <==> c in connections[..k] && !LeftAlone(old(c.Value()))
        invariant Distinct(toResume)
      {
        var conn := connections[k];
        assert connections[..k + 1] == connections[..k] + [conn];
        var again := ResumeOne(conn);
        if again {
          toResume := toResume + [conn];
        }
      }
    }

    /** Store: a deep copy of what is serialised, taken under the lock. */
    method SnapshotConnections() returns (snapshot: seq<Connection>)
      requires Valid()
      ensures |snapshot| == |connections| && (forall c :: c in snapshot ==> fresh(c))
      ensures View(snapshot) == StripAll(View(connections))
    {
      snapshot := [];
      for k := 0 to |connections|
        invariant |snapshot| == k
        invariant forall c :: c in snapshot ==> fresh(c)
        invariant forall j :: 0 <= j < k ==> snapshot[j].Value() == Strip(connections[j].Value())
      {
        var conn := connections[k];
        var copy := new Connection(conn.begin, conn.end, conn.total);
        copy.got := conn.got;
        copy.state := conn.state;
        copy.completed := conn.completed;
        copy.activity := Stopped;
        snapshot := snapshot + [copy];
      }
    }

    // ---- Completion ----

    method TotalDownloaded() returns (total: int)
      requires Valid()
      ensures total == SumTotal(View(connections))
    {
      total := 0;
      var k := |connections|;
      assert View(connections)[k..] == [];
      while k > 0
        invariant 0 <= k <= |connections|
        invariant total == SumTotal(View(connections)[k..])
      {
        k := k - 1;
        assert View(connections)[k..][1..] == View(connections)[k + 1..];
        total := total + connections[k].total;
      }
      assert View(connections)[0..] == View(connections);
    }

    method AllChunksComplete() returns (complete: bool)
      requires Valid()
      ensures complete <==> forall i :: 0 <= i < |connections| ==> ChunkDone(connections[i].Value())
    {
      complete := true;
      for k := 0 to |connections|
        invariant complete ==> forall i :: 0 <= i < k ==> ChunkDone(connections[i].Value())
        invariant complete
      {
        var conn := connections[k];
        var needsMoreData := conn.end.None? || conn.Remaining() > 0;
        if needsMoreData && !conn.completed && conn.state != Completed {
          if conn.state == Failed && conn.failed && conn.err == Some(Forbidden) {
            continue;
          }
          complete := false;
          assert !ChunkDone(connections[k].Value());
          return;
        }
      }
    }

    /** The verdict once every goroutine has exited: an integrity error beats the byte count. */
    method FinalVerdict() returns (ok: bool)
      requires Valid()
      ensures ok <==> Succeeds(Abstract())
    {
      var totalDownloaded := TotalDownloaded();
      var allChunksComplete := AllChunksComplete();
      var downloadComplete := size > 0 && totalDownloaded >= size;
      for k := 0 to |connections|
        invariant forall i :: 0 <= i < k ==> !FailedOnIntegrity(connections[i].Value())
      {
        var conn := connections[k];
        if conn.state == Failed && conn.failed && conn.err == Some(Integrity) {
          assert FailedOnIntegrity(View(connections)[k]);
          return false;
        }
      }
      if !downloadComplete && !allChunksComplete {
        for k := 0 to |connections|
          invariant forall i :: 0 <= i < k ==> !FailedForGood(connections[i].Value())
        {
          var conn := connections[k];
          if conn.state == Failed && conn.failed {
            if conn.err == Some(Forbidden) {
              continue;
            }
            assert FailedForGood(View(connections)[k]);
            return false;
          }
        }
      }
      return true;
    }

    lemma VerdictIs(src: seq<Byte>)
      requires Valid() && Inv(src, Abstract()) && active && AllStopped(View(connections))
      ensures Succeeds(Abstract()) <==> forall c :: c in connections ==> Excusable(c.Value())
    {
      Verdict(src, Abstract());
      var v := View(connections);
      if forall i :: 0 <= i < |v| ==> Excusable(v[i]) {
        forall c | c in connections ensures Excusable(c.Value()) {
          var i :| 0 <= i < |connections| && connections[i] == c;
          assert v[i] == c.Value();
        }
      }
    }

    /**
     In a state a run can reach the download is reported as a success exactly when no answer
     contradicted its range and only connections refused with 403 left something undone.
     */
    method OnDownloadComplete(ghost src: seq<Byte>) returns (ok: bool)
      requires Valid()
      ensures Inv(src, Abstract()) && active && AllStopped(View(connections)) ==>
        (ok <==> forall c :: c in connections ==> Excusable(c.Value()))
      ensures ok <==> Succeeds(Abstract())
    {
      ok := FinalVerdict();
      if Inv(src, Abstract()) && active && AllStopped(View(connections)) {
        VerdictIs(src);
      }
    }
  }

  /** What is left of a body read after the overlap was dropped, cut to `len` bytes. */
  lemma CutIs(src: seq<Byte>, pos: nat, chunk: seq<Byte>, dropped: nat, len: nat)
    requires pos + |chunk| <= |src| && chunk == src[pos..pos + |chunk|] && dropped + len <= |chunk|
    ensures chunk[dropped..][..len] == src[pos + dropped..pos + dropped + len]
    ensures dropped + len == |chunk| ==> chunk[dropped..] == src[pos + dropped..pos + dropped + len]
  {
  }

  /** Dropping the overlap of a body read and cutting the rest to the `remain` bytes still owned. */
  method CutRead(ghost c: Conn, ghost src: seq<Byte>, chunk: seq<Byte>, toDiscard: nat, remain: int)
    returns (data: seq<Byte>, discardLeft: nat, finished: bool, stop: bool)
    requires c.activity.Receiving? && c.activity.discard == toDiscard && remain == Remain(c, |src|)
    requires c.activity.pos + |chunk| <= |src| && chunk == src[c.activity.pos..c.activity.pos + |chunk|]
    ensures var a := Received(src, c, |chunk|).activity;
      && (stop <==> a == Finished)
      && (data != [] && !stop <==> a.Writing?)
      && (a.Writing? ==> data == a.data && finished == a.finished && discardLeft == 0)
      && (a.Receiving? ==> discardLeft == a.discard)
  {
    data, discardLeft, finished, stop := chunk, toDiscard, false, false;
    if discardLeft > 0 {
      var discard := Min(|data|, discardLeft);
      data := data[discard..];
      discardLeft := discardLeft - discard;
    }
    if |data| > 0 {
      if remain <= 0 {
        stop := true;
        return;
      }
      CutIs(src, c.activity.pos, chunk, |chunk| - |data|, Min(|data|, remain));
      if remain < |data| {
        data := data[..remain];
        finished := true;
      }
    }
  }

  ghost predicate SplitsTo(a: seq<Conn>, b: seq<Conn>) {
    var v := MostWork(a, |a|);
    v.Some? && b == Split(a, v.value)
  }

  /** Splitting the busiest connection until the batch is full or nobody is splittable. */
  lemma {:induction false} ChainIsExpansion(chain: seq<seq<Conn>>, batch: nat)
    requires 0 < |chain| <= batch + 1
    requires forall k :: 0 <= k < |chain| - 1 ==> SplitsTo(chain[k], chain[k + 1])
    requires |chain| < batch + 1 ==> MostWork(chain[|chain| - 1], |chain[|chain| - 1]|).None?
    ensures chain[|chain| - 1] == ExpandBy(chain[0], batch)
  {
    if |chain| > 1 {
      assert SplitsTo(chain[0], chain[1]);
      forall k | 0 <= k < |chain| - 2 ensures SplitsTo(chain[1..][k], chain[1..][k + 1]) {
        assert SplitsTo(chain[k + 1], chain[k + 1 + 1]);
      }
      ChainIsExpansion(chain[1..], batch - 1);
    }
  }

  // ---- The parts of a first response ----

  function SizedAt(s: State, i: nat, total: int): State
    requires i < |s.conns|
  {
    s.(size := total, conns := s.conns[i := s.conns[i].(end := Some(total - 1))])
  }

  /** The Resolve stream is stopped and what arrived of it is in the target file. */
  function StreamEnded(s: State, stream: seq<Byte>): State {
    s.(temp := None, fallback := false, file := s.file + Put(0, stream))
  }

  function TakenAt(s: State, stream: seq<Byte>, overlap: int): State
    requires s.conns != []
  {
    SetConn(StreamEnded(s, stream), 0, s.conns[0].(got := overlap, total := |stream|))
  }

  function MarkedAt(s: State, i: nat, activity: Activity): State
    requires i < |s.conns|
  {
    SetConn(s, i, s.conns[i].(state := Downloading, failed := false, activity := activity))
  }

  /** The total is published, if the response is the first to name it. */
  function Published(s: State, i: nat, n: int): State
    requires i < |s.conns| && s.conns[i].activity.Requesting?
  {
    if s.conns[i].activity.asked.None? then SizedAt(s, i, n) else s
  }

  function Overlap(s: State, i: nat, stream: seq<Byte>, ok: bool): int
    requires i < |s.conns| && s.conns[i].activity.Requesting?
  {
    if ok && i == 0 && s.fallback then |stream| - s.conns[i].activity.start else 0
  }

  function Settled(s: State, i: nat, n: int, stream: seq<Byte>, ok: bool): State
    requires i < |s.conns| && s.conns[i].activity.Requesting?
  {
    var u := Published(s, i, n);
    if i != 0 || !s.fallback then u
    else if ok then TakenAt(u, stream, Overlap(s, i, stream, ok)) else StreamEnded(u, stream)
  }

  /** The parts of the method make up the step of the transition system. */
  lemma RespondInParts(src: seq<Byte>, stream: seq<Byte>, s: State, i: nat)
    requires i < |s.conns| && s.conns[i].activity.Requesting?
    requires s.conns[i].activity.asked.None? <==> s.conns[i].end.None?
    requires i == 0 && s.fallback ==> s.temp == Some(|stream|) && s.conns[i].activity.start <= |stream| <= |src|
    ensures var a := s.conns[i].activity; var last := if a.asked.Some? then a.asked.value else |src| - 1;
      (i == 0 && s.fallback ==> stream == src[..|stream|]) ==>
        DoRespond(src, s, i) == MarkedAt(Settled(s, i, |src|, stream, true), i,
                                         Receiving(a.start, last, Overlap(s, i, stream, true)))
  {
  }

  /** A state with nothing but connections in it. */
  ghost function AtRest(conns: seq<Conn>): State {
    State(0, conns, map[], None, false, 0, false, true, None)
  }
}
