/** The promises of the parallel range download, over every run and every interleaving. */
module RangeTheorems {
  import opened Base
  import opened RangeModel
  import opened RangeProofs

  // ---- Tiling ----

  /**
   At every moment of every run, no offset has two owners, and an offset without an owner is on
   disk with the right byte. The only exception is a prefix that exists in the prefetch file
   alone, or that was lost with it.
   */
  lemma EveryOffsetHasOnePlace(src: seq<Byte>, run: seq<State>, steps: seq<Step>, k: nat, o: int)
    requires IsRun(src, run, steps) && k < |run| && 0 <= o < |src|
    ensures forall i, j ::
      0 <= i < |run[k].conns| && 0 <= j < |run[k].conns| && i != j ==>
        !(Holds(run[k].conns[i], |src|, o) && Holds(run[k].conns[j], |src|, o))
    ensures Held(run[k].conns, |src|, o) || o < Excused(run[k]) || Right(src, run[k].file, o)
    ensures o in run[k].file ==> run[k].file[o] == src[o]
  {
    EveryRun(src, run, steps, k);
    var s := run[k];
    forall i, j | 0 <= i < |s.conns| && 0 <= j < |s.conns| && i != j
      ensures !(Holds(s.conns[i], |src|, o) && Holds(s.conns[j], |src|, o))
    {
      assert Apart(s.conns[i], s.conns[j], |src|);
    }
  }

  /** However often its chunk was shrunk meanwhile, a write in flight stays inside its owner's range. */
  lemma InFlightWriteIsOwned(src: seq<Byte>, run: seq<State>, steps: seq<Step>, k: nat, i: nat, o: int)
    requires IsRun(src, run, steps) && k < |run|
    requires i < |run[k].conns| && run[k].conns[i].activity.Writing?
    requires Lo(run[k].conns[i]) <= o < Lo(run[k].conns[i]) + |run[k].conns[i].activity.data|
    ensures 0 <= o < |src| && Holds(run[k].conns[i], |src|, o)
    ensures forall j :: 0 <= j < |run[k].conns| && j != i ==> !Holds(run[k].conns[j], |src|, o)
    ensures run[k].conns[i].activity.data[o - Lo(run[k].conns[i])] == src[o]
  {
    EveryRun(src, run, steps, k);
    var s := run[k];
    var c := s.conns[i];
    assert c.activity.data == src[Lo(c)..Lo(c) + |c.activity.data|];
    forall j | 0 <= j < |s.conns| && j != i ensures !Holds(s.conns[j], |src|, o) {
      assert Apart(s.conns[i], s.conns[j], |src|);
    }
  }

  /** Slow start splits the connection with the most work left, the first one among equals. */
  lemma {:induction false} BusiestIsSplit(conns: seq<Conn>, k: nat)
    requires k <= |conns|
    ensures var r := MostWork(conns, k);
      && (forall i :: 0 <= i < k && Splittable(conns[i]) ==>
            r.Some? && Remain(conns[i], 0) <= Remain(conns[r.value], 0))
      && (r.Some? ==> forall i :: 0 <= i < r.value && Splittable(conns[i]) ==>
            Remain(conns[i], 0) < Remain(conns[r.value], 0))
  {
    if k > 0 {
      BusiestIsSplit(conns, k - 1);
    }
  }

  /** A split hands over the second half, rounded down; nothing is lost or doubled. */
  lemma SplitSizes(conns: seq<Conn>, v: nat)
    requires v < |conns| && Splittable(conns[v])
    ensures var next := Split(conns, v);
      && |next| == |conns| + 1
      && Remain(next[|conns|], 0) == Remain(conns[v], 0) / 2
      && Remain(next[v], 0) + Remain(next[|conns|], 0) == Remain(conns[v], 0)
      && Hi(next[v], 0) == Lo(next[|conns|]) && Hi(next[|conns|], 0) == Hi(conns[v], 0)
      && Remain(next[v], 0) > STEAL_MIN
      && forall i :: 0 <= i < |conns| && i != v ==> next[i] == conns[i]
  {
  }

  /** A steal takes one byte more than half and leaves at least LEFT_BEHIND bytes. */
  lemma StealSizes(conns: seq<Conn>, h: nat, v: nat)
    requires h < |conns| && v < |conns| && h != v && Stealable(conns[v])
    ensures var next := StealFrom(conns, h, v);
      && |next| == |conns|
      && Remain(next[h], 0) == Remain(conns[v], 0) / 2 + 1
      && Remain(next[h], 0) + Remain(next[v], 0) == Remain(conns[v], 0)
      && Hi(next[v], 0) == Lo(next[h]) && Hi(next[h], 0) == Hi(conns[v], 0)
      && Remain(next[v], 0) >= LEFT_BEHIND
      && forall i :: 0 <= i < |conns| && i != v && i != h ==> next[i] == conns[i]
  {
  }

  // ---- Work stealing is bounded ----

  lemma {:induction false} BudgetSum(conns: seq<Conn>)
    requires forall i :: 0 <= i < |conns| ==> StealBudget(conns[i])
    ensures (SumSteals(conns) - |conns|) * LEFT_BEHIND <= SumTotal(conns)
  {
    if conns != [] {
      BudgetSum(conns[1..]);
      assert (SumSteals(conns) - |conns|) * LEFT_BEHIND
          == (conns[0].steals - 1) * LEFT_BEHIND + (SumSteals(conns[1..]) - |conns[1..]|) * LEFT_BEHIND;
    }
  }

  /** How many of the first `k` steps are steals, counting from the last crash. */
  function StealsSince(steps: seq<Step>, k: nat): nat
    requires k <= |steps|
  {
    if k == 0 || steps[k - 1].Crash? then 0
    else StealsSince(steps, k - 1) + if steps[k - 1].Steal? then 1 else 0
  }

  lemma {:induction false} StealsSame(a: seq<Conn>, b: seq<Conn>)
    requires |a| == |b| && forall i :: 0 <= i < |a| ==> a[i].steals == b[i].steals
    ensures SumSteals(a) == SumSteals(b)
  {
    if a != [] {
      StealsSame(a[1..], b[1..]);
    }
  }

  lemma {:induction false} NoSteals(conns: seq<Conn>)
    requires forall i :: 0 <= i < |conns| ==> conns[i].steals == 0
    ensures SumSteals(conns) == 0
  {
    if conns != [] {
      NoSteals(conns[1..]);
    }
  }

  lemma {:induction false} ExpandSteals(conns: seq<Conn>, batch: nat)
    ensures SumSteals(ExpandBy(conns, batch)) == SumSteals(conns)
    decreases batch
  {
    var v := if batch == 0 then None else MostWork(conns, |conns|);
    if v.Some? {
      var a, b := Split(conns, v.value)[v.value], Split(conns, v.value)[|conns|];
      SumsUpdate(conns, v.value, a, 0);
      SumsAppend(conns[v.value := a], b, 0);
      assert Split(conns, v.value) == conns[v.value := a] + [b];
      ExpandSteals(Split(conns, v.value), batch - 1);
    }
  }

  /** The connection a step is about; the Resolve stream concerns the first one. */
  function Concerned(step: Step): nat {
    match step
    case Request(i) => i
    case Receive(i, _) => i
    case Land(i, _) => i
    case Commit(i) => i
    case BodyEnd(i) => i
    case Respond(i) => i
    case Retire(i) => i
    case Fail(i, _) => i
    case Exit(i) => i
    case _ => 0
  }

  /** At most connection `i` changes, and no steal is added. */
  predicate OnlyChanges(conns: seq<Conn>, next: seq<Conn>, i: nat) {
    i < |conns| == |next| && next == conns[i := next[i]] && next[i].steals == conns[i].steals
  }

  lemma WriteChanges(src: seq<Byte>, s: State, step: Step)
    requires Enabled(src, s, step) && OfWrite(step)
    ensures OnlyChanges(s.conns, Next(src, s, step).conns, Concerned(step))
  {
  }

  lemma ConnectionChanges(src: seq<Byte>, s: State, step: Step)
    requires Enabled(src, s, step) && OfConnection(step) && !step.Steal?
    ensures OnlyChanges(s.conns, Next(src, s, step).conns, Concerned(step))
  {
  }

  lemma ResolveChanges(src: seq<Byte>, s: State, step: Step)
    requires s.conns != [] && Enabled(src, s, step) && OfResolve(step)
    ensures OnlyChanges(s.conns, Next(src, s, step).conns, 0)
  {
    assert s.conns[0 := s.conns[0]] == s.conns;
  }

  lemma StealsKept(src: seq<Byte>, s: State, step: Step)
    requires s.conns != [] && Enabled(src, s, step) && !step.Steal? && !step.Crash?
    ensures SumSteals(Next(src, s, step).conns) == SumSteals(s.conns)
  {
    var next := Next(src, s, step).conns;
    if OfWrite(step) || OfConnection(step) || OfResolve(step) {
      if OfWrite(step) {
        WriteChanges(src, s, step);
      } else if OfConnection(step) {
        ConnectionChanges(src, s, step);
      } else {
        ResolveChanges(src, s, step);
      }
      SumsUpdate(s.conns, Concerned(step), next[Concerned(step)], 0);
    } else if step.Expand? {
      ExpandSteals(s.conns, step.batch);
    } else {
      StealsSame(s.conns, next);
    }
  }

  lemma StealCounts(src: seq<Byte>, s: State, h: nat, v: nat)
    requires Inv(src, s) && Enabled(src, s, Steal(h, v))
    ensures SumSteals(StealFrom(s.conns, h, v)) == SumSteals(s.conns) + 1
  {
    var a, b := StealIs(s.conns, |src|, h, v);
    SumsUpdate(s.conns, h, b, 0);
    SumsUpdate(s.conns[h := b], v, a, 0);
  }

  lemma SavedKept(src: seq<Byte>, s: State, step: Step)
    requires Enabled(src, s, step) && !step.Store?
    ensures Next(src, s, step).saved == s.saved
  {
  }

  /** No steal is persisted. */
  lemma {:induction false} SavedSteals(src: seq<Byte>, run: seq<State>, steps: seq<Step>, k: nat)
    requires IsRun(src, run, steps) && k < |run| && run[k].saved.Some?
    ensures SumSteals(run[k].saved.value.conns) == 0
  {
    if k > 0 {
      var s, step := run[k - 1], steps[k - 1];
      assert run[k - 1 + 1] == Next(src, s, step);
      if step.Store? {
        NoSteals(StripAll(s.conns));
      } else {
        SavedKept(src, s, step);
        SavedSteals(src, run, steps, k - 1);
      }
    }
  }

  lemma StealStep(src: seq<Byte>, s: State, step: Step)
    requires Inv(src, s) && Enabled(src, s, step) && !step.Crash?
    ensures SumSteals(Next(src, s, step).conns) == SumSteals(s.conns) + if step.Steal? then 1 else 0
  {
    if step.Steal? {
      StealCounts(src, s, step.i, step.victim);
    } else {
      StealsKept(src, s, step);
    }
  }

  /** The connections have stolen as often as there were steals since the last crash. */
  lemma {:induction false} StealsAreCounted(src: seq<Byte>, run: seq<State>, steps: seq<Step>, k: nat)
    requires IsRun(src, run, steps) && k < |run|
    ensures SumSteals(run[k].conns) == StealsSince(steps, k)
  {
    if k == 0 {
      NoSteals(run[0].conns);
    } else {
      var s, step := run[k - 1], steps[k - 1];
      assert run[k - 1 + 1] == Next(src, s, step);
      if step.Crash? {
        SavedSteals(src, run, steps, k - 1);
        CrashSteals(s);
      } else {
        StealsAreCounted(src, run, steps, k - 1);
        EveryRun(src, run, steps, k - 1);
        StealStep(src, s, step);
      }
    }
  }

  lemma CrashSteals(s: State)
    requires s.saved.Some? && SumSteals(s.saved.value.conns) == 0
    ensures SumSteals(DoCrash(s).conns) == 0
  {
  }

  /** Since the last crash, all steals but one a connection were paid for by committed bytes. */
  lemma StealsAreBounded(src: seq<Byte>, run: seq<State>, steps: seq<Step>, k: nat)
    requires IsRun(src, run, steps) && k < |run|
    ensures (StealsSince(steps, k) - |run[k].conns|) * LEFT_BEHIND <= |src|
  {
    EveryRun(src, run, steps, k);
    StealsAreCounted(src, run, steps, k);
    BudgetSum(run[k].conns);
    SumRemainBounds(run[k].conns, |src|);
  }

  // ---- Completion ----

  /** A connection that stopped on HTTP 403 although it still owned bytes. */
  predicate GaveUp(c: Conn, n: int) {
    c.state == Failed && c.failed && c.err == Some(Forbidden) && Remain(c, n) > 0
  }

  /** Every offset is counted as downloaded and on disk with the right byte. */
  ghost predicate Complete(src: seq<Byte>, s: State) {
    forall o :: 0 <= o < |src| ==> !Held(s.conns, |src|, o) && Right(src, s.file, o)
  }

  /** When the verdict is success, only a connection that gave up can still own anything. */
  lemma SuccessLeavesNothing(src: seq<Byte>, s: State, i: nat)
    requires Inv(src, s) && s.active && AllStopped(s.conns) && Succeeds(s)
    requires i < |s.conns| && !GaveUp(s.conns[i], |src|)
    ensures Remain(s.conns[i], |src|) == 0
  {
    SumRemainBounds(s.conns, |src|);
    var c := s.conns[i];
    if s.size > 0 && SumTotal(s.conns) >= s.size {
      assert Remain(c, |src|) <= SumRemain(s.conns, |src|);
    } else if !c.completed {
      assert c.state == Failed && c.failed;
    }
  }

  /**
   After an uncancelled run whose verdict is success, the file is complete if and only if no
   connection gave up on 403 with bytes left and no prefix was lost with the prefetch file.
   */
  lemma CompletionIsSound(src: seq<Byte>, run: seq<State>, steps: seq<Step>, k: nat)
    requires IsRun(src, run, steps) && k < |run|
    requires run[k].active && AllStopped(run[k].conns) && Succeeds(run[k])
    ensures Complete(src, run[k]) <==>
      !run[k].lost && forall i :: 0 <= i < |run[k].conns| ==> !GaveUp(run[k].conns[i], |src|)
  {
    EveryRun(src, run, steps, k);
    var s := run[k];
    assert s.temp.None?;
    if s.lost {
      assert !Right(src, s.file, 0);
    } else if i :| 0 <= i < |s.conns| && GaveUp(s.conns[i], |src|) {
      assert Holds(s.conns[i], |src|, Lo(s.conns[i]));
      assert Held(s.conns, |src|, Lo(s.conns[i]));
    } else {
      forall o | 0 <= o < |src| ensures !Held(s.conns, |src|, o) {
        if Held(s.conns, |src|, o) {
          var i :| 0 <= i < |s.conns| && Holds(s.conns[i], |src|, o);
          SuccessLeavesNothing(src, s, i);
        }
      }
    }
  }

  /** One more step of a run. */
  lemma Extend(src: seq<Byte>, run: seq<State>, steps: seq<Step>, step: Step)
    returns (run': seq<State>, steps': seq<Step>)
    requires IsRun(src, run, steps) && Enabled(src, run[|steps|], step)
    ensures IsRun(src, run', steps') && steps' == steps + [step]
    ensures run'[|steps'|] == Next(src, run[|steps|], step)
  {
    run', steps' := run + [Next(src, run[|steps|], step)], steps + [step];
    forall k | 0 <= k < |steps'|
      ensures Enabled(src, run'[k], steps'[k]) && run'[k + 1] == Next(src, run'[k], steps'[k])
    {
      if k < |steps| {
        assert run'[k] == run[k] && run'[k + 1] == run[k + 1] && steps'[k] == steps[k];
      }
    }
  }

  function Lone(c: Conn): State {
    State(1, [c], map[], None, false, 0, false, true, None)
  }

  function Refused(): Conn {
    AfterFailure(Fresh(0, Some(0), 0).(state := Connecting, activity := Requesting(0, Some(0))), Forbidden)
  }

  lemma LoneStart()
    ensures IsRun([7], [Lone(Fresh(0, Some(0), 0))], [])
  {
    assert Put(0, [7][..0]) == map[];
  }

  lemma LoneSteps()
    ensures DoRequest(Lone(Fresh(0, Some(0), 0)), 0)
         == Lone(Fresh(0, Some(0), 0).(state := Connecting, activity := Requesting(0, Some(0))))
    ensures DoFail(Lone(Fresh(0, Some(0), 0).(state := Connecting, activity := Requesting(0, Some(0)))), 0, Forbidden)
         == Lone(Refused())
  {
  }

  lemma LoneIsRefused() returns (run: seq<State>, steps: seq<Step>)
    ensures IsRun([7], run, steps) && |steps| == 2 && run[2] == Lone(Refused())
  {
    LoneStart();
    LoneSteps();
    run, steps := Extend([7], [Lone(Fresh(0, Some(0), 0))], [], Request(0));
    run, steps := Extend([7], run, steps, Fail(0, Forbidden));
  }

  /** One byte, one connection, HTTP 403: the run is reported as a success and wrote nothing. */
  lemma SuccessWithoutData() returns (src: seq<Byte>, run: seq<State>, steps: seq<Step>)
    ensures IsRun(src, run, steps) && |src| == 1
    ensures var s := run[|steps|]; s.active && AllStopped(s.conns) && Succeeds(s) && s.file == map[] && !s.lost
  {
    src := [7];
    run, steps := LoneIsRefused();
    assert ChunkDone(Refused());
  }

  // ---- The Resolve stream ----

  /**
   The takeover neither loses nor repeats a byte however far the Resolve stream got: the whole
   prefix is on disk and counted, the overlap is what will be discarded, and the next write of
   the response goes to the end of the prefix.
   */
  lemma TakeoverIsExact(src: seq<Byte>, run: seq<State>, steps: seq<Step>, k: nat)
    requires IsRun(src, run, steps) && k < |steps| && steps[k] == Respond(0) && run[k].fallback
    ensures run[k].temp.Some? && run[k].conns[0].activity.Requesting?
    ensures var prefetched := run[k].temp.value; var s := run[k + 1]; var c := s.conns[0];
      && run[k].conns[0].activity.start <= prefetched
      && (forall o :: 0 <= o < prefetched ==> Right(src, s.file, o))
      && c.total == prefetched && Lo(c) == prefetched
      && c.activity.Receiving? && c.activity.pos == run[k].conns[0].activity.start
      && c.activity.discard == prefetched - run[k].conns[0].activity.start
      && s.temp.None? && !s.fallback
  {
    EveryRun(src, run, steps, k);
    assert run[k + 1] == Next(src, run[k], steps[k]);
  }

  /** A read inside the overlap writes nothing; the first one past it writes where the overlap ends. */
  lemma OverlapIsDiscarded(src: seq<Byte>, c: Conn, file: map<int, Byte>, k: nat)
    requires Busy(src, c, file) && c.activity.Receiving? && 0 <= Lo(c) && Remain(c, |src|) > 0
    requires 0 < k && c.activity.pos + k <= c.activity.last + 1
    ensures var a := Received(src, c, k).activity;
      if k <= c.activity.discard then a == Receiving(c.activity.pos + k, c.activity.last, c.activity.discard - k)
      else
        && a.Writing? && a.data != []
        && |a.data| == Min(k - c.activity.discard, Remain(c, |src|))
        && Lo(c) + |a.data| <= |src| && a.data == src[Lo(c)..Lo(c) + |a.data|]
        && (a.finished <==> Remain(c, |src|) < k - c.activity.discard)
  {
    if k > c.activity.discard {
      var len := Min(k - c.activity.discard, Remain(c, |src|));
      assert c.activity.pos + c.activity.discard == Lo(c);
      assert Received(src, c, k).activity.data == src[Lo(c)..Lo(c) + len];
    }
  }

  /** Pause copies a live prefix to the target and moves the only chunk to its end. */
  lemma PauseKeepsThePrefix(src: seq<Byte>, run: seq<State>, steps: seq<Step>, k: nat)
    requires IsRun(src, run, steps) && k < |steps| && steps[k] == PauseDone && run[k].temp.Some?
    ensures var prefetched := run[k].temp.value; var s := run[k + 1];
      && s.temp.None? && !s.lost
      && (forall o :: 0 <= o < prefetched ==> Right(src, s.file, o))
      && |s.conns| == 1 && s.conns[0].total == prefetched && Lo(s.conns[0]) == prefetched
      && Hi(s.conns[0], |src|) == |src|
  {
    EveryRun(src, run, steps, k);
    assert run[k + 1] == Next(src, run[k], steps[k]);
  }

  // Two bytes, the first of them only in the prefetch file: the states of the run below.

  function Gap(c: Conn, file: map<int, Byte>, temp: Option<int>, fallback: bool): State {
    State(2, [c], file, temp, fallback, 1, temp.None?, true, None)
  }

  function Second(activity: Activity, state: ConnState): Conn {
    Fresh(1, Some(1), 1).(activity := activity, state := state, err := Some(Network))
  }

  lemma GapRequested() returns (run: seq<State>, steps: seq<Step>)
    ensures IsRun([7, 9], run, steps) && |steps| == 1
    ensures run[1] == Gap(Fresh(1, Some(1), 1).(state := Connecting, activity := Requesting(1, Some(1))),
                          map[], Some(1), true)
  {
    var c := Fresh(1, Some(1), 1);
    run, steps := Extend([7, 9], [Gap(c, map[], Some(1), true)], [], Request(0));
  }

  lemma GapOpens() returns (run: seq<State>, steps: seq<Step>)
    ensures IsRun([7, 9], run, steps) && |steps| == 3
    ensures run[3] == Gap(Second(Idle, Failed), map[], None, false)
  {
    var src := [7, 9];
    run, steps := GapRequested();
    run, steps := Extend(src, run, steps, Fail(0, Network));
    assert run[2] == Gap(Fresh(1, Some(1), 1).(state := Connecting, activity := Awaiting(Network)),
                         map[], Some(1), false);
    run, steps := Extend(src, run, steps, ResolveLost);
  }

  lemma GapAnswered() returns (run: seq<State>, steps: seq<Step>)
    ensures IsRun([7, 9], run, steps) && |steps| == 5
    ensures run[5] == Gap(Second(Receiving(1, 1, 0), Downloading), map[], None, false)
  {
    var src := [7, 9];
    run, steps := GapOpens();
    run, steps := Extend(src, run, steps, Request(0));
    assert run[4] == Gap(Second(Requesting(1, Some(1)), Failed), map[], None, false);
    run, steps := Extend(src, run, steps, Respond(0));
  }

  lemma NineIsLast(src: seq<Byte>)
    requires src == [7, 9]
    ensures src[1..2] == [9]
  {
  }

  lemma NineLands(data: seq<Byte>)
    requires data == [9]
    ensures map[] + Put(1, data[..1]) == map[1 := 9]
  {
    assert data[..1] == data;
  }

  lemma SecondReceived(src: seq<Byte>, c: Conn)
    requires |src| == 2 && c.activity == Receiving(1, 1, 0) && Lo(c) == 1 && c.end == Some(1)
    ensures Received(src, c, 1) == c.(activity := Writing(2, 1, src[1..2], false, 0))
  {
  }

  lemma GapReceived() returns (run: seq<State>, steps: seq<Step>)
    ensures IsRun([7, 9], run, steps) && |steps| == 6
    ensures run[6] == Gap(Second(Writing(2, 1, [9], false, 0), Downloading), map[], None, false)
  {
    run, steps := GapAnswered();
    NineIsLast([7, 9]);
    SecondReceived([7, 9], Second(Receiving(1, 1, 0), Downloading));
    run, steps := Extend([7, 9], run, steps, Receive(0, 1));
  }

  lemma GapWritten() returns (run: seq<State>, steps: seq<Step>)
    ensures IsRun([7, 9], run, steps) && |steps| == 7
    ensures run[7] == Gap(Second(Writing(2, 1, [9], false, 1), Downloading), map[1 := 9], None, false)
  {
    run, steps := GapReceived();
    NineLands([9]);
    run, steps := Extend([7, 9], run, steps, Land(0, 1));
  }

  /** Both the Resolve stream and the first range request fail; the retry then "completes". */
  lemma SuccessWithoutPrefix() returns (src: seq<Byte>, run: seq<State>, steps: seq<Step>)
    ensures IsRun(src, run, steps) && |src| == 2
    ensures var s := run[|steps|];
      s.active && AllStopped(s.conns) && Succeeds(s) && s.lost && 0 !in s.file
      && forall i :: 0 <= i < |s.conns| ==> !GaveUp(s.conns[i], |src|)
  {
    src := [7, 9];
    run, steps := GapWritten();
    run, steps := Extend(src, run, steps, Commit(0));
    run, steps := Extend(src, run, steps, BodyEnd(0));
    run, steps := Extend(src, run, steps, Retire(0));
    var c := Second(Stopped, Completed).(got := 1, total := 2, completed := true);
    assert run[10] == Gap(c, map[1 := 9], None, false);
    assert ChunkDone(c);
  }

  // ---- Persistence ----

  /** The state after the process died and the restored download was started again. */
  ghost function Revived(s: State): State
    requires s.saved.Some?
  {
    DoCrash(s).(conns := ResumeAll(DoCrash(s).conns, false), active := true)
  }

  /**
   A snapshot is a resume point for good. Whatever the run did after Store, even in the middle
   of a write, the revived download satisfies the whole invariant again. It is free of holes if
   and only if the snapshot was not taken while the first prefix existed in the prefetch file
   only, or that prefix reached the target after all.
   */
  lemma SnapshotIsAResumePoint(src: seq<Byte>, run: seq<State>, steps: seq<Step>, k: nat)
    requires IsRun(src, run, steps) && k < |run| && run[k].saved.Some?
    ensures Inv(src, Revived(run[k]))
    ensures (forall o :: 0 <= o < |src| ==>
               Held(Revived(run[k]).conns, |src|, o) || Right(src, run[k].file, o))
            <==> (!run[k].saved.value.orphan || PrefixOnDisk(run[k]))
  {
    EveryRun(src, run, steps, k);
    var s := run[k];
    CrashKeeps(src, s);
    StepKeeps(src, DoCrash(s), Resume(false));
    var t := Revived(s);
    if s.saved.value.orphan && !PrefixOnDisk(s) {
      assert t.lost && NothingBelow(t.conns, t.file, t.p0);
      assert !Held(t.conns, |src|, 0) && 0 !in s.file;
    } else {
      assert Tiled(src, t.conns, t.file, 0);
    }
  }

  function Kept(): seq<Conn> {
    [Strip(Fresh(1, Some(1), 1))]
  }

  lemma HoleStored() returns (run: seq<State>, steps: seq<Step>)
    ensures IsRun([7, 9], run, steps) && steps == [Store]
    ensures run[1] == Gap(Fresh(1, Some(1), 1), map[], Some(1), true).(saved := Some(Snapshot(2, Kept(), true)))
  {
    assert StripAll([Fresh(1, Some(1), 1)]) == Kept();
    run, steps := Extend([7, 9], [Gap(Fresh(1, Some(1), 1), map[], Some(1), true)], [], Store);
  }

  lemma HoleRestored() returns (run: seq<State>, steps: seq<Step>)
    ensures IsRun([7, 9], run, steps) && steps == [Store, Crash]
    ensures run[2] == State(2, Kept(), map[], None, false, 1, true, false, Some(Snapshot(2, Kept(), true)))
  {
    run, steps := HoleStored();
    assert !PrefixOnDisk(run[1]) by {
      assert 0 !in run[1].file;
    }
    run, steps := Extend([7, 9], run, steps, Crash);
  }

  lemma HoleIsNobodys()
    ensures ResumeAll(Kept(), false) == [Fresh(1, Some(1), 1)]
    ensures !Held([Fresh(1, Some(1), 1)], 2, 0)
  {
    var conns := [Fresh(1, Some(1), 1)];
    forall i | 0 <= i < |conns| ensures !Holds(conns[i], 2, 0) {
    }
  }

  /** Two bytes, the first in the prefetch file only, when Store is called and the process dies. */
  lemma SnapshotWithHole() returns (src: seq<Byte>, run: seq<State>, steps: seq<Step>)
    ensures IsRun(src, run, steps) && |src| == 2 && steps == [Store, Crash] + [Resume(false)]
    ensures var s := run[|steps|]; s.active && !Held(s.conns, 2, 0) && 0 !in s.file && s.temp.None?
  {
    src := [7, 9];
    run, steps := HoleRestored();
    HoleIsNobodys();
    run, steps := Extend(src, run, steps, Resume(false));
  }

  /** At the moment of Store the condition is: no live prefetch file, nothing lost, or no prefix. */
  lemma StoreNow(src: seq<Byte>, s: State)
    requires Inv(src, s)
    ensures DoStore(s).saved.value.orphan && !PrefixOnDisk(DoStore(s)) <==> s.p0 > 0 && (s.temp.Some? || s.lost)
    ensures forall i :: 0 <= i < |s.conns| ==>
      var kept := DoStore(s).saved.value.conns[i];
      && Lo(kept) == Lo(s.conns[i]) && kept.end == s.conns[i].end && kept.total == s.conns[i].total
      && kept.completed == s.conns[i].completed
  {
    if s.p0 > 0 && (s.temp.Some? || s.lost) {
      assert 0 !in s.file;
    }
  }
}
