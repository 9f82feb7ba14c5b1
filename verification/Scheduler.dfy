/**
 The task scheduler: at most `max` tasks run, the others wait in a queue. Every public operation
 is one step; `bad` and `stuck` are the tasks whose fetcher cannot be restored or paused.
 */
module Scheduler {
  import opened Base

  datatype Status = Ready | Running | Paused | Waiting | Failed | Done

  /** The status of every task, and the wait queue. */
  datatype State = State(status: seq<Status>, wait: seq<nat>)

  /** The outcome of an operation that stops at the first error. */
  datatype Outcome = Outcome(state: State, ok: bool)

  function One(b: bool): nat {
    if b then 1 else 0
  }

  function CountRunning(status: seq<Status>): nat {
    if status == [] then 0
    else CountRunning(status[..|status| - 1]) + One(status[|status| - 1] == Running)
  }

  // ---- One task ----

  predicate Startable(status: Status) {
    status != Running && status != Done
  }

  function Started(s: State, t: nat, bad: set<nat>): Outcome
    requires t < |s.status|
  {
    if !Startable(s.status[t]) then Outcome(s, true)
    else if t in bad then Outcome(s, false)
    else Outcome(s.(status := s.status[t := Running]), true)
  }

  predicate Pausable(status: Status) {
    status != Paused && status != Done && status != Failed
  }

  function PausedOne(s: State, t: nat): State
    requires t < |s.status|
  {
    if Pausable(s.status[t]) then s.(status := s.status[t := Paused]) else s
  }

  // ---- Operations ----

  predicate AllTasks(ids: seq<nat>, n: nat) {
    forall i :: 0 <= i < |ids| ==> ids[i] < n
  }

  function StartedAll(s: State, ids: seq<nat>, bad: set<nat>): (r: Outcome)
    requires AllTasks(ids, |s.status|)
    ensures |r.state.status| == |s.status|
    decreases |ids|
  {
    if ids == [] then Outcome(s, true)
    else
      var r := Started(s, ids[0], bad);
      if r.ok then StartedAll(r.state, ids[1..], bad) else r
  }

  function PausedAll(s: State, ids: seq<nat>, stuck: set<nat>): (r: Outcome)
    requires AllTasks(ids, |s.status|)
    ensures |r.state.status| == |s.status|
    decreases |ids|
  {
    if ids == [] then Outcome(s, true)
    else
      var u := PausedOne(s, ids[0]);
      if Pausable(s.status[ids[0]]) && ids[0] in stuck then Outcome(u, false)
      else PausedAll(u, ids[1..], stuck)
  }

  /** The first `need` running tasks from `i` on give up their place and wait. */
  function MadeRoom(s: State, i: nat, need: int, stuck: set<nat>): (r: Outcome)
    requires i <= |s.status|
    ensures |r.state.status| == |s.status|
    decreases |s.status| - i
  {
    if need <= 0 || i == |s.status| then Outcome(s, true)
    else if s.status[i] != Running then MadeRoom(s, i + 1, need, stuck)
    else if i in stuck then Outcome(s.(status := s.status[i := Paused]), false)
    else MadeRoom(State(s.status[i := Waiting], s.wait + [i]), i + 1, need - 1, stuck)
  }

  /** The tasks from the `k`-th on wait. */
  function Queued(s: State, ids: seq<nat>, k: nat): (r: State)
    requires AllTasks(ids, |s.status|)
    ensures |r.status| == |s.status|
    decreases |ids| - k
  {
    if k >= |ids| then s
    else Queued(State(s.status[ids[k] := Waiting], s.wait + [ids[k]]), ids, k + 1)
  }

  function Need(max: nat, count: nat): nat {
    Min(max, count)
  }

  function DoContinue(s: State, ids: seq<nat>, max: nat, bad: set<nat>, stuck: set<nat>): Outcome
    requires AllTasks(ids, |s.status|)
  {
    var need := Need(max, |ids|);
    var room := MadeRoom(s, 0, need - (max - CountRunning(s.status)), stuck);
    if !room.ok then room else StartedAll(Queued(room.state, ids, need), ids[..need], bad)
  }

  /** Of the tasks from `i` on that neither run nor are done, those past the first `room` wait. */
  function Split(s: State, i: nat, chosen: seq<nat>, room: int): (r: (State, seq<nat>))
    requires i <= |s.status| && AllTasks(chosen, |s.status|)
    ensures |r.0.status| == |s.status| && AllTasks(r.1, |s.status|)
    decreases |s.status| - i
  {
    if i == |s.status| then (s, chosen)
    else if !Startable(s.status[i]) then Split(s, i + 1, chosen, room)
    else if |chosen| < room then Split(s, i + 1, chosen + [i], room)
    else Split(State(s.status[i := Waiting], s.wait + [i]), i + 1, chosen, room)
  }

  function DoContinueAll(s: State, max: nat, bad: set<nat>): Outcome {
    var r := Split(s, 0, [], max - CountRunning(s.status));
    StartedAll(r.0, r.1, bad)
  }

  function DoCreate(s: State, max: nat, bad: set<nat>): State {
    var t := s.(status := s.status + [Ready]);
    var id := |s.status|;
    if max - CountRunning(t.status) == 0 then State(t.status[id := Waiting], t.wait + [id])
    else Started(t, id, bad).state
  }

  function DoNotify(s: State, max: nat, bad: set<nat>): State {
    if max - CountRunning(s.status) == 0 || s.wait == [] || s.wait[0] >= |s.status| then s
    else Started(s.(wait := s.wait[1..]), s.wait[0], bad).state
  }

  datatype Step =
    | Create(bad: set<nat>)
    | Continue(ids: seq<nat>, bad: set<nat>, stuck: set<nat>)
    | ContinueAll(bad: set<nat>)
    | Pause(ids: seq<nat>, stuck: set<nat>)
    | PauseAll(stuck: set<nat>)
    | Finish(t: nat, failed: bool)
    | Notify(bad: set<nat>)

  /** The tasks a filter selects; continuing skips the ones that run or are done. */
  predicate Enabled(s: State, step: Step) {
    match step
    case Continue(ids, _, _) =>
      ids != [] && AllTasks(ids, |s.status|) && forall i :: 0 <= i < |ids| ==> Startable(s.status[ids[i]])
    case Pause(ids, _) => AllTasks(ids, |s.status|)
    case Finish(t, _) => t < |s.status| && s.status[t] == Running
    case _ => true
  }

  function Indices(n: nat): (r: seq<nat>)
    ensures |r| == n && AllTasks(r, n)
  {
    seq(n, i requires 0 <= i < n => i)
  }

  function Next(max: nat, s: State, step: Step): State
    requires Enabled(s, step)
  {
    match step
    case Create(bad) => DoCreate(s, max, bad)
    case Continue(ids, bad, stuck) => DoContinue(s, ids, max, bad, stuck).state
    case ContinueAll(bad) => DoContinueAll(s, max, bad).state
    case Pause(ids, stuck) => PausedAll(s, ids, stuck).state
    case PauseAll(stuck) => PausedAll(s.(wait := []), Indices(|s.status|), stuck).state
    case Finish(t, failed) => s.(status := s.status[t := if failed then Failed else Done])
    case Notify(bad) => DoNotify(s, max, bad)
  }

  /** A run of operations from the state `s`. */
  predicate Leads(max: nat, s: State, run: seq<State>, steps: seq<Step>) {
    && |run| == |steps| + 1
    && run[0] == s
    && forall k :: 0 <= k < |steps| ==> Enabled(run[k], steps[k]) && run[k + 1] == Next(max, run[k], steps[k])
  }

  predicate IsRun(max: nat, run: seq<State>, steps: seq<Step>) {
    Leads(max, State([], []), run, steps)
  }

  // ---- Counting ----

  lemma {:induction false} CountUpdate(status: seq<Status>, t: nat, x: Status)
    requires t < |status|
    ensures CountRunning(status[t := x]) + One(status[t] == Running) == CountRunning(status) + One(x == Running)
  {
    var n := |status| - 1;
    if t < n {
      CountUpdate(status[..n], t, x);
      assert status[t := x][..n] == status[..n][t := x];
    } else {
      assert status[t := x][..n] == status[..n];
    }
  }

  lemma CountSnoc(status: seq<Status>, x: Status)
    ensures CountRunning(status + [x]) == CountRunning(status) + One(x == Running)
  {
    assert (status + [x])[..|status|] == status;
  }

  /** Starting tasks adds at most one running task each. */
  lemma {:induction false} StartedCount(s: State, ids: seq<nat>, bad: set<nat>)
    requires AllTasks(ids, |s.status|)
    ensures CountRunning(StartedAll(s, ids, bad).state.status) <= CountRunning(s.status) + |ids|
    decreases |ids|
  {
    if ids != [] {
      var r := Started(s, ids[0], bad);
      CountUpdate(s.status, ids[0], Running);
      if r.ok {
        StartedCount(r.state, ids[1..], bad);
      }
    }
  }

  lemma {:induction false} PausedCount(s: State, ids: seq<nat>, stuck: set<nat>)
    requires AllTasks(ids, |s.status|)
    ensures CountRunning(PausedAll(s, ids, stuck).state.status) <= CountRunning(s.status)
    decreases |ids|
  {
    if ids != [] {
      CountUpdate(s.status, ids[0], Paused);
      PausedCount(PausedOne(s, ids[0]), ids[1..], stuck);
    }
  }

  /** The running tasks from `i` on. */
  function RunningFrom(status: seq<Status>, i: nat): nat
    requires i <= |status|
    decreases |status| - i
  {
    if i == |status| then 0 else One(status[i] == Running) + RunningFrom(status, i + 1)
  }

  lemma {:induction false} RunningFromUpdate(status: seq<Status>, i: nat, t: nat, x: Status)
    requires t < i <= |status|
    ensures RunningFrom(status[t := x], i) == RunningFrom(status, i)
    decreases |status| - i
  {
    if i < |status| {
      RunningFromUpdate(status, i + 1, t, x);
    }
  }

  lemma {:induction false} RunningFromIsCount(status: seq<Status>, i: nat)
    requires i <= |status|
    ensures CountRunning(status[..i]) + RunningFrom(status, i) == CountRunning(status)
    decreases |status| - i
  {
    if i < |status| {
      RunningFromIsCount(status, i + 1);
      assert status[..i + 1][..i] == status[..i];
    } else {
      assert status[..i] == status;
    }
  }

  /** With enough running tasks left, making room pauses exactly as many as needed. */
  lemma {:induction false} MadeRoomCount(s: State, i: nat, need: int, stuck: set<nat>)
    requires i <= |s.status| && need <= RunningFrom(s.status, i)
    ensures var r := MadeRoom(s, i, need, stuck);
      && CountRunning(r.state.status) <= CountRunning(s.status)
      && (r.ok ==> CountRunning(r.state.status) == CountRunning(s.status) - Max(need, 0))
    decreases |s.status| - i
  {
    if need > 0 && i < |s.status| {
      if s.status[i] != Running {
        MadeRoomCount(s, i + 1, need, stuck);
      } else {
        CountUpdate(s.status, i, Paused);
        CountUpdate(s.status, i, Waiting);
        RunningFromUpdate(s.status, i + 1, i, Waiting);
        MadeRoomCount(State(s.status[i := Waiting], s.wait + [i]), i + 1, need - 1, stuck);
      }
    }
  }

  lemma {:induction false} QueuedCount(s: State, ids: seq<nat>, k: nat)
    requires AllTasks(ids, |s.status|)
    ensures CountRunning(Queued(s, ids, k).status) <= CountRunning(s.status)
    decreases |ids| - k
  {
    if k < |ids| {
      CountUpdate(s.status, ids[k], Waiting);
      QueuedCount(State(s.status[ids[k] := Waiting], s.wait + [ids[k]]), ids, k + 1);
    }
  }

  /** How many tasks from `i` up to `j` neither run nor are done. */
  function StartableIn(status: seq<Status>, i: nat, j: nat): nat
    requires i <= j <= |status|
    decreases j - i
  {
    if i == j then 0 else One(Startable(status[i])) + StartableIn(status, i + 1, j)
  }

  lemma {:induction false} StartableInUpdate(status: seq<Status>, i: nat, j: nat, t: nat, x: Status)
    requires t < i <= j <= |status|
    ensures StartableIn(status[t := x], i, j) == StartableIn(status, i, j)
    decreases j - i
  {
    if i < j {
      StartableInUpdate(status, i + 1, j, t, x);
    }
  }

  lemma {:induction false} StartableInGrows(status: seq<Status>, i: nat, a: nat, b: nat)
    requires i <= a < b <= |status| && Startable(status[a])
    ensures StartableIn(status, i, a) < StartableIn(status, i, b)
    decreases a - i
  {
    if i < a {
      StartableInGrows(status, i + 1, a, b);
    }
  }

  /** The scan adds to what it has chosen and to the queue, and stops no task. */
  lemma {:induction false} SplitAdds(s: State, i: nat, chosen: seq<nat>, room: int)
    requires i <= |s.status| && AllTasks(chosen, |s.status|)
    ensures chosen <= Split(s, i, chosen, room).1 && s.wait <= Split(s, i, chosen, room).0.wait
    ensures CountRunning(Split(s, i, chosen, room).0.status) == CountRunning(s.status)
    decreases |s.status| - i
  {
    if i < |s.status| {
      if !Startable(s.status[i]) {
        SplitAdds(s, i + 1, chosen, room);
      } else if |chosen| < room {
        SplitAdds(s, i + 1, chosen + [i], room);
      } else {
        CountUpdate(s.status, i, Waiting);
        SplitAdds(State(s.status[i := Waiting], s.wait + [i]), i + 1, chosen, room);
      }
    }
  }

  lemma {:induction false} SplitSize(s: State, i: nat, chosen: seq<nat>, room: int)
    requires i <= |s.status| && AllTasks(chosen, |s.status|) && |chosen| <= Max(room, 0)
    ensures |Split(s, i, chosen, room).1| == Min(Max(room, 0), |chosen| + StartableIn(s.status, i, |s.status|))
    decreases |s.status| - i
  {
    if i < |s.status| {
      if !Startable(s.status[i]) {
        SplitSize(s, i + 1, chosen, room);
      } else if |chosen| < room {
        SplitSize(s, i + 1, chosen + [i], room);
      } else {
        StartableInUpdate(s.status, i + 1, |s.status|, i, Waiting);
        SplitSize(State(s.status[i := Waiting], s.wait + [i]), i + 1, chosen, room);
      }
    }
  }

  // ---- The bound ----

  /** Continue finds as many running tasks to pause as it needs. */
  lemma EnoughToPause(s: State, max: nat, count: nat)
    requires CountRunning(s.status) <= max
    ensures Need(max, count) - (max - CountRunning(s.status)) <= RunningFrom(s.status, 0)
  {
    RunningFromIsCount(s.status, 0);
  }

  /** A Continue whose pauses succeed leaves exactly the room its tasks need. */
  lemma ContinueMakesRoom(s: State, ids: seq<nat>, max: nat, stuck: set<nat>)
    requires CountRunning(s.status) <= max
    ensures var need := Need(max, |ids|);
      var room := MadeRoom(s, 0, need - (max - CountRunning(s.status)), stuck);
      && CountRunning(room.state.status) <= max
      && (room.ok ==> CountRunning(room.state.status) == Min(CountRunning(s.status), max - need))
  {
    EnoughToPause(s, max, |ids|);
    MadeRoomCount(s, 0, Need(max, |ids|) - (max - CountRunning(s.status)), stuck);
  }

  lemma ContinueKeeps(s: State, ids: seq<nat>, max: nat, bad: set<nat>, stuck: set<nat>)
    requires CountRunning(s.status) <= max && AllTasks(ids, |s.status|)
    ensures CountRunning(DoContinue(s, ids, max, bad, stuck).state.status) <= max
  {
    var need := Need(max, |ids|);
    ContinueMakesRoom(s, ids, max, stuck);
    var room := MadeRoom(s, 0, need - (max - CountRunning(s.status)), stuck);
    QueuedCount(room.state, ids, need);
    StartedCount(Queued(room.state, ids, need), ids[..need], bad);
  }

  lemma CreateKeeps(s: State, max: nat, bad: set<nat>)
    requires CountRunning(s.status) <= max
    ensures CountRunning(DoCreate(s, max, bad).status) <= max
  {
    CountSnoc(s.status, Ready);
    CountUpdate(s.status + [Ready], |s.status|, Running);
    CountUpdate(s.status + [Ready], |s.status|, Waiting);
  }

  lemma NotifyKeeps(s: State, max: nat, bad: set<nat>)
    requires CountRunning(s.status) <= max
    ensures CountRunning(DoNotify(s, max, bad).status) <= max
  {
    if s.wait != [] && s.wait[0] < |s.status| {
      CountUpdate(s.status, s.wait[0], Running);
    }
  }

  lemma StepKeeps(max: nat, s: State, step: Step)
    requires CountRunning(s.status) <= max && Enabled(s, step)
    ensures CountRunning(Next(max, s, step).status) <= max
  {
    match step
    case Create(bad) => CreateKeeps(s, max, bad);
    case Continue(ids, bad, stuck) => ContinueKeeps(s, ids, max, bad, stuck);
    case ContinueAll(bad) =>
      var r := Split(s, 0, [], max - CountRunning(s.status));
      SplitSize(s, 0, [], max - CountRunning(s.status));
      SplitAdds(s, 0, [], max - CountRunning(s.status));
      StartedCount(r.0, r.1, bad);
    case Pause(ids, stuck) => PausedCount(s, ids, stuck);
    case PauseAll(stuck) => PausedCount(s.(wait := []), Indices(|s.status|), stuck);
    case Finish(t, failed) => CountUpdate(s.status, t, if failed then Failed else Done);
    case Notify(bad) => NotifyKeeps(s, max, bad);
  }

  lemma {:induction false} NeverAboveFrom(max: nat, s: State, run: seq<State>, steps: seq<Step>, k: nat)
    requires Leads(max, s, run, steps) && k < |run| && CountRunning(s.status) <= max
    ensures CountRunning(run[k].status) <= max
  {
    if k > 0 {
      NeverAboveFrom(max, s, run, steps, k - 1);
      StepKeeps(max, run[k - 1], steps[k - 1]);
    }
  }

  /** No run of public operations ever has more than `max` tasks running. */
  lemma NeverAboveMax(max: nat, run: seq<State>, steps: seq<Step>, k: nat)
    requires IsRun(max, run, steps) && k < |run|
    ensures CountRunning(run[k].status) <= max
  {
    NeverAboveFrom(max, State([], []), run, steps, k);
  }

  // ---- What Continue achieves ----

  lemma {:induction false} StartedAllRuns(s: State, ids: seq<nat>, bad: set<nat>)
    requires AllTasks(ids, |s.status|)
    requires forall i :: 0 <= i < |ids| ==> ids[i] !in bad && s.status[ids[i]] != Done
    ensures var r := StartedAll(s, ids, bad);
      && r.ok && r.state.wait == s.wait
      && (forall i :: 0 <= i < |ids| ==> r.state.status[ids[i]] == Running)
      && (forall t :: 0 <= t < |s.status| && t !in ids ==> r.state.status[t] == s.status[t])
      && (forall t :: 0 <= t < |s.status| && s.status[t] == Running ==> r.state.status[t] == Running)
    decreases |ids|
  {
    if ids != [] {
      StartedAllRuns(Started(s, ids[0], bad).state, ids[1..], bad);
    }
  }

  lemma {:induction false} QueuedWaits(s: State, ids: seq<nat>, k: nat)
    requires AllTasks(ids, |s.status|) && k <= |ids|
    ensures var r := Queued(s, ids, k);
      && r.wait == s.wait + ids[k..]
      && (forall i :: k <= i < |ids| ==> r.status[ids[i]] == Waiting)
      && (forall t :: 0 <= t < |s.status| && t !in ids[k..] ==> r.status[t] == s.status[t])
      && (forall t :: 0 <= t < |s.status| && s.status[t] == Waiting ==> r.status[t] == Waiting)
    decreases |ids| - k
  {
    if k < |ids| {
      assert ids[k..] == [ids[k]] + ids[k + 1..];
      QueuedWaits(State(s.status[ids[k] := Waiting], s.wait + [ids[k]]), ids, k + 1);
    }
  }

  /** Making room touches running tasks only; every displaced one waits in the queue. */
  lemma {:induction false} MadeRoomWaits(s: State, i: nat, need: int, stuck: set<nat>)
    requires i <= |s.status|
    ensures var r := MadeRoom(s, i, need, stuck);
      && s.wait <= r.state.wait
      && (forall t :: 0 <= t < |s.status| && s.status[t] != Running ==> r.state.status[t] == s.status[t])
      && (r.ok ==> forall t: nat :: t < |s.status| && r.state.status[t] != s.status[t] ==>
                     r.state.status[t] == Waiting && t in r.state.wait)
    decreases |s.status| - i
  {
    if need > 0 && i < |s.status| {
      if s.status[i] != Running {
        MadeRoomWaits(s, i + 1, need, stuck);
      } else {
        var u := State(s.status[i := Waiting], s.wait + [i]);
        MadeRoomWaits(u, i + 1, need - 1, stuck);
        assert u.wait[|s.wait|] == i;
        assert i in MadeRoom(u, i + 1, need - 1, stuck).state.wait;
      }
    }
  }

  lemma Distinct(ids: seq<nat>, need: nat)
    requires need <= |ids| && forall i, j :: 0 <= i < j < |ids| ==> ids[i] != ids[j]
    ensures forall i :: 0 <= i < need ==> ids[i] !in ids[need..]
    ensures forall i :: need <= i < |ids| ==> ids[i] !in ids[..need]
  {
  }

  /** The state of a Continue whose pauses succeed, before its tasks are started. */
  function RestQueued(s: State, ids: seq<nat>, max: nat, stuck: set<nat>): (r: State)
    requires AllTasks(ids, |s.status|)
    ensures |r.status| == |s.status|
  {
    var need := Need(max, |ids|);
    Queued(MadeRoom(s, 0, need - (max - CountRunning(s.status)), stuck).state, ids, need)
  }

  lemma RestWaits(s: State, ids: seq<nat>, max: nat, stuck: set<nat>, i: nat)
    requires AllTasks(ids, |s.status|) && i < |ids| && Startable(s.status[ids[i]])
    requires forall i, j :: 0 <= i < j < |ids| ==> ids[i] != ids[j]
    ensures RestQueued(s, ids, max, stuck).status[ids[i]] == if i < max then s.status[ids[i]] else Waiting
  {
    var need := Need(max, |ids|);
    MadeRoomWaits(s, 0, need - (max - CountRunning(s.status)), stuck);
    QueuedWaits(MadeRoom(s, 0, need - (max - CountRunning(s.status)), stuck).state, ids, need);
    Distinct(ids, need);
  }

  lemma RestStarts(u: State, ids: seq<nat>, need: nat, bad: set<nat>)
    requires AllTasks(ids, |u.status|) && need <= |ids|
    requires forall i :: 0 <= i < need ==> u.status[ids[i]] != Done && ids[i] !in bad
    requires forall i, j :: 0 <= i < j < |ids| ==> ids[i] != ids[j]
    ensures var r := StartedAll(u, ids[..need], bad);
      && r.ok && r.state.wait == u.wait
      && (forall i :: 0 <= i < need ==> r.state.status[ids[i]] == Running)
      && (forall i :: need <= i < |ids| ==> r.state.status[ids[i]] == u.status[ids[i]])
  {
    StartedAllRuns(u, ids[..need], bad);
    Distinct(ids, need);
    forall i | 0 <= i < need ensures StartedAll(u, ids[..need], bad).state.status[ids[i]] == Running {
      assert ids[..need][i] == ids[i];
    }
  }

  /** The tasks to continue run as far as the bound allows, and the rest of them wait in order. */
  lemma ContinueRuns(s: State, ids: seq<nat>, max: nat, bad: set<nat>, stuck: set<nat>)
    requires AllTasks(ids, |s.status|) && forall i :: 0 <= i < |ids| ==> Startable(s.status[ids[i]]) && ids[i] !in bad
    requires forall i, j :: 0 <= i < j < |ids| ==> ids[i] != ids[j]
    requires MadeRoom(s, 0, Need(max, |ids|) - (max - CountRunning(s.status)), stuck).ok
    ensures var r := DoContinue(s, ids, max, bad, stuck);
      && r.ok
      && (forall i :: 0 <= i < |ids| ==> r.state.status[ids[i]] == if i < max then Running else Waiting)
      && r.state.wait == MadeRoom(s, 0, Need(max, |ids|) - (max - CountRunning(s.status)), stuck).state.wait
                         + ids[Need(max, |ids|)..]
  {
    var need := Need(max, |ids|);
    forall i | 0 <= i < |ids|
      ensures RestQueued(s, ids, max, stuck).status[ids[i]] == if i < max then s.status[ids[i]] else Waiting
    {
      RestWaits(s, ids, max, stuck, i);
    }
    RestStarts(RestQueued(s, ids, max, stuck), ids, need, bad);
    QueuedWaits(MadeRoom(s, 0, need - (max - CountRunning(s.status)), stuck).state, ids, need);
  }

  lemma {:induction false} SplitPassed(s: State, i: nat, chosen: seq<nat>, room: int, t: nat)
    requires t < i <= |s.status| && AllTasks(chosen, |s.status|)
    ensures Split(s, i, chosen, room).0.status[t] == s.status[t]
    decreases |s.status| - i
  {
    if i < |s.status| {
      if !Startable(s.status[i]) {
        SplitPassed(s, i + 1, chosen, room, t);
      } else if |chosen| < room {
        SplitPassed(s, i + 1, chosen + [i], room, t);
      } else {
        SplitPassed(State(s.status[i := Waiting], s.wait + [i]), i + 1, chosen, room, t);
      }
    }
  }

  /** A startable task is chosen if fewer than `room` come before it, and waits otherwise. */
  lemma {:induction false} SplitTask(s: State, i: nat, chosen: seq<nat>, room: int, t: nat)
    requires i <= t < |s.status| && AllTasks(chosen, |s.status|) && |chosen| <= Max(room, 0)
    ensures var (u, c) := Split(s, i, chosen, room); var rank := |chosen| + StartableIn(s.status, i, t);
      if Startable(s.status[t]) && rank >= room then u.status[t] == Waiting && t in u.wait
      else u.status[t] == s.status[t] && (Startable(s.status[t]) ==> rank < |c| && c[rank] == t)
    decreases |s.status| - i
  {
    if !Startable(s.status[i]) {
      if i < t {
        SplitTask(s, i + 1, chosen, room, t);
      } else {
        SplitPassed(s, i + 1, chosen, room, t);
      }
    } else if |chosen| < room {
      if i < t {
        SplitTask(s, i + 1, chosen + [i], room, t);
      } else {
        SplitPassed(s, i + 1, chosen + [i], room, t);
        SplitAdds(s, i + 1, chosen + [i], room);
      }
    } else {
      var v := State(s.status[i := Waiting], s.wait + [i]);
      if i < t {
        StartableInUpdate(s.status, i + 1, t, i, Waiting);
        SplitTask(v, i + 1, chosen, room, t);
      } else {
        SplitPassed(v, i + 1, chosen, room, t);
        SplitAdds(v, i + 1, chosen, room);
        assert v.wait[|s.wait|] == i;
      }
    }
  }

  /** Whatever is chosen can start, and as many startable tasks come before it as were chosen before. */
  lemma {:induction false} SplitChosen(s: State, i: nat, chosen: seq<nat>, room: int, k: nat)
    requires i <= |s.status| && AllTasks(chosen, |s.status|) && |chosen| <= Max(room, 0)
    requires |chosen| <= k < |Split(s, i, chosen, room).1|
    ensures var t := Split(s, i, chosen, room).1[k];
      i <= t && Startable(s.status[t]) && k == |chosen| + StartableIn(s.status, i, t)
    decreases |s.status| - i
  {
    if i < |s.status| {
      if !Startable(s.status[i]) {
        SplitChosen(s, i + 1, chosen, room, k);
      } else if |chosen| < room {
        SplitAdds(s, i + 1, chosen + [i], room);
        if |chosen| < k {
          SplitChosen(s, i + 1, chosen + [i], room, k);
        }
      } else {
        SplitSize(State(s.status[i := Waiting], s.wait + [i]), i + 1, chosen, room);
      }
    }
  }

  /** Starting leaves every other task and the queue alone. */
  lemma {:induction false} StartedOthers(s: State, ids: seq<nat>, bad: set<nat>)
    requires AllTasks(ids, |s.status|)
    ensures StartedAll(s, ids, bad).state.wait == s.wait
    ensures forall t :: 0 <= t < |s.status| && t !in ids ==> StartedAll(s, ids, bad).state.status[t] == s.status[t]
    decreases |ids|
  {
    if ids != [] {
      var r := Started(s, ids[0], bad);
      if r.ok {
        StartedOthers(r.state, ids[1..], bad);
      }
    }
  }

  predicate AllStartable(s: State, ids: seq<nat>) {
    && AllTasks(ids, |s.status|)
    && (forall i :: 0 <= i < |ids| ==> Startable(s.status[ids[i]]))
    && forall i, j :: 0 <= i < j < |ids| ==> ids[i] != ids[j]
  }

  /** Tasks start one after the other up to the first that cannot. */
  lemma {:induction false} StartedTask(s: State, ids: seq<nat>, bad: set<nat>, k: nat)
    requires AllStartable(s, ids) && k < |ids|
    ensures var r := StartedAll(s, ids, bad);
      && (r.ok ==> ids[k] !in bad)
      && r.state.status[ids[k]] ==
         if exists j :: 0 <= j <= k && ids[j] in bad then s.status[ids[k]] else Running
    decreases |ids|
  {
    if ids[0] !in bad {
      var u := Started(s, ids[0], bad).state;
      if k == 0 {
        StartedOthers(u, ids[1..], bad);
      } else {
        StartedTask(u, ids[1..], bad, k - 1);
        StopsLater(ids, bad, k);
      }
    }
  }

  lemma StopsLater(ids: seq<nat>, bad: set<nat>, k: nat)
    requires 0 < k < |ids| && ids[0] !in bad
    ensures (exists j :: 0 <= j <= k && ids[j] in bad) <==> (exists j :: 0 <= j <= k - 1 && ids[1..][j] in bad)
  {
    if j :| 0 <= j <= k && ids[j] in bad {
      assert ids[1..][j - 1] in bad;
    }
  }

  lemma {:induction false} StartedCounts(s: State, ids: seq<nat>, bad: set<nat>)
    requires AllStartable(s, ids) && forall i :: 0 <= i < |ids| ==> ids[i] !in bad
    ensures StartedAll(s, ids, bad).ok
    ensures CountRunning(StartedAll(s, ids, bad).state.status) == CountRunning(s.status) + |ids|
    decreases |ids|
  {
    if ids != [] {
      CountUpdate(s.status, ids[0], Running);
      StartedCounts(Started(s, ids[0], bad).state, ids[1..], bad);
    }
  }

  lemma SplitStartable(s: State, room: int)
    ensures AllStartable(Split(s, 0, [], room).0, Split(s, 0, [], room).1)
  {
    var (u, c) := Split(s, 0, [], room);
    forall k | 0 <= k < |c| ensures Startable(u.status[c[k]]) {
      SplitSize(s, 0, [], room);
      SplitChosen(s, 0, [], room, k);
      SplitTask(s, 0, [], room, c[k]);
    }
    forall i, j | 0 <= i < j < |c| ensures c[i] != c[j] {
      SplitChosen(s, 0, [], room, i);
      SplitChosen(s, 0, [], room, j);
    }
  }

  /** Some task up to `t` would have to start and cannot. */
  predicate StopsBy(s: State, t: nat, bad: set<nat>)
    requires t < |s.status|
  {
    exists b: nat :: b <= t && b in bad && Startable(s.status[b])
  }

  lemma ContinueAllWaits(s: State, max: nat, bad: set<nat>, t: nat)
    requires t < |s.status|
    requires !Startable(s.status[t]) || StartableIn(s.status, 0, t) >= max - CountRunning(s.status)
    ensures var r := DoContinueAll(s, max, bad).state;
      if Startable(s.status[t]) then r.status[t] == Waiting && t in r.wait else r.status[t] == s.status[t]
  {
    var room := max - CountRunning(s.status);
    var (u, c) := Split(s, 0, [], room);
    SplitTask(s, 0, [], room, t);
    if t in c {
      var k :| 0 <= k < |c| && c[k] == t;
      SplitSize(s, 0, [], room);
      SplitChosen(s, 0, [], room, k);
      assert false;
    }
    StartedOthers(u, c, bad);
  }

  /** The chosen tasks are in the order of the task list. */
  lemma ChosenUpTo(s: State, room: int, t: nat, j: nat)
    requires t < |s.status| && Startable(s.status[t]) && j <= StartableIn(s.status, 0, t) < room
    ensures var c := Split(s, 0, [], room).1;
      j < |c| && c[j] <= t && Startable(s.status[c[j]])
  {
    SplitTask(s, 0, [], room, t);
    SplitChosen(s, 0, [], room, j);
    var c := Split(s, 0, [], room).1;
    if t < c[j] {
      StartableInGrows(s.status, 0, t, c[j]);
    }
  }

  lemma StopperChosen(s: State, room: int, t: nat, b: nat)
    requires t < |s.status| && StartableIn(s.status, 0, t) < room && b <= t && Startable(s.status[b])
    ensures var c := Split(s, 0, [], room).1; var j := StartableIn(s.status, 0, b);
      j <= StartableIn(s.status, 0, t) && j < |c| && c[j] == b
  {
    if b < t {
      StartableInGrows(s.status, 0, b, t);
    }
    SplitTask(s, 0, [], room, b);
  }

  /** A chosen task up to `t` that cannot start is one that stops it. */
  lemma ChosenStops(s: State, room: int, t: nat, bad: set<nat>, j: nat)
    requires t < |s.status| && Startable(s.status[t]) && j <= StartableIn(s.status, 0, t) < room
    ensures var c := Split(s, 0, [], room).1; j < |c| && (c[j] in bad ==> StopsBy(s, t, bad))
  {
    ChosenUpTo(s, room, t, j);
  }

  lemma ContinueAllStarts(s: State, max: nat, bad: set<nat>, t: nat)
    requires t < |s.status|
    requires Startable(s.status[t]) && StartableIn(s.status, 0, t) < max - CountRunning(s.status)
    ensures DoContinueAll(s, max, bad).state.status[t] == if StopsBy(s, t, bad) then s.status[t] else Running
  {
    var room := max - CountRunning(s.status);
    var (u, c) := Split(s, 0, [], room);
    SplitTask(s, 0, [], room, t);
    SplitStartable(s, room);
    StartedTask(u, c, bad, StartableIn(s.status, 0, t));
    if StopsBy(s, t, bad) {
      var b: nat :| b <= t && b in bad && Startable(s.status[b]);
      StopperChosen(s, room, t, b);
    } else if j :| 0 <= j <= StartableIn(s.status, 0, t) && c[j] in bad {
      ChosenStops(s, room, t, bad, j);
    }
  }

  /**
   Continue-all goes through the tasks that neither run nor are done. As many of them as there is
   room for start, in order and up to the first that cannot, and every later one waits in the
   queue; running and finished tasks are left alone.
   */
  lemma ContinueAllRuns(s: State, max: nat, bad: set<nat>, t: nat)
    requires t < |s.status|
    ensures var r := DoContinueAll(s, max, bad).state;
      && r.status[t] ==
         (if !Startable(s.status[t]) then s.status[t]
          else if StartableIn(s.status, 0, t) >= max - CountRunning(s.status) then Waiting
          else if StopsBy(s, t, bad) then s.status[t] else Running)
      && (Startable(s.status[t]) && StartableIn(s.status, 0, t) >= max - CountRunning(s.status) ==> t in r.wait)
  {
    if !Startable(s.status[t]) || StartableIn(s.status, 0, t) >= max - CountRunning(s.status) {
      ContinueAllWaits(s, max, bad, t);
    } else {
      ContinueAllStarts(s, max, bad, t);
    }
  }

  lemma ChosenCanStart(s: State, room: int, bad: set<nat>)
    ensures (forall k :: 0 <= k < |Split(s, 0, [], room).1| ==> Split(s, 0, [], room).1[k] !in bad)
      <==> forall b: nat :: b < |s.status| && Startable(s.status[b]) && StartableIn(s.status, 0, b) < room ==> b !in bad
  {
    var c := Split(s, 0, [], room).1;
    SplitSize(s, 0, [], room);
    forall k | 0 <= k < |c| ensures Startable(s.status[c[k]]) && StartableIn(s.status, 0, c[k]) < room {
      SplitChosen(s, 0, [], room, k);
    }
    forall b: nat | b < |s.status| && Startable(s.status[b]) && StartableIn(s.status, 0, b) < room ensures b in c {
      SplitTask(s, 0, [], room, b);
    }
  }

  lemma ChosenAllStart(s: State, room: int, bad: set<nat>)
    ensures var (u, c) := Split(s, 0, [], room);
      && (StartedAll(u, c, bad).ok <==> forall k :: 0 <= k < |c| ==> c[k] !in bad)
      && (StartedAll(u, c, bad).ok ==>
            CountRunning(StartedAll(u, c, bad).state.status) == CountRunning(s.status) + |c|)
  {
    var (u, c) := Split(s, 0, [], room);
    SplitAdds(s, 0, [], room);
    SplitStartable(s, room);
    if k :| 0 <= k < |c| && c[k] in bad {
      StartedTask(u, c, bad, k);
    } else {
      StartedCounts(u, c, bad);
    }
  }

  /** If every task it chooses can start, continue-all ends with all places or all tasks used up. */
  lemma ContinueAllFills(s: State, max: nat, bad: set<nat>)
    requires CountRunning(s.status) <= max
    ensures var r := DoContinueAll(s, max, bad); var room := max - CountRunning(s.status);
      && (r.ok <==> forall b: nat :: b < |s.status| && Startable(s.status[b]) && StartableIn(s.status, 0, b) < room
                                     ==> b !in bad)
      && (r.ok ==> CountRunning(r.state.status)
                   == Min(max, CountRunning(s.status) + StartableIn(s.status, 0, |s.status|)))
  {
    var room := max - CountRunning(s.status);
    SplitSize(s, 0, [], room);
    ChosenAllStart(s, room, bad);
    ChosenCanStart(s, room, bad);
  }

  /** A new task runs if a place is free and its fetcher can be restored, and waits if none is. */
  lemma CreateRuns(s: State, max: nat, bad: set<nat>)
    requires CountRunning(s.status) <= max
    ensures var r := DoCreate(s, max, bad); var id := |s.status|;
      && |r.status| == id + 1 && r.status[..id] == s.status
      && r.status[id] == (if CountRunning(s.status) == max then Waiting else if id in bad then Ready else Running)
      && r.wait == if CountRunning(s.status) == max then s.wait + [id] else s.wait
  {
    CountSnoc(s.status, Ready);
  }

  lemma CountTwo(a: Status, b: Status)
    ensures CountRunning([a]) == One(a == Running)
    ensures CountRunning([a, b]) == One(a == Running) + One(b == Running)
  {
    CountSnoc([], a);
    CountSnoc([a], b);
    assert [] + [a] == [a] && [a] + [b] == [a, b];
  }

  lemma SecondWaits(a: Status)
    ensures DoCreate(State([], []), 1, {}) == State([Running], [])
    ensures DoCreate(State([Running], []), 1, {}) == State([Running, Waiting], [1])
  {
    CountTwo(Ready, a);
    CountTwo(Running, Ready);
    assert [] + [Ready] == [Ready] && [Running] + [Ready] == [Running, Ready];
  }

  lemma SecondPauses()
    ensures PausedAll(State([Running, Waiting], [1]), [1], {}) == Outcome(State([Running, Paused], [1]), true)
    ensures DoNotify(State([Done, Paused], [1]), 1, {}) == State([Done, Running], [])
  {
    assert PausedOne(State([Running, Waiting], [1]), 1) == State([Running, Paused], [1]);
    assert [1][1..] == [];
    CountTwo(Done, Paused);
  }

  lemma Extend(max: nat, run: seq<State>, steps: seq<Step>, step: Step) returns (run': seq<State>, steps': seq<Step>)
    requires IsRun(max, run, steps) && Enabled(run[|steps|], step)
    ensures IsRun(max, run', steps') && steps' == steps + [step] && run <= run' && |run'| == |run| + 1
    ensures run'[|steps'|] == Next(max, run[|steps|], step)
  {
    run', steps' := run + [Next(max, run[|steps|], step)], steps + [step];
  }

  lemma SecondIsPaused() returns (run: seq<State>, steps: seq<Step>)
    ensures IsRun(1, run, steps) && |steps| == 3 && steps[2] == Pause([1], {})
    ensures run[3] == State([Running, Paused], [1])
  {
    SecondWaits(Ready);
    SecondPauses();
    run, steps := Extend(1, [State([], [])], [], Create({}));
    run, steps := Extend(1, run, steps, Create({}));
    run, steps := Extend(1, run, steps, Pause([1], {}));
  }

  /**
   Pausing a task that waits leaves its entry in the queue, so the next free place starts the
   task although it was paused.
   */
  lemma PausedWaiterIsStarted() returns (run: seq<State>, steps: seq<Step>)
    ensures IsRun(1, run, steps) && |steps| == 5
    ensures steps[2] == Pause([1], {}) && steps[3] == Finish(0, false) && steps[4] == Notify({})
    ensures run[3].status == [Running, Paused] && run[5].status == [Done, Running]
  {
    SecondPauses();
    run, steps := SecondIsPaused();
    run, steps := Extend(1, run, steps, Finish(0, false));
    assert run[4] == State([Done, Paused], [1]);
    run, steps := Extend(1, run, steps, Notify({}));
  }

  // ---- When a paused task is started again ----

  predicate QueueOk(s: State) {
    AllTasks(s.wait, |s.status|)
  }

  /** The task is paused and has no entry in the queue. */
  predicate Out(s: State, t: nat) {
    t < |s.status| && s.status[t] == Paused && t !in s.wait
  }

  /** The step is a request to continue the task. */
  predicate Continues(step: Step, t: nat) {
    step.ContinueAll? || (step.Continue? && t in step.ids)
  }

  lemma {:induction false} PausedStays(s: State, ids: seq<nat>, stuck: set<nat>)
    requires AllTasks(ids, |s.status|)
    ensures var r := PausedAll(s, ids, stuck).state;
      && r.wait == s.wait
      && forall t :: 0 <= t < |s.status| && s.status[t] == Paused ==> r.status[t] == Paused
    decreases |ids|
  {
    if ids != [] {
      PausedStays(PausedOne(s, ids[0]), ids[1..], stuck);
    }
  }

  lemma {:induction false} MadeRoomStays(s: State, i: nat, need: int, stuck: set<nat>, t: nat)
    requires i <= |s.status| && QueueOk(s)
    ensures var r := MadeRoom(s, i, need, stuck).state;
      QueueOk(r) && (Out(s, t) ==> Out(r, t))
    decreases |s.status| - i
  {
    if need > 0 && i < |s.status| {
      if s.status[i] != Running {
        MadeRoomStays(s, i + 1, need, stuck, t);
      } else {
        MadeRoomStays(State(s.status[i := Waiting], s.wait + [i]), i + 1, need - 1, stuck, t);
      }
    }
  }

  lemma {:induction false} QueuedStays(s: State, ids: seq<nat>, k: nat, t: nat)
    requires AllTasks(ids, |s.status|) && QueueOk(s)
    ensures var r := Queued(s, ids, k);
      QueueOk(r) && (Out(s, t) && t !in ids ==> Out(r, t))
    decreases |ids| - k
  {
    if k < |ids| {
      QueuedStays(State(s.status[ids[k] := Waiting], s.wait + [ids[k]]), ids, k + 1, t);
    }
  }

  lemma {:induction false} SplitStays(s: State, i: nat, chosen: seq<nat>, room: int)
    requires i <= |s.status| && AllTasks(chosen, |s.status|) && QueueOk(s)
    ensures QueueOk(Split(s, i, chosen, room).0)
    decreases |s.status| - i
  {
    if i < |s.status| {
      if !Startable(s.status[i]) {
        SplitStays(s, i + 1, chosen, room);
      } else if |chosen| < room {
        SplitStays(s, i + 1, chosen + [i], room);
      } else {
        SplitStays(State(s.status[i := Waiting], s.wait + [i]), i + 1, chosen, room);
      }
    }
  }

  lemma ContinueStays(s: State, ids: seq<nat>, max: nat, bad: set<nat>, stuck: set<nat>, t: nat)
    requires AllTasks(ids, |s.status|) && QueueOk(s)
    ensures var r := DoContinue(s, ids, max, bad, stuck).state;
      QueueOk(r) && (Out(s, t) && t !in ids ==> Out(r, t))
  {
    var need := Need(max, |ids|);
    var room := MadeRoom(s, 0, need - (max - CountRunning(s.status)), stuck).state;
    MadeRoomStays(s, 0, need - (max - CountRunning(s.status)), stuck, t);
    QueuedStays(room, ids, need, t);
    StartedOthers(Queued(room, ids, need), ids[..need], bad);
  }

  /** A paused task without a queue entry stays so under every step that does not continue it. */
  lemma StaysOut(max: nat, s: State, step: Step, t: nat)
    requires QueueOk(s) && Enabled(s, step)
    ensures QueueOk(Next(max, s, step))
    ensures Out(s, t) && !Continues(step, t) ==> Out(Next(max, s, step), t)
  {
    match step
    case Create(bad) =>
    case Continue(ids, bad, stuck) => ContinueStays(s, ids, max, bad, stuck, t);
    case ContinueAll(bad) =>
      var r := Split(s, 0, [], max - CountRunning(s.status));
      SplitStays(s, 0, [], max - CountRunning(s.status));
      StartedOthers(r.0, r.1, bad);
    case Pause(ids, stuck) => PausedStays(s, ids, stuck);
    case PauseAll(stuck) => PausedStays(s.(wait := []), Indices(|s.status|), stuck);
    case Finish(_, _) =>
    case Notify(bad) =>
  }

  lemma {:induction false} EveryQueueOk(max: nat, run: seq<State>, steps: seq<Step>, k: nat)
    requires IsRun(max, run, steps) && k < |run|
    ensures QueueOk(run[k])
  {
    if k > 0 {
      EveryQueueOk(max, run, steps, k - 1);
      StaysOut(max, run[k - 1], steps[k - 1], 0);
    }
  }

  lemma {:induction false} StaysOutAlong(max: nat, s: State, run: seq<State>, steps: seq<Step>, t: nat, k: nat)
    requires Leads(max, s, run, steps) && k < |run| && QueueOk(s) && Out(s, t)
    requires forall i :: 0 <= i < |steps| ==> !Continues(steps[i], t)
    ensures QueueOk(run[k]) && Out(run[k], t)
  {
    if k > 0 {
      StaysOutAlong(max, s, run, steps, t, k - 1);
      StaysOut(max, run[k - 1], steps[k - 1], t);
    }
  }

  lemma {:induction false} SomeRuns(status: seq<Status>) returns (i: nat)
    requires CountRunning(status) > 0
    ensures i < |status| && status[i] == Running
  {
    i := |status| - 1;
    if status[i] != Running {
      i := SomeRuns(status[..i]);
    }
  }

  lemma Prepend(max: nat, s: State, step: Step, run: seq<State>, steps: seq<Step>)
    requires Enabled(s, step) && Leads(max, Next(max, s, step), run, steps)
    ensures Leads(max, s, [s] + run, [step] + steps)
  {
    forall k | 0 <= k < |[step] + steps|
      ensures Enabled(([s] + run)[k], ([step] + steps)[k])
      ensures ([s] + run)[k + 1] == Next(max, ([s] + run)[k], ([step] + steps)[k])
    {
      if k > 0 {
        assert Enabled(run[k - 1], steps[k - 1]) && run[k] == Next(max, run[k - 1], steps[k - 1]);
      }
    }
  }

  /** The step serves the queue: a task ends, or the head of the queue gets a free place. */
  predicate Serves(step: Step) {
    step.Finish? || step == Notify({})
  }

  /** Serving the queue gets to every task in it that can start. */
  lemma {:induction false} QueueIsServed(max: nat, s: State, t: nat) returns (run: seq<State>, steps: seq<Step>)
    requires 0 < max && CountRunning(s.status) <= max && QueueOk(s)
    requires t < |s.status| && Startable(s.status[t]) && t in s.wait
    ensures Leads(max, s, run, steps) && t < |run[|steps|].status| && run[|steps|].status[t] == Running
    ensures forall k :: 0 <= k < |steps| ==> Serves(steps[k])
    decreases |s.wait|, CountRunning(s.status)
  {
    var step := Notify({});
    if CountRunning(s.status) == max {
      var i := SomeRuns(s.status);
      step := Finish(i, false);
      CountUpdate(s.status, i, Done);
    } else {
      NotifyKeeps(s, max, {});
    }
    var u := Next(max, s, step);
    if u.status[t] == Running {
      run, steps := [u], [];
    } else {
      run, steps := QueueIsServed(max, u, t);
    }
    Prepend(max, s, step, run, steps);
    run, steps := [s] + run, [step] + steps;
  }

  /** The task is running after some further steps none of which continues it. */
  ghost predicate StartsUnasked(max: nat, s: State, t: nat) {
    exists run: seq<State>, steps: seq<Step> ::
      && Leads(max, s, run, steps)
      && (forall k :: 0 <= k < |steps| ==> !Continues(steps[k], t))
      && t < |run[|steps|].status| && run[|steps|].status[t] == Running
  }

  /**
   A task that a Pause has paused is started again without anybody continuing it if and only if
   it had an entry in the queue at the time of the Pause, and there are places at all.
   */
  lemma PausedStaysPausedIff(max: nat, run: seq<State>, steps: seq<Step>, ids: seq<nat>, stuck: set<nat>, t: nat)
    requires IsRun(max, run, steps) && Enabled(run[|steps|], Pause(ids, stuck)) && t < |run[|steps|].status|
    requires Next(max, run[|steps|], Pause(ids, stuck)).status[t] == Paused
    ensures StartsUnasked(max, Next(max, run[|steps|], Pause(ids, stuck)), t)
      <==> 0 < max && t in run[|steps|].wait
  {
    var s := run[|steps|];
    var u := Next(max, s, Pause(ids, stuck));
    EveryQueueOk(max, run, steps, |steps|);
    NeverAboveMax(max, run, steps, |steps|);
    StaysOut(max, s, Pause(ids, stuck), t);
    PausedStays(s, ids, stuck);
    PausedCount(s, ids, stuck);
    if 0 < max && t in s.wait {
      var more, served := QueueIsServed(max, u, t);
      assert StartsUnasked(max, u, t);
    } else if StartsUnasked(max, u, t) {
      var more: seq<State>, later: seq<Step> :| Leads(max, u, more, later)
        && (forall k :: 0 <= k < |later| ==> !Continues(later[k], t))
        && t < |more[|later|].status| && more[|later|].status[t] == Running;
      if max == 0 {
        NoneRuns(u, more, later, t);
      } else {
        StaysOutAlong(max, u, more, later, t, |later|);
      }
    }
  }

  lemma NoneRuns(s: State, run: seq<State>, steps: seq<Step>, t: nat)
    requires Leads(0, s, run, steps) && CountRunning(s.status) == 0 && t < |run[|steps|].status|
    ensures run[|steps|].status[t] != Running
  {
    NeverAboveFrom(0, s, run, steps, |steps|);
    var status := run[|steps|].status;
    if status[t] == Running {
      CountUpdate(status, t, Done);
    }
  }

  // ---- What pausing, making room and serving the queue achieve ----

  /** Which tasks an operation may start, and which it may pause. */
  lemma StatusKinds(x: Status)
    ensures Startable(x) <==> x == Ready || x == Paused || x == Waiting || x == Failed
    ensures Pausable(x) <==> x == Ready || x == Running || x == Waiting
  {
  }

  /** The task would be paused and its fetcher cannot be. */
  predicate Blocks(s: State, t: nat, stuck: set<nat>)
    requires t < |s.status|
  {
    (s.status[t] == Ready || s.status[t] == Running || s.status[t] == Waiting) && t in stuck
  }

  function PausedTo(x: Status): Status {
    if x == Ready || x == Running || x == Waiting then Paused else x
  }

  /** How many of the selected tasks are paused: all, or those up to the first that blocks. */
  function Reached(s: State, ids: seq<nat>, stuck: set<nat>): (k: nat)
    requires AllTasks(ids, |s.status|)
    ensures k <= |ids|
    ensures forall i :: 0 <= i < k - 1 ==> !Blocks(s, ids[i], stuck)
    ensures k < |ids| ==> k > 0 && Blocks(s, ids[k - 1], stuck)
  {
    if ids == [] then 0
    else if Blocks(s, ids[0], stuck) then 1
    else 1 + Reached(s, ids[1..], stuck)
  }

  lemma {:induction false} ReachedSame(s: State, u: State, ids: seq<nat>, stuck: set<nat>)
    requires |u.status| == |s.status| && AllTasks(ids, |s.status|)
    requires forall i :: 0 <= i < |ids| ==> (Blocks(u, ids[i], stuck) <==> Blocks(s, ids[i], stuck))
    ensures Reached(u, ids, stuck) == Reached(s, ids, stuck)
    decreases |ids|
  {
    if ids != [] {
      assert Blocks(u, ids[0], stuck) <==> Blocks(s, ids[0], stuck);
      forall i | 0 <= i < |ids[1..]| ensures Blocks(u, ids[1..][i], stuck) <==> Blocks(s, ids[1..][i], stuck) {
        assert ids[1..][i] == ids[i + 1];
      }
      ReachedSame(s, u, ids[1..], stuck);
    }
  }

  /** Pausing one task changes nothing about whether another one blocks. */
  lemma BlocksSame(s: State, ids: seq<nat>, stuck: set<nat>)
    requires AllTasks(ids, |s.status|) && ids != [] && !Blocks(s, ids[0], stuck)
    ensures forall i :: 0 <= i < |ids[1..]| ==>
              (Blocks(PausedOne(s, ids[0]), ids[1..][i], stuck) <==> Blocks(s, ids[1..][i], stuck))
  {
  }

  lemma {:induction false} PausedOk(s: State, ids: seq<nat>, stuck: set<nat>)
    requires AllTasks(ids, |s.status|)
    ensures PausedAll(s, ids, stuck).ok <==> forall i :: 0 <= i < |ids| ==> !Blocks(s, ids[i], stuck)
    decreases |ids|
  {
    if ids != [] && !Blocks(s, ids[0], stuck) {
      BlocksSame(s, ids, stuck);
      PausedOk(PausedOne(s, ids[0]), ids[1..], stuck);
      assert forall i :: 1 <= i < |ids| ==> ids[i] == ids[1..][i - 1];
    }
  }

  lemma {:induction false} PausedStatus(s: State, ids: seq<nat>, stuck: set<nat>, t: nat)
    requires AllTasks(ids, |s.status|) && t < |s.status|
    ensures PausedAll(s, ids, stuck).state.status[t]
         == if t in ids[..Reached(s, ids, stuck)] then PausedTo(s.status[t]) else s.status[t]
    decreases |ids|
  {
    if ids != [] {
      if Blocks(s, ids[0], stuck) {
        assert ids[..1] == [ids[0]];
      } else {
        var u := PausedOne(s, ids[0]);
        BlocksSame(s, ids, stuck);
        PausedStatus(u, ids[1..], stuck, t);
        ReachedSame(s, u, ids[1..], stuck);
        var k := Reached(s, ids[1..], stuck);
        assert ids[..k + 1] == [ids[0]] + ids[1..][..k];
      }
    }
  }

  /**
   A pause goes through the selected tasks in order and stops at the first whose fetcher cannot be
   paused: those it got to are paused if they were ready, running or waiting, and no others change.
   */
  lemma PausedAllIs(s: State, ids: seq<nat>, stuck: set<nat>)
    requires AllTasks(ids, |s.status|)
    ensures var r := PausedAll(s, ids, stuck); var k := Reached(s, ids, stuck);
      && (r.ok <==> forall i :: 0 <= i < |ids| ==> !Blocks(s, ids[i], stuck))
      && r.state.wait == s.wait
      && forall t :: 0 <= t < |s.status| ==>
           r.state.status[t] == if t in ids[..k] then PausedTo(s.status[t]) else s.status[t]
  {
    PausedOk(s, ids, stuck);
    PausedStays(s, ids, stuck);
    forall t | 0 <= t < |s.status|
      ensures PausedAll(s, ids, stuck).state.status[t]
           == if t in ids[..Reached(s, ids, stuck)] then PausedTo(s.status[t]) else s.status[t]
    {
      PausedStatus(s, ids, stuck, t);
    }
  }

  /** How many tasks from `i` up to `j` run. */
  function RunningIn(status: seq<Status>, i: nat, j: nat): nat
    requires i <= j <= |status|
    decreases j - i
  {
    if i == j then 0 else One(status[i] == Running) + RunningIn(status, i + 1, j)
  }

  lemma {:induction false} RunningInUpdate(status: seq<Status>, i: nat, j: nat, t: nat, x: Status)
    requires t < i <= j <= |status|
    ensures RunningIn(status[t := x], i, j) == RunningIn(status, i, j)
    decreases j - i
  {
    if i < j {
      RunningInUpdate(status, i + 1, j, t, x);
    }
  }

  /** The task is among the first `need` running ones from `i` on. */
  predicate Displaced(s: State, i: nat, need: int, t: nat)
    requires i <= t < |s.status|
  {
    s.status[t] == Running && RunningIn(s.status, i, t) < need
  }

  /** Tasks before the scan are left alone. */
  lemma {:induction false} MadeRoomBefore(s: State, i: nat, need: int, stuck: set<nat>, t: nat)
    requires t < i <= |s.status|
    ensures MadeRoom(s, i, need, stuck).state.status[t] == s.status[t]
    decreases |s.status| - i
  {
    if need > 0 && i < |s.status| {
      if s.status[i] != Running {
        MadeRoomBefore(s, i + 1, need, stuck, t);
      } else {
        MadeRoomBefore(State(s.status[i := Waiting], s.wait + [i]), i + 1, need - 1, stuck, t);
      }
    }
  }

  /** Exactly the first `need` running tasks give up their place, unless one of them cannot be paused. */
  lemma {:induction false} MadeRoomTask(s: State, i: nat, need: int, stuck: set<nat>, t: nat)
    requires i <= t < |s.status|
    ensures var r := MadeRoom(s, i, need, stuck);
      && (r.ok && Displaced(s, i, need, t) ==> t !in stuck && r.state.status[t] == Waiting && t in r.state.wait)
      && (!Displaced(s, i, need, t) ==> r.state.status[t] == s.status[t])
    decreases |s.status| - i
  {
    if need > 0 {
      if s.status[i] != Running {
        if i < t {
          MadeRoomTask(s, i + 1, need, stuck, t);
        } else {
          MadeRoomBefore(s, i + 1, need, stuck, t);
        }
      } else {
        var u := State(s.status[i := Waiting], s.wait + [i]);
        if i < t {
          RunningInUpdate(s.status, i + 1, t, i, Waiting);
          MadeRoomTask(u, i + 1, need - 1, stuck, t);
        } else {
          MadeRoomBefore(u, i + 1, need - 1, stuck, t);
          MadeRoomWaits(u, i + 1, need - 1, stuck);
          assert u.wait[|s.wait|] == i;
        }
      }
    }
  }

  /** A scan that stops without room stopped at a running task it had to displace and could not. */
  lemma {:induction false} MadeRoomBlocked(s: State, i: nat, need: int, stuck: set<nat>) returns (t: nat)
    requires i <= |s.status| && !MadeRoom(s, i, need, stuck).ok
    ensures i <= t < |s.status| && Displaced(s, i, need, t) && t in stuck
    decreases |s.status| - i
  {
    if s.status[i] != Running {
      t := MadeRoomBlocked(s, i + 1, need, stuck);
    } else if i in stuck {
      t := i;
    } else {
      t := MadeRoomBlocked(State(s.status[i := Waiting], s.wait + [i]), i + 1, need - 1, stuck);
      RunningInUpdate(s.status, i + 1, t, i, Waiting);
    }
  }

  /** Continuing makes its room exactly when none of the running tasks it displaces is stuck. */
  lemma RoomIsMadeIff(s: State, need: int, stuck: set<nat>)
    ensures MadeRoom(s, 0, need, stuck).ok
      <==> forall t: nat :: t < |s.status| && Displaced(s, 0, need, t) ==> t !in stuck
  {
    var r := MadeRoom(s, 0, need, stuck);
    if r.ok {
      forall t: nat | t < |s.status| && Displaced(s, 0, need, t) ensures t !in stuck {
        MadeRoomTask(s, 0, need, stuck, t);
      }
    } else {
      var t := MadeRoomBlocked(s, 0, need, stuck);
    }
  }

  /** A free place goes to the head of the queue, which leaves it whether or not it can start. */
  lemma NotifyIs(s: State, max: nat, bad: set<nat>)
    requires CountRunning(s.status) <= max && AllTasks(s.wait, |s.status|)
    ensures var r := DoNotify(s, max, bad);
      if CountRunning(s.status) == max || s.wait == [] then r == s
      else var t := s.wait[0];
        r.wait == s.wait[1..]
        && r.status == if s.status[t] != Done && t !in bad then s.status[t := Running] else s.status
  {
    if s.wait != [] {
      var t := s.wait[0];
      StatusKinds(s.status[t]);
      assert s.status[t] == Running ==> s.status[t := Running] == s.status;
    }
  }

  // ---- The downloader ----

  class Downloader {
    const maxRunning: nat
    var status: seq<Status>
    var waitTasks: seq<nat>

    function Value(): State
      reads this
    {
      State(status, waitTasks)
    }

    ghost predicate Valid()
      reads this
    {
      CountRunning(status) <= maxRunning && AllTasks(waitTasks, |status|)
    }

    constructor (maxRunning: nat)
      ensures this.maxRunning == maxRunning && Value() == State([], []) && Valid()
    {
      this.maxRunning := maxRunning;
      status, waitTasks := [], [];
    }

    method RemainRunningCount() returns (remain: int)
      ensures remain == maxRunning - CountRunning(status)
    {
      var running := 0;
      var i := 0;
      while i < |status|
        invariant 0 <= i <= |status| && running == CountRunning(status[..i])
      {
        assert status[..i + 1][..i] == status[..i];
        if status[i] == Running {
          running := running + 1;
        }
        i := i + 1;
      }
      assert status[..i] == status;
      remain := maxRunning - running;
    }

    method DoStart(t: nat, bad: set<nat>) returns (ok: bool)
      requires t < |status|
      modifies this`status
      ensures Outcome(Value(), ok) == Started(old(Value()), t, bad)
    {
      if status[t] == Running || status[t] == Done {
        return true;
      }
      if t in bad {
        return false;
      }
      status := status[t := Running];
      ok := true;
    }

    method DoPause(t: nat, stuck: set<nat>) returns (ok: bool)
      requires t < |status|
      modifies this`status
      ensures Value() == PausedOne(old(Value()), t)
      ensures ok <==> !(Pausable(old(status[t])) && t in stuck)
    {
      if status[t] == Paused || status[t] == Done || status[t] == Failed {
        return true;
      }
      status := status[t := Paused];
      ok := t !in stuck;
    }

    method StartAll(ids: seq<nat>, bad: set<nat>) returns (ok: bool)
      requires AllTasks(ids, |status|)
      modifies this`status
      ensures Outcome(Value(), ok) == StartedAll(old(Value()), ids, bad)
    {
      var i := 0;
      ok := true;
      while i < |ids|
        invariant 0 <= i <= |ids| && |status| == |old(status)| && ok && waitTasks == old(waitTasks)
        invariant StartedAll(old(Value()), ids, bad) == StartedAll(Value(), ids[i..], bad)
      {
        assert ids[i..][1..] == ids[i + 1..];
        ok := DoStart(ids[i], bad);
        if !ok {
          return;
        }
        i := i + 1;
      }
      assert ids[i..] == [];
    }

    /** Pausing running tasks, in the order of the task list, until enough places are free. */
    method MakeRoom(need: int, stuck: set<nat>) returns (ok: bool)
      modifies this`status, this`waitTasks
      ensures Outcome(Value(), ok) == MadeRoom(old(Value()), 0, need, stuck)
    {
      ok := true;
      if need <= 0 {
        return;
      }
      var paused := 0;
      var i := 0;
      while i < |status|
        invariant 0 <= i <= |status| && |status| == |old(status)| && ok && paused <= need
        invariant MadeRoom(old(Value()), 0, need, stuck) == MadeRoom(Value(), i, need - paused, stuck)
      {
        if paused == need {
          return;
        }
        if status[i] == Running {
          ghost var before := status;
          ok := DoPause(i, stuck);
          if !ok {
            return;
          }
          status := status[i := Waiting];
          assert status == before[i := Waiting];
          waitTasks := waitTasks + [i];
          paused := paused + 1;
        }
        i := i + 1;
      }
    }

    method QueueRest(ids: seq<nat>, need: nat)
      requires AllTasks(ids, |status|) && need <= |ids|
      modifies this`status, this`waitTasks
      ensures Value() == Queued(old(Value()), ids, need)
    {
      var i := need;
      while i < |ids|
        invariant need <= i <= |ids| && |status| == |old(status)|
        invariant Queued(old(Value()), ids, need) == Queued(Value(), ids, i)
      {
        status := status[ids[i] := Waiting];
        waitTasks := waitTasks + [ids[i]];
        i := i + 1;
      }
    }

    /** Continuing selected tasks; running ones give up their place where that is needed. */
    method Continue(ids: seq<nat>, bad: set<nat>, stuck: set<nat>) returns (ok: bool)
      requires CountRunning(status) <= maxRunning && Enabled(Value(), Step.Continue(ids, bad, stuck))
      modifies this`status, this`waitTasks
      ensures Outcome(Value(), ok) == DoContinue(old(Value()), ids, maxRunning, bad, stuck)
      ensures CountRunning(status) <= maxRunning
    {
      StepKeeps(maxRunning, Value(), Step.Continue(ids, bad, stuck));
      var remain := RemainRunningCount();
      var need := Min(maxRunning, |ids|);
      ok := MakeRoom(need - remain, stuck);
      if !ok {
        return;
      }
      QueueRest(ids, need);
      ok := StartAll(ids[..need], bad);
    }

    method ContinueAll(bad: set<nat>) returns (ok: bool)
      requires CountRunning(status) <= maxRunning
      modifies this`status, this`waitTasks
      ensures Outcome(Value(), ok) == DoContinueAll(old(Value()), maxRunning, bad)
      ensures CountRunning(status) <= maxRunning
    {
      StepKeeps(maxRunning, Value(), Step.ContinueAll(bad));
      var remain := RemainRunningCount();
      var chosen: seq<nat> := [];
      var i := 0;
      while i < |status|
        invariant 0 <= i <= |status| && |status| == |old(status)| && AllTasks(chosen, |status|)
        invariant Split(old(Value()), 0, [], remain) == Split(Value(), i, chosen, remain)
      {
        if status[i] != Running && status[i] != Done {
          if |chosen| < remain {
            chosen := chosen + [i];
          } else {
            status := status[i := Waiting];
            waitTasks := waitTasks + [i];
          }
        }
        i := i + 1;
      }
      ok := StartAll(chosen, bad);
    }

    method PauseEach(ids: seq<nat>, stuck: set<nat>) returns (ok: bool)
      requires AllTasks(ids, |status|)
      modifies this`status
      ensures Outcome(Value(), ok) == PausedAll(old(Value()), ids, stuck)
    {
      var i := 0;
      ok := true;
      while i < |ids|
        invariant 0 <= i <= |ids| && |status| == |old(status)| && ok && waitTasks == old(waitTasks)
        invariant PausedAll(old(Value()), ids, stuck) == PausedAll(Value(), ids[i..], stuck)
      {
        assert ids[i..][1..] == ids[i + 1..];
        ok := DoPause(ids[i], stuck);
        if !ok {
          return;
        }
        i := i + 1;
      }
      assert ids[i..] == [];
    }

    /** Pausing selected tasks; the places they leave go to the head of the queue. */
    method Pause(ids: seq<nat>, stuck: set<nat>, bad: set<nat>) returns (ok: bool)
      requires Valid() && AllTasks(ids, |status|)
      modifies this`status, this`waitTasks
      ensures CountRunning(status) <= maxRunning
      ensures var r := PausedAll(old(Value()), ids, stuck);
        && ok == (ids != [] && r.ok)
        && Value() == if ok then DoNotify(r.state, maxRunning, bad) else r.state
    {
      if |ids| == 0 {
        return false;
      }
      PausedCount(Value(), ids, stuck);
      PausedStays(Value(), ids, stuck);
      ok := PauseEach(ids, stuck);
      if ok {
        NotifyRunning(bad);
      }
    }

    method Create(bad: set<nat>) returns (id: nat)
      requires CountRunning(status) <= maxRunning
      modifies this`status, this`waitTasks
      ensures id == |old(status)| && Value() == DoCreate(old(Value()), maxRunning, bad)
      ensures CountRunning(status) <= maxRunning
    {
      StepKeeps(maxRunning, Value(), Step.Create(bad));
      id := |status|;
      status := status + [Ready];
      var remain := RemainRunningCount();
      if remain == 0 {
        status := status[id := Waiting];
        waitTasks := waitTasks + [id];
        return;
      }
      var _ := DoStart(id, bad);
    }

    /** A place may have become free: the first task in the queue is started. */
    method NotifyRunning(bad: set<nat>)
      requires CountRunning(status) <= maxRunning && AllTasks(waitTasks, |status|)
      modifies this`status, this`waitTasks
      ensures Value() == DoNotify(old(Value()), maxRunning, bad) && CountRunning(status) <= maxRunning
    {
      StepKeeps(maxRunning, Value(), Step.Notify(bad));
      var remain := RemainRunningCount();
      if remain == 0 {
        return;
      }
      if |waitTasks| > 0 {
        var t := waitTasks[0];
        waitTasks := waitTasks[1..];
        var _ := DoStart(t, bad);
      }
    }
  }
}
