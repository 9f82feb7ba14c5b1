/**
 The executor of native API requests: every request runs in its own goroutine, and a pause drains
 the pending ones within a deadline or detaches them. A step is one critical section or one
 callback.
 */
module Invoke {
  /** Where the goroutine of a request stands. */
  datatype Stage = Running | Returned | Exited

  /** An accepted request: the drained channel it was accepted under, and its callbacks so far. */
  datatype Request = Request(channel: nat, stage: Stage, fired: nat)

  /**
   `channels` says of every drained channel ever made whether it is closed, `drained` is the
   current one; `failing` are detached requests whose callback is still to be made; `panicked`
   is whether a closed channel was closed again.
   */
  datatype State = State(
    closed: bool, accepting: bool, pending: set<nat>, drained: nat, channels: seq<bool>,
    requests: seq<Request>, failing: set<nat>, panicked: bool)

  /** A new executor: nothing is pending and the drained channel is closed. */
  const FRESH := State(false, true, {}, 0, [true], [], {}, false)

  datatype Step =
    | Submit
    | Return(id: nat)
    | Remove(id: nat)
    | PauseBegin
    | PauseExpire
    | FailDetached(id: nat)
    | Resume
    | Close

  predicate Enabled(s: State, step: Step) {
    match step
    case Return(id) => id < |s.requests| && s.requests[id].stage == Running
    case Remove(id) => id < |s.requests| && s.requests[id].stage == Returned
    case FailDetached(id) => id in s.failing && id < |s.requests|
    case _ => s.drained < |s.channels|
  }

  function Closing(s: State): State
    requires s.drained < |s.channels|
  {
    s.(channels := s.channels[s.drained := true], panicked := s.panicked || s.channels[s.drained])
  }

  /** A request's callback is made at most once, by whoever comes first. */
  function Finished(r: Request): Request {
    if r.fired > 0 then r else r.(fired := r.fired + 1)
  }

  function DoSubmit(s: State): State {
    if s.closed || !s.accepting then s
    else
      var t := if s.pending == {} then s.(channels := s.channels + [false], drained := |s.channels|) else s;
      t.(requests := s.requests + [Request(t.drained, Running, 0)], pending := s.pending + {|s.requests|})
  }

  function DoRemove(s: State, id: nat): State
    requires id < |s.requests|
  {
    var t := s.(requests := s.requests[id := s.requests[id].(stage := Exited)]);
    if id !in s.pending then t
    else
      var u := t.(pending := s.pending - {id});
      if u.pending == {} && s.drained < |s.channels| then Closing(u) else u
  }

  /** The deadline of a pause has passed: what is still pending is detached. */
  function DoExpire(s: State): State
    requires s.drained < |s.channels|
  {
    if s.pending == {} then s
    else Closing(s.(pending := {}, failing := s.failing + s.pending))
  }

  function Next(s: State, step: Step): State
    requires Enabled(s, step)
  {
    match step
    case Submit => DoSubmit(s)
    case Return(id) => s.(requests := s.requests[id := Finished(s.requests[id]).(stage := Returned)])
    case Remove(id) => DoRemove(s, id)
    case PauseBegin => s.(accepting := false)
    case PauseExpire => DoExpire(s)
    case FailDetached(id) =>
      s.(requests := s.requests[id := Finished(s.requests[id])], failing := s.failing - {id})
    case Resume => s.(accepting := true)
    case Close => s.(closed := true, accepting := false)
  }

  predicate IsRun(run: seq<State>, steps: seq<Step>) {
    && |run| == |steps| + 1
    && run[0] == FRESH
    && forall k :: 0 <= k < |steps| ==> Enabled(run[k], steps[k]) && run[k + 1] == Next(run[k], steps[k])
  }

  // ---- The invariant ----

  predicate RequestOk(s: State, id: nat)
    requires id < |s.requests|
  {
    var r := s.requests[id];
    && r.fired <= 1 && r.channel < |s.channels|
    && (r.stage != Running ==> r.fired == 1)
    && (id in s.pending ==> r.channel == s.drained && r.stage != Exited && id !in s.failing)
    && (id !in s.pending && id !in s.failing ==> r.fired == 1)
    && (id in s.pending && r.stage == Running ==> r.fired == 0)
  }

  ghost predicate Inv(s: State) {
    && !s.panicked
    && s.drained < |s.channels|
    && (s.channels[s.drained] <==> s.pending == {})
    && (forall c :: 0 <= c < |s.channels| && c != s.drained ==> s.channels[c])
    && (forall id :: id in s.pending || id in s.failing ==> id < |s.requests|)
    && (forall id :: 0 <= id < |s.requests| ==> RequestOk(s, id))
  }

  lemma SubmitKeeps(s: State)
    requires Inv(s)
    ensures Inv(DoSubmit(s))
  {
    var s' := DoSubmit(s);
    forall id | 0 <= id < |s'.requests| ensures RequestOk(s', id) {
      if id < |s.requests| {
        assert RequestOk(s, id);
      }
    }
  }

  lemma RemoveKeeps(s: State, id: nat)
    requires Inv(s) && Enabled(s, Remove(id))
    ensures Inv(DoRemove(s, id))
  {
    var s' := DoRemove(s, id);
    assert RequestOk(s, id);
    forall other | 0 <= other < |s'.requests| ensures RequestOk(s', other) {
      assert RequestOk(s, other);
    }
  }

  lemma FinishKeeps(s: State, step: Step)
    requires Inv(s) && Enabled(s, step) && (step.Return? || step.FailDetached?)
    ensures Inv(Next(s, step))
  {
    var s' := Next(s, step);
    forall id | 0 <= id < |s'.requests| ensures RequestOk(s', id) {
      assert RequestOk(s, id);
    }
  }

  lemma ExpireKeeps(s: State)
    requires Inv(s)
    ensures Inv(DoExpire(s))
  {
    var s' := DoExpire(s);
    forall id | 0 <= id < |s'.requests| ensures RequestOk(s', id) {
      assert RequestOk(s, id);
    }
  }

  lemma FlagKeeps(s: State, closed: bool, accepting: bool)
    requires Inv(s)
    ensures Inv(s.(closed := closed, accepting := accepting))
  {
    var s' := s.(closed := closed, accepting := accepting);
    forall id | 0 <= id < |s'.requests| ensures RequestOk(s', id) {
      assert RequestOk(s, id);
    }
  }

  lemma StepKeeps(s: State, step: Step)
    requires Inv(s) && Enabled(s, step)
    ensures Inv(Next(s, step))
  {
    match step
    case Submit => SubmitKeeps(s);
    case Remove(id) => RemoveKeeps(s, id);
    case PauseExpire => ExpireKeeps(s);
    case PauseBegin => FlagKeeps(s, s.closed, false);
    case Resume => FlagKeeps(s, s.closed, true);
    case Close => FlagKeeps(s, true, false);
    case _ => FinishKeeps(s, step);
  }

  lemma {:induction false} EveryRun(run: seq<State>, steps: seq<Step>, k: nat)
    requires IsRun(run, steps) && k < |run|
    ensures Inv(run[k])
  {
    if k > 0 {
      EveryRun(run, steps, k - 1);
      StepKeeps(run[k - 1], steps[k - 1]);
    }
  }

  // ---- What holds over every run ----

  /** The current drained channel is closed exactly when nothing is pending, and never twice. */
  lemma DrainedMeansEmpty(run: seq<State>, steps: seq<Step>, k: nat)
    requires IsRun(run, steps) && k < |run|
    ensures run[k].drained < |run[k].channels|
    ensures run[k].channels[run[k].drained] <==> run[k].pending == {}
    ensures !run[k].panicked
  {
    EveryRun(run, steps, k);
  }

  /**
   An accepted request's callback is made at most once; it has been made once its handler
   returned, and once it is neither pending nor about to be failed.
   */
  lemma CallbackOnce(run: seq<State>, steps: seq<Step>, k: nat, id: nat)
    requires IsRun(run, steps) && k < |run| && id < |run[k].requests|
    ensures run[k].requests[id].fired <= 1
    ensures run[k].requests[id].stage != Running || (id !in run[k].pending && id !in run[k].failing)
       ==> run[k].requests[id].fired == 1
    ensures id in run[k].pending && run[k].requests[id].stage == Running ==> run[k].requests[id].fired == 0
  {
    EveryRun(run, steps, k);
    assert RequestOk(run[k], id);
  }

  /** Requests are never forgotten or moved to another channel, and never become pending again. */
  lemma {:induction false} RequestsStay(run: seq<State>, steps: seq<Step>, j: nat, k: nat, id: nat)
    requires IsRun(run, steps) && j <= k < |run| && id < |run[j].requests|
    ensures id < |run[k].requests| && run[k].requests[id].channel == run[j].requests[id].channel
    ensures id in run[k].pending ==> id in run[j].pending
    ensures |run[j].channels| <= |run[k].channels|
  {
    if j < k {
      RequestsStay(run, steps, j, k - 1, id);
      EveryRun(run, steps, k - 1);
    }
  }

  /**
   A pause that saw its drained channel close reports success: every request accepted before it
   has had its callback, unless another pause has just detached it and is about to fail it.
   */
  lemma PauseWaitedForAll(run: seq<State>, steps: seq<Step>, j: nat, k: nat, id: nat)
    requires IsRun(run, steps) && j < |steps| && steps[j] == PauseBegin && j <= k < |run|
    requires id < |run[j].requests| && run[j].drained < |run[k].channels| && run[k].channels[run[j].drained]
    ensures id < |run[k].requests| && id !in run[k].pending
    ensures id in run[k].failing || run[k].requests[id].fired == 1
  {
    EveryRun(run, steps, j);
    EveryRun(run, steps, k);
    RequestsStay(run, steps, j, k, id);
    assert RequestOk(run[j], id) && RequestOk(run[k], id);
  }

  // ---- What one critical section does ----

  /** An accepted request is pending and running under the current channel, which is open. */
  lemma SubmitIs(s: State)
    requires Inv(s)
    ensures var u := DoSubmit(s); var id := |s.requests|;
      if s.closed || !s.accepting then u == s
      else
        && u.requests == s.requests + [Request(u.drained, Running, 0)] && u.pending == s.pending + {id}
        && u.drained < |u.channels| && !u.channels[u.drained]
        && (s.pending != {} ==> u.drained == s.drained && u.channels == s.channels)
        && u.closed == s.closed && u.accepting == s.accepting && u.failing == s.failing
  {
  }

  /** The request that is removed is no longer pending; the last one closes the channel. */
  lemma RemoveIs(s: State, id: nat)
    requires Inv(s) && Enabled(s, Remove(id))
    ensures var u := DoRemove(s, id);
      && u.pending == s.pending - {id} && u.failing == s.failing && u.requests[id].stage == Exited
      && (u.channels[u.drained] <==> u.pending == {}) && u.drained == s.drained
      && (forall other :: 0 <= other < |s.requests| && other != id ==> u.requests[other] == s.requests[other])
      && u.closed == s.closed && u.accepting == s.accepting
  {
  }

  /** A deadline that has passed leaves nothing pending: all of it is to be failed. */
  lemma ExpireIs(s: State)
    requires Inv(s)
    ensures var u := DoExpire(s);
      && u.pending == {} && u.failing == s.failing + s.pending && u.requests == s.requests
      && u.drained == s.drained && u.channels[u.drained]
      && u.closed == s.closed && u.accepting == s.accepting
  {
  }

  predicate ClosedBy(steps: seq<Step>, k: nat)
    requires k <= |steps|
  {
    exists j :: 0 <= j < k && steps[j] == Close
  }

  predicate ResumedBetween(steps: seq<Step>, j: nat, k: nat)
    requires k <= |steps|
  {
    exists m :: j < m < k && steps[m] == Resume
  }

  /** The last PauseBegin, if there was one, was followed by a Resume. */
  predicate Unpaused(steps: seq<Step>, k: nat)
    requires k <= |steps|
  {
    forall j :: 0 <= j < k && steps[j] == PauseBegin ==> ResumedBetween(steps, j, k)
  }

  lemma ClosedNext(steps: seq<Step>, k: nat)
    requires 0 < k <= |steps|
    ensures ClosedBy(steps, k) <==> ClosedBy(steps, k - 1) || steps[k - 1] == Close
  {
  }

  lemma UnpausedNext(steps: seq<Step>, k: nat)
    requires 0 < k <= |steps|
    ensures Unpaused(steps, k)
      <==> steps[k - 1] == Resume || (Unpaused(steps, k - 1) && steps[k - 1] != PauseBegin)
  {
    if steps[k - 1] == Resume {
      forall j | 0 <= j < k && steps[j] == PauseBegin ensures ResumedBetween(steps, j, k) {
        assert steps[k - 1] == Resume;
      }
    } else if steps[k - 1] == PauseBegin {
      assert !ResumedBetween(steps, k - 1, k);
    } else {
      forall j | 0 <= j < k - 1 ensures ResumedBetween(steps, j, k) <==> ResumedBetween(steps, j, k - 1) {
      }
    }
  }

  lemma FlagsAfter(s: State, step: Step)
    requires Enabled(s, step)
    ensures var u := Next(s, step);
      && (u.closed <==> s.closed || step == Close)
      && (u.accepting <==> step == Resume || (s.accepting && step != PauseBegin && step != Close))
  {
  }

  lemma {:induction false} FlagsAre(run: seq<State>, steps: seq<Step>, k: nat)
    requires IsRun(run, steps) && k < |run|
    ensures run[k].closed <==> ClosedBy(steps, k)
    ensures !run[k].closed ==> (run[k].accepting <==> Unpaused(steps, k))
  {
    if k > 0 {
      FlagsAre(run, steps, k - 1);
      FlagsAfter(run[k - 1], steps[k - 1]);
      ClosedNext(steps, k);
      UnpausedNext(steps, k);
    }
  }

  /**
   Over any run a request is accepted exactly when nothing closed the executor before and every pause
   was resumed; then it becomes pending and its handler runs.
   */
  lemma AcceptedIff(run: seq<State>, steps: seq<Step>, k: nat)
    requires IsRun(run, steps) && k < |steps| && steps[k] == Submit
    ensures var id := |run[k].requests|;
      if !ClosedBy(steps, k) && Unpaused(steps, k)
      then id in run[k + 1].pending && id < |run[k + 1].requests| && run[k + 1].requests[id].stage == Running
      else run[k + 1] == run[k]
  {
    EveryRun(run, steps, k);
    FlagsAre(run, steps, k);
    SubmitIs(run[k]);
  }

  /** What is not pending any more was answered, or is about to be failed, ever after. */
  lemma {:induction false} StaysDetached(run: seq<State>, steps: seq<Step>, j: nat, k: nat, id: nat)
    requires IsRun(run, steps) && j <= k < |run| && id < |run[j].requests| && id !in run[j].pending
    ensures id < |run[k].requests| && id !in run[k].pending
    ensures id in run[k].failing || run[k].requests[id].fired == 1
  {
    RequestsStay(run, steps, j, k, id);
    EveryRun(run, steps, k);
    assert RequestOk(run[k], id);
  }

  /**
   A pause whose deadline passes answers for everybody: every request accepted before it has had
   its callback or is about to be failed, at every later moment.
   */
  lemma ExpiredAnswersAll(run: seq<State>, steps: seq<Step>, j: nat, k: nat, id: nat)
    requires IsRun(run, steps) && j < k < |run| && steps[j] == PauseExpire && id < |run[j].requests|
    ensures id < |run[k].requests| && id !in run[k].pending
    ensures id in run[k].failing || run[k].requests[id].fired == 1
  {
    EveryRun(run, steps, j);
    ExpireIs(run[j]);
    StaysDetached(run, steps, j + 1, k, id);
  }

  /** Closing a channel for the second time is a panic. */
  lemma ClosingIs(s: State)
    requires s.drained < |s.channels|
    ensures Closing(s).channels[s.drained] && (Closing(s).panicked <==> s.panicked || s.channels[s.drained])
  {
  }

  // ---- Everybody can be answered ----

  lemma Extend(run: seq<State>, steps: seq<Step>, step: Step) returns (run': seq<State>, steps': seq<Step>)
    requires IsRun(run, steps) && Enabled(run[|steps|], step)
    ensures IsRun(run', steps') && steps' == steps + [step] && run <= run'
    ensures run'[|steps'|] == Next(run[|steps|], step)
  {
    run', steps' := run + [Next(run[|steps|], step)], steps + [step];
  }

  /** No call of the executor's owner is ever blocked. */
  lemma NeverBlocked(run: seq<State>, steps: seq<Step>, k: nat, step: Step)
    requires IsRun(run, steps) && k < |run|
    requires step == Submit || step == PauseBegin || step == PauseExpire || step == Resume || step == Close
    ensures Enabled(run[k], step)
  {
    EveryRun(run, steps, k);
  }

  /** The handler of a request ends: it returns, unless it has, and the request is removed. */
  lemma Ends(run: seq<State>, steps: seq<Step>, id: nat) returns (run': seq<State>, steps': seq<Step>)
    requires IsRun(run, steps) && id in run[|steps|].pending
    ensures IsRun(run', steps') && steps <= steps'
    ensures run'[|steps'|].pending == run[|steps|].pending - {id} && run'[|steps'|].failing == run[|steps|].failing
    ensures |run'[|steps'|].requests| == |run[|steps|].requests|
  {
    EveryRun(run, steps, |steps|);
    assert RequestOk(run[|steps|], id);
    run', steps' := run, steps;
    if run[|steps|].requests[id].stage == Running {
      run', steps' := Extend(run, steps, Return(id));
    }
    EveryRun(run', steps', |steps'|);
    RemoveIs(run'[|steps'|], id);
    run', steps' := Extend(run', steps', Remove(id));
  }

  /**
   From every state of every run the pending requests can end and the detached ones be failed, after
   which every request has had its callback exactly once and the drained channel is closed.
   */
  lemma {:induction false} AllCanBeAnswered(run: seq<State>, steps: seq<Step>)
    returns (run': seq<State>, steps': seq<Step>)
    requires IsRun(run, steps)
    ensures IsRun(run', steps') && steps <= steps'
    ensures var s := run'[|steps'|];
      && |s.requests| == |run[|steps|].requests| && s.pending == {} && s.failing == {}
      && (forall id :: 0 <= id < |s.requests| ==> s.requests[id].fired == 1)
      && s.drained < |s.channels| && s.channels[s.drained]
    decreases |run[|steps|].pending| + |run[|steps|].failing|
  {
    var s := run[|steps|];
    EveryRun(run, steps, |steps|);
    if id: nat :| id in s.pending {
      run', steps' := Ends(run, steps, id);
      run', steps' := AllCanBeAnswered(run', steps');
    } else if id: nat :| id in s.failing {
      run', steps' := Extend(run, steps, FailDetached(id));
      run', steps' := AllCanBeAnswered(run', steps');
    } else {
      run', steps' := run, steps;
      forall id | 0 <= id < |s.requests| ensures s.requests[id].fired == 1 {
        assert RequestOk(s, id);
      }
    }
  }

  // ---- The executor ----

  class Executor {
    var closed: bool
    var accepting: bool
    var pending: set<nat>
    var drained: nat
    var channels: seq<bool>
    var requests: seq<Request>
    var failing: set<nat>
    ghost var panicked: bool

    ghost function Value(): State
      reads this
    {
      State(closed, accepting, pending, drained, channels, requests, failing, panicked)
    }

    ghost predicate Valid()
      reads this
    {
      Inv(Value())
    }

    constructor ()
      ensures Valid() && Value() == FRESH
    {
      closed, accepting, pending, failing := false, true, {}, {};
      drained, channels, requests, panicked := 0, [true], [], false;
    }

    /** Closing a channel that is closed already would panic. */
    method CloseDrained()
      requires drained < |channels| && !channels[drained]
      modifies this`channels
      ensures channels == old(channels)[drained := true]
    {
      channels := channels[drained := true];
    }

    method Submit() returns (ok: bool)
      requires Valid()
      modifies this
      ensures Valid() && Value() == DoSubmit(old(Value())) && ok == (!old(closed) && old(accepting))
    {
      SubmitKeeps(Value());
      if closed || !accepting {
        return false;
      }
      if pending == {} {
        channels, drained := channels + [false], |channels|;
      }
      pending := pending + {|requests|};
      requests := requests + [Request(drained, Running, 0)];
      ok := true;
    }

    /** The handler of a request returned: its callback is made unless it was detached and failed. */
    method Finish(id: nat)
      requires Valid() && Enabled(Value(), Return(id))
      modifies this`requests
      ensures Valid() && Value() == Next(old(Value()), Return(id))
    {
      FinishKeeps(Value(), Return(id));
      requests := requests[id := Finished(requests[id]).(stage := Returned)];
    }

    method Remove(id: nat)
      requires Valid() && Enabled(Value(), Step.Remove(id))
      modifies this`requests, this`pending, this`channels
      ensures Valid() && Value() == DoRemove(old(Value()), id)
    {
      RemoveKeeps(Value(), id);
      requests := requests[id := requests[id].(stage := Exited)];
      if id in pending {
        pending := pending - {id};
        if pending == {} {
          CloseDrained();
        }
      }
    }

    /** The first half of a pause: nothing more is accepted. */
    method PauseBegin() returns (done: bool, channel: nat)
      requires Valid()
      modifies this`accepting
      ensures Valid() && Value() == Next(old(Value()), Step.PauseBegin)
      ensures done == (pending == {}) && channel == drained
    {
      FlagKeeps(Value(), closed, false);
      accepting := false;
      return pending == {}, drained;
    }

    /** The second half, after the deadline: the requests still pending are detached. */
    method PauseExpire() returns (done: bool)
      requires Valid()
      modifies this`pending, this`failing, this`channels
      ensures Valid() && Value() == DoExpire(old(Value())) && done == (old(pending) == {})
    {
      ExpireKeeps(Value());
      if pending == {} {
        return true;
      }
      failing := failing + pending;
      pending := {};
      CloseDrained();
      done := false;
    }

    /** Failing the detached requests one by one, outside the lock. */
    method FailDetached(ids: set<nat>)
      requires Valid() && ids <= failing
      modifies this`requests, this`failing
      ensures Valid() && failing == old(failing) - ids && pending == old(pending)
      ensures forall id :: id in ids ==> id < |requests| && requests[id].fired == 1
    {
      var todo := ids;
      while todo != {}
        invariant todo <= ids && todo <= failing && Valid() && pending == old(pending)
        invariant failing == old(failing) - (ids - todo)
        invariant forall id :: id in ids - todo ==> id < |requests| && requests[id].fired == 1
      {
        var id: nat :| id in todo;
        assert id in failing && id < |requests|;
        assert RequestOk(Value(), id);
        FinishKeeps(Value(), Step.FailDetached(id));
        ghost var next := Next(Value(), Step.FailDetached(id));
        requests := requests[id := Finished(requests[id])];
        failing := failing - {id};
        assert Value() == next;
        todo := todo - {id};
      }
    }

    method Resume()
      requires Valid()
      modifies this`accepting
      ensures Valid() && Value() == Next(old(Value()), Step.Resume)
    {
      FlagKeeps(Value(), closed, true);
      accepting := true;
    }

    method Close()
      requires Valid()
      modifies this`closed, this`accepting
      ensures Valid() && Value() == Next(old(Value()), Step.Close)
    {
      FlagKeeps(Value(), true, false);
      closed := true;
      accepting := false;
    }
  }
}
