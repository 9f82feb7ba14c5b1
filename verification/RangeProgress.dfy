/** Whatever happened so far, a range download that is paused and continued can still succeed. */
module RangeProgress {
  import opened Base
  import opened RangeModel
  import opened RangeProofs
  import opened RangeTheorems
  import opened RangeDecisions

  /** The cycle goes on, and the Resolve stream has no part in it. */
  ghost predicate Goes(s: State, u: State) {
    u.active == s.active && u.fallback == s.fallback && u.temp == s.temp && u.lost == s.lost
  }

  /** Nothing but connection `i` is different, and its chunk is as open or closed as it was. */
  ghost predicate Only(s: State, u: State, i: nat) {
    && |u.conns| == |s.conns| && i < |s.conns| && u.size == s.size && Goes(s, u)
    && (forall j :: 0 <= j < |s.conns| && j != i ==> u.conns[j] == s.conns[j])
    && (u.conns[i].end.None? ==> s.conns[i].end.None? && Lo(u.conns[i]) == Lo(s.conns[i]))
  }

  // ---- Stopping everybody ----

  /** The write in flight reaches the disk and is counted. */
  lemma Drains(src: seq<Byte>, run: seq<State>, steps: seq<Step>, i: nat) returns (run': seq<State>, steps': seq<Step>)
    requires IsRun(src, run, steps) && i < |run[|steps|].conns| && run[|steps|].conns[i].activity.Writing?
    ensures IsRun(src, run', steps') && steps <= steps' && Only(run[|steps|], run'[|steps'|], i)
    ensures var c, d := run[|steps|].conns[i], run'[|steps'|].conns[i]; var a := c.activity;
      d == c.(got := c.got + |a.data|, total := c.total + |a.data|,
              activity := if a.finished then Finished else Receiving(a.pos, a.last, 0))
  {
    var data := run[|steps|].conns[i].activity.data;
    EveryRun(src, run, steps, |steps|);
    run', steps' := Extend(src, run, steps, Land(i, |data|));
    run', steps' := Extend(src, run', steps', Commit(i));
  }

  lemma Retires(src: seq<Byte>, run: seq<State>, steps: seq<Step>, i: nat) returns (run': seq<State>, steps': seq<Step>)
    requires IsRun(src, run, steps) && i < |run[|steps|].conns| && run[|steps|].conns[i].activity == Finished
    ensures IsRun(src, run', steps') && steps <= steps' && Only(run[|steps|], run'[|steps'|], i)
    ensures run'[|steps'|].conns[i].activity == Stopped && run'[|steps'|].conns[i].completed
  {
    run', steps' := Extend(src, run, steps, Retire(i));
  }

  lemma Exits(src: seq<Byte>, run: seq<State>, steps: seq<Step>, i: nat) returns (run': seq<State>, steps': seq<Step>)
    requires IsRun(src, run, steps) && i < |run[|steps|].conns| && !run[|steps|].active
    requires var a := run[|steps|].conns[i].activity; !a.Writing? && !a.Awaiting? && a != Finished
    ensures IsRun(src, run', steps') && steps <= steps' && Only(run[|steps|], run'[|steps'|], i)
    ensures run'[|steps'|].conns[i].activity == Stopped
  {
    run', steps' := Extend(src, run, steps, Exit(i));
  }

  lemma Awakes(src: seq<Byte>, run: seq<State>, steps: seq<Step>) returns (run': seq<State>, steps': seq<Step>)
    requires IsRun(src, run, steps) && !run[|steps|].active
    requires 0 < |run[|steps|].conns| && run[|steps|].conns[0].activity.Awaiting?
    ensures IsRun(src, run', steps') && steps <= steps' && Only(run[|steps|], run'[|steps'|], 0)
    ensures var a := run'[|steps'|].conns[0].activity; a == Stopped || a == Idle
  {
    run', steps' := Extend(src, run, steps, AwaitCancelled);
  }

  /** A cancelled goroutine ends. */
  lemma Stops(src: seq<Byte>, run: seq<State>, steps: seq<Step>, i: nat) returns (run': seq<State>, steps': seq<Step>)
    requires IsRun(src, run, steps) && i < |run[|steps|].conns| && !run[|steps|].active
    ensures IsRun(src, run', steps') && steps <= steps' && Only(run[|steps|], run'[|steps'|], i)
    ensures run'[|steps'|].conns[i].activity == Stopped
  {
    EveryRun(src, run, steps, |steps|);
    run', steps' := run, steps;
    if run'[|steps'|].conns[i].activity.Writing? {
      run', steps' := Drains(src, run', steps', i);
    } else if run'[|steps'|].conns[i].activity.Awaiting? {
      run', steps' := Awakes(src, run', steps');
    }
    if run'[|steps'|].conns[i].activity == Finished {
      run', steps' := Retires(src, run', steps', i);
    } else {
      run', steps' := Exits(src, run', steps', i);
    }
  }

  /** The size is not known, and everything is there: a request for the rest has nothing to answer. */
  predicate AtEnd(src: seq<Byte>, s: State) {
    if s.temp.Some? then s.size == 0 && s.temp.value >= |src|
    else s.conns != [] && s.conns[0].end.None? && Lo(s.conns[0]) >= |src|
  }

  /** Everybody below `i` has stopped; what was not at the end of the resource is not there now. */
  ghost predicate Quiet(src: seq<Byte>, s: State, u: State, i: nat) {
    && !u.active && u.temp == s.temp && u.size == s.size && u.lost == s.lost && |u.conns| == |s.conns| && i <= |u.conns|
    && s.conns != [] && (AtEnd(src, u) ==> AtEnd(src, s))
    && forall j :: 0 <= j < i ==> u.conns[j].activity == Stopped
  }

  lemma {:induction false} StopsAll(src: seq<Byte>, s: State, run: seq<State>, steps: seq<Step>, i: nat)
    returns (run': seq<State>, steps': seq<Step>)
    requires IsRun(src, run, steps) && Quiet(src, s, run[|steps|], i)
    ensures IsRun(src, run', steps') && steps <= steps' && Quiet(src, s, run'[|steps'|], |s.conns|)
    decreases |s.conns| - i
  {
    run', steps' := run, steps;
    if i < |s.conns| {
      run', steps' := Stops(src, run, steps, i);
      run', steps' := StopsAll(src, s, run', steps', i + 1);
    }
  }

  // ---- Continuing ----

  /** Everybody who is not done is about to ask for what it owns. */
  ghost predicate Ready(src: seq<Byte>, s: State, lost: bool) {
    && s.active && s.temp.None? && !s.fallback && s.lost == lost && s.conns != [] && !AtEnd(src, s)
    && forall i :: 0 <= i < |s.conns| ==> s.conns[i].completed || s.conns[i].activity == Idle
  }

  lemma Pauses(src: seq<Byte>, run: seq<State>, steps: seq<Step>) returns (run': seq<State>, steps': seq<Step>)
    requires IsRun(src, run, steps) && !AtEnd(src, run[|steps|])
    requires !run[|steps|].active && AllStopped(run[|steps|].conns)
    ensures IsRun(src, run', steps') && steps <= steps'
    ensures var u := run'[|steps'|];
      && AllStopped(u.conns) && u.temp.None? && !u.fallback && u.lost == run[|steps|].lost
      && u.conns != [] && !AtEnd(src, u)
  {
    EveryRun(src, run, steps, |steps|);
    run', steps' := Extend(src, run, steps, PauseDone);
  }

  lemma Continues(src: seq<Byte>, run: seq<State>, steps: seq<Step>) returns (run': seq<State>, steps': seq<Step>)
    requires IsRun(src, run, steps) && AllStopped(run[|steps|].conns) && run[|steps|].temp.None?
    requires !run[|steps|].fallback && run[|steps|].conns != [] && !AtEnd(src, run[|steps|])
    ensures IsRun(src, run', steps') && steps <= steps' && Ready(src, run'[|steps'|], run[|steps|].lost)
  {
    EveryRun(src, run, steps, |steps|);
    var s := run[|steps|];
    run', steps' := Extend(src, run, steps, Resume(true));
    forall i | 0 <= i < |s.conns|
      ensures run'[|steps'|].conns[i].completed || run'[|steps'|].conns[i].activity == Idle
    {
      assert s.conns[i].activity == Stopped;
      ResumedAfterErrorIs(s.conns[i]);
    }
  }

  // ---- Downloading what is left ----

  /** A connection that reads the answer for exactly what it owns. */
  predicate Reads(c: Conn) {
    c.activity.Receiving? && c.activity.discard == 0 && c.end == Some(c.activity.last)
    && c.activity.pos == Lo(c) <= c.activity.last + 1
  }

  /** What one body read hands to the disk. */
  lemma Receives(src: seq<Byte>, c: Conn, k: nat)
    requires Reads(c) && 0 < k <= c.activity.last + 1 - c.activity.pos && c.activity.last < |src|
    ensures Received(src, c, k)
         == c.(activity := Writing(c.activity.pos + k, c.activity.last,
                                   src[c.activity.pos..c.activity.pos + k], false, 0))
  {
  }

  /** One buffer is read, written and counted. */
  lemma ReadsOne(src: seq<Byte>, run: seq<State>, steps: seq<Step>, i: nat)
    returns (run': seq<State>, steps': seq<Step>)
    requires IsRun(src, run, steps) && i < |run[|steps|].conns| && Reads(run[|steps|].conns[i])
    requires run[|steps|].conns[i].activity.pos <= run[|steps|].conns[i].activity.last < |src|
    ensures IsRun(src, run', steps') && steps <= steps' && Only(run[|steps|], run'[|steps'|], i)
    ensures Reads(run'[|steps'|].conns[i])
    ensures run'[|steps'|].conns[i].activity.last == run[|steps|].conns[i].activity.last
    ensures run'[|steps'|].conns[i].activity.pos > run[|steps|].conns[i].activity.pos
  {
    var a := run[|steps|].conns[i].activity;
    var k := Min(BUFFER, a.last + 1 - a.pos);
    Receives(src, run[|steps|].conns[i], k);
    run', steps' := Extend(src, run, steps, Receive(i, k));
    run', steps' := Drains(src, run', steps', i);
  }

  /** The body is read to its end, and the connection is done. */
  lemma {:induction false} ReadsAll(src: seq<Byte>, run: seq<State>, steps: seq<Step>, i: nat)
    returns (run': seq<State>, steps': seq<Step>)
    requires IsRun(src, run, steps) && i < |run[|steps|].conns| && Reads(run[|steps|].conns[i])
    requires run[|steps|].conns[i].activity.last < |src|
    ensures IsRun(src, run', steps') && steps <= steps' && Only(run[|steps|], run'[|steps'|], i)
    ensures run'[|steps'|].conns[i].completed
    decreases run[|steps|].conns[i].activity.last + 1 - run[|steps|].conns[i].activity.pos
  {
    var a := run[|steps|].conns[i].activity;
    if a.pos <= a.last {
      run', steps' := ReadsOne(src, run, steps, i);
      run', steps' := ReadsAll(src, run', steps', i);
    } else {
      run', steps' := Extend(src, run, steps, BodyEnd(i));
      run', steps' := Retires(src, run', steps', i);
    }
  }

  /** An idle connection asks for what it owns and is answered; one that owns nothing is done. */
  lemma Asks(src: seq<Byte>, run: seq<State>, steps: seq<Step>, i: nat) returns (run': seq<State>, steps': seq<Step>)
    requires IsRun(src, run, steps) && i < |run[|steps|].conns| && run[|steps|].conns[i].activity == Idle
    requires run[|steps|].active && !run[|steps|].fallback
    requires var c := run[|steps|].conns[i];
      0 <= Lo(c) && if c.end.Some? then Lo(c) <= c.end.value < |src| else Lo(c) < |src|
    ensures IsRun(src, run', steps') && steps <= steps'
    ensures |run'[|steps'|].conns| == |run[|steps|].conns| && Reads(run'[|steps'|].conns[i])
    ensures run'[|steps'|].conns[i].activity.last < |src|
    ensures forall j :: 0 <= j < |run[|steps|].conns| && j != i ==> run'[|steps'|].conns[j] == run[|steps|].conns[j]
    ensures Goes(run[|steps|], run'[|steps'|])
  {
    run', steps' := Extend(src, run, steps, Request(i));
    run', steps' := Extend(src, run', steps', Respond(i));
  }

  /** The chunk is exhausted already, and no request is needed. */
  lemma SkipsDone(src: seq<Byte>, run: seq<State>, steps: seq<Step>, i: nat)
    returns (run': seq<State>, steps': seq<Step>)
    requires IsRun(src, run, steps) && i < |run[|steps|].conns| && run[|steps|].conns[i].activity == Idle
    requires run[|steps|].active && run[|steps|].conns[i].end.Some? && Remain(run[|steps|].conns[i], 0) <= 0
    ensures IsRun(src, run', steps') && steps <= steps' && Only(run[|steps|], run'[|steps'|], i)
    ensures run'[|steps'|].conns[i].completed
  {
    run', steps' := Extend(src, run, steps, Request(i));
    run', steps' := Retires(src, run', steps', i);
  }

  /** Those below `i` are done; the others are done, or about to ask for what they own. */
  ghost predicate Going(src: seq<Byte>, s: State, lost: bool, i: nat) {
    && s.active && s.temp.None? && !s.fallback && s.lost == lost && s.conns != [] && i <= |s.conns|
    && (forall j :: 0 <= j < i ==> s.conns[j].completed)
    && (forall j :: i <= j < |s.conns| ==> s.conns[j].completed || s.conns[j].activity == Idle)
    && (i == 0 ==> !AtEnd(src, s))
  }

  /** Connection `i` downloads all it owns. */
  lemma Completes(src: seq<Byte>, run: seq<State>, steps: seq<Step>, lost: bool, i: nat)
    returns (run': seq<State>, steps': seq<Step>)
    requires IsRun(src, run, steps) && Going(src, run[|steps|], lost, i) && i < |run[|steps|].conns|
    requires !run[|steps|].conns[i].completed
    ensures IsRun(src, run', steps') && steps <= steps' && Going(src, run'[|steps'|], lost, i + 1)
    ensures |run'[|steps'|].conns| == |run[|steps|].conns|
  {
    EveryRun(src, run, steps, |steps|);
    var c := run[|steps|].conns[i];
    if c.end.Some? && Remain(c, 0) <= 0 {
      run', steps' := SkipsDone(src, run, steps, i);
    } else {
      run', steps' := Asks(src, run, steps, i);
      run', steps' := ReadsAll(src, run', steps', i);
    }
  }

  lemma {:induction false} CompletesAll(src: seq<Byte>, run: seq<State>, steps: seq<Step>, lost: bool, i: nat)
    returns (run': seq<State>, steps': seq<Step>)
    requires IsRun(src, run, steps) && Going(src, run[|steps|], lost, i)
    ensures IsRun(src, run', steps') && steps <= steps'
    ensures Going(src, run'[|steps'|], lost, |run'[|steps'|].conns|)
    decreases |run[|steps|].conns| - i
  {
    run', steps' := run, steps;
    if i < |run[|steps|].conns| {
      if !run[|steps|].conns[i].completed {
        run', steps' := Completes(src, run, steps, lost, i);
      }
      run', steps' := CompletesAll(src, run', steps', lost, i + 1);
    }
  }

  lemma AllDoneSucceeds(src: seq<Byte>, run: seq<State>, steps: seq<Step>)
    requires IsRun(src, run, steps)
    requires var s := run[|steps|]; Going(src, s, s.lost, |s.conns|)
    ensures AllStopped(run[|steps|].conns) && Succeeds(run[|steps|])
    ensures Complete(src, run[|steps|]) <==> !run[|steps|].lost
  {
    var s := run[|steps|];
    EveryRun(src, run, steps, |steps|);
    Verdict(src, s);
    CompletionIsSound(src, run, steps, |steps|);
  }

  lemma Quietens(src: seq<Byte>, run: seq<State>, steps: seq<Step>) returns (run': seq<State>, steps': seq<Step>)
    requires IsRun(src, run, steps) && !AtEnd(src, run[|steps|])
    ensures IsRun(src, run', steps') && steps <= steps' && !AtEnd(src, run'[|steps'|])
    ensures !run'[|steps'|].active && AllStopped(run'[|steps'|].conns) && run'[|steps'|].lost == run[|steps|].lost
  {
    EveryRun(src, run, steps, |steps|);
    run', steps' := run, steps;
    if run[|steps|].active {
      run', steps' := Extend(src, run, steps, Cancel);
    }
    run', steps' := StopsAll(src, run[|steps|], run', steps', 0);
  }

  /**
   From every state of every run, after any failures, pauses, splits, steals and crashes, a pause and
   a restart can end in success, and the file is then complete if and only if no prefix was lost. The
   one exception is a download of unknown size that has everything already: it asks for more.
   */
  lemma CanAlwaysSucceed(src: seq<Byte>, run: seq<State>, steps: seq<Step>)
    returns (run': seq<State>, steps': seq<Step>)
    requires IsRun(src, run, steps) && !AtEnd(src, run[|steps|])
    ensures IsRun(src, run', steps') && steps <= steps'
    ensures var s := run'[|steps'|];
      && s.active && AllStopped(s.conns) && Succeeds(s) && (Complete(src, s) <==> !run[|steps|].lost)
  {
    run', steps' := Quietens(src, run, steps);
    run', steps' := Pauses(src, run', steps');
    run', steps' := Continues(src, run', steps');
    run', steps' := CompletesAll(src, run', steps', run[|steps|].lost, 0);
    AllDoneSucceeds(src, run', steps');
  }

  /** The exception: such a request starts past the end, and no range answers it. */
  lemma NothingAnswersAtEnd(src: seq<Byte>, run: seq<State>, steps: seq<Step>, k: nat)
    requires IsRun(src, run, steps) && k < |steps| && run[k].temp.None? && AtEnd(src, run[k])
    ensures !steps[k].Respond?
  {
    EveryRun(src, run, steps, k);
  }
}
