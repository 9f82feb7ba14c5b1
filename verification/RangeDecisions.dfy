/**
 What the fetcher decides about a connection, read off the connection's fields: who failed for
 good, who is resumed, and whether the download is a success.
 */
module RangeDecisions {
  import opened Base
  import opened RangeModel
  import opened RangeProofs
  import opened RangeTheorems

  // ---- The verdict ----

  /** A failure that contradicts the requested range. */
  predicate Contradicted(c: Conn) {
    c.state == Failed && c.failed && c.err == Some(Integrity)
  }

  /** The end of the chunk is not known, or not reached yet. */
  predicate Unfinished(c: Conn) {
    c.end.None? || c.begin + c.got <= c.end.value
  }

  predicate Forbade(c: Conn) {
    c.state == Failed && c.failed && c.err == Some(Forbidden)
  }

  /** What it left undone it was refused, and nothing else went wrong with its answers. */
  predicate Excusable(c: Conn) {
    !Contradicted(c) && (Unfinished(c) ==> Forbade(c))
  }

  /**
   Once every goroutine has stopped without being cancelled, the download is a success if and only
   if no response contradicted its range and whoever left something undone was refused with 403.
   */
  lemma Verdict(src: seq<Byte>, s: State)
    requires Inv(src, s) && s.active && AllStopped(s.conns)
    ensures Succeeds(s) <==>
      forall i :: 0 <= i < |s.conns| ==> Excusable(s.conns[i])
  {
    SumRemainBounds(s.conns, |src|);
    forall i | 0 <= i < |s.conns|
      ensures Unfinished(s.conns[i]) ==> !s.conns[i].completed && s.conns[i].state == Failed && s.conns[i].failed
      ensures s.size > 0 && SumTotal(s.conns) >= s.size ==> !Unfinished(s.conns[i])
    {
      assert Remain(s.conns[i], |src|) <= SumRemain(s.conns, |src|);
    }
  }

  lemma VerdictOfRun(src: seq<Byte>, run: seq<State>, steps: seq<Step>, k: nat)
    requires IsRun(src, run, steps) && k < |run| && run[k].active && AllStopped(run[k].conns)
    ensures Succeeds(run[k]) <==>
      forall i :: 0 <= i < |run[k].conns| ==> Excusable(run[k].conns[i])
  {
    EveryRun(src, run, steps, k);
    Verdict(src, run[k]);
  }

  // ---- Sharing ----

  /** A live connection whose end is known shares its work while more than a mebibyte is left. */
  lemma SplittableIs(c: Conn)
    ensures Splittable(c) <==>
      !c.completed && c.state != Failed && c.end.Some? && c.end.value - (c.begin + c.got) + 1 > 1_048_576
  {
  }

  /** A finished connection may help one that has half a mebibyte left. */
  lemma StealableIs(c: Conn)
    ensures Stealable(c) <==>
      !c.completed && c.state != Failed && c.end.Some? && c.end.value - (c.begin + c.got) + 1 >= 524_288
  {
  }

  /** Who helps whom, and when the batch grows: nothing else stands in the way. */
  lemma SharingIsOpen(src: seq<Byte>, s: State, i: nat, v: nat, batch: nat)
    ensures Enabled(src, s, Steal(i, v)) <==>
      i != v && i < |s.conns| && v < |s.conns| && s.conns[i].activity == Finished && Stealable(s.conns[v])
    ensures Enabled(src, s, Expand(batch)) <==> s.temp.None?
  {
  }

  // ---- Answers ----

  /** Whatever answer is taken, the connection downloads, its end is known and its failure forgotten. */
  lemma RespondIs(src: seq<Byte>, s: State, i: nat)
    requires Inv(src, s) && Enabled(src, s, Respond(i))
    ensures var u := DoRespond(src, s, i); var c, d := s.conns[i], u.conns[i];
      && d.state == Downloading && !d.failed && d.err == c.err && d.retries == c.retries && d.completed == c.completed
      && d.begin == c.begin && d.end == (if c.end.None? then Some(|src| - 1) else c.end)
      && u.size == (if c.end.None? then |src| else s.size)
      && d.activity.Receiving? && d.activity.pos == c.activity.start
      && d.activity.last == (if c.end.None? then |src| - 1 else c.activity.asked.value)
      && (u.fallback <==> s.fallback && i != 0) && u.active == s.active && u.lost == s.lost
      && (forall j :: 0 <= j < |s.conns| && j != i ==> u.conns[j] == s.conns[j])
      && (if i == 0 && s.fallback then u.temp.None? else u.temp == s.temp && u.file == s.file && d.got == c.got)
  {
    assert Busy(src, s.conns[i], s.file);
  }

  /** The Resolve stream that delivered everything is the result, on one finished connection. */
  lemma ResolveWinsIs(src: seq<Byte>, s: State)
    requires Inv(src, s) && Enabled(src, s, ResolveWins)
    ensures var u := DoResolveWins(src, s); var d := u.conns[0];
      && |u.conns| == 1 && d.completed && d.state == Completed && !d.failed && d.err == None && d.activity == Stopped
      && d.begin == 0 && d.end == Some(|src| - 1) && d.got == d.total == |src| && u.size == |src|
      && u.temp.None? && !u.fallback && (forall o :: 0 <= o < |src| ==> Right(src, u.file, o))
  {
  }

  // ---- Failing ----

  /** What one failed attempt makes of a connection, and when it was the last one. */
  lemma FailureIs(c: Conn, cause: Failure)
    ensures var d := AfterFailure(c, cause);
      && d.begin == c.begin && d.end == c.end && d.got == c.got && d.total == c.total
      && d.completed == c.completed && d.steals == c.steals
      && d.state == Failed && d.err == Some(cause)
      && d.retries == (if cause == Counted then c.retries + 1 else c.retries)
      && (d.failed <==> c.failed || cause == Integrity || cause == Forbidden || cause == Counted)
      && d.activity == (if cause == Integrity || cause == Forbidden || (cause == Counted && c.retries >= 2)
                        then Stopped else Idle)
  {
  }

  // ---- Resuming ----

  /** The connection has nothing more to do, or was given up for good. */
  predicate LeftAlone(c: Conn) {
    || c.completed || c.state == Completed
    || (c.state == Failed && c.failed && (c.err == Some(Forbidden) || c.retries >= 3))
  }

  lemma ResumedIs(c: Conn)
    requires c.activity == Stopped
    ensures Resumed(c, false) == c <==> LeftAlone(c)
    ensures var d := Resumed(c, false);
      && d.begin == c.begin && d.end == c.end && d.got == c.got && d.total == c.total
      && d.completed == c.completed && d.err == c.err && d.steals == c.steals
      && (!LeftAlone(c) ==> d.state == NotStarted && !d.failed && d.retries == 0 && d.activity == Idle)
  {
  }

  /** After an error everybody who has not finished is resumed. */
  lemma ResumedAfterErrorIs(c: Conn)
    requires c.activity == Stopped
    ensures Resumed(c, true) == c <==> c.completed || c.state == Completed
    ensures var d := Resumed(c, true);
      && d.begin == c.begin && d.end == c.end && d.got == c.got && d.total == c.total
      && d.completed == c.completed && d.steals == c.steals
      && (d != c ==> d.state == NotStarted && !d.failed && d.err == None && d.retries == 0 && d.activity == Idle)
  {
  }

  // ---- Who is given up ----

  /** A goroutine stops for good on 403, on a contradiction, or on the third counted failure. */
  predicate Tries(c: Conn, active: bool) {
    && (active && c.activity == Stopped && !c.completed ==>
          c.state == Failed && c.failed && (c.err == Some(Integrity) || c.err == Some(Forbidden) || c.retries >= 3))
    && (c.activity != Stopped ==> 0 <= c.retries <= 2)
  }

  ghost predicate AllTry(conns: seq<Conn>, active: bool) {
    forall i :: 0 <= i < |conns| ==> Tries(conns[i], active)
  }

  lemma {:induction false} ExpandTries(conns: seq<Conn>, batch: nat, active: bool)
    requires AllTry(conns, active)
    ensures AllTry(ExpandBy(conns, batch), active)
    decreases batch
  {
    var v := if batch == 0 then None else MostWork(conns, |conns|);
    if v.Some? {
      ExpandTries(Split(conns, v.value), batch - 1, active);
    }
  }

  lemma OneTries(conns: seq<Conn>, next: seq<Conn>, i: nat, active: bool)
    requires AllTry(conns, active) && OnlyChanges(conns, next, i) && Tries(next[i], active)
    ensures AllTry(next, active)
  {
  }

  lemma WriteTries(src: seq<Byte>, s: State, step: Step)
    requires AllTry(s.conns, s.active) && Enabled(src, s, step) && OfWrite(step)
    ensures AllTry(Next(src, s, step).conns, s.active) && Next(src, s, step).active == s.active
  {
    WriteChanges(src, s, step);
    assert Tries(s.conns[Concerned(step)], s.active);
    OneTries(s.conns, Next(src, s, step).conns, Concerned(step), s.active);
  }

  lemma FailTries(s: State, i: nat, cause: Failure)
    requires i < |s.conns| && Tries(s.conns[i], s.active) && s.conns[i].activity != Stopped
    ensures i < |DoFail(s, i, cause).conns| && Tries(DoFail(s, i, cause).conns[i], s.active)
  {
  }

  lemma RespondTries(src: seq<Byte>, s: State, i: nat)
    requires i < |s.conns| && Tries(s.conns[i], s.active) && s.conns[i].activity.Requesting?
    ensures i < |DoRespond(src, s, i).conns| && Tries(DoRespond(src, s, i).conns[i], s.active)
  {
  }

  lemma ConnectionTries(src: seq<Byte>, s: State, step: Step)
    requires AllTry(s.conns, s.active) && Enabled(src, s, step) && OfConnection(step) && !step.Steal?
    ensures AllTry(Next(src, s, step).conns, s.active)
  {
    ConnectionChanges(src, s, step);
    assert Tries(s.conns[Concerned(step)], s.active);
    match step {
      case Fail(i, cause) => FailTries(s, i, cause);
      case Respond(i) => RespondTries(src, s, i);
      case _ =>
    }
    OneTries(s.conns, Next(src, s, step).conns, Concerned(step), s.active);
  }

  lemma StealTries(conns: seq<Conn>, h: nat, v: nat, active: bool)
    requires AllTry(conns, active) && h < |conns| && v < |conns| && h != v && conns[v].end.Some?
    ensures AllTry(StealFrom(conns, h, v), active)
  {
  }

  lemma ResolveTries(src: seq<Byte>, s: State, step: Step)
    requires s.conns != [] && AllTry(s.conns, s.active) && Enabled(src, s, step) && OfResolve(step)
    ensures AllTry(Next(src, s, step).conns, s.active)
  {
    assert Tries(s.conns[0], s.active);
  }

  lemma LifecycleTries(src: seq<Byte>, s: State, step: Step)
    requires Inv(src, s) && AllTry(s.conns, s.active) && Enabled(src, s, step)
    requires !OfWrite(step) && !OfConnection(step) && !OfResolve(step)
    ensures AllTry(Next(src, s, step).conns, Next(src, s, step).active)
  {
    match step
    case Expand(batch) => ExpandTries(s.conns, batch, s.active);
    case _ =>
  }

  lemma SameCycle(src: seq<Byte>, s: State, step: Step)
    requires Enabled(src, s, step) && (OfWrite(step) || OfConnection(step) || OfResolve(step))
    ensures Next(src, s, step).active == s.active
  {
  }

  lemma StepTries(src: seq<Byte>, s: State, step: Step)
    requires Inv(src, s) && AllTry(s.conns, s.active) && Enabled(src, s, step)
    ensures AllTry(Next(src, s, step).conns, Next(src, s, step).active)
  {
    if OfWrite(step) {
      WriteTries(src, s, step);
    } else if step.Steal? {
      StealTries(s.conns, step.i, step.victim, s.active);
    } else if OfConnection(step) {
      SameCycle(src, s, step);
      ConnectionTries(src, s, step);
    } else if OfResolve(step) {
      SameCycle(src, s, step);
      ResolveTries(src, s, step);
    } else {
      LifecycleTries(src, s, step);
    }
  }

  lemma {:induction false} EveryoneTries(src: seq<Byte>, run: seq<State>, steps: seq<Step>, k: nat)
    requires IsRun(src, run, steps) && k < |run|
    ensures AllTry(run[k].conns, run[k].active)
  {
    if k > 0 {
      EveryoneTries(src, run, steps, k - 1);
      EveryRun(src, run, steps, k - 1);
      assert run[k - 1 + 1] == Next(src, run[k - 1], steps[k - 1]);
      StepTries(src, run[k - 1], steps[k - 1]);
    }
  }

  /**
   In an uncancelled run a connection that has stopped with work left was refused with 403, got an
   answer that contradicts its range, or failed on three counted errors; nobody tries a fourth time.
   */
  lemma WhoIsGivenUp(src: seq<Byte>, run: seq<State>, steps: seq<Step>, k: nat, i: nat)
    requires IsRun(src, run, steps) && k < |run| && i < |run[k].conns|
    ensures run[k].active && run[k].conns[i].activity == Stopped && Unfinished(run[k].conns[i]) ==>
              Contradicted(run[k].conns[i]) || Forbade(run[k].conns[i]) || run[k].conns[i].retries >= 3
    ensures run[k].conns[i].activity != Stopped ==> run[k].conns[i].retries <= 2
  {
    EveryoneTries(src, run, steps, k);
    EveryRun(src, run, steps, k);
    assert Tries(run[k].conns[i], run[k].active);
  }
}
