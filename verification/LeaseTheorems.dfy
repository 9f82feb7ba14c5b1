/** What the reference counts guarantee over whole runs. */
module LeaseTheorems {
  import opened Base
  import opened Leases
  import opened LeaseProofs

  /** A registered source counts exactly the leases there are on it. */
  lemma TaskRefsAreExact(run: seq<State>, steps: seq<Step>, k: nat, i: nat)
    requires IsRun(run, steps) && k < |run| && i < |run[k].sources|
    requires !run[k].sources[i].revoked && run[k].sources[i].registered
    ensures run[k].sources[i].taskRefs == Leasing(run[k].tasks, i) + run[k].releasing[i]
  {
    EveryRun(run, steps, k);
    assert SourceOk(run[k], i);
  }

  /** A release that reaches a source in use never finds its count at zero. */
  lemma ReleaseNeverUnderflows(run: seq<State>, steps: seq<Step>, k: nat, i: nat)
    requires IsRun(run, steps) && k < |steps| && steps[k] == Release(i)
    ensures !run[k].sources[i].revoked ==> run[k].sources[i].taskRefs > 0
  {
    EveryRun(run, steps, k);
    assert SourceOk(run[k], i);
  }

  /** A source with a lease on it survives a release, which takes one of at least two claims, and the timer. */
  lemma LeasedStays(s: State, step: Step, i: nat)
    requires i < |s.sources| && SourceOk(s, i) && !s.sources[i].revoked && Leasing(s.tasks, i) > 0
    requires Enabled(s, step) && (step == Release(i) || step == Expire(i))
    ensures !Next(s, step).sources[i].revoked
  {
  }

  /** Every other step but Revoke leaves a source that is in use in use. */
  lemma OthersStay(s: State, step: Step, i: nat)
    requires i < |s.sources| && !s.sources[i].revoked && Enabled(s, step)
    requires step != Release(i) && step != Expire(i) && step != Revoke(i)
    ensures i < |Next(s, step).sources| && !Next(s, step).sources[i].revoked
  {
  }

  /** Neither another task's release nor the timer revokes a source that a task leases. */
  lemma LeasedSourceLives(run: seq<State>, steps: seq<Step>, k: nat, t: nat, i: nat)
    requires IsRun(run, steps) && k < |steps| && t < |run[k].tasks| && i < |run[k].sources|
    requires run[k].tasks[t].url == Some(i) || run[k].tasks[t].hand == Some(i)
    requires !run[k].sources[i].revoked && steps[k] != Revoke(i)
    ensures i < |run[k + 1].sources| && !run[k + 1].sources[i].revoked
  {
    EveryRun(run, steps, k);
    assert SourceOk(run[k], i);
    LeasingBounds(run[k].tasks, t, i);
    if steps[k] == Release(i) || steps[k] == Expire(i) {
      LeasedStays(run[k], steps[k], i);
    } else {
      OthersStay(run[k], steps[k], i);
    }
  }

  /** The last release revokes the source: no lease is left, none is on its way. */
  lemma LastReleaseRevokes(run: seq<State>, steps: seq<Step>, k: nat, i: nat)
    requires IsRun(run, steps) && k < |steps| && steps[k] == Release(i)
    requires !run[k].sources[i].revoked && run[k].sources[i].registered
    ensures run[k + 1].sources[i].revoked <==> Leasing(run[k + 1].tasks, i) + run[k + 1].releasing[i] == 0
  {
    EveryRun(run, steps, k);
    assert SourceOk(run[k], i);
  }

  /** A source hands its session over for release exactly once, when it is revoked. */
  lemma SessionHandedOnce(run: seq<State>, steps: seq<Step>, k: nat, i: nat)
    requires IsRun(run, steps) && k < |run| && i < |run[k].sources|
    ensures run[k].sources[i].handed == if run[k].sources[i].revoked && run[k].sources[i].session.Some? then 1 else 0
  {
    EveryRun(run, steps, k);
    assert SourceOk(run[k], i);
  }

  /** A session counts exactly its unrevoked sources, its readers and the releases it is owed. */
  lemma SessionRefsAreExact(run: seq<State>, steps: seq<Step>, k: nat, e: nat)
    requires IsRun(run, steps) && k < |run| && e < |run[k].sessions|
    ensures run[k].sessions[e].refs == Living(run[k].sources, e) + run[k].readers[e] + run[k].owed[e]
  {
    EveryRun(run, steps, k);
    assert SessionOk(run[k], e);
  }

  /** A session is closed at most once, and never under a live source, a reader or an owed release. */
  lemma NeverClosedInUse(run: seq<State>, steps: seq<Step>, k: nat, e: nat)
    requires IsRun(run, steps) && k < |run| && e < |run[k].sessions|
    ensures run[k].sessions[e].closes == if run[k].sessions[e].closed then 1 else 0
    ensures run[k].sessions[e].closed ==> e !in run[k].readers && e !in run[k].owed
    ensures run[k].sessions[e].closed ==> forall i :: 0 <= i < |run[k].sources| ==> !Lives(run[k].sources[i], e)
  {
    EveryRun(run, steps, k);
    var s := run[k];
    assert SessionOk(s, e);
    if s.sessions[e].closed {
      forall i | 0 <= i < |s.sources| ensures !Lives(s.sources[i], e) {
        if Lives(s.sources[i], e) {
          LivingBounds(s.sources, i, e);
        }
      }
    }
  }

  /** A session that was used and has no user left is closed: no session leaks. */
  lemma NoSessionLeaks(run: seq<State>, steps: seq<Step>, k: nat, e: nat)
    requires IsRun(run, steps) && k < |run| && e < |run[k].sessions| && run[k].sessions[e].retains > 0
    ensures run[k].sessions[e].closed
       <==> Living(run[k].sources, e) == 0 && e !in run[k].readers && e !in run[k].owed
  {
    EveryRun(run, steps, k);
    assert SessionOk(run[k], e);
  }

  /** Every retain of a reader takes effect, although a retain of a closed session would not. */
  lemma ReaderRetainCounts(run: seq<State>, steps: seq<Step>, k: nat, i: nat)
    requires IsRun(run, steps) && k < |steps| && steps[k] == OpenReader(i) && run[k].sources[i].session.Some?
    ensures var e := run[k].sources[i].session.value;
      && e < |run[k].sessions|
      && run[k + 1].sessions[e].refs == run[k].sessions[e].refs + 1
      && run[k + 1].readers[e] == run[k].readers[e] + 1
  {
    EveryRun(run, steps, k);
    LiveMeansOpen(run[k], i);
  }

  /** Every closer runs at most once, never before the close, and all of them once it is over. */
  lemma EachCloserOnce(run: seq<State>, steps: seq<Step>, k: nat, e: nat, id: nat)
    requires IsRun(run, steps) && k < |run| && e < |run[k].sessions| && id < run[k].sessions[e].added
    ensures run[k].sessions[e].fired[id] <= 1
    ensures !run[k].sessions[e].closed ==> run[k].sessions[e].fired[id] == 0
    ensures run[k].sessions[e].closed && !run[k].sessions[e].unrun && id !in run[k].sessions[e].taken
       ==> run[k].sessions[e].fired[id] == 1
  {
    EveryRun(run, steps, k);
    assert ClosersOk(run[k].sessions[e]);
    EachNumberOnce(run[k].sessions[e].added, id);
  }

  // ---- What one critical section does ----

  /** Giving a source up, once: its session is handed over if it has one. */
  lemma ShutIs(x: Source)
    ensures var y := Shut(x);
      && y.revoked && y.session == x.session && y.registered == x.registered && y.taskRefs == x.taskRefs
      && y.handed == x.handed + (if !x.revoked && x.session.Some? then 1 else 0)
      && (x.revoked || x.session.None? ==> Handed(x, y) == multiset{})
      && (!x.revoked && x.session.Some? ==> Handed(x, y) == multiset{x.session.value})
  {
  }

  /** A claim counts on a live source only; the last one to go gives the source up. */
  lemma ClaimsAre(x: Source)
    ensures Claimed(x) == if x.revoked then x else x.(taskRefs := x.taskRefs + 1)
    ensures var y := Unclaimed(x);
      && (x.revoked || x.taskRefs == 0 ==> y == x)
      && (!x.revoked && x.taskRefs > 0 ==> y.taskRefs == x.taskRefs - 1 && (y.revoked <==> x.taskRefs == 1))
      && (!x.revoked && x.taskRefs == 1 ==> y == Shut(x).(taskRefs := 0))
      && (!y.revoked ==> y.handed == x.handed) && y.session == x.session && y.registered == x.registered
  {
  }

  /** A retain counts on an open session only; the release of the last user closes it. */
  lemma SessionIs(s: Session)
    ensures Retained(s) == if s.closed then s else s.(refs := s.refs + 1, retains := s.retains + 1)
    ensures var u := Released(s);
      && u.refs == (if s.refs > 0 then s.refs - 1 else 0)
      && (u.closed <==> s.closed || s.refs <= 1)
      && (u.unrun <==> s.unrun || (!s.closed && s.refs <= 1))
      && u.retains == s.retains && u.added == s.added && u.waiting == s.waiting
      && u.taken == s.taken && u.fired == s.fired
    ensures var u := ClosedIfIdle(s);
      && u.refs == s.refs && (u.closed <==> s.closed || s.refs == 0)
      && (u.unrun <==> s.unrun || (!s.closed && s.refs == 0))
  {
  }

  /** A closer registered late runs at once, others wait; a close takes all that wait. */
  lemma ClosersAre(s: Session)
    ensures var u := WithCloser(s);
      && u.added == s.added + 1
      && (s.closed ==> u.fired == s.fired + multiset{s.added} && u.waiting == s.waiting)
      && (!s.closed ==> u.waiting == s.waiting + [s.added] && u.fired == s.fired)
    ensures var u := ClosersTaken(s);
      u.waiting == [] && u.taken == s.taken + multiset(s.waiting) && !u.unrun && u.fired == s.fired
  {
  }

  /** The timer gives a source up exactly when nobody has claimed it, and its session is owed a release. */
  lemma ExpiresUnclaimed(run: seq<State>, steps: seq<Step>, k: nat, i: nat)
    requires IsRun(run, steps) && k < |steps| && steps[k] == Expire(i)
    requires !run[k].sources[i].revoked && run[k].sources[i].registered
    ensures run[k + 1].sources[i].revoked <==> Leasing(run[k].tasks, i) + run[k].releasing[i] == 0
    ensures run[k + 1].sources[i].revoked ==>
              run[k + 1].owed == run[k].owed + multiset{run[k].sources[i].session.value}
    ensures run[k + 1].tasks == run[k].tasks && run[k + 1].releasing == run[k].releasing
  {
    EveryRun(run, steps, k);
    assert SourceOk(run[k], i);
  }

  /** A task that acquires a live source holds it until it gives it up. */
  lemma AcquiredIsLeased(run: seq<State>, steps: seq<Step>, k: nat, t: nat, i: nat)
    requires IsRun(run, steps) && k < |steps| && steps[k] == Acquire(t, i)
    ensures run[k + 1].tasks[t] == Lease(run[k].tasks[t].url, Some(i))
    ensures run[k + 1].sources[i].taskRefs == run[k].sources[i].taskRefs + 1 && !run[k + 1].sources[i].revoked
  {
    assert run[k + 1] == Next(run[k], steps[k]);
  }

  /** Recording the new lease gives the old one up; a task that gives its lease up holds none. */
  lemma LeaseGoesOn(run: seq<State>, steps: seq<Step>, k: nat, t: nat)
    requires IsRun(run, steps) && k < |steps| && (steps[k] == Record(t) || steps[k] == GiveUp(t))
    ensures run[k + 1].tasks[t] == Lease(if steps[k] == Record(t) then run[k].tasks[t].hand else None, None)
    ensures forall i :: run[k + 1].releasing[i]
                     == run[k].releasing[i] + if run[k].tasks[t].url == Some(i) then 1 else 0
    ensures run[k + 1].sources == run[k].sources
  {
    assert run[k + 1] == Next(run[k], steps[k]);
  }
}
