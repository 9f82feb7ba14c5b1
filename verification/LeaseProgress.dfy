/** Whatever tasks, readers and timers did so far, everything can still be given back. */
module LeaseProgress {
  import opened Base
  import opened Leases
  import opened LeaseProofs
  import opened LeaseTheorems

  lemma Extend(run: seq<State>, steps: seq<Step>, step: Step) returns (run': seq<State>, steps': seq<Step>)
    requires IsRun(run, steps) && Enabled(run[|steps|], step)
    ensures IsRun(run', steps') && steps' == steps + [step]
    ensures run'[|steps'|] == Next(run[|steps|], step)
  {
    run', steps' := run + [Next(run[|steps|], step)], steps + [step];
  }

  // ---- Tasks give their leases up ----

  ghost predicate NoLease(s: State, n: nat) {
    n <= |s.tasks| && forall t :: 0 <= t < n ==> s.tasks[t] == Lease(None, None)
  }

  lemma TaskLets(run: seq<State>, steps: seq<Step>, t: nat) returns (run': seq<State>, steps': seq<Step>)
    requires IsRun(run, steps) && t < |run[|steps|].tasks|
    ensures IsRun(run', steps') && steps <= steps'
    ensures run'[|steps'|].tasks == run[|steps|].tasks[t := Lease(None, None)]
  {
    run', steps' := run, steps;
    if run'[|steps'|].tasks[t].hand.Some? {
      run', steps' := Extend(run', steps', Record(t));
    }
    if run'[|steps'|].tasks[t].url.Some? {
      run', steps' := Extend(run', steps', GiveUp(t));
    }
  }

  lemma {:induction false} TasksLet(run: seq<State>, steps: seq<Step>, t: nat)
    returns (run': seq<State>, steps': seq<Step>)
    requires IsRun(run, steps) && NoLease(run[|steps|], t)
    ensures IsRun(run', steps') && steps <= steps' && NoLease(run'[|steps'|], |run'[|steps'|].tasks|)
    decreases |run[|steps|].tasks| - t
  {
    run', steps' := run, steps;
    if t < |run[|steps|].tasks| {
      run', steps' := TaskLets(run, steps, t);
      run', steps' := TasksLet(run', steps', t + 1);
    }
  }

  // ---- The releases arrive, and what nobody claimed expires ----

  lemma {:induction false} ReleasesArrive(run: seq<State>, steps: seq<Step>)
    returns (run': seq<State>, steps': seq<Step>)
    requires IsRun(run, steps)
    ensures IsRun(run', steps') && steps <= steps' && run'[|steps'|].tasks == run[|steps|].tasks
    ensures run'[|steps'|].releasing == multiset{}
    decreases |run[|steps|].releasing|
  {
    run', steps' := run, steps;
    if run[|steps|].releasing != multiset{} {
      var i :| i in run[|steps|].releasing;
      EveryRun(run, steps, |steps|);
      run', steps' := Extend(run, steps, Release(i));
      run', steps' := ReleasesArrive(run', steps');
    }
  }

  ghost predicate AllRevoked(s: State, n: nat) {
    n <= |s.sources| && forall i :: 0 <= i < n ==> s.sources[i].revoked
  }

  lemma SourceEnds(run: seq<State>, steps: seq<Step>, i: nat) returns (run': seq<State>, steps': seq<Step>)
    requires IsRun(run, steps) && i < |run[|steps|].sources|
    ensures IsRun(run', steps') && steps <= steps'
    ensures var s, u := run[|steps|], run'[|steps'|];
      && u.tasks == s.tasks && u.releasing == s.releasing && |u.sources| == |s.sources| && u.sources[i].revoked
      && forall j :: 0 <= j < |s.sources| && j != i ==> u.sources[j] == s.sources[j]
  {
    if run[|steps|].sources[i].session.Some? && run[|steps|].sources[i].taskRefs == 0 {
      run', steps' := Extend(run, steps, Expire(i));
    } else {
      run', steps' := Extend(run, steps, Revoke(i));
    }
  }

  lemma {:induction false} SourcesEnd(run: seq<State>, steps: seq<Step>, i: nat)
    returns (run': seq<State>, steps': seq<Step>)
    requires IsRun(run, steps) && AllRevoked(run[|steps|], i)
    ensures IsRun(run', steps') && steps <= steps' && AllRevoked(run'[|steps'|], |run'[|steps'|].sources|)
    ensures run'[|steps'|].tasks == run[|steps|].tasks && run'[|steps'|].releasing == run[|steps|].releasing
    decreases |run[|steps|].sources| - i
  {
    run', steps' := run, steps;
    if i < |run[|steps|].sources| {
      run', steps' := SourceEnds(run, steps, i);
      run', steps' := SourcesEnd(run', steps', i + 1);
    }
  }

  // ---- Readers end, and the sessions are released ----

  /** No step from here on touches tasks, releases or sources. */
  ghost predicate Upstream(s: State, u: State) {
    u.tasks == s.tasks && u.releasing == s.releasing && u.sources == s.sources
  }

  lemma {:induction false} ReadersEnd(run: seq<State>, steps: seq<Step>)
    returns (run': seq<State>, steps': seq<Step>)
    requires IsRun(run, steps)
    ensures IsRun(run', steps') && steps <= steps' && Upstream(run[|steps|], run'[|steps'|])
    ensures run'[|steps'|].readers == multiset{}
    decreases |run[|steps|].readers|
  {
    run', steps' := run, steps;
    if run[|steps|].readers != multiset{} {
      var k :| k in run[|steps|].readers;
      EveryRun(run, steps, |steps|);
      run', steps' := Extend(run, steps, CloseReader(k));
      run', steps' := ReadersEnd(run', steps');
    }
  }

  lemma {:induction false} DebtsSettle(run: seq<State>, steps: seq<Step>)
    returns (run': seq<State>, steps': seq<Step>)
    requires IsRun(run, steps)
    ensures IsRun(run', steps') && steps <= steps' && Upstream(run[|steps|], run'[|steps'|])
    ensures run'[|steps'|].owed == multiset{} && run'[|steps'|].readers == run[|steps|].readers
    decreases |run[|steps|].owed|
  {
    run', steps' := run, steps;
    if run[|steps|].owed != multiset{} {
      var k :| k in run[|steps|].owed;
      EveryRun(run, steps, |steps|);
      run', steps' := Extend(run, steps, Settle(k));
      run', steps' := DebtsSettle(run', steps');
    }
  }

  // ---- Sessions close and run their closers ----

  /** Nothing but session `k` is different. */
  ghost predicate Only(s: State, u: State, k: nat) {
    && Upstream(s, u) && u.readers == s.readers && u.owed == s.owed
    && k < |s.sessions| == |u.sessions|
    && forall j :: 0 <= j < |s.sessions| && j != k ==> u.sessions[j] == s.sessions[j]
  }

  lemma {:induction false} ClosersRun(run: seq<State>, steps: seq<Step>, k: nat)
    returns (run': seq<State>, steps': seq<Step>)
    requires IsRun(run, steps) && k < |run[|steps|].sessions|
    requires run[|steps|].sessions[k].closed && !run[|steps|].sessions[k].unrun
    ensures IsRun(run', steps') && steps <= steps' && Only(run[|steps|], run'[|steps'|], k)
    ensures var x := run'[|steps'|].sessions[k]; x.closed && !x.unrun && x.taken == multiset{}
    decreases |run[|steps|].sessions[k].taken|
  {
    run', steps' := run, steps;
    var x := run[|steps|].sessions[k];
    if x.taken != multiset{} {
      var id :| id in x.taken;
      run', steps' := Extend(run, steps, RunCloser(k, id));
      run', steps' := ClosersRun(run', steps', k);
    }
  }

  lemma SessionEnds(run: seq<State>, steps: seq<Step>, k: nat) returns (run': seq<State>, steps': seq<Step>)
    requires IsRun(run, steps) && k < |run[|steps|].sessions| && run[|steps|].sessions[k].refs == 0
    ensures IsRun(run', steps') && steps <= steps' && Only(run[|steps|], run'[|steps'|], k)
    ensures var x := run'[|steps'|].sessions[k]; x.closed && !x.unrun && x.taken == multiset{}
  {
    run', steps' := run, steps;
    if !run[|steps|].sessions[k].closed {
      run', steps' := Extend(run', steps', CloseIfIdle(k));
    }
    if run'[|steps'|].sessions[k].unrun {
      run', steps' := Extend(run', steps', TakeClosers(k));
    }
    run', steps' := ClosersRun(run', steps', k);
  }

  /** Everything upstream is over, and the sessions below `k` are closed with all closers run. */
  ghost predicate Over(s: State, k: nat) {
    && NoLease(s, |s.tasks|) && s.releasing == multiset{} && AllRevoked(s, |s.sources|)
    && s.readers == multiset{} && s.owed == multiset{} && k <= |s.sessions|
    && forall j :: 0 <= j < k ==>
         s.sessions[j].closed && !s.sessions[j].unrun && s.sessions[j].taken == multiset{}
  }

  lemma {:induction false} NobodyLives(sources: seq<Source>, k: nat)
    requires forall i :: 0 <= i < |sources| ==> sources[i].revoked
    ensures Living(sources, k) == 0
  {
    if sources != [] {
      NobodyLives(sources[..|sources| - 1], k);
    }
  }

  lemma {:induction false} SessionsEnd(run: seq<State>, steps: seq<Step>, k: nat)
    returns (run': seq<State>, steps': seq<Step>)
    requires IsRun(run, steps) && Over(run[|steps|], k)
    ensures IsRun(run', steps') && steps <= steps' && Over(run'[|steps'|], |run'[|steps'|].sessions|)
    decreases |run[|steps|].sessions| - k
  {
    run', steps' := run, steps;
    if k < |run[|steps|].sessions| {
      SessionRefsAreExact(run, steps, |steps|, k);
      NobodyLives(run[|steps|].sources, k);
      run', steps' := SessionEnds(run, steps, k);
      run', steps' := SessionsEnd(run', steps', k + 1);
    }
  }

  /**
   From every state of every run the tasks can give their leases up, the readers end and the timers
   expire, after which every source is revoked, every session is closed exactly once and every closer
   has run exactly once.
   */
  lemma AllCanBeFreed(run: seq<State>, steps: seq<Step>) returns (run': seq<State>, steps': seq<Step>)
    requires IsRun(run, steps)
    ensures IsRun(run', steps') && steps <= steps'
    ensures var s := run'[|steps'|];
      && (forall t :: 0 <= t < |s.tasks| ==> s.tasks[t] == Lease(None, None))
      && (forall i :: 0 <= i < |s.sources| ==> s.sources[i].revoked)
      && (forall e :: 0 <= e < |s.sessions| ==> s.sessions[e].closed && s.sessions[e].closes == 1)
      && forall e, id :: 0 <= e < |s.sessions| && 0 <= id < s.sessions[e].added ==> s.sessions[e].fired[id] == 1
  {
    run', steps' := TasksLet(run, steps, 0);
    run', steps' := ReleasesArrive(run', steps');
    run', steps' := SourcesEnd(run', steps', 0);
    run', steps' := ReadersEnd(run', steps');
    run', steps' := DebtsSettle(run', steps');
    run', steps' := SessionsEnd(run', steps', 0);
    var s := run'[|steps'|];
    forall e | 0 <= e < |s.sessions| ensures s.sessions[e].closes == 1 {
      NeverClosedInUse(run', steps', |steps'|, e);
    }
    forall e, id | 0 <= e < |s.sessions| && 0 <= id < s.sessions[e].added ensures s.sessions[e].fired[id] == 1 {
      EachCloserOnce(run', steps', |steps'|, e, id);
    }
  }
}
