/** Whatever happened so far, an HLS download that is started again can still succeed. */
module HlsProgress {
  import opened Base
  import opened Hls
  import opened HlsProofs
  import opened HlsTheorems

  /** A live run: segments below `i` are done, the others wait, and nobody holds the journal. */
  ghost predicate Up(p: Plan, s: State, i: nat) {
    && s.run.Some? && s.run.value.phase == Downloading && !s.run.value.cancelled && s.run.value.lock.None?
    && (forall j :: j in s.run.value.stages ==>
          j < |p.data| && s.run.value.stages[j] == if j < i then Done else Queued)
  }

  /** The live run, with segment `i` at a stage. */
  ghost predicate Busy(p: Plan, s: State, i: nat, stage: Stage, lock: Option<nat>) {
    && s.run.Some? && s.run.value.phase == Downloading && !s.run.value.cancelled && s.run.value.lock == lock
    && i in s.run.value.stages && s.run.value.stages[i] == stage
    && (forall j :: j in s.run.value.stages && j != i ==>
          j < |p.data| && s.run.value.stages[j] == if j < i then Done else Queued)
  }

  lemma Takes(p: Plan, run: seq<State>, steps: seq<Step>, i: nat) returns (run': seq<State>, steps': seq<Step>)
    requires IsRun(p, run, steps) && i < |p.data| && Up(p, run[|steps|], i) && At(run[|steps|], i, Queued)
    ensures IsRun(p, run', steps') && steps <= steps' && Busy(p, run'[|steps'|], i, Fetching, None)
  {
    run', steps' := Extend(p, run, steps, Take(i));
  }

  lemma Writes(p: Plan, run: seq<State>, steps: seq<Step>, i: nat) returns (run': seq<State>, steps': seq<Step>)
    requires IsRun(p, run, steps) && i < |p.data| && Busy(p, run[|steps|], i, Fetching, None)
    ensures IsRun(p, run', steps') && steps <= steps' && Busy(p, run'[|steps'|], i, Writing, None)
  {
    run', steps' := Extend(p, run, steps, WritePart(i, 0));
  }

  lemma Fetches(p: Plan, run: seq<State>, steps: seq<Step>, i: nat) returns (run': seq<State>, steps': seq<Step>)
    requires IsRun(p, run, steps) && i < |p.data| && Busy(p, run[|steps|], i, Writing, None)
    ensures IsRun(p, run', steps') && steps <= steps'
    ensures Busy(p, run'[|steps'|], i, Written, None) && i in run'[|steps'|].disk.parts
  {
    run', steps' := Extend(p, run, steps, PartWritten(i));
  }

  lemma Renames(p: Plan, run: seq<State>, steps: seq<Step>, i: nat) returns (run': seq<State>, steps': seq<Step>)
    requires IsRun(p, run, steps) && i < |p.data|
    requires Busy(p, run[|steps|], i, Written, None) && i in run[|steps|].disk.parts
    ensures IsRun(p, run', steps') && steps <= steps' && Busy(p, run'[|steps'|], i, Renamed, None)
  {
    run', steps' := Extend(p, run, steps, RenamePart(i));
  }

  lemma Journals(p: Plan, run: seq<State>, steps: seq<Step>, i: nat) returns (run': seq<State>, steps': seq<Step>)
    requires IsRun(p, run, steps) && i < |p.data| && Busy(p, run[|steps|], i, Renamed, None)
    ensures IsRun(p, run', steps') && steps <= steps' && Busy(p, run'[|steps'|], i, Saved, Some(i))
  {
    run', steps' := Extend(p, run, steps, BeginSave(i));
    assert Busy(p, run'[|steps'|], i, Saving, Some(i));
    run', steps' := Extend(p, run', steps', WriteJournal(i));
  }

  lemma Counts(p: Plan, run: seq<State>, steps: seq<Step>, i: nat) returns (run': seq<State>, steps': seq<Step>)
    requires IsRun(p, run, steps) && i < |p.data| && Busy(p, run[|steps|], i, Saved, Some(i))
    ensures IsRun(p, run', steps') && steps <= steps' && Up(p, run'[|steps'|], i + 1)
  {
    run', steps' := Extend(p, run, steps, RenameJournal(i));
    assert Busy(p, run'[|steps'|], i, Stored, None);
    run', steps' := Extend(p, run', steps', Count(i));
  }

  /** One segment goes through all its stages. */
  lemma StoresOne(p: Plan, run: seq<State>, steps: seq<Step>, i: nat) returns (run': seq<State>, steps': seq<Step>)
    requires IsRun(p, run, steps) && i < |p.data| && Up(p, run[|steps|], i) && At(run[|steps|], i, Queued)
    ensures IsRun(p, run', steps') && steps <= steps' && Up(p, run'[|steps'|], i + 1)
  {
    run', steps' := Takes(p, run, steps, i);
    run', steps' := Writes(p, run', steps', i);
    run', steps' := Fetches(p, run', steps', i);
    run', steps' := Renames(p, run', steps', i);
    run', steps' := Journals(p, run', steps', i);
    run', steps' := Counts(p, run', steps', i);
  }

  /** The segments from `i` on are stored one after the other. */
  lemma {:induction false} StoresAll(p: Plan, run: seq<State>, steps: seq<Step>, i: nat)
    returns (run': seq<State>, steps': seq<Step>)
    requires IsRun(p, run, steps) && i <= |p.data| && Up(p, run[|steps|], i)
    ensures IsRun(p, run', steps') && steps <= steps' && Up(p, run'[|steps'|], |p.data|)
    decreases |p.data| - i
  {
    run', steps' := run, steps;
    if i < |p.data| {
      if At(run[|steps|], i, Queued) {
        run', steps' := StoresOne(p, run, steps, i);
      }
      run', steps' := StoresAll(p, run', steps', i + 1);
    }
  }

  ghost predicate MergingAt(s: State, k: nat) {
    && s.run.Some? && !s.run.value.cancelled && s.disk.out.Some?
    && s.run.value.phase.Merging? && s.run.value.phase.next == k
  }

  lemma {:induction false} MergesAll(p: Plan, run: seq<State>, steps: seq<Step>, k: nat)
    returns (run': seq<State>, steps': seq<Step>)
    requires IsRun(p, run, steps) && k <= |p.data| && MergingAt(run[|steps|], k)
    ensures IsRun(p, run', steps') && steps <= steps' && MergingAt(run'[|steps'|], |p.data|)
    decreases |p.data| - k
  {
    run', steps' := run, steps;
    if k < |p.data| {
      MergeFindsEverySegment(p, run, steps, |steps|);
      run', steps' := Extend(p, run, steps, MergeSegment(k));
      run', steps' := MergesAll(p, run', steps', k + 1);
    }
  }

  lemma MergeStarts(p: Plan, run: seq<State>, steps: seq<Step>) returns (run': seq<State>, steps': seq<Step>)
    requires IsRun(p, run, steps) && Up(p, run[|steps|], |p.data|)
    ensures IsRun(p, run', steps') && steps <= steps' && MergingAt(run'[|steps'|], 0)
  {
    run', steps' := Extend(p, run, steps, MergeStart);
  }

  ghost predicate SwappingAt(s: State) {
    s.run.Some? && !s.run.value.cancelled && s.disk.out.Some? && s.run.value.phase.Swapping?
  }

  lemma Closes(p: Plan, run: seq<State>, steps: seq<Step>) returns (run': seq<State>, steps': seq<Step>)
    requires IsRun(p, run, steps) && MergingAt(run[|steps|], |p.data|)
    ensures IsRun(p, run', steps') && steps <= steps' && SwappingAt(run'[|steps'|])
  {
    run', steps' := Extend(p, run, steps, MergeClosed);
  }

  lemma Swaps(p: Plan, run: seq<State>, steps: seq<Step>) returns (run': seq<State>, steps': seq<Step>)
    requires IsRun(p, run, steps) && SwappingAt(run[|steps|])
    ensures IsRun(p, run', steps') && steps <= steps'
    ensures InPhase(run'[|steps'|], Swapped) && !run'[|steps'|].run.value.cancelled
  {
    run', steps' := Extend(p, run, steps, RenameOutput);
  }

  lemma Finishes(p: Plan, run: seq<State>, steps: seq<Step>) returns (run': seq<State>, steps': seq<Step>)
    requires IsRun(p, run, steps) && InPhase(run[|steps|], Swapped) && !run[|steps|].run.value.cancelled
    ensures IsRun(p, run', steps') && steps <= steps'
    ensures run'[|steps'|].report.Some? && run'[|steps'|].report.value.Success?
  {
    run', steps' := Extend(p, run, steps, Succeed);
  }

  lemma Restarts(p: Plan, run: seq<State>, steps: seq<Step>) returns (run': seq<State>, steps': seq<Step>)
    requires IsRun(p, run, steps)
    ensures IsRun(p, run', steps') && steps <= steps' && Up(p, run'[|steps'|], 0)
  {
    run', steps' := run, steps;
    if run[|steps|].run.Some? {
      run', steps' := Extend(p, run', steps', Crash);
    }
    run', steps' := Extend(p, run', steps', Start);
  }

  /**
   From every state of every run, after any number of crashes, failures and pauses, starting again
   can end in success, with the whole output in place and its length reported.
   */
  lemma CanAlwaysSucceed(p: Plan, run: seq<State>, steps: seq<Step>) returns (run': seq<State>, steps': seq<Step>)
    requires IsRun(p, run, steps)
    ensures IsRun(p, run', steps') && steps <= steps'
    ensures run'[|steps'|].report == Some(Success(|Concat(p.data)|))
    ensures run'[|steps'|].disk.target == Some(Concat(p.data))
  {
    run', steps' := Restarts(p, run, steps);
    run', steps' := StoresAll(p, run', steps', 0);
    run', steps' := MergeStarts(p, run', steps');
    run', steps' := MergesAll(p, run', steps', 0);
    run', steps' := Closes(p, run', steps');
    run', steps' := Swaps(p, run', steps');
    run', steps' := Finishes(p, run', steps');
    SuccessIsTheOutput(p, run', steps', |steps'|);
  }

  // ---- How a run ends ----

  predicate Fails(step: Step) {
    step.FetchFails? || step.StoreFails? || step.MergeFails?
  }

  /** Some step after the last Start was a failure. */
  predicate FailedSince(steps: seq<Step>, k: nat)
    requires k <= |steps|
  {
    k > 0 && steps[k - 1] != Start && (Fails(steps[k - 1]) || FailedSince(steps, k - 1))
  }

  predicate PausedSince(steps: seq<Step>, k: nat)
    requires k <= |steps|
  {
    k > 0 && steps[k - 1] != Start && (steps[k - 1] == Pause || PausedSince(steps, k - 1))
  }

  lemma {:induction false} CancelledIff(p: Plan, run: seq<State>, steps: seq<Step>, k: nat)
    requires IsRun(p, run, steps) && k < |run| && run[k].run.Some?
    ensures run[k].run.value.cancelled <==> PausedSince(steps, k)
  {
    assert run[k - 1 + 1] == Next(p, run[k - 1], steps[k - 1]);
    if steps[k - 1] != Start {
      CancelledIff(p, run, steps, k - 1);
    }
  }

  /** A cancelled run takes nothing and does not report a fresh output. */
  lemma CancelledStops(p: Plan, s: State, step: Step)
    requires s.run.Some? && s.run.value.cancelled && Enabled(p, s, step)
    ensures !step.Take? && !(step.Succeed? && InPhase(s, Swapped))
  {
  }

  /** A run that nobody cancelled does not end without a report. */
  lemma EndsWithReport(p: Plan, s: State, step: Step)
    requires s.run.Some? && !s.run.value.cancelled && Enabled(p, s, step) && step != Crash
    ensures Next(p, s, step).run.None? ==> Next(p, s, step).report.Some?
  {
  }

  /**
   A pause is obeyed: until the next start no further segment is taken and no fresh output reported;
   and nothing but a pause ends a run without a report, the death of the process aside.
   */
  lemma PauseIsObeyed(p: Plan, run: seq<State>, steps: seq<Step>, k: nat)
    requires IsRun(p, run, steps) && k < |steps| && run[k].run.Some?
    ensures PausedSince(steps, k) ==> !steps[k].Take? && !(steps[k].Succeed? && InPhase(run[k], Swapped))
    ensures run[k + 1].run.None? && run[k + 1].report.None? ==> steps[k] == Crash || PausedSince(steps, k)
  {
    CancelledIff(p, run, steps, k);
    if run[k].run.value.cancelled {
      CancelledStops(p, run[k], steps[k]);
    } else if steps[k] != Crash {
      EndsWithReport(p, run[k], steps[k]);
    }
  }

  ghost predicate SomeFailed(s: State) {
    s.run.Some? && exists i :: i in s.run.value.stages && s.run.value.stages[i] == Failed
  }

  lemma FailedBefore(p: Plan, s: State, step: Step)
    requires Enabled(p, s, step) && !Fails(step) && SomeFailed(Next(p, s, step))
    ensures step != Start ==> SomeFailed(s)
    ensures step != Start
  {
    var u := Next(p, s, step);
    var i :| i in u.run.value.stages && u.run.value.stages[i] == Failed;
    assert step != Start ==> i in s.run.value.stages && s.run.value.stages[i] == Failed;
  }

  lemma {:induction false} FailedHasCause(p: Plan, run: seq<State>, steps: seq<Step>, k: nat)
    requires IsRun(p, run, steps) && k < |run| && SomeFailed(run[k])
    ensures FailedSince(steps, k)
  {
    assert run[k - 1 + 1] == Next(p, run[k - 1], steps[k - 1]);
    if !Fails(steps[k - 1]) {
      FailedBefore(p, run[k - 1], steps[k - 1]);
      FailedHasCause(p, run, steps, k - 1);
    }
  }

  /** A download is reported as failed only if, since it was started, a fetch, a store or the merge failed. */
  lemma {:induction false} FailureHasCause(p: Plan, run: seq<State>, steps: seq<Step>, k: nat)
    requires IsRun(p, run, steps) && k < |run| && run[k].report == Some(Failure)
    ensures FailedSince(steps, k)
  {
    assert run[k - 1 + 1] == Next(p, run[k - 1], steps[k - 1]);
    if steps[k - 1] == EndFailed {
      FailedHasCause(p, run, steps, k - 1);
    } else if !Fails(steps[k - 1]) {
      assert run[k - 1].report == Some(Failure);
      FailureHasCause(p, run, steps, k - 1);
    }
  }
}
