/** What the staging protocol guarantees over any number of crashes, pauses and restarts. */
module HlsTheorems {
  import opened Base
  import opened Hls
  import opened HlsProofs

  /** A run that reports success leaves the whole output, and reports its length. */
  lemma SuccessIsTheOutput(p: Plan, run: seq<State>, steps: seq<Step>, k: nat)
    requires IsRun(p, run, steps) && k < |run|
    requires run[k].report.Some? && run[k].report.value.Success?
    ensures run[k].disk.target == Some(Concat(p.data))
    ensures run[k].report.value.downloaded == |Concat(p.data)|
  {
    EveryRun(p, run, steps, k);
  }

  /** At no moment does the output path hold part of an output. */
  lemma OutputIsNeverPartial(p: Plan, run: seq<State>, steps: seq<Step>, k: nat)
    requires IsRun(p, run, steps) && k < |run|
    ensures run[k].disk.target.None? || run[k].disk.target == run[0].disk.target
            || run[k].disk.target == Some(Concat(p.data))
  {
    EveryRun(p, run, steps, k);
  }

  /** Progress counts whole segments that are on disk under their own name, and all of them. */
  lemma ProgressIsStored(p: Plan, run: seq<State>, steps: seq<Step>, k: nat, i: nat)
    requires IsRun(p, run, steps) && k < |run| && InPhase(run[k], Downloading)
    ensures run[k].run.value.downloaded == Stock(p, run[k].run.value, |p.data|)
    ensures Counted(run[k].run.value, i) ==> OnDisk(p, run[k].disk, i)
  {
    EveryRun(p, run, steps, k);
    var r := run[k].run.value;
    if i in r.loaded {
      assert LoadedOk(p, run[k].disk, r, i);
    } else if i in r.stages {
      assert StageOk(p, run[k].disk, r, i, r.stages[i]);
    }
  }

  /**
   Once a segment is stored, a crash at any later moment before the clean-up does not lose it:
   the next run takes it over unless it is empty, and an empty segment is always fetched again.
   */
  lemma StoredSurvivesCrash(p: Plan, run: seq<State>, steps: seq<Step>, k: nat, i: nat)
    requires IsRun(p, run, steps) && k < |run| && run[k].run.Some? && run[k].run.value.phase != Cleaning
    requires i < |p.data|
    requires At(run[k], i, Stored) || At(run[k], i, Done) || i in run[k].run.value.loaded
    ensures i in Begun(p, run[k].disk).loaded <==> p.data[i] != []
  {
    EveryRun(p, run, steps, k);
    var s := run[k];
    if i in s.run.value.loaded {
      assert LoadedOk(p, s.disk, s.run.value, i);
    } else {
      assert StageOk(p, s.disk, s.run.value, i, s.run.value.stages[i]);
    }
    assert Claim(p, s.disk.segs, i, s.disk.journal.value.sizes[i]);
  }

  // A plan of one empty segment: the states of the run below.

  const EMPTY := Plan(0, 0, [[]])

  function Moment(part: bool, seg: bool, journal: Option<Journal>, tmp: Option<Journal>, run: Option<Run>): State {
    State(Disk(if seg then map[0 := []] else map[], if part then map[0 := []] else map[], journal, tmp, None, None),
          run, None)
  }

  function Worker(stage: Stage): Run {
    Run(map[], {}, map[0 := stage], None, 0, false, Downloading)
  }

  /** The worker once the segment is in the journal it keeps in memory. */
  function Saver(stage: Stage, lock: Option<nat>): Run {
    Worker(stage).(journal := map[0 := 0], lock := lock)
  }

  lemma Extend(p: Plan, run: seq<State>, steps: seq<Step>, step: Step) returns (run': seq<State>, steps': seq<Step>)
    requires IsRun(p, run, steps) && Enabled(p, run[|steps|], step)
    ensures IsRun(p, run', steps') && steps' == steps + [step] && run <= run'
    ensures run'[|steps'|] == Next(p, run[|steps|], step)
  {
    run', steps' := run + [Next(p, run[|steps|], step)], steps + [step];
  }

  lemma NothingLoaded()
    ensures Begun(EMPTY, Moment(false, false, None, None, None).disk) == Worker(Queued)
  {
    var d := Moment(false, false, None, None, None).disk;
    assert LoadedFrom(EMPTY, d.journal) == map[];
    assert KeptSet(EMPTY, map[], d.segs) == {};
    assert Begun(EMPTY, d).stages == map[0 := Queued];
    assert KeptBytes(map[], d.segs, 1) == 0;
  }

  lemma EmptyTaken() returns (run: seq<State>, steps: seq<Step>)
    ensures IsRun(EMPTY, run, steps) && |steps| == 2
    ensures run[2] == Moment(false, false, None, None, Some(Worker(Fetching)))
  {
    NothingLoaded();
    run, steps := Extend(EMPTY, [Moment(false, false, None, None, None)], [], Start);
    assert run[1] == Moment(false, false, None, None, Some(Worker(Queued)));
    run, steps := Extend(EMPTY, run, steps, Take(0));
    assert Moved(Worker(Queued), 0, Fetching) == Worker(Fetching);
  }

  lemma EmptyWritten() returns (run: seq<State>, steps: seq<Step>)
    ensures IsRun(EMPTY, run, steps) && |steps| == 4
    ensures run[4] == Moment(true, false, None, None, Some(Worker(Written)))
  {
    run, steps := EmptyTaken();
    run, steps := Extend(EMPTY, run, steps, WritePart(0, 0));
    assert Moved(Worker(Fetching), 0, Writing) == Worker(Writing);
    assert run[3] == Moment(true, false, None, None, Some(Worker(Writing)));
    run, steps := Extend(EMPTY, run, steps, PartWritten(0));
    assert Moved(Worker(Writing), 0, Written) == Worker(Written);
  }

  lemma EmptyRenamed() returns (run: seq<State>, steps: seq<Step>)
    ensures IsRun(EMPTY, run, steps) && |steps| == 6
    ensures run[6] == Moment(false, true, None, Some(Corrupt), Some(Saver(Saving, Some(0))))
  {
    run, steps := EmptyWritten();
    run, steps := Extend(EMPTY, run, steps, RenamePart(0));
    assert Moved(Worker(Written), 0, Renamed) == Worker(Renamed);
    assert run[5] == Moment(false, true, None, None, Some(Worker(Renamed)));
    run, steps := Extend(EMPTY, run, steps, BeginSave(0));
    assert Moved(Worker(Renamed), 0, Saving) == Worker(Saving);
  }

  lemma EmptyStored() returns (run: seq<State>, steps: seq<Step>)
    ensures IsRun(EMPTY, run, steps) && |steps| == 8
    ensures run[8] == Moment(false, true, Some(Ledger(0, 0, 1, map[0 := 0])), None, Some(Saver(Stored, None)))
  {
    run, steps := EmptyRenamed();
    run, steps := Extend(EMPTY, run, steps, WriteJournal(0));
    assert Moved(Saver(Saving, Some(0)), 0, Saved) == Saver(Saved, Some(0));
    assert run[7] == Moment(false, true, None, Some(Ledger(0, 0, 1, map[0 := 0])), Some(Saver(Saved, Some(0))));
    run, steps := Extend(EMPTY, run, steps, RenameJournal(0));
    assert Moved(Saver(Saved, Some(0)), 0, Stored) == Saver(Stored, Some(0));
  }

  /** An empty segment is stored and journalled, the process dies, and the segment is fetched again. */
  lemma EmptySegmentIsFetchedAgain() returns (p: Plan, run: seq<State>, steps: seq<Step>)
    ensures IsRun(p, run, steps) && |steps| == 9 && p.data == [[]]
    ensures At(run[8], 0, Stored) && steps[8] == Crash
    ensures OnDisk(p, run[9].disk, 0) && run[9].disk.journal.Some? && Matches(p, run[9].disk.journal.value)
    ensures 0 !in Begun(p, run[9].disk).loaded
  {
    p := EMPTY;
    run, steps := EmptyStored();
    run, steps := Extend(p, run, steps, Crash);
  }

  /** Whatever a crash left behind, a run takes over nothing but whole segments of its plan. */
  lemma TakesOverWholeSegments(p: Plan, run: seq<State>, steps: seq<Step>, k: nat, i: nat)
    requires IsRun(p, run, steps) && k < |run| && i in Begun(p, run[k].disk).loaded
    ensures OnDisk(p, run[k].disk, i)
  {
    EveryRun(p, run, steps, k);
    assert Claim(p, run[k].disk.segs, i, run[k].disk.journal.value.sizes[i]);
  }

  /**
   A run takes over exactly the segments that a journal of this very plan names with the size their
   file has; every other segment is queued.
   */
  lemma TakenOverIff(p: Plan, d: Disk, i: nat)
    ensures i in Begun(p, d).loaded <==>
      && i < |p.data| && d.journal.Some? && d.journal.value.Ledger?
      && d.journal.value.id == p.id && d.journal.value.hash == p.hash && d.journal.value.count == |p.data|
      && i in d.journal.value.sizes && i in d.segs && d.journal.value.sizes[i] == |d.segs[i]| > 0
    ensures i in Begun(p, d).stages <==> i < |p.data| && i !in Begun(p, d).loaded
    ensures i in Begun(p, d).stages ==> Begun(p, d).stages[i] == Queued
  {
  }

  /** A journal of another task, fingerprint or number of segments, or a broken one, is ignored. */
  lemma ForeignIsIgnored(p: Plan, d: Disk)
    requires Foreign(p, d.journal)
    ensures Begun(p, d).loaded == {} && Begun(p, d).downloaded == 0 && Begun(p, d).journal == map[]
    ensures forall i: nat :: i < |p.data| ==> i in Begun(p, d).stages && Begun(p, d).stages[i] == Queued
  {
    forall i: nat ensures i !in Begun(p, d).loaded {
      TakenOverIff(p, d, i);
    }
    NothingKept(map[], d.segs, |p.data|);
  }

  lemma {:induction false} NothingKept(journal: map<nat, int>, segs: map<nat, seq<Byte>>, n: nat)
    requires journal == map[]
    ensures KeptBytes(journal, segs, n) == 0
  {
    if n > 0 {
      NothingKept(journal, segs, n - 1);
    }
  }

  /** With every segment done the merge cannot miss one. */
  lemma MergeFindsEverySegment(p: Plan, run: seq<State>, steps: seq<Step>, k: nat)
    requires IsRun(p, run, steps) && k < |run| && run[k].run.Some? && run[k].run.value.phase.Merging?
    requires run[k].run.value.phase.next < |p.data|
    ensures Enabled(p, run[k], MergeSegment(run[k].run.value.phase.next))
  {
    EveryRun(p, run, steps, k);
    AllPlaced(p, run[k].disk, run[k].run.value, run[k].run.value.phase.next);
  }
}
