/** What every run, pause, crash and restart of an HLS download keeps. */
module HlsProofs {
  import opened Base
  import opened Hls

  // ---- The invariant ----

  /** A journal entry stands for a whole segment: its file, if there is one, is that segment. */
  predicate Claim(p: Plan, segs: map<nat, seq<Byte>>, key: nat, size: int) {
    key < |p.data| && size == |p.data[key]| && (key in segs ==> segs[key] == p.data[key])
  }

  ghost predicate Claims(p: Plan, segs: map<nat, seq<Byte>>, sizes: map<nat, int>) {
    forall key :: key in sizes ==> Claim(p, segs, key, sizes[key])
  }

  predicate OnDisk(p: Plan, d: Disk, i: nat) {
    i < |p.data| && i in d.segs && d.segs[i] == p.data[i]
  }

  /** The journal on disk names segment `i`. */
  predicate Recorded(p: Plan, d: Disk, i: nat) {
    d.journal.Some? && Matches(p, d.journal.value) && i in d.journal.value.sizes
  }

  predicate Placed(stage: Stage) {
    stage == Renamed || stage == Saving || stage == Saved || stage == Stored || stage == Done
  }

  predicate Holding(stage: Stage) {
    stage == Saving || stage == Saved
  }

  predicate StageOk(p: Plan, d: Disk, r: Run, i: nat, stage: Stage) {
    && i < |p.data| && i !in r.loaded
    && (stage == Written ==> i in d.parts && d.parts[i] == p.data[i])
    && (Placed(stage) && r.phase != Cleaning ==> OnDisk(p, d, i))
    && (Placed(stage) && stage != Renamed ==> i in r.journal)
    && ((stage == Stored || stage == Done) && r.phase != Cleaning ==> Recorded(p, d, i))
    && (stage == Saved ==> d.tmp == Some(Ledger(p.id, p.hash, |p.data|, r.journal)))
    && (Holding(stage) <==> r.lock == Some(i))
    && (r.phase != Downloading ==> stage == Done)
  }

  ghost predicate StagesOk(p: Plan, d: Disk, r: Run) {
    forall i :: i in r.stages ==> StageOk(p, d, r, i, r.stages[i])
  }

  predicate LoadedOk(p: Plan, d: Disk, r: Run, i: nat) {
    && i < |p.data| && i in r.journal
    && (r.phase != Cleaning ==> OnDisk(p, d, i) && Recorded(p, d, i))
  }

  ghost predicate AllLoadedOk(p: Plan, d: Disk, r: Run) {
    && (forall i :: i in r.loaded ==> LoadedOk(p, d, r, i))
    && (forall i: nat :: i < |p.data| ==> i in r.loaded || i in r.stages)
  }

  predicate Counted(r: Run, i: nat) {
    i in r.loaded || (i in r.stages && r.stages[i] == Done)
  }

  /** The bytes of the segments below `n` that are stored and counted. */
  function Stock(p: Plan, r: Run, n: nat): nat
    requires n <= |p.data|
  {
    if n == 0 then 0 else Stock(p, r, n - 1) + if Counted(r, n - 1) then |p.data[n - 1]| else 0
  }

  predicate PhaseOk(p: Plan, d: Disk, r: Run) {
    match r.phase
    case Downloading => r.downloaded == Stock(p, r, |p.data|)
    case Merging(k, total) => k <= |p.data| && d.out == Some(Concat(p.data[..k])) && total == |Concat(p.data[..k])|
    case Swapping(size) => d.out == Some(Concat(p.data)) && size == |Concat(p.data)|
    case Swapped => d.target == Some(Concat(p.data)) && r.downloaded == |Concat(p.data)|
    case Cleaning => d.target == Some(Concat(p.data)) && r.downloaded == |Concat(p.data)|
  }

  ghost predicate RunOk(p: Plan, d: Disk, r: Run) {
    Claims(p, d.segs, r.journal) && StagesOk(p, d, r) && AllLoadedOk(p, d, r) && PhaseOk(p, d, r)
  }

  ghost predicate JournalOk(p: Plan, d: Disk) {
    d.journal.Some? && Matches(p, d.journal.value) ==> Claims(p, d.segs, d.journal.value.sizes)
  }

  /** The output file is never partial: it is what it was before, or the whole output. */
  predicate TargetOk(p: Plan, before: Option<seq<Byte>>, d: Disk) {
    d.target.None? || d.target == before || d.target == Some(Concat(p.data))
  }

  predicate ReportOk(p: Plan, s: State) {
    s.report.Some? && s.report.value.Success? ==>
      s.run.None? && s.disk.target == Some(Concat(p.data)) && s.report.value.downloaded == |Concat(p.data)|
  }

  ghost predicate Inv(p: Plan, before: Option<seq<Byte>>, s: State) {
    && JournalOk(p, s.disk) && TargetOk(p, before, s.disk) && ReportOk(p, s)
    && (s.run.Some? ==> s.report.None? && RunOk(p, s.disk, s.run.value))
  }

  // ---- Starting ----

  lemma {:induction false} KeptBytesAreStock(p: Plan, d: Disk, n: nat)
    requires JournalOk(p, d) && n <= |p.data|
    ensures KeptBytes(LoadedFrom(p, d.journal), d.segs, n) == Stock(p, Begun(p, d), n)
  {
    if n > 0 {
      KeptBytesAreStock(p, d, n - 1);
      var journal := LoadedFrom(p, d.journal);
      if Kept(journal, d.segs, n - 1) {
        assert Claim(p, d.segs, n - 1, d.journal.value.sizes[n - 1]);
      }
    }
  }

  lemma StartKeeps(p: Plan, before: Option<seq<Byte>>, s: State)
    requires Inv(p, before, s) && Enabled(p, s, Start)
    ensures Inv(p, before, Next(p, s, Start))
  {
    var r := Begun(p, s.disk);
    forall key | key in r.journal ensures Claim(p, s.disk.segs, key, r.journal[key]) {
      assert Claim(p, s.disk.segs, key, s.disk.journal.value.sizes[key]);
    }
    forall i | i in r.loaded ensures LoadedOk(p, s.disk, r, i) {
      assert Claim(p, s.disk.segs, i, r.journal[i]);
    }
    KeptBytesAreStock(p, s.disk, |p.data|);
  }

  // ---- Workers ----

  lemma {:induction false} StockSame(p: Plan, r: Run, r': Run, n: nat)
    requires n <= |p.data| && forall i: nat :: i < n ==> Counted(r, i) == Counted(r', i)
    ensures Stock(p, r', n) == Stock(p, r, n)
  {
    if n > 0 {
      StockSame(p, r, r', n - 1);
    }
  }

  lemma {:induction false} StockMore(p: Plan, r: Run, r': Run, i: nat, n: nat)
    requires n <= |p.data| && i < |p.data| && !Counted(r, i) && Counted(r', i)
    requires forall j: nat :: j < |p.data| && j != i ==> Counted(r, j) == Counted(r', j)
    ensures Stock(p, r', n) == Stock(p, r, n) + if i < n then |p.data[i]| else 0
  {
    if n > 0 {
      StockMore(p, r, r', i, n - 1);
    }
  }

  /** Segment `i` moves to another stage; what the other stages say about the disk still holds. */
  lemma MoveKeeps(p: Plan, d: Disk, r: Run, d': Disk, r': Run, i: nat, stage: Stage)
    requires RunOk(p, d, r) && i in r.stages && r.phase == Downloading && r.stages[i] != Done && stage != Done
    requires r' == Moved(r, i, stage).(journal := r'.journal, lock := r'.lock)
    requires Claims(p, d'.segs, r'.journal) && StageOk(p, d', r', i, stage)
    requires forall j :: j in r.stages && j != i && StageOk(p, d, r, j, r.stages[j]) ==>
               StageOk(p, d', r', j, r.stages[j])
    requires forall j :: j in r.loaded && LoadedOk(p, d, r, j) ==> LoadedOk(p, d', r', j)
    ensures RunOk(p, d', r')
  {
    StockSame(p, r, r', |p.data|);
  }

  /** Taking a segment, and any end of its fetch but the first write, moves it to another stage. */
  lemma FetchKeeps(p: Plan, before: Option<seq<Byte>>, s: State, i: nat, stage: Stage)
    requires Inv(p, before, s) && (At(s, i, Queued) || At(s, i, Fetching))
    requires stage == Fetching || stage == Failed || stage == Left
    ensures Inv(p, before, With(s, Moved(s.run.value, i, stage)))
  {
    var r := s.run.value;
    assert StageOk(p, s.disk, r, i, r.stages[i]);
    MoveKeeps(p, s.disk, r, s.disk, Moved(r, i, stage), i, stage);
  }

  lemma WriteKeeps(p: Plan, before: Option<seq<Byte>>, s: State, step: Step)
    requires Inv(p, before, s) && Enabled(p, s, step) && (step.WritePart? || step.PartWritten?)
    ensures Inv(p, before, Next(p, s, step))
  {
    var s' := Next(p, s, step);
    var r, r' := s.run.value, s'.run.value;
    assert StageOk(p, s.disk, r, step.i, r.stages[step.i]);
    MoveKeeps(p, s.disk, r, s'.disk, r', step.i, r'.stages[step.i]);
  }

  lemma RenameKeeps(p: Plan, before: Option<seq<Byte>>, s: State, i: nat)
    requires Inv(p, before, s) && Enabled(p, s, RenamePart(i))
    ensures Inv(p, before, Next(p, s, RenamePart(i)))
  {
    var s' := Next(p, s, RenamePart(i));
    var r := s.run.value;
    assert StageOk(p, s.disk, r, i, Written);
    forall key | key in r.journal ensures Claim(p, s'.disk.segs, key, r.journal[key]) {
      assert Claim(p, s.disk.segs, key, r.journal[key]);
    }
    if s.disk.journal.Some? && Matches(p, s.disk.journal.value) {
      var sizes := s.disk.journal.value.sizes;
      forall key | key in sizes ensures Claim(p, s'.disk.segs, key, sizes[key]) {
        assert Claim(p, s.disk.segs, key, sizes[key]);
      }
    }
    MoveKeeps(p, s.disk, r, s'.disk, s'.run.value, i, Renamed);
  }

  lemma BeginSaveKeeps(p: Plan, before: Option<seq<Byte>>, s: State, i: nat)
    requires Inv(p, before, s) && Enabled(p, s, BeginSave(i))
    ensures Inv(p, before, Next(p, s, BeginSave(i)))
  {
    var s' := Next(p, s, BeginSave(i));
    assert StageOk(p, s.disk, s.run.value, i, Renamed);
    MoveKeeps(p, s.disk, s.run.value, s'.disk, s'.run.value, i, Saving);
  }

  lemma WriteJournalKeeps(p: Plan, before: Option<seq<Byte>>, s: State, i: nat)
    requires Inv(p, before, s) && Enabled(p, s, WriteJournal(i))
    ensures Inv(p, before, Next(p, s, WriteJournal(i)))
  {
    var s' := Next(p, s, WriteJournal(i));
    assert StageOk(p, s.disk, s.run.value, i, Saving);
    MoveKeeps(p, s.disk, s.run.value, s'.disk, s'.run.value, i, Saved);
  }

  lemma RenameJournalKeeps(p: Plan, before: Option<seq<Byte>>, s: State, i: nat)
    requires Inv(p, before, s) && Enabled(p, s, RenameJournal(i))
    ensures Inv(p, before, Next(p, s, RenameJournal(i)))
  {
    var s' := Next(p, s, RenameJournal(i));
    assert StageOk(p, s.disk, s.run.value, i, Saved);
    MoveKeeps(p, s.disk, s.run.value, s'.disk, s'.run.value, i, Stored);
  }

  lemma StoreFailsKeeps(p: Plan, before: Option<seq<Byte>>, s: State, i: nat)
    requires Inv(p, before, s) && Enabled(p, s, StoreFails(i))
    ensures Inv(p, before, Next(p, s, StoreFails(i)))
  {
    var s' := Next(p, s, StoreFails(i));
    assert StageOk(p, s.disk, s.run.value, i, s.run.value.stages[i]);
    MoveKeeps(p, s.disk, s.run.value, s'.disk, s'.run.value, i, Failed);
  }

  lemma CountKeeps(p: Plan, before: Option<seq<Byte>>, s: State, i: nat)
    requires Inv(p, before, s) && Enabled(p, s, Count(i))
    ensures Inv(p, before, Next(p, s, Count(i)))
  {
    var s' := Next(p, s, Count(i));
    var r, r' := s.run.value, s'.run.value;
    assert StageOk(p, s.disk, r, i, Stored);
    StockMore(p, r, r', i, |p.data|);
  }

  // ---- Merging and cleaning up ----

  lemma AllPlaced(p: Plan, d: Disk, r: Run, i: nat)
    requires RunOk(p, d, r) && r.phase != Downloading && r.phase != Cleaning && i < |p.data|
    ensures OnDisk(p, d, i)
  {
    if i in r.stages {
      assert StageOk(p, d, r, i, r.stages[i]);
    } else {
      assert LoadedOk(p, d, r, i);
    }
  }

  lemma MergeKeeps(p: Plan, before: Option<seq<Byte>>, s: State, k: nat)
    requires Inv(p, before, s) && Enabled(p, s, MergeSegment(k))
    ensures Inv(p, before, Next(p, s, MergeSegment(k)))
  {
    AllPlaced(p, s.disk, s.run.value, k);
    assert p.data[..k + 1][..k] == p.data[..k];
    SamePhaseKeeps(p, before, s, Next(p, s, MergeSegment(k)));
  }

  /** Moving on from one phase to the next with the staged files untouched. */
  lemma SamePhaseKeeps(p: Plan, before: Option<seq<Byte>>, s: State, s': State)
    requires Inv(p, before, s) && s.run.Some? && s'.run.Some? && s'.report.None?
    requires s'.run.value == s.run.value.(phase := s'.run.value.phase, downloaded := s'.run.value.downloaded,
                                          cancelled := s'.run.value.cancelled)
    requires s'.disk == s.disk.(out := s'.disk.out, target := s'.disk.target)
    requires s.run.value.phase == Cleaning ==> s'.run.value.phase == Cleaning
    requires s'.run.value.phase != Downloading ==>
               forall i :: i in s.run.value.stages ==> s.run.value.stages[i] == Done
    requires PhaseOk(p, s'.disk, s'.run.value) && TargetOk(p, before, s'.disk)
    ensures Inv(p, before, s')
  {
    var r := s.run.value;
    forall i | i in r.stages ensures StageOk(p, s'.disk, s'.run.value, i, r.stages[i]) {
      assert StageOk(p, s.disk, r, i, r.stages[i]);
    }
    forall i | i in r.loaded ensures LoadedOk(p, s'.disk, s'.run.value, i) {
      assert LoadedOk(p, s.disk, r, i);
    }
  }

  lemma AllDone(p: Plan, s: State)
    requires s.run.Some? && RunOk(p, s.disk, s.run.value) && s.run.value.phase != Downloading
    ensures forall i :: i in s.run.value.stages ==> s.run.value.stages[i] == Done
  {
    forall i | i in s.run.value.stages ensures s.run.value.stages[i] == Done {
      assert StageOk(p, s.disk, s.run.value, i, s.run.value.stages[i]);
    }
  }

  lemma PauseKeeps(p: Plan, before: Option<seq<Byte>>, s: State)
    requires Inv(p, before, s) && Enabled(p, s, Pause)
    ensures Inv(p, before, Next(p, s, Pause))
  {
    if s.run.value.phase != Downloading {
      AllDone(p, s);
    } else {
      StockSame(p, s.run.value, Next(p, s, Pause).run.value, |p.data|);
    }
    SamePhaseKeeps(p, before, s, Next(p, s, Pause));
  }

  lemma PhaseStepKeeps(p: Plan, before: Option<seq<Byte>>, s: State, step: Step)
    requires Inv(p, before, s) && Enabled(p, s, step) && OfPhase(step)
    ensures Inv(p, before, Next(p, s, step))
  {
    assert p.data[..|p.data|] == p.data;
    if !step.MergeStart? {
      AllDone(p, s);
    }
    SamePhaseKeeps(p, before, s, Next(p, s, step));
  }

  lemma FewerClaims(p: Plan, segs: map<nat, seq<Byte>>, sizes: map<nat, int>, gone: set<nat>)
    requires Claims(p, segs, sizes)
    ensures Claims(p, segs - gone, sizes)
  {
    forall key | key in sizes ensures Claim(p, segs - gone, key, sizes[key]) {
      assert Claim(p, segs, key, sizes[key]);
    }
  }

  lemma CleanKeeps(p: Plan, before: Option<seq<Byte>>, s: State, segs: set<nat>, parts: set<nat>,
                   journal: bool, tmp: bool)
    requires Inv(p, before, s) && Enabled(p, s, Clean(segs, parts, journal, tmp))
    ensures Inv(p, before, DoClean(s, segs, parts, journal, tmp))
  {
    var s' := DoClean(s, segs, parts, journal, tmp);
    var r := s.run.value;
    AllDone(p, s);
    FewerClaims(p, s.disk.segs, r.journal, segs);
    if s.disk.journal.Some? && Matches(p, s.disk.journal.value) {
      FewerClaims(p, s.disk.segs, s.disk.journal.value.sizes, segs);
    }
    forall i | i in r.stages ensures StageOk(p, s'.disk, s'.run.value, i, r.stages[i]) {
      assert StageOk(p, s.disk, r, i, r.stages[i]);
    }
    forall i | i in r.loaded ensures LoadedOk(p, s'.disk, s'.run.value, i) {
      assert LoadedOk(p, s.disk, r, i);
    }
  }

  // ---- Runs ----

  predicate OfFetch(step: Step) {
    step.Take? || step.FetchFails? || step.FetchStops? || step.WritePart? || step.PartWritten?
  }

  predicate OfStore(step: Step) {
    step.RenamePart? || step.BeginSave? || step.WriteJournal? || step.RenameJournal? || step.Count? || step.StoreFails?
  }

  predicate OfEnd(step: Step) {
    step.EndPaused? || step.EndFailed? || step.MergeFails? || step.EndMerged? || step.Succeed? || step.Crash?
  }

  predicate OfPhase(step: Step) {
    step.MergeStart? || step.MergeClosed? || step.RemoveTarget? || step.RenameOutput?
  }

  lemma FetchStepKeeps(p: Plan, before: Option<seq<Byte>>, s: State, step: Step)
    requires Inv(p, before, s) && Enabled(p, s, step) && OfFetch(step)
    ensures Inv(p, before, Next(p, s, step))
  {
    match step
    case Take(i) => FetchKeeps(p, before, s, i, Fetching);
    case FetchFails(i) => FetchKeeps(p, before, s, i, Failed);
    case FetchStops(i) => FetchKeeps(p, before, s, i, Left);
    case _ => WriteKeeps(p, before, s, step);
  }

  lemma StoreStepKeeps(p: Plan, before: Option<seq<Byte>>, s: State, step: Step)
    requires Inv(p, before, s) && Enabled(p, s, step) && OfStore(step)
    ensures Inv(p, before, Next(p, s, step))
  {
    match step
    case RenamePart(i) => RenameKeeps(p, before, s, i);
    case BeginSave(i) => BeginSaveKeeps(p, before, s, i);
    case WriteJournal(i) => WriteJournalKeeps(p, before, s, i);
    case RenameJournal(i) => RenameJournalKeeps(p, before, s, i);
    case Count(i) => CountKeeps(p, before, s, i);
    case StoreFails(i) => StoreFailsKeeps(p, before, s, i);
  }

  lemma EndStepKeeps(p: Plan, before: Option<seq<Byte>>, s: State, step: Step)
    requires Inv(p, before, s) && Enabled(p, s, step) && OfEnd(step)
    ensures Inv(p, before, Next(p, s, step))
  {
  }

  lemma RunStepKeeps(p: Plan, before: Option<seq<Byte>>, s: State, step: Step)
    requires Inv(p, before, s) && Enabled(p, s, step)
    requires step.Start? || step.Pause? || step.MergeSegment? || step.Clean?
    ensures Inv(p, before, Next(p, s, step))
  {
    match step
    case Start => StartKeeps(p, before, s);
    case Pause => PauseKeeps(p, before, s);
    case MergeSegment(k) => MergeKeeps(p, before, s, k);
    case Clean(segs, parts, journal, tmp) => CleanKeeps(p, before, s, segs, parts, journal, tmp);
  }

  lemma StepKeeps(p: Plan, before: Option<seq<Byte>>, s: State, step: Step)
    requires Inv(p, before, s) && Enabled(p, s, step)
    ensures Inv(p, before, Next(p, s, step))
  {
    if OfFetch(step) {
      FetchStepKeeps(p, before, s, step);
    } else if OfStore(step) {
      StoreStepKeeps(p, before, s, step);
    } else if OfPhase(step) {
      PhaseStepKeeps(p, before, s, step);
    } else if OfEnd(step) {
      EndStepKeeps(p, before, s, step);
    } else {
      RunStepKeeps(p, before, s, step);
    }
  }

  lemma {:induction false} EveryRun(p: Plan, run: seq<State>, steps: seq<Step>, k: nat)
    requires IsRun(p, run, steps) && k < |run|
    ensures Inv(p, run[0].disk.target, run[k])
  {
    if k > 0 {
      EveryRun(p, run, steps, k - 1);
      StepKeeps(p, run[0].disk.target, run[k - 1], steps[k - 1]);
    }
  }
}
