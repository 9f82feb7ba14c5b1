/**
 Staging, journalling and merging the segments of an HLS download, as a transition system over
 the files of one task. A step is one file operation or one critical section; a file being
 written is visible half way, a rename is atomic, and the process may die between any two steps.
 */
module Hls {
  import opened Base

  /** The resolved plan: its identity, and the decrypted content of every segment in order. */
  datatype Plan = Plan(id: nat, hash: nat, data: seq<seq<Byte>>)

  /**
   A journal file; `Corrupt` is anything that does not parse. Entries whose key is not a natural
   number name no segment and are left out.
   */
  datatype Journal = Corrupt | Ledger(id: nat, hash: nat, count: nat, sizes: map<nat, int>)

  /** The staging folder (segments, their parts, the journal and its temp file) and the output. */
  datatype Disk = Disk(
    segs: map<nat, seq<Byte>>, parts: map<nat, seq<Byte>>,
    journal: Option<Journal>, tmp: Option<Journal>,
    out: Option<seq<Byte>>, target: Option<seq<Byte>>)

  /** How far a worker got with one segment. */
  datatype Stage =
    | Queued | Fetching | Writing | Written | Renamed
    | Saving | Saved  // holding the journal lock, before and after the temp file is complete
    | Stored | Done | Failed | Left

  datatype Phase =
    | Downloading
    | Merging(next: nat, total: nat)
    | Swapping(size: nat)
    | Swapped
    | Cleaning

  datatype Run = Run(
    journal: map<nat, int>, loaded: set<nat>, stages: map<nat, Stage>, lock: Option<nat>,
    downloaded: nat, cancelled: bool, phase: Phase)

  datatype Report = Success(downloaded: nat) | Failure

  datatype State = State(disk: Disk, run: Option<Run>, report: Option<Report>)

  // ---- Reading a journal ----

  predicate Matches(p: Plan, j: Journal) {
    j.Ledger? && j.id == p.id && j.hash == p.hash && j.count == |p.data|
  }

  predicate Usable(p: Plan, key: nat, size: int) {
    key < |p.data| && size > 0
  }

  /** What a run takes over from the journal on disk. */
  function LoadedFrom(p: Plan, j: Option<Journal>): map<nat, int> {
    if j.None? || !Matches(p, j.value) then map[]
    else map key | key in j.value.sizes && Usable(p, key, j.value.sizes[key]) :: j.value.sizes[key]
  }

  /** A segment is kept when its file has the size the journal recorded. */
  predicate Kept(journal: map<nat, int>, segs: map<nat, seq<Byte>>, i: nat) {
    i in journal && i in segs && |segs[i]| == journal[i]
  }

  function KeptSet(p: Plan, journal: map<nat, int>, segs: map<nat, seq<Byte>>): set<nat> {
    set i: nat | i < |p.data| && Kept(journal, segs, i)
  }

  function KeptBytes(journal: map<nat, int>, segs: map<nat, seq<Byte>>, n: nat): nat {
    if n == 0 then 0
    else KeptBytes(journal, segs, n - 1) + if Kept(journal, segs, n - 1) then |segs[n - 1]| else 0
  }

  /** The output of a plan. */
  function Concat(data: seq<seq<Byte>>): seq<Byte> {
    if data == [] then [] else Concat(data[..|data| - 1]) + data[|data| - 1]
  }

  // ---- Steps ----

  datatype Step =
    | Start
    | Take(i: nat)
    | FetchFails(i: nat)
    | FetchStops(i: nat)
    | WritePart(i: nat, k: nat)
    | PartWritten(i: nat)
    | RenamePart(i: nat)
    | BeginSave(i: nat)
    | WriteJournal(i: nat)
    | RenameJournal(i: nat)
    | Count(i: nat)
    | StoreFails(i: nat)
    | Pause
    | EndPaused
    | EndFailed
    | MergeStart
    | MergeSegment(k: nat)
    | MergeFails
    | MergeClosed
    | RemoveTarget
    | RenameOutput
    | EndMerged
    | Clean(segs: set<nat>, parts: set<nat>, journal: bool, tmp: bool)
    | Succeed
    | Crash

  predicate At(s: State, i: nat, stage: Stage) {
    s.run.Some? && i in s.run.value.stages && s.run.value.stages[i] == stage
  }

  predicate InPhase(s: State, phase: Phase) {
    s.run.Some? && s.run.value.phase == phase
  }

  predicate Settled(stage: Stage) {
    stage == Done || stage == Failed
  }

  predicate Resting(stage: Stage) {
    Settled(stage) || stage == Queued || stage == Left
  }

  predicate Storing(stage: Stage) {
    stage == Writing || stage == Written || stage == Renamed || stage == Saving || stage == Saved
  }

  predicate Enabled(p: Plan, s: State, step: Step) {
    match step
    case Start => s.run.None?
    case Take(i) => At(s, i, Queued) && !s.run.value.cancelled
    case FetchFails(i) => At(s, i, Fetching)
    case FetchStops(i) => At(s, i, Fetching) && s.run.value.cancelled
    case WritePart(i, k) => i < |p.data| && (At(s, i, Fetching) || At(s, i, Writing)) && k <= |p.data[i]|
    case PartWritten(i) => i < |p.data| && At(s, i, Writing)
    case RenamePart(i) => At(s, i, Written) && i in s.disk.parts
    case BeginSave(i) => i < |p.data| && At(s, i, Renamed) && s.run.value.lock.None?
    case WriteJournal(i) => At(s, i, Saving)
    case RenameJournal(i) => At(s, i, Saved)
    case Count(i) => i < |p.data| && At(s, i, Stored)
    case StoreFails(i) => s.run.Some? && i in s.run.value.stages && Storing(s.run.value.stages[i])
    case Pause => s.run.Some?
    case EndPaused => InPhase(s, Downloading) && s.run.value.cancelled
                      && forall i :: i in s.run.value.stages ==> Resting(s.run.value.stages[i])
    case EndFailed => InPhase(s, Downloading)
                      && (forall i :: i in s.run.value.stages ==> Settled(s.run.value.stages[i]))
                      && exists i :: i in s.run.value.stages && s.run.value.stages[i] == Failed
    case MergeStart => InPhase(s, Downloading) && forall i :: i in s.run.value.stages ==> s.run.value.stages[i] == Done
    case MergeSegment(k) => s.run.Some? && s.run.value.phase.Merging? && s.disk.out.Some?
                            && s.run.value.phase.next == k < |p.data| && k in s.disk.segs
    case MergeFails => s.run.Some? && (s.run.value.phase.Merging? || s.run.value.phase.Swapping?)
    case MergeClosed => s.run.Some? && s.run.value.phase.Merging? && s.run.value.phase.next == |p.data|
    case RemoveTarget => s.run.Some? && s.run.value.phase.Swapping?
    case RenameOutput => s.run.Some? && s.run.value.phase.Swapping? && s.disk.out.Some?
    case EndMerged => InPhase(s, Swapped) && s.run.value.cancelled
    case Clean(_, _, _, _) => (InPhase(s, Swapped) && !s.run.value.cancelled) || InPhase(s, Cleaning)
    case Succeed => (InPhase(s, Swapped) && !s.run.value.cancelled) || InPhase(s, Cleaning)
    case Crash => s.run.Some?
  }

  function Begun(p: Plan, disk: Disk): Run {
    var journal := LoadedFrom(p, disk.journal);
    var loaded := KeptSet(p, journal, disk.segs);
    Run(journal, loaded, map i: nat | i < |p.data| && i !in loaded :: Queued, None,
        KeptBytes(journal, disk.segs, |p.data|), false, Downloading)
  }

  function Moved(r: Run, i: nat, stage: Stage): Run {
    r.(stages := r.stages[i := stage])
  }

  function With(s: State, r: Run): State {
    s.(run := Some(r))
  }

  function Ended(s: State, report: Option<Report>): State {
    s.(run := None, report := report)
  }

  /** A store that fails gives the journal lock back if it had it. */
  function StoreFailed(r: Run, i: nat): Run {
    Moved(r, i, Failed).(lock := if r.lock == Some(i) then None else r.lock)
  }

  function DoClean(s: State, segs: set<nat>, parts: set<nat>, journal: bool, tmp: bool): State
    requires s.run.Some?
  {
    var d := s.disk;
    s.(disk := d.(segs := d.segs - segs, parts := d.parts - parts,
                  journal := if journal then None else d.journal, tmp := if tmp then None else d.tmp),
       run := Some(s.run.value.(phase := Cleaning)))
  }

  function Next(p: Plan, s: State, step: Step): State
    requires Enabled(p, s, step)
  {
    var d := s.disk;
    match step
    case Start => State(d, Some(Begun(p, d)), None)
    case Take(i) => With(s, Moved(s.run.value, i, Fetching))
    case FetchFails(i) => With(s, Moved(s.run.value, i, Failed))
    case FetchStops(i) => With(s, Moved(s.run.value, i, Left))
    case WritePart(i, k) =>
      With(s.(disk := d.(parts := d.parts[i := p.data[i][..k]])), Moved(s.run.value, i, Writing))
    case PartWritten(i) => With(s.(disk := d.(parts := d.parts[i := p.data[i]])), Moved(s.run.value, i, Written))
    case RenamePart(i) =>
      With(s.(disk := d.(segs := d.segs[i := d.parts[i]], parts := d.parts - {i})), Moved(s.run.value, i, Renamed))
    case BeginSave(i) =>
      With(s.(disk := d.(tmp := Some(Corrupt))),
           Moved(s.run.value, i, Saving).(lock := Some(i), journal := s.run.value.journal[i := |p.data[i]|]))
    case WriteJournal(i) =>
      With(s.(disk := d.(tmp := Some(Ledger(p.id, p.hash, |p.data|, s.run.value.journal)))),
           Moved(s.run.value, i, Saved))
    case RenameJournal(i) =>
      With(s.(disk := d.(journal := d.tmp, tmp := None)), Moved(s.run.value, i, Stored).(lock := None))
    case Count(i) =>
      With(s, Moved(s.run.value, i, Done).(downloaded := s.run.value.downloaded + |p.data[i]|))
    case StoreFails(i) => With(s, StoreFailed(s.run.value, i))
    case Pause => With(s, s.run.value.(cancelled := true))
    case EndPaused => Ended(s, None)
    case EndFailed => Ended(s, Some(Failure))
    case MergeStart => With(s.(disk := d.(out := Some([]))), s.run.value.(phase := Merging(0, 0)))
    case MergeSegment(k) =>
      With(s.(disk := d.(out := Some(d.out.value + d.segs[k]))),
           s.run.value.(phase := Merging(k + 1, s.run.value.phase.total + |d.segs[k]|)))
    case MergeFails => Ended(s.(disk := d.(out := None)), Some(Failure))
    case MergeClosed => With(s, s.run.value.(phase := Swapping(s.run.value.phase.total)))
    case RemoveTarget => s.(disk := d.(target := None))
    case RenameOutput =>
      With(s.(disk := d.(target := d.out, out := None)),
           s.run.value.(phase := Swapped, downloaded := s.run.value.phase.size))
    case EndMerged => Ended(s, None)
    case Clean(segs, parts, journal, tmp) => DoClean(s, segs, parts, journal, tmp)
    case Succeed => Ended(s, Some(Success(s.run.value.downloaded)))
    case Crash => Ended(s, None)
  }

  /**
   Files of other tasks or of earlier plans may lie about: a journal that does not parse, or that
   names another task, another fingerprint or another number of segments.
   */
  predicate Foreign(p: Plan, j: Option<Journal>) {
    j.Some? && j.value.Ledger? ==> j.value.id != p.id || j.value.hash != p.hash || j.value.count != |p.data|
  }

  ghost predicate IsRun(p: Plan, run: seq<State>, steps: seq<Step>) {
    && |run| == |steps| + 1
    && run[0].run.None? && run[0].report.None? && Foreign(p, run[0].disk.journal)
    && forall k :: 0 <= k < |steps| ==> Enabled(p, run[k], steps[k]) && run[k + 1] == Next(p, run[k], steps[k])
  }
}
