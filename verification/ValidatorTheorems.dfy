/** What the validator rules promise over whole runs, and the assumption they need. */
module ValidatorTheorems {
  import opened Base
  import opened Validators
  import opened ValidatorProofs
  import opened ValidatorExtents

  /** The bytes counted as downloaded are those of `content` and are in the file. */
  ghost predicate Reproduces(s: State, content: seq<Byte>) {
    forall o :: o in s.counted ==> 0 <= o < |content| && o in s.file && s.file[o] == content[o]
  }

  /** Counted bytes of a pinned or sequential download belong to one representation. */
  lemma OneRepresentation(run: seq<State>, steps: seq<Step>, k: nat, o: int, p: int)
    requires IsRun(true, run, steps) && k < |run| && (run[k].f.pinned || !run[k].f.ranged)
    requires o in run[k].counted && p in run[k].counted
    ensures run[k].counted[o].content == run[k].counted[p].content
    ensures Genuine(run[k].history, run[k].counted[o])
  {
    EveryRun(run, steps, k);
  }

  lemma AppendsOnce(s: State, c: nat, n: nat, o: int)
    requires Basis(s) && Enabled(true, s, Read(c, n)) && (s.f.pinned || !s.f.ranged) && o in s.counted
    ensures s.counted[o].content == s.work[c].st.rep.content
    ensures Reproduces(s, s.work[c].st.rep.content)
    ensures Reproduces(DoRead(s, c, n), s.work[c].st.rep.content)
  {
    assert ItemOk(s, c, s.work[c]);
    ReadingAgrees(s, c);
    ReadLive(s, c, n);
  }

  /** A body read never appends to bytes of another representation, nor past bytes that are gone. */
  lemma AppendsToTheSame(run: seq<State>, steps: seq<Step>, k: nat, c: nat, n: nat, o: int)
    requires IsRun(true, run, steps) && k < |steps| && steps[k] == Read(c, n)
    requires (run[k].f.pinned || !run[k].f.ranged) && o in run[k].counted
    ensures run[k].counted[o].content == run[k].work[c].st.rep.content
    ensures Reproduces(run[k], run[k].work[c].st.rep.content)
    ensures Reproduces(run[k + 1], run[k].work[c].st.rep.content)
  {
    EveryRun(run, steps, k);
    AppendsOnce(run[k], c, n, o);
  }

  /** A trimmed run never has anything behind the end of a finished download. */
  lemma NothingBehind(run: seq<State>, steps: seq<Step>, k: nat)
    requires IsRun(true, run, steps) && k < |run| && Trimmed(run, steps)
    ensures run[k].f.completed ==> Fits(run[k].file, run[k].f.got)
    ensures run[k].f.pinned ==> Fits(run[k].file, run[k].f.size)
  {
    forall j | 0 <= j < |run| ensures Inv(run[j]) {
      EveryRun(run, steps, j);
    }
    StartIsNeat(run[0]);
    NeatAlong(true, run[0], run, steps, k);
    NeatFits(run[k]);
  }

  /**
   The counted bytes of a finished sequential download are one representation, byte for byte. The
   file is exactly that representation in a trimmed run.
   */
  lemma FinishedSequential(run: seq<State>, steps: seq<Step>, k: nat) returns (rep: Rep)
    requires IsRun(true, run, steps) && k < |run| && run[k].f.completed
    ensures Genuine(run[k].history, rep) && |rep.content| == run[k].f.got
    ensures run[k].f.size > 0 ==> |rep.content| == run[k].f.size
    ensures forall o :: 0 <= o < |rep.content| ==> o in run[k].file && run[k].file[o] == rep.content[o]
    ensures Trimmed(run, steps) ==> forall o :: o in run[k].file ==> o < |rep.content|
  {
    EveryRun(run, steps, k);
    var s := run[k];
    rep := if s.f.got == 0 then Rep("", []) else s.counted[0];
    forall o | 0 <= o < |rep.content| ensures o in s.file && s.file[o] == rep.content[o] {
      assert o in s.counted && 0 in s.counted;
    }
    if Trimmed(run, steps) {
      NothingBehind(run, steps, k);
    }
  }

  /**
   A pinned range download with every byte counted holds the representation the pin names. The file
   is exactly that representation in a trimmed run.
   */
  lemma FinishedPinned(run: seq<State>, steps: seq<Step>, k: nat)
    requires IsRun(true, run, steps) && k < |run| && run[k].f.pinned && Full(run[k].f, run[k].counted)
    ensures run[k].f.ifRange in run[k].history && |run[k].history[run[k].f.ifRange]| == run[k].f.size
    ensures forall o :: 0 <= o < run[k].f.size ==>
              o in run[k].file && run[k].file[o] == run[k].history[run[k].f.ifRange][o]
    ensures Trimmed(run, steps) ==> forall o :: o in run[k].file ==> o < run[k].f.size
  {
    EveryRun(run, steps, k);
    var s := run[k];
    forall o | 0 <= o < s.f.size ensures o in s.file && s.file[o] == s.history[s.f.ifRange][o] {
      assert o in s.counted;
    }
    if Trimmed(run, steps) {
      NothingBehind(run, steps, k);
    }
  }

  // ---- Runs in which the promise fails ----

  lemma Extend(strict: bool, run: seq<State>, steps: seq<Step>, step: Step)
    returns (run': seq<State>, steps': seq<Step>)
    requires IsRun(strict, run, steps) && Enabled(strict, run[|steps|], step)
    ensures IsRun(strict, run', steps') && steps' == steps + [step]
    ensures run'[|steps'|] == Next(strict, run[|steps|], step)
  {
    run', steps' := run + [Next(strict, run[|steps|], step)], steps + [step];
  }

  const OLD := Rep("a", [0, 0])
  const NEW := Rep("b", [1, 1])

  /** A two-byte sequential download of which `got` bytes are there. */
  function Prefix(ifRange: string, got: nat): Fetch {
    Fetch(false, true, false, false, false, ifRange, 2, 1, got, false)
  }

  function Moment(f: Fetch, file: map<int, Byte>, counted: map<int, Rep>, work: map<nat, Work>,
                  server: Rep, saved: Option<Saved>): State
  {
    State(f, file, counted, work, server, map["a" := OLD.content, "b" := NEW.content], OLD, saved)
  }

  function OldSnapshot(): Option<Saved> {
    Some(Saved(Prefix("a", 1), map[0 := OLD]))
  }

  function TwoBytes(a: Byte, b: Byte): map<int, Byte> {
    map[0 := a, 1 := b]
  }

  lemma TwoByteFiles()
    ensures Resized(map[], 2) == TwoBytes(0, 0) && Resized(TwoBytes(0, 0), 2) == TwoBytes(0, 0)
    ensures TwoBytes(0, 0) + Bytes(OLD, 0, 1) == TwoBytes(0, 0) && TwoBytes(0, 0) + Bytes(NEW, 0, 1) == TwoBytes(1, 0)
    ensures TwoBytes(1, 0) + Bytes(OLD, 1, 2) == TwoBytes(1, 0)
  {
  }

  lemma OldArrives() returns (run: seq<State>, steps: seq<Step>)
    ensures IsRun(false, run, steps) && |steps| == 2
    ensures run[2] == Moment(Prefix("a", 0), TwoBytes(0, 0), map[],
                             map[0 := Reading(Stream(OLD, 0, true, true, true))], OLD, None)
  {
    var first := Fetch(true, false, false, false, false, "a", 2, 1, 0, false);
    run, steps := Extend(false, [Moment(first, map[], map[], map[], OLD, None)], [], Attempt(0, 0, Some(1)));
    assert run[1] == Moment(first, map[], map[], map[0 := Asking(Req(0, Some(1), true, false, "", false))], OLD, None);
    run, steps := Extend(false, run, steps, Answer200(0, 0, true));
    TwoByteFiles();
  }

  lemma OldIsRead() returns (run: seq<State>, steps: seq<Step>)
    ensures IsRun(false, run, steps) && |steps| == 3
    ensures run[3] == Moment(Prefix("a", 1), TwoBytes(0, 0) + Bytes(OLD, 0, 1), map[] + Counts(OLD, 0, 1),
                             map[0 := Reading(Stream(OLD, 1, true, true, true))], OLD, None)
  {
    run, steps := OldArrives();
    run, steps := Extend(false, run, steps, Read(0, 1));
  }

  lemma OldIsStored() returns (run: seq<State>, steps: seq<Step>)
    ensures IsRun(false, run, steps) && |steps| == 4
    ensures run[4] == Moment(Prefix("a", 1), TwoBytes(0, 0), map[0 := OLD],
                             map[0 := Reading(Stream(OLD, 1, true, true, true))], OLD, OldSnapshot())
  {
    run, steps := OldIsRead();
    run, steps := Extend(false, run, steps, Store);
    TwoByteFiles();
    assert map[] + Counts(OLD, 0, 1) == map[0 := OLD];
  }

  lemma NewReplacesOld() returns (run: seq<State>, steps: seq<Step>)
    ensures IsRun(false, run, steps) && |steps| == 7
    ensures run[7] == Moment(Prefix("a", 1), TwoBytes(0, 0), map[0 := OLD],
                             map[0 := Asking(Req(1, Some(1), true, true, "a", false))], NEW, OldSnapshot())
  {
    run, steps := OldIsStored();
    run, steps := Extend(false, run, steps, Change(NEW));
    assert run[5].history == map["a" := OLD.content, "b" := NEW.content];
    run, steps := Extend(false, run, steps, Drop(0, true));
    assert run[6] == Moment(Prefix("a", 1), TwoBytes(0, 0), map[0 := OLD], map[], NEW, OldSnapshot());
    run, steps := Extend(false, run, steps, Attempt(0, 0, None));
  }

  lemma NewAnswers() returns (run: seq<State>, steps: seq<Step>)
    ensures IsRun(false, run, steps) && |steps| == 8
    ensures run[8] == Moment(Prefix("b", 0), TwoBytes(0, 0), map[],
                             map[0 := Reading(Stream(NEW, 0, true, true, true))], NEW, OldSnapshot())
  {
    run, steps := NewReplacesOld();
    run, steps := Extend(false, run, steps, Answer200(0, 0, true));
    TwoByteFiles();
  }

  lemma NewArrives() returns (run: seq<State>, steps: seq<Step>)
    ensures IsRun(false, run, steps) && |steps| == 9
    ensures run[9] == Moment(Prefix("b", 1), TwoBytes(1, 0), map[0 := NEW],
                             map[0 := Reading(Stream(NEW, 1, true, true, true))], NEW, OldSnapshot())
  {
    run, steps := NewAnswers();
    run, steps := Extend(false, run, steps, Read(0, 1));
    TwoByteFiles();
    assert map[] + Counts(NEW, 0, 1) == map[0 := NEW];
  }

  lemma OldComesBack() returns (run: seq<State>, steps: seq<Step>)
    ensures IsRun(false, run, steps) && |steps| == 12
    ensures run[12] == Moment(Prefix("a", 1), TwoBytes(1, 0), map[0 := OLD],
                              map[0 := Asking(Req(1, Some(1), true, true, "a", false))], OLD, OldSnapshot())
  {
    run, steps := NewArrives();
    run, steps := Extend(false, run, steps, Change(OLD));
    assert run[10].history == map["a" := OLD.content, "b" := NEW.content];
    run, steps := Extend(false, run, steps, Crash);
    run, steps := Extend(false, run, steps, Attempt(0, 0, None));
  }

  function PinnedPrefix(): Fetch {
    Prefix("a", 1).(ranged := true, reprobe := false, pinned := true)
  }

  lemma RangeComesBack() returns (run: seq<State>, steps: seq<Step>)
    ensures IsRun(false, run, steps) && |steps| == 13
    ensures run[13] == Moment(PinnedPrefix(), TwoBytes(1, 0), map[0 := OLD],
                              map[0 := Reading(Stream(OLD, 1, false, false, true))], OLD, OldSnapshot())
  {
    run, steps := OldComesBack();
    run, steps := Extend(false, run, steps, Answer206(0, 0));
  }

  lemma RestArrives() returns (run: seq<State>, steps: seq<Step>)
    ensures IsRun(false, run, steps) && |steps| == 14
    ensures run[14].f == PinnedPrefix() && run[14].file == TwoBytes(1, 0) + Bytes(OLD, 1, 2)
    ensures run[14].counted == map[0 := OLD] + Counts(OLD, 1, 2)
    ensures run[14].history == map["a" := OLD.content, "b" := NEW.content]
  {
    run, steps := RangeComesBack();
    run, steps := Extend(false, run, steps, Read(0, 1));
  }

  /**
   A snapshot from before a replacement, restored after the old representation is served again,
   completes under the pinned validator with a byte of the other representation in the file.
   */
  lemma MixedAfterRestore() returns (run: seq<State>, steps: seq<Step>)
    ensures IsRun(false, run, steps)
    ensures var s := run[|steps|];
      s.f.pinned && Full(s.f, s.counted) && s.f.ifRange == "a"
      && "a" in s.history && s.history["a"] == [0, 0] && s.file == TwoBytes(1, 0)
  {
    run, steps := RestArrives();
    TwoByteFiles();
  }

  // ---- Bytes behind the end ----

  /** A sequential download of `n` bytes of which `got` are there. */
  function Sequence(validator: string, n: nat, got: nat): Fetch {
    Fetch(false, true, false, false, false, validator, n, 1, got, false)
  }

  function Seen(a: Rep): map<string, seq<Byte>> {
    map[a.validator := a.content]
  }

  function SeenMore(history: map<string, seq<Byte>>, rep: Rep): map<string, seq<Byte>> {
    history[rep.validator := rep.content]
  }

  function Begun(a: Rep, fallback: bool): State {
    State(Fetch(true, false, false, false, fallback, a.validator, |a.content|, 1, 0, false),
          map[], map[], map[], a, Seen(a), a, None)
  }

  function Blank(n: nat): map<int, Byte> {
    Resized(map[], n)
  }

  function OneByte(a: Rep): map<int, Byte>
    requires a.content != []
  {
    Blank(|a.content|) + Bytes(a, 0, 1)
  }

  function Stored(a: Rep): Option<Saved> {
    Some(Saved(Sequence(a.validator, |a.content|, 0), map[]))
  }

  predicate Distinct(a: Rep, b: Rep, c: Rep) {
    && a.validator != "" && b.validator != "" && c.validator != ""
    && a.validator != b.validator && a.validator != c.validator && b.validator != c.validator
  }

  lemma TailStored(a: Rep) returns (run: seq<State>, steps: seq<Step>)
    requires a.validator != "" && |a.content| >= 2
    ensures IsRun(true, run, steps) && |steps| == 3
    ensures run[3] == State(Sequence(a.validator, |a.content|, 0), Blank(|a.content|), map[],
                            map[0 := Reading(Stream(a, 0, true, true, true))], a, Seen(a), a, Stored(a))
  {
    run, steps := Extend(true, [Begun(a, false)], [], Attempt(0, 0, Some(|a.content| - 1)));
    run, steps := Extend(true, run, steps, Answer200(0, 0, true));
    assert run[2].file == Blank(|a.content|);
    run, steps := Extend(true, run, steps, Store);
  }

  /** The state after `n` bytes of a restarted body were read. */
  function FirstRead(s: State, rep: Rep, n: nat): State
    requires n <= |rep.content|
  {
    s.(f := s.f.(got := n), file := s.file + Bytes(rep, 0, n), counted := Counts(rep, 0, n),
       work := map[0 := Reading(Stream(rep, n, true, true, true))])
  }

  lemma ReadsFirst(s: State, rep: Rep, n: nat)
    requires s.work == map[0 := Reading(Stream(rep, 0, true, true, true))] && !s.f.ranged && s.f.got == 0
    requires s.counted == map[] && 0 < n <= |rep.content|
    ensures Enabled(true, s, Read(0, n)) && Next(true, s, Read(0, n)) == FirstRead(s, rep, n)
  {
    OnlyItem(Reading(Stream(rep, 0, true, true, true)), Reading(Stream(rep, n, true, true, true)));
    assert map[] + Counts(rep, 0, n) == Counts(rep, 0, n);
  }

  /** A longer representation covers all that was in the file. */
  lemma Covered(file: map<int, Byte>, rep: Rep)
    requires forall o :: o in file ==> 0 <= o < |rep.content|
    ensures file + Bytes(rep, 0, |rep.content|) == Bytes(rep, 0, |rep.content|)
  {
  }

  lemma OneRead(a: Rep) returns (run: seq<State>, steps: seq<Step>)
    requires a.validator != "" && |a.content| >= 2
    ensures IsRun(true, run, steps) && |steps| == 4
    ensures run[4] == State(Sequence(a.validator, |a.content|, 1), OneByte(a), Counts(a, 0, 1),
                            map[0 := Reading(Stream(a, 1, true, true, true))], a, Seen(a), a, Stored(a))
  {
    run, steps := TailStored(a);
    ReadsFirst(run[3], a, 1);
    run, steps := Extend(true, run, steps, Read(0, 1));
  }

  lemma TailRead(a: Rep) returns (run: seq<State>, steps: seq<Step>)
    requires a.validator != "" && |a.content| >= 2
    ensures IsRun(true, run, steps) && |steps| == 5
    ensures run[5] == State(Sequence(a.validator, |a.content|, 1), OneByte(a), Counts(a, 0, 1), map[],
                            a, Seen(a), a, Stored(a))
  {
    run, steps := OneRead(a);
    run, steps := Extend(true, run, steps, Drop(0, true));
    assert run[5].work == map[];
  }

  lemma TailProbed(a: Rep, b: Rep) returns (run: seq<State>, steps: seq<Step>)
    requires a.validator != "" && b.validator != "" && a.validator != b.validator && |a.content| >= 2
    ensures IsRun(true, run, steps) && |steps| == 7
    ensures run[7] == State(Sequence(a.validator, |a.content|, 1), OneByte(a), Counts(a, 0, 1),
                            map[0 := Asking(Req(1, Some(|a.content| - 1), true, true, a.validator, false))],
                            b, SeenMore(Seen(a), b), a, Stored(a))
  {
    run, steps := TailRead(a);
    run, steps := Extend(true, run, steps, Change(b));
    run, steps := Extend(true, run, steps, Attempt(0, 0, None));
  }

  function Replaced(a: Rep, b: Rep): State
    requires a.content != []
  {
    State(Sequence(b.validator, |b.content|, 0), Resized(OneByte(a), |b.content|), map[],
          map[0 := Reading(Stream(b, 0, true, true, true))], b, SeenMore(Seen(a), b), a, Stored(a))
  }

  lemma TailAnswered(a: Rep, b: Rep) returns (run: seq<State>, steps: seq<Step>)
    requires a.validator != "" && b.validator != "" && a.validator != b.validator
    requires 2 <= |a.content| < |b.content|
    ensures IsRun(true, run, steps) && |steps| == 8 && run[8] == Replaced(a, b)
  {
    run, steps := TailProbed(a, b);
    run, steps := Extend(true, run, steps, Answer200(0, 0, true));
  }

  lemma TailRewritten(a: Rep, b: Rep) returns (run: seq<State>, steps: seq<Step>)
    requires a.validator != "" && b.validator != "" && a.validator != b.validator
    requires 2 <= |a.content| < |b.content|
    ensures IsRun(true, run, steps) && |steps| == 9 && run[9] == FirstRead(Replaced(a, b), b, |b.content|)
  {
    run, steps := TailAnswered(a, b);
    ReadsFirst(run[8], b, |b.content|);
    run, steps := Extend(true, run, steps, Read(0, |b.content|));
  }

  lemma TailWritten(a: Rep, b: Rep) returns (run: seq<State>, steps: seq<Step>)
    requires a.validator != "" && b.validator != "" && a.validator != b.validator
    requires 2 <= |a.content| < |b.content|
    ensures IsRun(true, run, steps) && |steps| == 10
    ensures run[10] == State(Sequence(a.validator, |a.content|, 0), Bytes(b, 0, |b.content|), map[], map[],
                             b, SeenMore(Seen(a), b), a, Stored(a))
  {
    run, steps := TailRewritten(a, b);
    Covered(Replaced(a, b).file, b);
    run, steps := Extend(true, run, steps, Crash);
  }

  /** A plain request is answered in full, over whatever is in the file. */
  lemma ReadsWhole(run: seq<State>, steps: seq<Step>) returns (run': seq<State>, steps': seq<Step>)
    requires IsRun(true, run, steps) && Plain(run[|steps|]) && Fitting(run[|steps|])
    ensures IsRun(true, run', steps') && run'[|steps'|] == PlainRead(run[|steps|])
    ensures var s := run[|steps|];
      steps' == steps + [Attempt(0, 0, None), Answer200(0, 0, true), Read(0, |s.server.content|)]
  {
    var s := run[|steps|];
    AskPlain(true, s);
    AnswerPlain(true, s);
    ReadPlain(true, s);
    run', steps' := Extend(true, run, steps, Attempt(0, 0, None));
    run', steps' := Extend(true, run', steps', Answer200(0, 0, true));
    run', steps' := Extend(true, run', steps', Read(0, |s.server.content|));
  }

  lemma Finishes(run: seq<State>, steps: seq<Step>) returns (run': seq<State>, steps': seq<Step>)
    requires IsRun(true, run, steps) && Plain(run[|steps|]) && Fitting(run[|steps|])
    ensures IsRun(true, run', steps') && run'[|steps'|] == PlainEnded(run[|steps|])
    ensures NoCrash(steps) ==> NoCrash(steps')
  {
    EndPlain(true, run[|steps|]);
    run', steps' := ReadsWhole(run, steps);
    run', steps' := Extend(true, run', steps', End(0));
  }

  /**
   A snapshot from before a longer representation was served, restored over its file, while a third
   one has the length of the snapshot: the download completes with the tail of the longer one.
   */
  lemma TailAfterRestore(a: Rep, b: Rep, c: Rep) returns (run: seq<State>, steps: seq<Step>)
    requires Distinct(a, b, c) && 2 <= |a.content| == |c.content| < |b.content|
    ensures IsRun(true, run, steps)
    ensures var s := run[|steps|]; var n := |c.content|;
      && s.f.completed && s.f.size == n
      && (forall o :: 0 <= o < n ==> o in s.file && s.file[o] == c.content[o])
      && (forall o :: n <= o < |b.content| ==> o in s.file && s.file[o] == b.content[o])
  {
    run, steps := TailWritten(a, b);
    run, steps := Extend(true, run, steps, Change(c));
    run, steps := Finishes(run, steps);
  }

  predicate NoCrash(steps: seq<Step>) {
    forall k :: 0 <= k < |steps| ==> !steps[k].Crash?
  }

  lemma EmptyAnswered(a: Rep, e: Rep) returns (run: seq<State>, steps: seq<Step>)
    requires a.validator != "" && e.validator != "" && a.validator != e.validator
    requires a.content != [] && e.content == []
    ensures IsRun(true, run, steps) && NoCrash(steps)
    ensures run[|steps|] == State(Sequence(e.validator, 0, 0), map[], map[],
                                  map[0 := Reading(Stream(e, 0, true, true, true))], e, SeenMore(Seen(a), e), a, None)
  {
    run, steps := Extend(true, [Begun(a, false)], [], Attempt(0, 0, Some(|a.content| - 1)));
    run, steps := Extend(true, run, steps, Change(e));
    run, steps := Extend(true, run, steps, Answer200(0, 0, true));
    assert run[3].file == map[];
  }

  lemma EmptyServed(a: Rep, e: Rep) returns (run: seq<State>, steps: seq<Step>)
    requires a.validator != "" && e.validator != "" && a.validator != e.validator
    requires a.content != [] && e.content == []
    ensures IsRun(true, run, steps) && NoCrash(steps)
    ensures run[|steps|] == State(Sequence(e.validator, 0, 0), map[], map[], map[], e, SeenMore(Seen(a), e), a, None)
  {
    run, steps := EmptyAnswered(a, e);
    OnlyItem(run[|steps|].work[0], run[|steps|].work[0]);
    run, steps := Extend(true, run, steps, Drop(0, true));
  }

  lemma EmptyOutgrown(a: Rep, e: Rep, b: Rep) returns (run: seq<State>, steps: seq<Step>)
    requires Distinct(a, e, b) && a.content != [] && e.content == [] && b.content != []
    ensures IsRun(true, run, steps) && NoCrash(steps)
    ensures run[|steps|] == State(Sequence(b.validator, 0, |b.content|), Bytes(b, 0, |b.content|),
                                  Counts(b, 0, |b.content|), map[], b, SeenMore(SeenMore(Seen(a), e), b), a, None)
  {
    run, steps := EmptyServed(a, e);
    run, steps := Extend(true, run, steps, Change(b));
    var s := run[|steps|];
    run, steps := ReadsWhole(run, steps);
    assert map[] + Bytes(b, 0, |b.content|) == Bytes(b, 0, |b.content|);
    OnlyItem(PlainRead(s).work[0], PlainRead(s).work[0]);
    run, steps := Extend(true, run, steps, Drop(0, true));
  }

  /** An empty representation makes the size look unknown: without any crash a tail stays behind. */
  lemma TailAfterEmpty(a: Rep, e: Rep, b: Rep, c: Rep) returns (run: seq<State>, steps: seq<Step>)
    requires Distinct(a, e, b) && Distinct(a, e, c) && b.validator != c.validator
    requires a.content != [] && e.content == [] && 0 < |c.content| < |b.content|
    ensures IsRun(true, run, steps) && NoCrash(steps)
    ensures var s := run[|steps|]; var n := |c.content|;
      && s.f.completed && s.f.got == n
      && (forall o :: n <= o < |b.content| ==> o in s.file && s.file[o] == b.content[o])
  {
    run, steps := EmptyOutgrown(a, e, b);
    run, steps := Extend(true, run, steps, Change(c));
    run, steps := Finishes(run, steps);
  }

  lemma PrefixPaused(a: Rep, b: Rep) returns (run: seq<State>, steps: seq<Step>)
    requires a.validator != "" && b.validator != "" && a.validator != b.validator && |a.content| >= 2
    ensures IsRun(true, run, steps) && NoCrash(steps)
    ensures run[|steps|] == State(Begun(a, false).f, Bytes(a, 0, 1), Counts(a, 0, 1), map[],
                                  b, SeenMore(Seen(a), b), a, None)
  {
    run, steps := Extend(true, [Begun(a, true)], [], Pause(1));
    assert run[1].file == Bytes(a, 0, 1);
    run, steps := Extend(true, run, steps, Change(b));
  }

  lemma RestAnswered(a: Rep, b: Rep) returns (run: seq<State>, steps: seq<Step>)
    requires a.validator != "" && b.validator != "" && a.validator != b.validator
    requires |a.content| == |b.content| >= 2
    ensures IsRun(true, run, steps) && NoCrash(steps)
    ensures run[|steps|] == State(Begun(a, false).f, Bytes(a, 0, 1), Counts(a, 0, 1),
                                  map[0 := Reading(Stream(b, 1, false, false, true))], b, SeenMore(Seen(a), b), a, None)
  {
    run, steps := PrefixPaused(a, b);
    run, steps := Extend(true, run, steps, Attempt(0, 1, Some(|a.content| - 1)));
    run, steps := Extend(true, run, steps, Answer206(0, 0));
  }

  /**
   A pause while the Resolve stream still delivers counts its prefix without pinning its validator:
   the rest is asked for without If-Range, and comes from whatever is served then.
   */
  lemma PausedPrefixIsUnguarded(a: Rep, b: Rep) returns (run: seq<State>, steps: seq<Step>)
    requires a.validator != "" && b.validator != "" && a.validator != b.validator
    requires |a.content| == |b.content| >= 2
    ensures IsRun(true, run, steps) && NoCrash(steps)
    ensures var s := run[|steps|]; var n := |a.content|;
      && s.f.ranged && s.f.ifRange == a.validator && s.f.size == n && Full(s.f, s.counted)
      && s.counted[0] == a && (forall o :: 1 <= o < n ==> s.counted[o] == b)
  {
    run, steps := RestAnswered(a, b);
    run, steps := Extend(true, run, steps, Read(0, |a.content| - 1));
  }
}
