/** The run of an HLS download on its files, updated in place, with file operations that may fail. */
module HlsRun {
  import opened Base
  import H = Hls
  import P = HlsProofs

  /** The files of a task. A failing write may leave any part of what it was to write. */
  class Files {
    var segs: map<nat, seq<Byte>>
    var parts: map<nat, seq<Byte>>
    var journal: Option<H.Journal>
    var tmp: Option<H.Journal>
    var out: Option<seq<Byte>>
    var target: Option<seq<Byte>>

    function Value(): H.Disk
      reads this
    {
      H.Disk(segs, parts, journal, tmp, out, target)
    }

    constructor (d: H.Disk)
      ensures Value() == d
    {
      segs, parts, journal, tmp, out, target := d.segs, d.parts, d.journal, d.tmp, d.out, d.target;
    }

    method WritePart(i: nat, data: seq<Byte>) returns (ok: bool)
      modifies this`parts
      ensures ok ==> parts == old(parts)[i := data]
      ensures !ok ==> forall j :: j in parts && j != i ==> j in old(parts) && parts[j] == old(parts)[j]
    {
      if * {
        parts := parts[i := data];
        return true;
      }
      var k: nat :| k <= |data|;
      parts := parts[i := data[..k]];
      ok := false;
    }

    method RenamePart(i: nat) returns (ok: bool)
      modifies this`parts, this`segs
      ensures ok ==> i in old(parts) && segs == old(segs)[i := old(parts)[i]] && parts == old(parts) - {i}
      ensures !ok ==> segs == old(segs) && parts == old(parts)
    {
      ok := *;
      if i !in parts {
        ok := false;
      }
      if ok {
        segs, parts := segs[i := parts[i]], parts - {i};
      }
    }

    method WriteJournal(j: H.Journal) returns (ok: bool)
      modifies this`tmp
      ensures tmp == Some(if ok then j else H.Corrupt)
    {
      ok := *;
      tmp := Some(if ok then j else H.Corrupt);
    }

    method RenameJournal() returns (ok: bool)
      requires tmp.Some?
      modifies this`journal, this`tmp
      ensures if ok then journal == old(tmp) && tmp == None else journal == old(journal) && tmp == old(tmp)
    {
      ok := *;
      if ok {
        journal, tmp := tmp, None;
      }
    }
  }

  /** The segments a run still has to fetch, in plan order. */
  function PendingFrom(journal: map<nat, int>, segs: map<nat, seq<Byte>>, n: nat): seq<nat> {
    if n == 0 then []
    else PendingFrom(journal, segs, n - 1) + if H.Kept(journal, segs, n - 1) then [] else [n - 1]
  }

  /** Exactly the segments that are not kept are pending, each once and in plan order. */
  lemma {:induction false} PendingIsTheRest(journal: map<nat, int>, segs: map<nat, seq<Byte>>, n: nat)
    ensures forall i: nat :: i in PendingFrom(journal, segs, n) <==> i < n && !H.Kept(journal, segs, i)
    ensures forall a, b :: 0 <= a < b < |PendingFrom(journal, segs, n)| ==>
              PendingFrom(journal, segs, n)[a] < PendingFrom(journal, segs, n)[b]
  {
    if n > 0 {
      PendingIsTheRest(journal, segs, n - 1);
      forall i: nat ensures i in PendingFrom(journal, segs, n) <==> i < n && !H.Kept(journal, segs, i) {
        assert i in PendingFrom(journal, segs, n) <==>
               i in PendingFrom(journal, segs, n - 1) || (i == n - 1 && !H.Kept(journal, segs, n - 1));
      }
      var all, rest := PendingFrom(journal, segs, n), PendingFrom(journal, segs, n - 1);
      forall a, b | 0 <= a < b < |all| ensures all[a] < all[b] {
        assert all[a] == rest[a] && rest[a] in rest;
      }
    }
  }

  predicate Staged(segs: map<nat, seq<Byte>>, n: nat) {
    forall i :: 0 <= i < n ==> i in segs
  }

  /** The staged segments below `n`, one after the other. */
  function Output(segs: map<nat, seq<Byte>>, n: nat): seq<Byte>
    requires Staged(segs, n)
  {
    if n == 0 then [] else Output(segs, n - 1) + segs[n - 1]
  }

  /** When every segment is on disk the staged output is the output of the plan. */
  lemma {:induction false} OutputIsConcat(p: H.Plan, d: H.Disk, n: nat)
    requires n <= |p.data| && forall i: nat :: i < n ==> P.OnDisk(p, d, i)
    ensures Staged(d.segs, n) && Output(d.segs, n) == H.Concat(p.data[..n])
  {
    if n > 0 {
      OutputIsConcat(p, d, n - 1);
      assert p.data[..n][..n - 1] == p.data[..n - 1];
      assert P.OnDisk(p, d, n - 1);
    }
  }

  class Run {
    const plan: H.Plan
    const files: Files
    var journal: map<nat, int>
    var pending: seq<nat>
    var baseBytes: nat
    var baseDone: nat
    var downloaded: nat

    constructor (plan: H.Plan, files: Files)
      ensures this.plan == plan && this.files == files && journal == map[] && pending == []
      ensures baseBytes == 0 && baseDone == 0 && downloaded == 0
    {
      this.plan, this.files := plan, files;
      journal, pending, baseBytes, baseDone, downloaded := map[], [], 0, 0, 0;
    }

    /** A journal that is missing, broken or foreign is no error; one that cannot be read is. */
    method LoadJournal() returns (ok: bool)
      requires journal == map[]
      modifies this`journal
      ensures journal == if ok then H.LoadedFrom(plan, files.journal) else map[]
      ensures H.Foreign(plan, files.journal) ==> journal == map[]
      ensures ok && files.journal.Some? && !H.Foreign(plan, files.journal) ==>
        && (forall i :: i in journal <==>
              i < |plan.data| && i in files.journal.value.sizes && files.journal.value.sizes[i] > 0)
        && (forall i :: i in journal ==> journal[i] == files.journal.value.sizes[i])
      ensures files.journal.None? ==> ok
    {
      ok := true;
      if files.journal.None? {
        return;
      }
      ok := *;
      if !ok {
        return;
      }
      var file := files.journal.value;
      if !H.Matches(plan, file) {
        return;
      }
      var todo := file.sizes.Keys;
      while todo != {}
        invariant todo <= file.sizes.Keys
        invariant forall key :: key in journal <==>
                    key in file.sizes && key !in todo && H.Usable(plan, key, file.sizes[key])
        invariant forall key :: key in journal ==> journal[key] == file.sizes[key]
      {
        var key :| key in todo;
        todo := todo - {key};
        if H.Usable(plan, key, file.sizes[key]) {
          journal := journal[key := file.sizes[key]];
        }
      }
    }

    /** Completed segments of earlier runs are counted, the others become pending. */
    method PrepareRun() returns (ok: bool)
      requires journal == map[] && pending == [] && baseBytes == 0 && baseDone == 0
      modifies this
      ensures files.journal.None? ==> ok
      ensures ok ==> journal == H.LoadedFrom(plan, files.journal)
      ensures ok ==> pending == PendingFrom(journal, files.segs, |plan.data|)
      ensures ok ==> baseBytes == downloaded == H.KeptBytes(journal, files.segs, |plan.data|)
      ensures ok ==> baseDone + |pending| == |plan.data|
      ensures !ok ==> unchanged(this)
    {
      ok := LoadJournal();
      if !ok {
        return;
      }
      var i := 0;
      while i < |plan.data|
        invariant 0 <= i <= |plan.data|
        invariant journal == H.LoadedFrom(plan, files.journal)
        invariant pending == PendingFrom(journal, files.segs, i)
        invariant baseBytes == H.KeptBytes(journal, files.segs, i)
        invariant baseDone + |pending| == i
      {
        if i in journal && i in files.segs && |files.segs[i]| == journal[i] {
          baseBytes := baseBytes + |files.segs[i]|;
          baseDone := baseDone + 1;
        } else {
          pending := pending + [i];
        }
        i := i + 1;
      }
      downloaded := baseBytes;
    }

    /** The journal on disk is replaced as a whole or not at all. */
    method SaveJournal() returns (ok: bool)
      modifies files`journal, files`tmp
      ensures files.journal ==
                if ok then Some(H.Ledger(plan.id, plan.hash, |plan.data|, journal)) else old(files.journal)
    {
      var sizes: map<nat, int> := map[];
      var todo := journal.Keys;
      while todo != {}
        invariant todo <= journal.Keys
        invariant forall key :: key in sizes <==> key in journal && key !in todo
        invariant forall key :: key in sizes ==> sizes[key] == journal[key]
      {
        var key :| key in todo;
        todo := todo - {key};
        sizes := sizes[key := journal[key]];
      }
      assert sizes == journal;
      ok := files.WriteJournal(H.Ledger(plan.id, plan.hash, |plan.data|, sizes));
      if ok {
        ok := files.RenameJournal();
      }
    }

    /** A stored segment is complete under its name before the journal mentions it. */
    method StoreSegment(idx: nat, data: seq<Byte>) returns (ok: bool)
      modifies this`journal, files`parts, files`segs, files`journal, files`tmp
      ensures ok ==> files.segs == old(files.segs)[idx := data] && journal == old(journal)[idx := |data|]
                     && files.journal == Some(H.Ledger(plan.id, plan.hash, |plan.data|, journal))
      ensures files.segs == old(files.segs) || files.segs == old(files.segs)[idx := data]
      ensures files.journal == old(files.journal)
              || (idx in files.segs && files.segs[idx] == data
                  && files.journal == Some(H.Ledger(plan.id, plan.hash, |plan.data|, journal)))
      ensures journal == old(journal) || journal == old(journal)[idx := |data|]
    {
      ok := files.WritePart(idx, data);
      if !ok {
        return;
      }
      ok := files.RenamePart(idx);
      if !ok {
        return;
      }
      journal := journal[idx := |data|];
      ok := SaveJournal();
    }

    /**
     The output replaces the target as a whole. A merge that fails leaves the staged files alone
     and the target as it was or absent.
     */
    method Merge() returns (ok: bool)
      modifies files`out, files`target, this`downloaded
      ensures files.out == None
      ensures ok ==> Staged(files.segs, |plan.data|)
                     && files.target == Some(Output(files.segs, |plan.data|))
                     && downloaded == |Output(files.segs, |plan.data|)|
      ensures !ok ==> downloaded == old(downloaded) && (files.target == old(files.target) || files.target == None)
    {
      ok := *;
      if !ok {
        files.out := None;
        return;
      }
      files.out := Some([]);
      var total := 0;
      var i := 0;
      while i < |plan.data|
        invariant 0 <= i <= |plan.data|
        invariant files.target == old(files.target) && downloaded == old(downloaded)
        invariant Staged(files.segs, i)
        invariant files.out == Some(Output(files.segs, i)) && total == |Output(files.segs, i)|
      {
        ok := *;
        if i !in files.segs || !ok {
          files.out := None;
          return false;
        }
        files.out := Some(files.out.value + files.segs[i]);
        total := total + |files.segs[i]|;
        i := i + 1;
      }
      ok := *;
      if !ok {
        files.out := None;
        return;
      }
      files.target := None;
      ok := *;
      if !ok {
        files.out := None;
        return;
      }
      files.target, files.out := files.out, None;
      downloaded := total;
    }
  }

  /** Merging when the download is complete yields the output of the plan. */
  method MergeComplete(run: Run) returns (ok: bool)
    requires forall i: nat :: i < |run.plan.data| ==> P.OnDisk(run.plan, run.files.Value(), i)
    modifies run.files`out, run.files`target, run`downloaded
    ensures ok ==> run.files.target == Some(H.Concat(run.plan.data)) && run.downloaded == |H.Concat(run.plan.data)|
  {
    OutputIsConcat(run.plan, run.files.Value(), |run.plan.data|);
    assert run.plan.data[..|run.plan.data|] == run.plan.data;
    ok := run.Merge();
  }
}
