/**
 The disk spool of the media engine: sparse block files of which only recorded intervals are
 valid. Every method is one critical section of the spool, and every one keeps `Valid`, so what
 holds here holds between any two steps of readers, writers and evictions.
 */
module Spool {
  import opened Base
  import opened Spans

  const BLOCK := 8388608

  /** Which block file an offset falls into, and where in it: the quotient and remainder by BLOCK. */
  function BlockOf(o: nat): nat {
    if o < BLOCK then 0 else BlockOf(o - BLOCK) + 1
  }

  function LocalOf(o: nat): nat {
    if o < BLOCK then o else LocalOf(o - BLOCK)
  }

  lemma {:induction false} Location(o: nat)
    ensures o == BLOCK * BlockOf(o) + LocalOf(o) && LocalOf(o) < BLOCK
  {
    if o >= BLOCK {
      Location(o - BLOCK);
    }
  }

  lemma LocationIsQuotient(o: nat)
    ensures BlockOf(o) == o / BLOCK && LocalOf(o) == o % BLOCK
  {
    Location(o);
  }

  /** The offsets of a piece that lies within one block. */
  lemma OneBlock(offset: nat, n: nat, o: nat)
    requires LocalOf(offset) + n <= BLOCK
    ensures offset <= o < offset + n <==>
              BlockOf(o) == BlockOf(offset) && LocalOf(offset) <= LocalOf(o) < LocalOf(offset) + n
    ensures offset <= o < offset + n ==> LocalOf(o) - LocalOf(offset) == o - offset
  {
    Location(offset);
    Location(o);
  }

  /** A block file, or an image of all of them, after `data` was written at `offset`. */
  function Patched(file: map<nat, Byte>, offset: nat, data: seq<Byte>): map<nat, Byte> {
    if data == [] then file
    else Patched(file, offset, data[..|data| - 1])[offset + |data| - 1 := data[|data| - 1]]
  }

  /** What was written is there, and everything else is as it was. */
  lemma {:induction false} PatchedAt(file: map<nat, Byte>, offset: nat, data: seq<Byte>, o: nat)
    ensures o in Patched(file, offset, data) <==> o in file || offset <= o < offset + |data|
    ensures o in Patched(file, offset, data) ==>
              Patched(file, offset, data)[o] == if offset <= o < offset + |data| then data[o - offset] else file[o]
  {
    if data != [] {
      PatchedAt(file, offset, data[..|data| - 1], o);
    }
  }

  /** Two writes in a row are one longer write. */
  lemma {:induction false} PatchedTwice(file: map<nat, Byte>, offset: nat, a: seq<Byte>, b: seq<Byte>)
    ensures Patched(Patched(file, offset, a), offset + |a|, b) == Patched(file, offset, a + b)
  {
    if b == [] {
      assert a + b == a;
    } else {
      PatchedTwice(file, offset, a, b[..|b| - 1]);
      assert (a + b)[..|a + b| - 1] == a + b[..|b| - 1];
    }
  }

  /** `data` was written at `offset`: it is in the image, its positions are among those ever written. */
  ghost predicate Wrote(before: map<nat, Byte>, after: map<nat, Byte>, known: set<nat>, ever: set<nat>,
                        offset: nat, data: seq<Byte>)
  {
    && after == Patched(before, offset, data)
    && forall o: nat :: o in ever <==> o in known || offset <= o < offset + |data|
  }

  /** Two writes in a row, the second of part of a piece, are one longer write. */
  lemma WroteMore(first: map<nat, Byte>, second: map<nat, Byte>, third: map<nat, Byte>,
                  known: set<nat>, more: set<nat>, ever: set<nat>,
                  offset: nat, data: seq<Byte>, n: nat, m: nat, k: nat)
    requires n + m <= |data| && k <= m
    requires Wrote(first, second, known, more, offset, data[..n])
    requires Wrote(second, third, more, ever, offset + n, data[n..n + m][..k])
    ensures Wrote(first, third, known, ever, offset, data[..n + k])
  {
    PatchedTwice(first, offset, data[..n], data[n..n + m][..k]);
    assert data[..n] + data[n..n + m][..k] == data[..n + k];
  }

  /** What is recorded of a block file was written to it. */
  ghost predicate BlockOk(spans: seq<Span>, file: map<nat, Byte>) {
    Canonical(spans) && forall l: nat :: In(spans, l) ==> l in file && l < BLOCK
  }

  /** The intervals recorded for a block. */
  function Recorded(blocks: map<nat, seq<Span>>, index: nat): seq<Span> {
    if index in blocks then blocks[index] else []
  }

  function FileOf(files: map<nat, map<nat, Byte>>, index: nat): map<nat, Byte> {
    if index in files then files[index] else map[]
  }

  ghost predicate Sound(blocks: map<nat, seq<Span>>, files: map<nat, map<nat, Byte>>) {
    forall index: nat :: BlockOk(Recorded(blocks, index), FileOf(files, index))
  }

  /** The recorded intervals are exactly the bytes of the image, and the files hold them. */
  ghost predicate Shows(blocks: map<nat, seq<Span>>, files: map<nat, map<nat, Byte>>, image: map<nat, Byte>, o: nat) {
    Tells(Recorded(blocks, BlockOf(o)), FileOf(files, BlockOf(o)), image, LocalOf(o), o)
  }

  ghost predicate Stored(blocks: map<nat, seq<Span>>, files: map<nat, map<nat, Byte>>, image: map<nat, Byte>) {
    Sound(blocks, files) && forall o: nat :: Shows(blocks, files, image, o)
  }

  /** `seen` are the positions ever written, each counted once in `downloaded`. */
  ghost predicate Counted(seen: seq<Span>, ever: set<nat>, downloaded: int, received: int) {
    && Canonical(seen) && (forall o: nat :: o in ever <==> In(seen, o))
    && downloaded == |ever| && downloaded <= received
  }

  // ---- One write to one block ----

  /** The files and the recorded intervals after a write within one block. */
  function FilesAfter(files: map<nat, map<nat, Byte>>, offset: nat, data: seq<Byte>): map<nat, map<nat, Byte>> {
    files[BlockOf(offset) := Patched(FileOf(files, BlockOf(offset)), LocalOf(offset), data)]
  }

  /** `spans` records a write of `n` bytes at `local` besides what `before` records. */
  ghost predicate Adds(before: seq<Span>, spans: seq<Span>, local: nat, n: nat) {
    Canonical(spans) && forall l: nat :: In(spans, l) <==> In(before, l) || local <= l < local + n
  }

  lemma SoundAfter(blocks: map<nat, seq<Span>>, files: map<nat, map<nat, Byte>>, offset: nat, data: seq<Byte>,
                   spans: seq<Span>)
    requires Sound(blocks, files) && LocalOf(offset) + |data| <= BLOCK
    requires Adds(Recorded(blocks, BlockOf(offset)), spans, LocalOf(offset), |data|)
    ensures Sound(blocks[BlockOf(offset) := spans], FilesAfter(files, offset, data))
  {
    var blocks', files' := blocks[BlockOf(offset) := spans], FilesAfter(files, offset, data);
    forall index: nat ensures BlockOk(Recorded(blocks', index), FileOf(files', index)) {
      assert BlockOk(Recorded(blocks, index), FileOf(files, index));
      if index == BlockOf(offset) {
        forall l: nat | In(spans, l) ensures l in FileOf(files', index) {
          PatchedAt(FileOf(files, index), LocalOf(offset), data, l);
        }
      }
    }
  }

  /** What a block's intervals and file say of one offset. */
  predicate Tells(spans: seq<Span>, file: map<nat, Byte>, image: map<nat, Byte>, l: nat, o: nat) {
    && (o in image <==> In(spans, l))
    && (In(spans, l) ==> l in file && image[o] == file[l])
  }

  lemma TellsAfter(before: seq<Span>, spans: seq<Span>, file: map<nat, Byte>, image: map<nat, Byte>,
                   offset: nat, data: seq<Byte>, local: nat, l: nat, o: nat)
    requires Tells(before, file, image, l, o) && Adds(before, spans, local, |data|)
    requires offset <= o < offset + |data| <==> local <= l < local + |data|
    requires offset <= o < offset + |data| ==> o - offset == l - local
    ensures Tells(spans, Patched(file, local, data), Patched(image, offset, data), l, o)
  {
    PatchedAt(file, local, data, l);
    PatchedAt(image, offset, data, o);
  }

  lemma ShowsAfter(blocks: map<nat, seq<Span>>, files: map<nat, map<nat, Byte>>, image: map<nat, Byte>,
                   offset: nat, data: seq<Byte>, spans: seq<Span>, o: nat)
    requires Shows(blocks, files, image, o) && LocalOf(offset) + |data| <= BLOCK
    requires Adds(Recorded(blocks, BlockOf(offset)), spans, LocalOf(offset), |data|)
    ensures Shows(blocks[BlockOf(offset) := spans], FilesAfter(files, offset, data), Patched(image, offset, data), o)
  {
    var b := BlockOf(o);
    OneBlock(offset, |data|, o);
    PatchedAt(image, offset, data, o);
    if b == BlockOf(offset) {
      TellsAfter(Recorded(blocks, b), spans, FileOf(files, b), image, offset, data, LocalOf(offset), LocalOf(o), o);
    } else {
      var blocks', files' := blocks[BlockOf(offset) := spans], FilesAfter(files, offset, data);
      assert Recorded(blocks', b) == Recorded(blocks, b) && FileOf(files', b) == FileOf(files, b);
    }
  }

  /** Recording a write within one block: the new intervals and the new file show the new image. */
  lemma RecordShows(blocks: map<nat, seq<Span>>, files: map<nat, map<nat, Byte>>, image: map<nat, Byte>,
                    offset: nat, data: seq<Byte>, spans: seq<Span>)
    requires Stored(blocks, files, image) && LocalOf(offset) + |data| <= BLOCK
    requires Adds(Recorded(blocks, BlockOf(offset)), spans, LocalOf(offset), |data|)
    ensures Stored(blocks[BlockOf(offset) := spans], FilesAfter(files, offset, data), Patched(image, offset, data))
  {
    SoundAfter(blocks, files, offset, data, spans);
    var blocks', files' := blocks[BlockOf(offset) := spans], FilesAfter(files, offset, data);
    var image' := Patched(image, offset, data);
    forall o: nat ensures Shows(blocks', files', image', o) {
      assert Shows(blocks, files, image, o);
      ShowsAfter(blocks, files, image, offset, data, spans, o);
    }
  }

  /** What is left of an image without one block. */
  function Outside(image: map<nat, Byte>, index: nat): (r: map<nat, Byte>)
    ensures forall o: nat :: o in r <==> o in image && BlockOf(o) != index
    ensures forall o: nat :: o in r ==> r[o] == image[o]
  {
    map o | o in image && BlockOf(o) != index :: image[o]
  }

  lemma ForgetShows(blocks: map<nat, seq<Span>>, files: map<nat, map<nat, Byte>>, image: map<nat, Byte>, index: nat)
    requires Stored(blocks, files, image)
    ensures Stored(blocks - {index}, files - {index}, Outside(image, index))
  {
    var blocks', files' := blocks - {index}, files - {index};
    forall i: nat ensures BlockOk(Recorded(blocks', i), FileOf(files', i)) {
      assert BlockOk(Recorded(blocks, i), FileOf(files, i));
    }
    forall o: nat ensures Shows(blocks', files', Outside(image, index), o) {
      assert Shows(blocks, files, image, o);
    }
  }

  /** The image holds `data` at the offsets from `offset` on. */
  ghost predicate Reads(image: map<nat, Byte>, offset: nat, data: seq<Byte>) {
    forall k: nat :: k < |data| ==> ReadsAt(image, offset + k, data[k])
  }

  predicate ReadsAt(image: map<nat, Byte>, o: nat, b: Byte) {
    o in image && image[o] == b
  }

  /** Reading `n` bytes of a block file. */
  function Slice(file: map<nat, Byte>, local: nat, n: nat): (data: seq<Byte>)
    requires forall l: nat :: local <= l < local + n ==> l in file
    ensures |data| == n && forall k :: 0 <= k < n ==> data[k] == file[local + k]
  {
    seq(n, k requires 0 <= k < n => file[local + k])
  }

  class BlockSpool {
    var files: map<nat, map<nat, Byte>>
    var blocks: map<nat, seq<Span>>
    var seen: seq<Span>
    var ended: bool
    var closed: bool
    var failed: bool
    var downloaded: int
    var received: int
    ghost var image: map<nat, Byte>  // the bytes written to block files that are still there
    ghost var ever: set<nat>         // every offset written so far

    ghost predicate Valid()
      reads this
    {
      Stored(blocks, files, image) && (!closed ==> Counted(seen, ever, downloaded, received))
    }

    constructor ()
      ensures Valid() && image == map[] && ever == {} && received == 0 && !ended && !closed && !failed
    {
      files, blocks, seen := map[], map[], [];
      ended, closed, failed, downloaded, received := false, false, false, 0, 0;
      image, ever := map[], {};
    }

    /** Recording a write that lies within one block. */
    method Record(offset: nat, data: seq<Byte>)
      requires Stored(blocks, files, image) && data != [] && LocalOf(offset) + |data| <= BLOCK
      modifies this`files, this`blocks, this`image
      ensures Stored(blocks, files, image) && image == Patched(old(image), offset, data)
    {
      var index, local := BlockOf(offset), LocalOf(offset);
      assert BlockOk(Recorded(blocks, index), FileOf(files, index));
      var spans, _ := AddSpan(Recorded(blocks, index), Span(local, local + |data|));
      RecordShows(blocks, files, image, offset, data, spans);
      files := FilesAfter(files, offset, data);
      blocks := blocks[index := spans];
      image := Patched(image, offset, data);
    }

    /** A write to one block file, which may take only part of it. */
    method WriteFile(offset: nat, data: seq<Byte>) returns (n: nat, ok: bool)
      requires Stored(blocks, files, image) && LocalOf(offset) + |data| <= BLOCK
      modifies this`files, this`blocks, this`image
      ensures Stored(blocks, files, image)
      ensures n <= |data| && (ok ==> n == |data|) && image == Patched(old(image), offset, data[..n])
    {
      n :| n <= |data|;
      ok := *;
      ok := ok && n == |data|;
      if n == 0 {
        return;
      }
      Record(offset, data[..n]);
    }

    /** The positions of a write are counted once each, its bytes every time. */
    method CountWrite(offset: nat, n: nat)
      requires Counted(seen, ever, downloaded, received)
      modifies this`seen, this`downloaded, this`received, this`ever
      ensures Counted(seen, ever, downloaded, received)
      ensures forall o: nat :: o in ever <==> o in old(ever) || offset <= o < offset + n
      ensures received == old(received) + n
    {
      if n == 0 {
        return;
      }
      var span := Span(offset, offset + n);
      MissingBound(seen, span);
      TotalIsSize(seen, ever);
      var count;
      seen, count := AddSpan(seen, span);
      downloaded := downloaded + count;
      received := received + n;
      ever := ever + set o: nat | o < offset + n && Within(span, o);
      TotalIsSize(seen, ever);
    }

    /** One piece of a write; a file error fails the spool. */
    method WritePiece(offset: nat, data: seq<Byte>) returns (n: nat, ok: bool)
      requires Valid() && !closed && !failed && LocalOf(offset) + |data| <= BLOCK
      modifies this
      ensures Valid() && closed == old(closed) && ended == old(ended) && failed == !ok
      ensures n <= |data| && (ok ==> n == |data|) && received == old(received) + n
      ensures Wrote(old(image), image, old(ever), ever, offset, data[..n])
    {
      n, ok := WriteFile(offset, data);
      CountWrite(offset, n);
      failed := !ok;
    }

    /** The next piece of a write of which `n` bytes are done; it ends where its block ends. */
    method WriteNext(p: seq<Byte>, offset: nat, n: nat, ghost first: map<nat, Byte>, ghost known: set<nat>)
      returns (done: nat, ok: bool)
      requires Valid() && !closed && !failed && n < |p|
      requires Wrote(first, image, known, ever, offset, p[..n])
      modifies this
      ensures Valid() && closed == old(closed) && ended == old(ended) && failed == !ok
      ensures n + done <= |p| && (ok ==> 0 < done) && received == old(received) + done
      ensures Wrote(first, image, known, ever, offset, p[..n + done])
    {
      var local := LocalOf(offset + n);
      Location(offset + n);
      var count := Min(|p| - n, BLOCK - local);
      ghost var before, more := image, ever;
      done, ok := WritePiece(offset + n, p[n..n + count]);
      WroteMore(first, before, image, known, more, ever, offset, p, n, count, done);
    }

    /** Writing piece by piece, one block file at a time. */
    method WritePieces(p: seq<Byte>, offset: nat) returns (n: nat, ok: bool)
      requires Valid() && !closed && !failed
      modifies this
      ensures Valid() && closed == old(closed) && ended == old(ended) && failed == !ok
      ensures n <= |p| && (ok ==> n == |p|) && received == old(received) + n
      ensures Wrote(old(image), image, old(ever), ever, offset, p[..n])
    {
      n, ok := 0, true;
      ghost var first, known := image, ever;
      while n < |p|
        invariant n <= |p| && ok && !closed && !failed && ended == old(ended)
        invariant Valid() && received == old(received) + n
        invariant Wrote(first, image, known, ever, offset, p[..n])
        decreases |p| - n
      {
        var done;
        done, ok := WriteNext(p, offset, n, first, known);
        n := n + done;
        if !ok {
          return;
        }
      }
    }

    /** The first `n` bytes are written and valid, and nothing else changes; `ok` says it is all of them. */
    method WriteAt(p: seq<Byte>, offset: int) returns (n: nat, ok: bool)
      requires Valid()
      modifies this
      ensures Valid() && closed == old(closed) && ended == old(ended) && n <= |p|
      ensures offset < 0 || closed || old(failed) ==>
                !ok && n == 0 && image == old(image) && ever == old(ever) && failed == old(failed)
      ensures offset >= 0 && !closed && !old(failed) ==>
                && failed == !ok && (ok ==> n == |p|)
                && image == Patched(old(image), offset, p[..n])
                && forall o: nat :: o in ever <==> o in old(ever) || offset <= o < offset + n
      ensures received == old(received) + n
    {
      if offset < 0 || closed || failed {
        return 0, false;
      }
      n, ok := WritePieces(p, offset);
    }

    /** The recorded interval a position lies in, if any. */
    method Find(spans: seq<Span>, local: nat) returns (found: Option<Span>)
      requires Canonical(spans)
      ensures found.Some? ==> !In(spans, found.value.end)
      ensures found.None? ==> !In(spans, local)
      ensures found.Some? ==> Within(found.value, local) && forall l: nat :: Within(found.value, l) ==> In(spans, l)
    {
      var i := 0;
      while i < |spans|
        invariant 0 <= i <= |spans|
        invariant forall k :: 0 <= k < i ==> !Within(spans[k], local)
      {
        if Within(spans[i], local) {
          forall l: nat | Within(spans[i], l) ensures In(spans, l) {
            InSome(spans, l);
          }
          EndIsFree(spans, i);
          return Some(spans[i]);
        }
        i := i + 1;
      }
      InSome(spans, local);
      found := None;
    }

    /**
     Whatever is read is what the image holds there, all of it from one block. Without an error
     it is as much as was asked for or as the image holds before the next gap or block.
     */
    method ReadAt(cap: nat, offset: nat) returns (data: seq<Byte>, ok: bool)
      requires Valid()
      ensures |data| <= cap && (closed || failed ==> !ok && data == [])
      ensures Reads(image, offset, data)
      ensures data != [] ==> LocalOf(offset) + |data| <= BLOCK
      ensures ok && cap > 0 ==> (data == [] <==> offset !in image)
      ensures ok && 0 < |data| < cap ==> LocalOf(offset) + |data| == BLOCK || offset + |data| !in image
    {
      if closed || failed {
        return [], false;
      }
      var index, local := BlockOf(offset), LocalOf(offset);
      var spans := Recorded(blocks, index);
      assert BlockOk(spans, FileOf(files, index));
      var span := Find(spans, local);
      assert Shows(blocks, files, image, offset);
      if span.None? {
        return [], true;
      }
      var file := FileOf(files, index);
      assert BlockOk(spans, file) && Within(span.value, span.value.end - 1);
      forall l: nat | Within(span.value, l) ensures In(spans, l) && l in file {
      }
      var n := Min(cap, span.value.end - local);
      ok := *;
      if !ok {
        n :| 0 <= n <= Min(cap, span.value.end - local);
      }
      assert forall l: nat :: local <= l < local + n ==> Within(span.value, l);
      data := Slice(file, local, n);
      if local + n == span.value.end < BLOCK {
        OneBlock(offset, n + 1, offset + n);
        assert Shows(blocks, files, image, offset + n);
      }
      forall k: nat | k < |data| ensures ReadsAt(image, offset + k, data[k]) {
        OneBlock(offset, n, offset + k);
        assert Shows(blocks, files, image, offset + k) && Within(span.value, local + k);
      }
    }

    /** A block file is removed together with what is recorded of it, or neither is. */
    method Discard(index: nat) returns (ok: bool)
      requires Valid()
      modifies this`files, this`blocks, this`image
      ensures Valid() && image == if ok then Outside(old(image), index) else old(image)
    {
      ok := *;
      if ok {
        ForgetShows(blocks, files, image, index);
        files, blocks, image := files - {index}, blocks - {index}, Outside(image, index);
      }
    }

    method End(err: bool)
      requires Valid()
      modifies this`ended, this`failed
      ensures Valid() && ended && failed == (old(failed) || err)
    {
      ended := true;
      if err {
        failed := true;
      }
    }

    method Close()
      requires Valid()
      modifies this
      ensures Valid() && closed && image == map[] && downloaded == old(downloaded) && received == old(received)
    {
      closed := true;
      files, blocks, seen := map[], map[], [];
      image := map[];
    }
  }
}
