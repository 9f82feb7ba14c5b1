/**
 The sequential media input over a spool: a byte queue. Each method below is one critical
 section of Write, End or Read; between any two of them other goroutines may run, and all keep
 `Valid`. `Read` and `Write` put them together.
 */
module DiskInput {
  import opened Base
  import opened Spool

  lemma {:induction false} BlockMonotone(a: nat, b: nat)
    requires a <= b
    ensures BlockOf(a) <= BlockOf(b)
  {
    Location(a);
    Location(b);
  }

  /** What the spool holds is what was written there. */
  ghost predicate Faithful(image: map<nat, Byte>, history: seq<Byte>) {
    forall o: nat :: o in image ==> o < |history| && image[o] == history[o]
  }

  ghost predicate Unread(image: map<nat, Byte>, read: nat, n: nat) {
    forall o: nat :: read <= o < n ==> o in image
  }

  lemma Appended(image: map<nat, Byte>, history: seq<Byte>, read: nat, data: seq<Byte>)
    requires Faithful(image, history) && read <= |history|
    ensures Faithful(Patched(image, |history|, data), history + data)
    ensures Unread(image, read, |history|) ==> Unread(Patched(image, |history|, data), read, |history + data|)
    ensures (history + data)[..read] == history[..read]
  {
    forall o: nat
      ensures o in Patched(image, |history|, data) <==> o in image || |history| <= o < |history + data|
      ensures o in Patched(image, |history|, data) ==>
                Patched(image, |history|, data)[o] == if |history| <= o then data[o - |history|] else image[o]
    {
      PatchedAt(image, |history|, data, o);
    }
  }

  datatype Status = Data | Wait | EndOfFile | Error

  class Queue {
    const spool: BlockSpool
    var written: nat
    var read: nat
    ghost var history: seq<Byte>   // every byte accepted by a write, in order
    ghost var consumed: seq<Byte>  // every byte returned by a read, in order
    var unnoted: nat               // bytes a write has stored but not yet added to `written`
    var evict: Option<nat>         // the block a read is about to remove

    /** No byte of the block is still to be read. */
    ghost predicate Evictable(b: nat)
      reads this, spool
    {
      b < BlockOf(read) || (spool.ended && read == |history|)
    }

    ghost predicate Valid()
      reads this, spool
    {
      && spool.Valid()
      && written + unnoted == |history| && (spool.ended ==> unnoted == 0)
      && read <= |history| && consumed == history[..read]
      && Faithful(spool.image, history)
      && (!spool.closed ==> Unread(spool.image, read, |history|))
      && (evict.Some? ==> Evictable(evict.value))
    }

    constructor ()
      ensures Valid() && fresh(spool) && history == [] && consumed == [] && unnoted == 0 && evict == None
      ensures !spool.ended && !spool.closed && !spool.failed
    {
      spool := new BlockSpool();
      written, read, unnoted, evict := 0, 0, 0, None;
      history, consumed := [], [];
    }

    // ---- Critical sections ----

    /** Storing a write, which holds the write lock: nothing is stored after End. */
    method Store(p: seq<Byte>) returns (n: nat, ok: bool)
      requires Valid() && unnoted == 0
      modifies this`history, this`unnoted, spool
      ensures Valid() && unnoted == n <= |p| && history == old(history) + p[..n]
      ensures spool.ended == old(spool.ended) && spool.closed == old(spool.closed)
      ensures spool.ended ==> n == 0 && !ok
      ensures old(spool.failed) || old(spool.ended) ==> spool.failed == old(spool.failed)
      ensures ok ==> n == |p|
    {
      if spool.ended {
        return 0, false;
      }
      ghost var image := spool.image;
      n, ok := spool.WriteAt(p, written);
      Appended(image, history, read, p[..n]);
      history := history + p[..n];
      unnoted := n;
    }

    method NoteWritten(n: nat)
      requires Valid() && unnoted == n
      modifies this`written, this`unnoted
      ensures Valid() && unnoted == 0
    {
      written := written + n;
      unnoted := 0;
    }

    /** The producer is done; it holds the write lock. */
    method End(err: bool)
      requires Valid() && unnoted == 0
      modifies spool`ended, spool`failed
      ensures Valid() && spool.ended && spool.failed == (old(spool.failed) || err)
    {
      spool.End(err);
    }

    /** Reading what is there at the read position, and moving past it. */
    method Take(cap: nat) returns (data: seq<Byte>, ok: bool)
      requires Valid() && evict == None
      modifies this`read, this`consumed, this`evict
      ensures Valid() && |data| <= cap && consumed == old(consumed) + data
      ensures ok && cap > 0 ==> (data == [] <==> old(read) == |history|)
      ensures ok ==> !spool.failed && !spool.closed
      ensures read == old(read) + |data|
      ensures evict == if BlockOf(read) > BlockOf(old(read)) then Some(BlockOf(old(read))) else None
    {
      data, ok := spool.ReadAt(cap, read);
      if data != [] {
        forall k: nat | k < |data| ensures read + k < |history| && history[read + k] == data[k] {
          assert ReadsAt(spool.image, read + k, data[k]);
        }
        assert ReadsAt(spool.image, read + (|data| - 1), data[|data| - 1]);
        assert history[..read + |data|] == history[..read] + data;
        var previous := BlockOf(read);
        read := read + |data|;
        consumed := consumed + data;
        if BlockOf(read) > previous {
          evict := Some(previous);
        }
      }
    }

    /** Removing a block that was read to its end: no unread byte goes with it. */
    method Evict() returns (ok: bool)
      requires Valid() && evict.Some?
      modifies this`evict, spool`files, spool`blocks, spool`image
      ensures Valid() && evict == None
      ensures spool.image == if ok then Outside(old(spool.image), old(evict).value) else old(spool.image)
      ensures forall o: nat :: read <= o < |history| && o in old(spool.image) ==> o in spool.image
    {
      forall o: nat | read <= o < |history| ensures BlockOf(o) != evict.value {
        BlockMonotone(read, o);
      }
      ok := spool.Discard(evict.value);
      evict := None;
    }

    /** Looking again after End was seen: the end of the file only when everything was consumed. */
    method CheckEnd(cap: nat) returns (eof: bool, ok: bool)
      requires Valid() && evict == None && spool.ended && cap > 0
      modifies this`evict
      ensures Valid()
      ensures eof ==> ok && consumed == history && !spool.failed && !spool.closed && evict.Some?
      ensures !eof ==> evict == None
    {
      var data;
      data, ok := spool.ReadAt(cap, read);
      eof := ok && data == [];
      if eof {
        assert read == |history|;
        assert history[..read] == history;
        evict := Some(BlockOf(read));
      }
    }

    // ---- Write and Read ----

    method Write(p: seq<Byte>, cancelled: bool) returns (n: nat, ok: bool)
      requires Valid() && unnoted == 0
      modifies this, spool
      ensures Valid() && unnoted == 0 && n <= |p| && (ok ==> n == |p|)
      ensures history == old(history) + p[..n] && consumed == old(consumed)
      ensures cancelled || old(spool.ended) ==> n == 0 && !ok
    {
      if cancelled {
        return 0, false;
      }
      n, ok := Store(p);
      NoteWritten(n);
    }

    /** One attempt of a read; `Wait` is where it blocks until the spool changes. */
    method Read(cap: nat, cancelled: bool) returns (data: seq<Byte>, status: Status)
      requires Valid() && evict == None
      modifies this, spool
      ensures Valid() && evict == None && |data| <= cap
      ensures history == old(history) && consumed == old(consumed) + data && consumed <= history
      ensures status == Data && BlockOf(read) > BlockOf(old(read)) ==>
                spool.image == Outside(old(spool.image), BlockOf(old(read)))
      ensures status == Data && BlockOf(read) <= BlockOf(old(read)) ==> spool.image == old(spool.image)
      ensures status == EndOfFile ==> consumed == history && spool.ended && !spool.failed
      ensures status == Wait ==> data == [] && consumed == history && !spool.ended
    {
      if cap == 0 {
        return [], Data;
      }
      if cancelled {
        return [], Error;
      }
      var ok;
      data, ok := Take(cap);
      if data != [] {
        status := if ok then Data else Error;
        if evict.Some? {
          var removed := Evict();
          if !removed {
            status := Error;
          }
        }
        return;
      }
      if !ok {
        return [], Error;
      }
      assert history[..read] == history;
      if !spool.ended {
        return [], Wait;
      }
      var eof;
      eof, ok := CheckEnd(cap);
      if !eof {
        return [], Error;
      }
      var removed := Evict();
      status := if removed then EndOfFile else Error;
    }
  }

  datatype Op = Store(p: seq<Byte>) | Note | End(err: bool) | Take(cap: nat) | Evict | CheckEnd(cap: nat)

  /**
   Any schedule of critical sections that respects the two locks: what was read is a prefix of
   what was written, and an end of file was reported only with nothing left, after an End and
   after no End with an error. `ends` tells of every End before the last report of an end of file
   whether it had an error.
   */
  method Schedule(q: Queue, ops: seq<Op>) returns (eof: bool, ghost ends: seq<bool>)
    requires q.Valid()
    modifies q, q.spool
    ensures q.Valid() && q.consumed <= q.history
    ensures old(q.history) <= q.history && old(q.consumed) <= q.consumed
    ensures eof ==> q.consumed == q.history && q.spool.ended
    ensures eof ==> !old(q.spool.failed) && (old(q.spool.ended) || ends != []) && forall e :: e in ends ==> !e
  {
    eof, ends := false, [];
    ghost var seen := [];
    var i := 0;
    while i < |ops|
      invariant i <= |ops| && q.Valid()
      invariant old(q.history) <= q.history && old(q.consumed) <= q.consumed
      invariant eof ==> q.consumed == q.history && q.spool.ended
      invariant (old(q.spool.failed) || true in seen) ==> q.spool.failed
      invariant q.spool.ended ==> old(q.spool.ended) || seen != []
      invariant eof ==> !old(q.spool.failed) && (old(q.spool.ended) || ends != []) && forall e :: e in ends ==> !e
    {
      match ops[i] {
        case Store(p) =>
          if q.unnoted == 0 {
            var _, _ := q.Store(p);
          }
        case Note => q.NoteWritten(q.unnoted);
        case End(err) =>
          if q.unnoted == 0 {
            q.End(err);
            seen := seen + [err];
          }
        case Take(cap) =>
          if q.evict == None {
            var _, _ := q.Take(cap);
          }
        case Evict =>
          if q.evict.Some? {
            var _ := q.Evict();
          }
        case CheckEnd(cap) =>
          if q.evict == None && q.spool.ended && cap > 0 {
            var done, _ := q.CheckEnd(cap);
            if done {
              eof, ends := true, seen;
            }
          }
      }
      i := i + 1;
    }
  }
}
