/** Reading a file that is split into parts as if it were one file. */
module MultiPart {
  import opened Base

  /** The content of all parts, one after the other. */
  function Joined(parts: seq<seq<Byte>>): seq<Byte> {
    if parts == [] then [] else Joined(parts[..|parts| - 1]) + parts[|parts| - 1]
  }

  lemma JoinedSnoc(parts: seq<seq<Byte>>, i: nat)
    requires i < |parts|
    ensures Joined(parts[..i + 1]) == Joined(parts[..i]) + parts[i]
  {
    assert parts[..i + 1][..i] == parts[..i];
  }

  lemma {:induction false} JoinedPrefix(parts: seq<seq<Byte>>, i: nat)
    requires i <= |parts|
    ensures Joined(parts[..i]) <= Joined(parts)
    decreases |parts| - i
  {
    if i < |parts| {
      JoinedPrefix(parts, i + 1);
      JoinedSnoc(parts, i);
    } else {
      assert parts[..i] == parts;
    }
  }

  /** A part lies in the joined content behind the parts before it. */
  lemma PartAt(parts: seq<seq<Byte>>, i: nat)
    requires i < |parts|
    ensures var start := |Joined(parts[..i])|;
      start + |parts[i]| <= |Joined(parts)| && Joined(parts)[start..start + |parts[i]|] == parts[i]
  {
    JoinedSnoc(parts, i);
    JoinedPrefix(parts, i + 1);
    var start := |Joined(parts[..i])|;
    assert Joined(parts[..i + 1])[start..] == parts[i];
  }

  lemma Within(s: seq<Byte>, start: nat, len: nat, local: nat, n: nat)
    requires start + len <= |s| && local + n <= len
    ensures s[start..start + len][local..local + n] == s[start + local..start + local + n]
  {
    var a, b := s[start..start + len][local..local + n], s[start + local..start + local + n];
    assert |a| == |b|;
    forall k | 0 <= k < n ensures a[k] == b[k] {
      assert a[k] == s[start..start + len][local + k] == s[start + local + k];
    }
  }

  lemma PieceAt(parts: seq<seq<Byte>>, i: nat, local: nat, n: nat)
    requires i < |parts| && local + n <= |parts[i]|
    ensures var off := |Joined(parts[..i])| + local;
      off + n <= |Joined(parts)| && parts[i][local..local + n] == Joined(parts)[off..off + n]
  {
    PartAt(parts, i);
    Within(Joined(parts), |Joined(parts[..i])|, |parts[i]|, local, n);
  }

  lemma Adjacent(s: seq<Byte>, a: nat, b: nat, c: nat)
    requires a <= b <= c <= |s|
    ensures s[a..b] + s[b..c] == s[a..c]
  {
  }

  class Reader {
    const parts: seq<seq<Byte>>
    var opened_: bool
    var sizes: seq<nat>
    var offsets: seq<nat>
    var totalSize: nat

    /** The length of the parts before the `i`-th. */
    ghost function Before(i: nat): nat
      requires i <= |parts|
    {
      |Joined(parts[..i])|
    }

    lemma BeforeNext(i: nat)
      requires i < |parts|
      ensures Before(i + 1) == Before(i) + |parts[i]|
    {
      JoinedSnoc(parts, i);
    }

    /** The offsets are cumulative: each is the length of the parts before it. */
    ghost predicate Initialised()
      reads this
    {
      && |sizes| == |offsets| == |parts|
      && (forall i :: 0 <= i < |parts| ==> sizes[i] == |parts[i]| && offsets[i] == Before(i))
      && totalSize == |Joined(parts)|
    }

    ghost predicate Valid()
      reads this
    {
      opened_ ==> Initialised()
    }

    constructor (parts: seq<seq<Byte>>)
      ensures Valid() && this.parts == parts && !opened_
    {
      this.parts, opened_, sizes, offsets, totalSize := parts, false, [], [], 0;
    }

    /** Opening the parts one by one; one that cannot be opened undoes it. */
    method Init() returns (ok: bool)
      requires Valid()
      modifies this
      ensures Valid() && ok == opened_ && (old(opened_) ==> ok)
    {
      if opened_ {
        return true;
      }
      sizes, offsets := [], [];
      var offset := 0;
      var i := 0;
      while i < |parts|
        invariant 0 <= i <= |parts| && !opened_
        invariant |sizes| == |offsets| == i && offset == Before(i)
        invariant forall k :: 0 <= k < i ==> sizes[k] == |parts[k]| && offsets[k] == Before(k)
      {
        ok := *;
        if !ok {
          return false;
        }
        BeforeNext(i);
        sizes, offsets := sizes + [|parts[i]|], offsets + [offset];
        offset := offset + |parts[i]|;
        i := i + 1;
      }
      assert parts[..i] == parts;
      totalSize := offset;
      opened_ := true;
      ok := true;
    }

    method Close()
      modifies this`opened_
      ensures Valid() && !opened_
    {
      opened_ := false;
    }

    method Size() returns (size: nat)
      requires Valid()
      modifies this
      ensures Valid() && (size == if opened_ then |Joined(parts)| else 0)
    {
      var ok := Init();
      if !ok {
        return 0;
      }
      size := totalSize;
    }

    /** A part ends where the next one starts, the last one where everything ends. */
    lemma NextOffset(i: nat)
      requires Initialised() && i < |parts|
      ensures offsets[i] + sizes[i] == if i + 1 < |parts| then offsets[i + 1] else totalSize
    {
      JoinedSnoc(parts, i);
      if i + 1 == |parts| {
        assert parts[..i + 1] == parts;
      }
    }

    /** Reading from one part, up to its end. */
    method ReadPart(i: nat, off: nat, room: nat) returns (piece: seq<Byte>, ok: bool)
      requires opened_ && Initialised() && i < |parts| && offsets[i] <= off < offsets[i] + sizes[i]
      ensures |piece| <= room && off + |piece| <= offsets[i] + sizes[i] && off + |piece| <= |Joined(parts)|
      ensures piece == Joined(parts)[off..off + |piece|]
      ensures ok ==> |piece| == Min(room, offsets[i] + sizes[i] - off)
    {
      var local := off - offsets[i];
      var toRead := Min(room, offsets[i] + sizes[i] - off);
      var n := toRead;
      ok := *;
      if !ok {
        n :| 0 <= n <= toRead;
      }
      piece := parts[i][local..local + n];
      PieceAt(parts, i, local, n);
    }

    /** One round of the loop below: nothing of a part before the offset, what fits of any other. */
    method ReadRound(i: nat, off: nat, room: nat) returns (piece: seq<Byte>, ok: bool)
      requires opened_ && Initialised() && i < |parts| && off >= offsets[i] && off <= totalSize
      ensures |piece| <= room && off + |piece| <= totalSize
      ensures piece == Joined(parts)[off..off + |piece|]
      ensures ok && |piece| < room ==> off + |piece| >= if i + 1 < |parts| then offsets[i + 1] else totalSize
    {
      NextOffset(i);
      if off < offsets[i] + sizes[i] {
        piece, ok := ReadPart(i, off, room);
      } else {
        piece, ok := [], true;
      }
    }

    /** The loop over the parts: those before the offset are skipped, then each is read in turn. */
    method ReadParts(cap: nat, start: nat) returns (data: seq<Byte>, ok: bool)
      requires opened_ && Initialised() && start < totalSize
      ensures |data| <= cap && start + |data| <= totalSize && data == Joined(parts)[start..start + |data|]
      ensures ok ==> |data| == Min(cap, totalSize - start)
    {
      data, ok := [], true;
      ghost var all := Joined(parts);
      var off := start;
      var i := 0;
      while i < |parts|
        invariant 0 <= i <= |parts| && ok
        invariant start <= off <= totalSize && |data| == off - start && data == all[start..off]
        invariant |data| <= cap && (cap > 0 ==> |data| < cap)
        invariant off >= if i < |parts| then offsets[i] else totalSize
      {
        var piece;
        piece, ok := ReadRound(i, off, cap - |data|);
        Adjacent(all, start, off, off + |piece|);
        data := data + piece;
        off := off + |piece|;
        if !ok || |data| >= cap {
          return;
        }
        i := i + 1;
      }
    }

    /**
     Reading at any offset: without an I/O error exactly the bytes of the joined content from
     there on, as many as asked for or as there are; it is the end of the file only at or past
     the end of the content.
     */
    method ReadAt(cap: nat, off: nat) returns (data: seq<Byte>, eof: bool, ok: bool)
      requires Valid()
      modifies this
      ensures Valid() && (ok ==> opened_)
      ensures |data| <= cap && (data != [] ==> off + |data| <= |Joined(parts)|)
      ensures data != [] ==> data == Joined(parts)[off..off + |data|]
      ensures ok && off < |Joined(parts)| ==> data == Joined(parts)[off..Min(off + cap, |Joined(parts)|)]
      ensures ok ==> (eof <==> off >= |Joined(parts)|)
    {
      data, eof := [], false;
      ok := Init();
      if !ok {
        return;
      }
      if off >= totalSize {
        return [], true, true;
      }
      data, ok := ReadParts(cap, off);
    }
  }
}
