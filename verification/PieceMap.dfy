/** The verified completion state of ordered pieces: a bitset that behaves as a list of booleans. */
module PieceMap {
  import opened Base

  datatype Error = PieceIndexOutOfRange | InvalidLength

  datatype Result<+T> = Ok(value: T) | Err(error: Error)

  // ---- Bits of a byte, least significant first ----

  /** The byte with only bit `k` set. */
  function Mask(k: nat): bv8
    requires k < 8
  {
    if k == 0 then 1 else Mask(k - 1) << 1
  }

  function PowerOfTwo(k: nat): bv8
    requires k < 8
  {
    if k == 0 then 1 else if k == 1 then 2 else if k == 2 then 4 else if k == 3 then 8
    else if k == 4 then 16 else if k == 5 then 32 else if k == 6 then 64 else 128
  }

  lemma {:induction false} MaskIsPower(k: nat)
    requires k < 8
    ensures Mask(k) == PowerOfTwo(k)
  {
    if k > 0 {
      MaskIsPower(k - 1);
    }
  }

  predicate Bit(b: bv8, k: nat)
    requires k < 8
  {
    if k == 0 then b & 1 == 1 else Bit(b >> 1, k - 1)
  }

  lemma ShiftedMask(b: bv8, k: nat)
    requires 0 < k < 8
    ensures (b >> 1) & Mask(k - 1) != 0 <==> b & Mask(k) != 0
  {
    MaskIsPower(k - 1);
    MaskIsPower(k);
  }

  lemma {:induction false} BitIsMask(b: bv8, k: nat)
    requires k < 8
    ensures Bit(b, k) <==> b & Mask(k) != 0
  {
    if k > 0 {
      BitIsMask(b >> 1, k - 1);
      ShiftedMask(b, k);
    }
  }

  lemma Masks(b: bv8, k: nat, j: nat)
    requires k < 8 && j < 8
    ensures (b | Mask(k)) & Mask(j) != 0 <==> j == k || b & Mask(j) != 0
    ensures (b & !Mask(k)) & Mask(j) != 0 <==> j != k && b & Mask(j) != 0
    ensures (b & (Mask(k) - 1)) & Mask(j) != 0 <==> j < k && b & Mask(j) != 0
  {
    MaskIsPower(k);
    MaskIsPower(j);
  }

  lemma BitSet(b: bv8, k: nat, j: nat)
    requires k < 8 && j < 8
    ensures Bit(b | Mask(k), j) == (j == k || Bit(b, j))
  {
    BitIsMask(b | Mask(k), j);
    BitIsMask(b, j);
    Masks(b, k, j);
  }

  lemma BitCleared(b: bv8, k: nat, j: nat)
    requires k < 8 && j < 8
    ensures Bit(b & !Mask(k), j) == (j != k && Bit(b, j))
  {
    BitIsMask(b & !Mask(k), j);
    BitIsMask(b, j);
    Masks(b, k, j);
  }

  /** A byte with every bit from `used` on cleared. */
  function Low(b: bv8, used: nat): bv8
    requires used < 8
  {
    b & (Mask(used) - 1)
  }

  lemma LowBits(b: bv8, used: nat, j: nat)
    requires used < 8 && j < 8
    ensures Bit(Low(b, used), j) == (j < used && Bit(b, j))
  {
    BitIsMask(Low(b, used), j);
    BitIsMask(b, j);
    Masks(b, used, j);
  }

  lemma {:induction false} ZeroBits(k: nat)
    requires k < 8
    ensures !Bit(0, k)
  {
    if k > 0 {
      ZeroBits(k - 1);
    }
  }

  lemma SameMasked(a: bv8, b: bv8)
    requires forall k: nat :: k < 8 ==> (a & PowerOfTwo(k) != 0 <==> b & PowerOfTwo(k) != 0)
    ensures a == b
  {
    assert forall k: nat :: k in {0, 1, 2, 3, 4, 5, 6, 7} ==> (a & PowerOfTwo(k) != 0 <==> b & PowerOfTwo(k) != 0);
    assert a & 1 == b & 1 && a & 2 == b & 2 && a & 4 == b & 4 && a & 8 == b & 8 by {
      assert PowerOfTwo(0) == 1 && PowerOfTwo(1) == 2 && PowerOfTwo(2) == 4 && PowerOfTwo(3) == 8;
    }
    assert a & 16 == b & 16 && a & 32 == b & 32 && a & 64 == b & 64 && a & 128 == b & 128 by {
      assert PowerOfTwo(4) == 16 && PowerOfTwo(5) == 32 && PowerOfTwo(6) == 64 && PowerOfTwo(7) == 128;
    }
  }

  lemma SameBits(a: bv8, b: bv8)
    requires forall k: nat :: k < 8 ==> Bit(a, k) == Bit(b, k)
    ensures a == b
  {
    forall k: nat | k < 8 ensures a & PowerOfTwo(k) != 0 <==> b & PowerOfTwo(k) != 0 {
      BitIsMask(a, k);
      BitIsMask(b, k);
      MaskIsPower(k);
    }
    SameMasked(a, b);
  }

  function One(b: bool): nat {
    if b then 1 else 0
  }

  /** The number of bits set among the lowest `k` of a byte. */
  function OnesBelow(b: bv8, k: nat): nat
    requires k <= 8
  {
    if k == 0 then 0 else OnesBelow(b, k - 1) + One(Bit(b, k - 1))
  }

  function OnesCount(b: bv8): nat {
    OnesBelow(b, 8)
  }

  // ---- Bits of a byte string ----

  function PackedByteCount(n: nat): nat {
    (n + 7) / 8
  }

  predicate BitAt(data: seq<bv8>, i: nat)
    requires i < 8 * |data|
  {
    Bit(data[i / 8], i % 8)
  }

  /** The first `n` bits as a list. */
  function Unpacked(data: seq<bv8>, n: nat): seq<bool>
    requires n <= 8 * |data|
  {
    seq(n, i requires 0 <= i < n => BitAt(data, i))
  }

  ghost predicate HighBitsClear(data: seq<bv8>, n: nat) {
    forall i: nat :: n <= i < 8 * |data| ==> !BitAt(data, i)
  }

  /** Two packed strings of the same pieces are the same bytes. */
  lemma PackedIsUnique(a: seq<bv8>, b: seq<bv8>, n: nat)
    requires |a| == |b| && n <= 8 * |a| && Unpacked(a, n) == Unpacked(b, n)
    requires HighBitsClear(a, n) && HighBitsClear(b, n)
    ensures a == b
  {
    forall y: nat | y < |a| ensures a[y] == b[y] {
      forall k: nat | k < 8 ensures Bit(a[y], k) == Bit(b[y], k) {
        var i := 8 * y + k;
        assert BitAt(a, i) == Bit(a[y], k) && BitAt(b, i) == Bit(b[y], k);
        if i < n {
          assert Unpacked(a, n)[i] == BitAt(a, i) && Unpacked(b, n)[i] == BitAt(b, i);
        }
      }
      SameBits(a[y], b[y]);
    }
  }

  // ---- Changing bits ----

  /** A byte with bit `k` set or cleared. */
  function Put(b: bv8, k: nat, completed: bool): bv8
    requires k < 8
  {
    if completed then b | Mask(k) else b & !Mask(k)
  }

  lemma PutBit(b: bv8, k: nat, completed: bool, j: nat)
    requires k < 8 && j < 8
    ensures Bit(Put(b, k, completed), j) == if j == k then completed else Bit(b, j)
  {
    BitSet(b, k, j);
    BitCleared(b, k, j);
  }

  function WithBit(data: seq<bv8>, i: nat, completed: bool): seq<bv8>
    requires i < 8 * |data|
  {
    data[i / 8 := Put(data[i / 8], i % 8, completed)]
  }

  /** Replacing a byte by one that differs in bit `k` changes that one piece. */
  lemma ByteReplaced(data: seq<bv8>, i: nat, b: bv8, completed: bool, j: nat)
    requires i < 8 * |data| && j < 8 * |data|
    requires forall l: nat :: l < 8 ==> Bit(b, l) == if l == i % 8 then completed else Bit(data[i / 8], l)
    ensures BitAt(data[i / 8 := b], j) == if j == i then completed else BitAt(data, j)
  {
  }

  lemma WithBitAt(data: seq<bv8>, i: nat, completed: bool, j: nat)
    requires i < 8 * |data| && j < 8 * |data|
    ensures BitAt(WithBit(data, i, completed), j) == if j == i then completed else BitAt(data, j)
  {
    var b := Put(data[i / 8], i % 8, completed);
    forall l: nat | l < 8 ensures Bit(b, l) == if l == i % 8 then completed else Bit(data[i / 8], l) {
      PutBit(data[i / 8], i % 8, completed, l);
    }
    ByteReplaced(data, i, b, completed, j);
  }

  lemma WithBitUnpacked(data: seq<bv8>, n: nat, i: nat, completed: bool)
    requires i < n <= 8 * |data|
    ensures Unpacked(WithBit(data, i, completed), n) == Unpacked(data, n)[i := completed]
  {
    var after := Unpacked(WithBit(data, i, completed), n);
    forall j | 0 <= j < n ensures after[j] == Unpacked(data, n)[i := completed][j] {
      WithBitAt(data, i, completed, j);
    }
  }

  lemma WithBitClear(data: seq<bv8>, n: nat, i: nat, completed: bool)
    requires i < n <= 8 * |data| && HighBitsClear(data, n)
    ensures HighBitsClear(WithBit(data, i, completed), n)
  {
    forall j: nat | n <= j < 8 * |data| ensures !BitAt(WithBit(data, i, completed), j) {
      WithBitAt(data, i, completed, j);
    }
  }

  /** The byte string with the bits of the last byte from `n` on cleared. */
  function Cleared(data: seq<bv8>, n: nat): seq<bv8>
    requires |data| == PackedByteCount(n)
  {
    if n % 8 == 0 then data
    else data[|data| - 1 := Low(data[|data| - 1], n % 8)]
  }

  lemma LastReplaced(data: seq<bv8>, n: nat, b: bv8, j: nat)
    requires |data| == PackedByteCount(n) && n % 8 != 0 && j < 8 * |data|
    requires forall l: nat :: l < 8 ==> Bit(b, l) == (l < n % 8 && Bit(data[|data| - 1], l))
    ensures BitAt(data[|data| - 1 := b], j) == (j < n && BitAt(data, j))
  {
  }

  lemma ClearedAt(data: seq<bv8>, n: nat, j: nat)
    requires |data| == PackedByteCount(n) && j < 8 * |data|
    ensures BitAt(Cleared(data, n), j) == (j < n && BitAt(data, j))
  {
    if n % 8 != 0 {
      var last := data[|data| - 1];
      forall l: nat | l < 8 ensures Bit(Low(last, n % 8), l) == (l < n % 8 && Bit(last, l)) {
        LowBits(last, n % 8, l);
      }
      LastReplaced(data, n, Low(last, n % 8), j);
    }
  }

  lemma ClearedUnpacked(data: seq<bv8>, n: nat)
    requires |data| == PackedByteCount(n)
    ensures Unpacked(Cleared(data, n), n) == Unpacked(data, n) && HighBitsClear(Cleared(data, n), n)
  {
    forall j: nat | j < n ensures Unpacked(Cleared(data, n), n)[j] == Unpacked(data, n)[j] {
      ClearedAt(data, n, j);
    }
    forall j: nat | n <= j < 8 * |data| ensures !BitAt(Cleared(data, n), j) {
      ClearedAt(data, n, j);
    }
  }

  /** A byte string with room for one more piece, which is incomplete. */
  function Grown(data: seq<bv8>, n: nat): seq<bv8> {
    if n % 8 == 0 then data + [0] else data
  }

  lemma GrownUnpacked(data: seq<bv8>, n: nat)
    requires |data| == PackedByteCount(n) && HighBitsClear(data, n)
    ensures |Grown(data, n)| == PackedByteCount(n + 1) && HighBitsClear(Grown(data, n), n)
    ensures Unpacked(Grown(data, n), n + 1) == Unpacked(data, n) + [false]
  {
    forall j: nat | n <= j < 8 * |Grown(data, n)| ensures !BitAt(Grown(data, n), j) {
      if j < 8 * |data| {
        assert BitAt(Grown(data, n), j) == BitAt(data, j);
      } else {
        ZeroBits(j % 8);
      }
    }
    forall j: nat | j < n ensures Unpacked(Grown(data, n), n + 1)[j] == Unpacked(data, n)[j] {
      assert BitAt(Grown(data, n), j) == BitAt(data, j);
    }
  }

  lemma ShorterUnpacked(data: seq<bv8>, n: nat)
    requires 0 < n && |data| == PackedByteCount(n)
    ensures Unpacked(data[..PackedByteCount(n - 1)], n - 1) == Unpacked(data, n)[..n - 1]
  {
  }

  /** What is left of the byte string once its last piece is given up. */
  function Shrunk(data: seq<bv8>, n: nat): seq<bv8>
    requires 0 < n && |data| == PackedByteCount(n)
  {
    Cleared(data[..PackedByteCount(n - 1)], n - 1)
  }

  lemma ShrunkUnpacked(data: seq<bv8>, n: nat)
    requires 0 < n && |data| == PackedByteCount(n)
    ensures |Shrunk(data, n)| == PackedByteCount(n - 1) && HighBitsClear(Shrunk(data, n), n - 1)
    ensures Unpacked(Shrunk(data, n), n - 1) == Unpacked(data, n)[..n - 1]
  {
    ShorterUnpacked(data, n);
    ClearedUnpacked(data[..PackedByteCount(n - 1)], n - 1);
  }

  /** The byte string with one more piece. */
  function Extended(data: seq<bv8>, n: nat, completed: bool): seq<bv8>
    requires |data| == PackedByteCount(n)
  {
    if completed then WithBit(Grown(data, n), n, true) else Grown(data, n)
  }

  lemma ExtendedUnpacked(data: seq<bv8>, n: nat, completed: bool)
    requires |data| == PackedByteCount(n) && HighBitsClear(data, n)
    ensures |Extended(data, n, completed)| == PackedByteCount(n + 1)
    ensures HighBitsClear(Extended(data, n, completed), n + 1)
    ensures Unpacked(Extended(data, n, completed), n + 1) == Unpacked(data, n) + [completed]
  {
    GrownUnpacked(data, n);
    if completed {
      WithBitUnpacked(Grown(data, n), n + 1, n, true);
      WithBitClear(Grown(data, n), n + 1, n, true);
      assert (Unpacked(data, n) + [false])[n := true] == Unpacked(data, n) + [true];
    }
  }

  /** The pieces between `index` and `current` have moved up by one. */
  ghost predicate MovedTo(s: seq<bool>, before: seq<bool>, index: nat, current: nat) {
    && index <= current < |before| == |s|
    && forall i :: 0 <= i < |s| ==> s[i] == before[if index <= i < current then i + 1 else i]
  }

  /** One step of moving the pieces after `index` up by one. */
  lemma MovedUp(s: seq<bool>, before: seq<bool>, index: nat, current: nat)
    requires index <= current < |before| - 1 && MovedTo(s, before, index, current)
    ensures |s| == |before| && MovedTo(s[current := s[current + 1]], before, index, current + 1)
  {
  }

  lemma MovedAll(s: seq<bool>, before: seq<bool>, index: nat)
    requires index < |before| && MovedTo(s, before, index, |before| - 1)
    ensures |s| == |before| && s[..|before| - 1] == before[..index] + before[index + 1..]
  {
  }

  // ---- Counting ----

  function CountTrue(s: seq<bool>): nat {
    if s == [] then 0 else CountTrue(s[..|s| - 1]) + One(s[|s| - 1])
  }

  lemma CountSnoc(s: seq<bool>, b: bool)
    ensures CountTrue(s + [b]) == CountTrue(s) + One(b)
  {
    assert (s + [b])[..|s|] == s;
  }

  lemma {:induction false} CountUpdate(s: seq<bool>, i: nat, b: bool)
    requires i < |s|
    ensures CountTrue(s[i := b]) + One(s[i]) == CountTrue(s) + One(b)
  {
    var n := |s| - 1;
    if i < n {
      CountUpdate(s[..n], i, b);
      assert s[i := b][..n] == s[..n][i := b];
    } else {
      assert s[i := b][..n] == s[..n];
    }
  }

  lemma {:induction false} CountRemove(s: seq<bool>, i: nat)
    requires i < |s|
    ensures CountTrue(s[..i] + s[i + 1..]) + One(s[i]) == CountTrue(s)
  {
    var n := |s| - 1;
    if i < n {
      CountRemove(s[..n], i);
      var removed := s[..i] + s[i + 1..];
      assert removed[..n - 1] == s[..n][..i] + s[..n][i + 1..] && removed[n - 1] == s[n];
    } else {
      assert s[..i] + s[i + 1..] == s[..n];
    }
  }

  lemma {:induction false} CountPadded(s: seq<bool>, n: nat)
    requires n <= |s| && forall i :: n <= i < |s| ==> !s[i]
    ensures CountTrue(s) == CountTrue(s[..n])
  {
    if n < |s| {
      CountPadded(s[..|s| - 1], n);
      assert s[..|s| - 1][..n] == s[..n];
    } else {
      assert s[..n] == s;
    }
  }

  function OnesIn(data: seq<bv8>): nat {
    if data == [] then 0 else OnesIn(data[..|data| - 1]) + OnesCount(data[|data| - 1])
  }

  lemma UnpackedSnoc(data: seq<bv8>, m: nat, k: nat)
    requires m < |data| && k < 8
    ensures Unpacked(data, 8 * m + k + 1) == Unpacked(data, 8 * m + k) + [Bit(data[m], k)]
  {
    assert (8 * m + k) / 8 == m && (8 * m + k) % 8 == k;
  }

  /** Counting bit by bit through one byte, whose first bit is piece `first`. */
  lemma {:induction false} OnesInByte(data: seq<bv8>, m: nat, first: nat, k: nat)
    requires m < |data| && first == 8 * m && k <= 8
    ensures CountTrue(Unpacked(data, first + k)) == CountTrue(Unpacked(data, first)) + OnesBelow(data[m], k)
  {
    if k > 0 {
      OnesInByte(data, m, first, k - 1);
      UnpackedSnoc(data, m, k - 1);
      CountSnoc(Unpacked(data, first + k - 1), Bit(data[m], k - 1));
    }
  }

  lemma OnesInSnoc(data: seq<bv8>, m: nat)
    requires m < |data|
    ensures OnesIn(data[..m + 1]) == OnesIn(data[..m]) + OnesCount(data[m])
  {
    assert data[..m + 1][..m] == data[..m];
  }

  /** Counting byte by byte. */
  lemma {:induction false} OnesUpTo(data: seq<bv8>, m: nat)
    requires m <= |data|
    ensures CountTrue(Unpacked(data, 8 * m)) == OnesIn(data[..m])
  {
    if m > 0 {
      OnesUpTo(data, m - 1);
      OnesInByte(data, m - 1, 8 * (m - 1), 8);
      OnesInSnoc(data, m - 1);
    }
  }

  /** Counting the bits of every byte counts the pieces. */
  lemma OnesArePieces(data: seq<bv8>)
    ensures OnesIn(data) == CountTrue(Unpacked(data, 8 * |data|))
  {
    OnesUpTo(data, |data|);
    assert data[..|data|] == data;
  }

  lemma OnesArePiecesBelow(data: seq<bv8>, n: nat)
    requires n <= 8 * |data| && HighBitsClear(data, n)
    ensures OnesIn(data) == CountTrue(Unpacked(data, n))
  {
    OnesArePieces(data);
    var all := Unpacked(data, 8 * |data|);
    forall i | n <= i < |all| ensures !all[i] {
      assert !BitAt(data, i);
    }
    CountPadded(all, n);
    assert all[..n] == Unpacked(data, n);
  }

  // ---- The map ----

  class PieceMap {
    var pieceCount: nat
    var pieceSize: int
    var completedPieces: int
    var data: seq<bv8>

    ghost predicate Packed()
      reads this
    {
      |data| == PackedByteCount(pieceCount)
    }

    /** The completion state of the pieces in order. */
    ghost function Pieces(): seq<bool>
      requires Packed()
      reads this
    {
      Unpacked(data, pieceCount)
    }

    ghost predicate Valid()
      reads this
    {
      Packed() && HighBitsClear(data, pieceCount) && completedPieces == CountTrue(Pieces())
    }

    /** A map of incomplete pieces; a negative count is none. */
    constructor (count: int, size: int)
      ensures Valid() && pieceSize == size
      ensures Pieces() == seq(if count < 0 then 0 else count, _ => false)
    {
      var n: nat := if count < 0 then 0 else count;
      pieceCount, pieceSize, completedPieces := n, size, 0;
      data := seq(PackedByteCount(n), _ => 0);
      new;
      AllClear(data);
      OnesArePiecesBelow(data, n);
      NoOnes(data);
      assert Pieces() == seq(n, _ => false);
    }

    /** A copy of another map's fields. */
    constructor Copy(count: nat, size: int, completed: int, bytes: seq<bv8>)
      ensures pieceCount == count && pieceSize == size && completedPieces == completed && data == bytes
    {
      pieceCount, pieceSize, completedPieces, data := count, size, completed, bytes;
    }

    method Clone() returns (copy: PieceMap)
      requires Valid()
      ensures fresh(copy) && copy.Valid() && copy.Pieces() == Pieces() && copy.pieceSize == pieceSize
    {
      copy := new PieceMap.Copy(pieceCount, pieceSize, completedPieces, data);
    }

    function ValidIndex(index: int): bool
      reads this
    {
      0 <= index < pieceCount
    }

    function CompletedAt(index: nat): (r: bool)
      requires index < 8 * |data|
      reads this
      ensures r == BitAt(data, index)
    {
      BitIsMask(data[index / 8], index % 8);
      data[index / 8] & Mask(index % 8) != 0
    }

    method SetCompleted(index: nat, completed: bool)
      requires index < 8 * |data|
      modifies this`data
      ensures data == WithBit(old(data), index, completed)
    {
      data := data[index / 8 := Put(data[index / 8], index % 8, completed)];
    }

    /** Clears every bit of the last byte that stands for no piece. */
    method ClearUnusedBits()
      requires Packed()
      modifies this`data
      ensures data == Cleared(old(data), pieceCount)
    {
      if pieceCount == 0 || pieceCount % 8 == 0 {
        return;
      }
      var used := pieceCount % 8;
      data := data[|data| - 1 := Low(data[|data| - 1], used)];
    }

    /** Appends a piece. The bit it takes over is clear because unused bits are. */
    method Add(completed: bool)
      requires Valid()
      modifies this
      ensures Valid() && Pieces() == old(Pieces()) + [completed] && pieceSize == old(pieceSize)
    {
      ExtendedUnpacked(data, pieceCount, completed);
      CountSnoc(Pieces(), completed);
      MakeRoom();
      if completed {
        SetCompleted(pieceCount - 1, true);
        completedPieces := completedPieces + 1;
      }
    }

    method MakeRoom()
      requires Packed()
      modifies this`data, this`pieceCount
      ensures pieceCount == old(pieceCount) + 1 && data == Grown(old(data), old(pieceCount))
    {
      if pieceCount % 8 == 0 {
        data := data + [0];
      }
      pieceCount := pieceCount + 1;
    }

    /** One round of the loop below. */
    method MoveOne(current: nat)
      requires Packed() && current + 1 < pieceCount
      modifies this`data
      ensures Packed() && Pieces() == old(Pieces())[current := old(Pieces())[current + 1]]
    {
      var next := CompletedAt(current + 1);
      WithBitUnpacked(data, pieceCount, current, next);
      SetCompleted(current, next);
    }

    /** The loop of Delete: the pieces after `index` move up by one. */
    method MoveUp(index: nat)
      requires Packed() && index < pieceCount
      modifies this`data
      ensures Packed() && Pieces()[..pieceCount - 1] == old(Pieces())[..index] + old(Pieces())[index + 1..]
    {
      ghost var before := Pieces();
      var current := index;
      while current < pieceCount - 1
        invariant index <= current <= pieceCount - 1 && Packed()
        invariant MovedTo(Pieces(), before, index, current)
      {
        MovedUp(Pieces(), before, index, current);
        MoveOne(current);
        current := current + 1;
      }
      MovedAll(Pieces(), before, index);
    }

    method DropLast()
      requires Packed() && 0 < pieceCount
      modifies this`data, this`pieceCount
      ensures pieceCount == old(pieceCount) - 1
      ensures Packed() && HighBitsClear(data, pieceCount) && Pieces() == old(Pieces())[..pieceCount]
    {
      ShrunkUnpacked(data, pieceCount);
      pieceCount := pieceCount - 1;
      data := data[..PackedByteCount(pieceCount)];
      ClearUnusedBits();
    }

    /** The bits of Delete: one piece is gone and the unused ones are clear again. */
    method RemoveBits(index: nat)
      requires Packed() && index < pieceCount
      modifies this`data, this`pieceCount
      ensures pieceCount == old(pieceCount) - 1 && Packed() && HighBitsClear(data, pieceCount)
      ensures Pieces() == old(Pieces())[..index] + old(Pieces())[index + 1..]
    {
      MoveUp(index);
      DropLast();
    }

    /** Removes a piece; the following ones move up by one. */
    method Delete(index: int) returns (err: Option<Error>)
      requires Valid()
      modifies this
      ensures Valid() && pieceSize == old(pieceSize)
      ensures err == if 0 <= index < old(pieceCount) then None else Some(PieceIndexOutOfRange)
      ensures Pieces() == if err.None? then old(Pieces())[..index] + old(Pieces())[index + 1..] else old(Pieces())
    {
      if !ValidIndex(index) {
        return Some(PieceIndexOutOfRange);
      }
      CountRemove(Pieces(), index);
      if CompletedAt(index) {
        completedPieces := completedPieces - 1;
      }
      RemoveBits(index);
      err := None;
    }

    method Update(index: int, completed: bool) returns (err: Option<Error>)
      requires Valid()
      modifies this`data, this`completedPieces
      ensures Valid()
      ensures err == if 0 <= index < pieceCount then None else Some(PieceIndexOutOfRange)
      ensures Pieces() == if err.None? then old(Pieces())[index := completed] else old(Pieces())
    {
      if !ValidIndex(index) {
        return Some(PieceIndexOutOfRange);
      }
      err := None;
      ghost var before := Pieces();
      var previous := CompletedAt(index);
      if previous == completed {
        assert before == before[index := completed];
        return;
      }
      CountUpdate(before, index, completed);
      WithBitUnpacked(data, pieceCount, index, completed);
      WithBitClear(data, pieceCount, index, completed);
      if completed {
        completedPieces := completedPieces + 1;
      } else {
        completedPieces := completedPieces - 1;
      }
      SetCompleted(index, completed);
    }

    method Get(index: int) returns (r: Result<bool>)
      requires Valid()
      ensures r == if 0 <= index < pieceCount then Ok(Pieces()[index]) else Err(PieceIndexOutOfRange)
    {
      if !ValidIndex(index) {
        return Err(PieceIndexOutOfRange);
      }
      r := Ok(CompletedAt(index));
    }

    method Bytes() returns (bytes: seq<bv8>)
      ensures bytes == data
    {
      bytes := data;
    }
  }

  lemma {:induction false} NoOnes(data: seq<bv8>)
    requires forall y :: 0 <= y < |data| ==> data[y] == 0
    ensures OnesIn(data) == 0
  {
    if data != [] {
      NoOnes(data[..|data| - 1]);
      NoneBelow(8);
    }
  }

  lemma {:induction false} NoneBelow(k: nat)
    requires k <= 8
    ensures OnesBelow(0, k) == 0
  {
    if k > 0 {
      NoneBelow(k - 1);
      ZeroBits(k - 1);
    }
  }

  lemma AllClear(data: seq<bv8>)
    requires forall y :: 0 <= y < |data| ==> data[y] == 0
    ensures HighBitsClear(data, 0)
  {
    forall i: nat | i < 8 * |data| ensures !BitAt(data, i) {
      ZeroBits(i % 8);
    }
  }

  /** A bitset of the right length is taken over, its unused bits cleared. */
  method FromBytes(count: int, size: int, bytes: seq<bv8>) returns (r: Result<PieceMap>)
    ensures r.Ok? <==> count >= 0 && |bytes| == PackedByteCount(count)
    ensures r.Err? ==> r.error == if count < 0 then PieceIndexOutOfRange else InvalidLength
    ensures r.Ok? ==> fresh(r.value) && r.value.Valid() && r.value.pieceSize == size
                      && r.value.Pieces() == Unpacked(bytes, count)
  {
    if count < 0 {
      return Err(PieceIndexOutOfRange);
    }
    if |bytes| != PackedByteCount(count) {
      return Err(InvalidLength);
    }
    var m := new PieceMap.Copy(count, size, 0, bytes);
    ClearedUnpacked(bytes, count);
    m.ClearUnusedBits();
    var i := 0;
    while i < |m.data|
      invariant 0 <= i <= |m.data| && m.Packed() && m.pieceCount == count && m.pieceSize == size
      invariant m.Pieces() == Unpacked(bytes, count) && HighBitsClear(m.data, count)
      invariant m.completedPieces == OnesIn(m.data[..i])
    {
      assert m.data[..i + 1][..i] == m.data[..i];
      m.completedPieces := m.completedPieces + OnesCount(m.data[i]);
      i := i + 1;
    }
    assert m.data[..i] == m.data;
    OnesArePiecesBelow(m.data, count);
    r := Ok(m);
  }

  /** Writing a map out and reading it back gives the same bytes, hence the same map. */
  method RoundTrip(m: PieceMap) returns (copy: PieceMap)
    requires m.Valid()
    ensures fresh(copy) && copy.Valid() && copy.Pieces() == m.Pieces()
    ensures copy.data == m.data && copy.completedPieces == m.completedPieces && copy.pieceSize == m.pieceSize
  {
    var bytes := m.Bytes();
    var r := FromBytes(m.pieceCount, m.pieceSize, bytes);
    copy := r.value;
    PackedIsUnique(copy.data, m.data, m.pieceCount);
  }
}
