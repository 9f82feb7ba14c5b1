/**
 The seekable media input: bytes fetched by HTTP ranges into a spool, in any order and at any
 time, and read from any position. A block that was read past is removed and fetched again on
 demand.

 A fetch holds the network lock, a reader the read lock. Every method under "Critical sections"
 is one critical section of the spool, between which the other side may run; `Schedule` runs
 them in any order the two locks admit.
 */
module HttpSpool {
  import opened Base
  import opened Spool

  datatype Status = Data | Wait | EndOfFile | Error

  /** The three numbers of a Content-Range header. */
  datatype Bounds = Bounds(start: int, last: int, total: int)

  datatype ContentRange = ContentRange(start: nat, last: nat, total: nat)

  /** A Content-Range is rejected unless it names a nonempty range within its total. */
  function Checked(b: Bounds): (r: Option<ContentRange>)
    ensures r.Some? ==> r.value.start <= r.value.last < r.value.total
  {
    if b.start < 0 || b.last < b.start || b.total <= b.last then None
    else Some(ContentRange(b.start, b.last, b.total))
  }

  /**
   A response to a range request: `same` is whether its validator is the source's, `plain`
   whether it has the identity encoding, `clean` whether its body ends without an error.
   */
  datatype Response = Response(
    status: int, bounds: Option<Bounds>, same: bool, plain: bool,
    length: Option<int>, body: seq<Byte>, clean: bool)

  function RangeOf(r: Response): (c: Option<ContentRange>)
    ensures c.Some? ==> c.value.start <= c.value.last < c.value.total
  {
    if r.bounds.None? then None else Checked(r.bounds.value)
  }

  predicate Accepts(r: Response, offset: nat, end: nat, size: nat) {
    && r.status == 206
    && RangeOf(r).Some? && RangeOf(r).value.start == offset && RangeOf(r).value.last < end
    && RangeOf(r).value.total == size
    && r.same && r.plain
    && (r.length.None? || r.length.value < 0 || r.length.value == RangeLength(r))
  }

  function RangeStart(r: Response): nat {
    if RangeOf(r).None? then 0 else RangeOf(r).value.start
  }

  /** How many bytes the body of an accepted response must have. */
  function RangeLength(r: Response): nat {
    if RangeOf(r).None? then 0 else RangeOf(r).value.last - RangeOf(r).value.start + 1
  }

  /**
   The numbers of a good answer to a request for the rest of a window: 206, a range that starts
   where it was asked for and stays within the window, the total, validator and encoding of the
   source, and a Content-Length that is absent, unknown or the length of the range.
   */
  predicate IsGood(r: Response, at: nat, end: nat, size: nat) {
    && r.status == 206 && r.bounds.Some? && r.same && r.plain
    && r.bounds.value.start == at <= r.bounds.value.last < end && r.bounds.value.total == size
    && (r.length.Some? && r.length.value >= 0 ==>
          r.length.value == r.bounds.value.last - r.bounds.value.start + 1)
  }

  /** Exactly the good answers are accepted, and their range says how many bytes are to come. */
  lemma AcceptsGood(r: Response, at: nat, end: nat, size: nat)
    requires end <= size
    ensures Accepts(r, at, end, size) <==> IsGood(r, at, end, size)
    ensures IsGood(r, at, end, size) ==> RangeLength(r) == r.bounds.value.last - at + 1
  {
  }

  /** A good answer whose body has the length of its range and ends without an error. */
  predicate Delivers(r: Option<Response>, at: nat, end: nat, size: nat) {
    && r.Some? && IsGood(r.value, at, end, size)
    && |r.value.body| == r.value.bounds.value.last - at + 1 && r.value.clean
  }

  ghost predicate AllDelivered(answer: nat -> Option<Response>, from: nat, end: nat, size: nat) {
    forall at: nat :: from <= at < end ==> Delivers(answer(at), at, end, size)
  }

  /** A 206 with the source's validator carries the source's bytes from its start on. */
  ghost predicate Genuine(source: seq<Byte>, r: Response) {
    r.status == 206 && RangeOf(r).Some? && r.same && r.plain && RangeOf(r).value.total == |source| ==>
      forall k: nat :: k < |r.body| && RangeStart(r) + k < |source| ==> BodyAt(source, r, k)
  }

  predicate BodyAt(source: seq<Byte>, r: Response, k: nat)
    requires k < |r.body| && RangeStart(r) + k < |source|
  {
    r.body[k] == source[RangeStart(r) + k]
  }

  /** Every read of a body asks for at least one byte. */
  predicate AllRead(wants: seq<nat>) {
    forall i :: 0 <= i < |wants| ==> wants[i] > 0
  }

  datatype Whence = FromStart | FromCurrent | FromEnd | Invalid

  const INT64 := 0x1_0000_0000_0000_0000
  const MAX := 0x7FFF_FFFF_FFFF_FFFF

  /** Signed 64-bit addition wraps around. */
  function Wrapped(x: int): int {
    if x > MAX then x - INT64 else if x < -MAX - 1 then x + INT64 else x
  }

  // ---- What the spool holds ----

  /** Everything in the image is the source's. */
  ghost predicate Mirrors(image: map<nat, Byte>, source: seq<Byte>) {
    forall o: nat :: o in image ==> o < |source| && image[o] == source[o]
  }

  lemma MirrorsAfter(image: map<nat, Byte>, source: seq<Byte>, offset: nat, data: seq<Byte>)
    requires Mirrors(image, source) && offset + |data| <= |source| && data == source[offset..offset + |data|]
    ensures Mirrors(Patched(image, offset, data), source)
    ensures forall o: nat :: o in Patched(image, offset, data) <==> o in image || offset <= o < offset + |data|
  {
    forall o: nat
      ensures o in Patched(image, offset, data) <==> o in image || offset <= o < offset + |data|
      ensures o in Patched(image, offset, data) ==> o < |source| && Patched(image, offset, data)[o] == source[o]
    {
      PatchedAt(image, offset, data, o);
    }
  }

  /** The image holds every position from `a` up to `b`. */
  ghost predicate Holds(image: map<nat, Byte>, a: nat, b: nat) {
    forall o: nat :: a <= o < b ==> o in image
  }

  // ---- Where a fetch is ----

  /**
   About to look at `at`, to request the rest from there, or in a body of which `taken` bytes are
   stored and `remaining` ones are still to come.
   */
  datatype Fetching =
    | Idle
    | Probing(at: nat, end: nat)
    | Asking(at: nat, end: nat)
    | Body(at: nat, end: nat, r: Response, taken: nat, remaining: nat)

  function Taken(f: Fetching): nat {
    if f.Body? then f.taken else 0
  }

  /** How many critical sections the fetch can still take. */
  function Measure(f: Fetching): int {
    match f
    case Idle => 0
    case Probing(at, end) => 4 * (end - at) + 1
    case Asking(at, end) => 4 * (end - at)
    case Body(at, end, _, _, remaining) => if remaining > 0 then 4 * (end - at) - 1 else 4 * (end - at) + 2
  }

  /**
   What a fetch has done: the positions that were in the spool at some moment since it began, the
   responses it consumed, the bytes it took from them, its critical sections, and how many
   operations of the spool failed it.
   */
  datatype Progress = Progress(
    from: nat, end: nat, present: set<nat>, completed: seq<Response>, consumed: nat, sections: nat, faults: nat)

  function Lengths(rs: seq<Response>): nat {
    if rs == [] then 0 else Lengths(rs[..|rs| - 1]) + RangeLength(rs[|rs| - 1])
  }

  ghost predicate Covers(p: Progress, at: nat) {
    forall o: nat :: p.from <= o < at ==> o in p.present
  }

  ghost predicate Exact(rs: seq<Response>) {
    forall i :: 0 <= i < |rs| ==> |rs[i].body| == RangeLength(rs[i])
  }

  /** A fetch that succeeded: nothing of its window was skipped, no body read short or long. */
  ghost predicate Complete(p: Progress) {
    && p.from <= p.end && Covers(p, p.end)
    && Exact(p.completed) && p.consumed == Lengths(p.completed)
    && p.sections <= 4 * (p.end - p.from) + 1
  }

  /** The response was accepted, and its body is read up to `taken`. */
  ghost predicate BodyOk(source: seq<Byte>, size: nat, f: Fetching) {
    f.Body? ==>
      && Accepts(f.r, RangeStart(f.r), f.end, size) && Genuine(source, f.r)
      && f.taken + f.remaining == RangeLength(f.r) && RangeStart(f.r) + f.taken == f.at
      && f.taken <= |f.r.body|
  }

  ghost predicate WindowOk(f: Fetching, p: Progress) {
    !f.Idle? ==>
      && p.from <= f.at <= f.end && f.end == p.end <= p.from + 3 * BLOCK
      && (if f.Body? then f.at + f.remaining <= f.end else f.at < f.end)
      && p.sections + Measure(f) <= 4 * (p.end - p.from) + 1
  }

  ghost predicate TakenOk(f: Fetching, p: Progress) {
    !f.Idle? ==> Covers(p, f.at) && Exact(p.completed) && p.consumed == Lengths(p.completed) + Taken(f)
  }

  ghost predicate FetchOk(source: seq<Byte>, size: nat, f: Fetching, p: Progress) {
    (!f.Idle? ==> f.end <= size) && BodyOk(source, size, f) && WindowOk(f, p) && TakenOk(f, p)
  }

  /** The fetch goes on at `at`, or is over at the end of its window. */
  function GoOn(at: nat, end: nat): Fetching {
    if at < end then Probing(at, end) else Idle
  }

  /** One more critical section of a fetch, after which `image` is in the spool. */
  function Advanced(p: Progress, image: map<nat, Byte>): Progress {
    p.(present := p.present + image.Keys, sections := p.sections + 1)
  }

  /** An operation of the spool failed. */
  function Faulted(p: Progress): Progress {
    p.(faults := p.faults + 1)
  }

  lemma Found(source: seq<Byte>, size: nat, f: Fetching, p: Progress, image: map<nat, Byte>, n: nat)
    requires FetchOk(source, size, f, p) && f.Probing? && 0 < n <= f.end - f.at && Holds(image, f.at, f.at + n)
    ensures var g := GoOn(f.at + n, f.end); var q := Advanced(p, image);
      FetchOk(source, size, g, q) && Measure(g) < Measure(f) && (g.Idle? ==> Complete(q))
  {
  }

  /** What is read next from a body is the source's. */
  lemma BodyPart(source: seq<Byte>, size: nat, f: Fetching, n: nat)
    requires BodyOk(source, size, f) && f.Body? && f.end <= size == |source|
    requires n <= f.remaining && n <= |f.r.body| - f.taken
    ensures f.at + n <= size && f.r.body[f.taken..f.taken + n] == source[f.at..f.at + n]
  {
    var part := f.r.body[f.taken..f.taken + n];
    forall k | 0 <= k < |part| ensures part[k] == source[f.at..f.at + n][k] {
      assert BodyAt(source, f.r, f.taken + k);
    }
  }

  /** After `n` more bytes of the body were stored. */
  function Further(f: Fetching, n: nat): Fetching
    requires f.Body? && n <= f.remaining
  {
    f.(at := f.at + n, taken := f.taken + n, remaining := f.remaining - n)
  }

  lemma TookMore(source: seq<Byte>, size: nat, f: Fetching, p: Progress, image: map<nat, Byte>, n: nat)
    requires FetchOk(source, size, f, p) && f.Body? && 0 < n <= f.remaining && n <= |f.r.body| - f.taken
    requires Holds(image, f.at, f.at + n)
    ensures var g := Further(f, n); var q := Advanced(p, image).(consumed := p.consumed + n);
      FetchOk(source, size, g, q) && Measure(g) < Measure(f)
  {
  }

  lemma BodyDone(source: seq<Byte>, size: nat, f: Fetching, p: Progress, image: map<nat, Byte>)
    requires FetchOk(source, size, f, p) && f.Body? && f.remaining == 0 && f.taken == |f.r.body|
    ensures var g := GoOn(f.at, f.end); var q := Advanced(p, image).(completed := p.completed + [f.r]);
      FetchOk(source, size, g, q) && Measure(g) < Measure(f) && (g.Idle? ==> Complete(q))
  {
    assert (p.completed + [f.r])[..|p.completed|] == p.completed;
  }

  // ---- What readers got ----

  datatype Piece = Piece(at: nat, data: seq<Byte>)

  /** The piece is the source's, at the position it was read from. */
  predicate IsPart(source: seq<Byte>, p: Piece) {
    p.at + |p.data| <= |source| && p.data == source[p.at..p.at + |p.data|]
  }

  lemma ReadIsPart(image: map<nat, Byte>, source: seq<Byte>, at: nat, data: seq<Byte>)
    requires Mirrors(image, source) && Reads(image, at, data) && data != []
    ensures IsPart(source, Piece(at, data))
  {
    forall k | 0 <= k < |data| ensures at + k < |source| && data[k] == source[at + k] {
      assert ReadsAt(image, at + k, data[k]);
    }
    assert ReadsAt(image, at + (|data| - 1), data[|data| - 1]);
  }

  lemma ReadIsHeld(image: map<nat, Byte>, at: nat, data: seq<Byte>)
    requires Reads(image, at, data)
    ensures Holds(image, at, at + |data|)
  {
    forall o: nat | at <= o < at + |data| ensures o in image {
      assert ReadsAt(image, at + (o - at), data[o - at]);
    }
  }

  class HttpSpool {
    const spool: BlockSpool
    const size: nat
    ghost const source: seq<Byte>
    var pos: nat
    var evict: Option<nat>           // the block a read is about to remove
    var fetching: Fetching           // the fetch that holds the network lock
    ghost var now: Progress          // what that fetch has done
    ghost var pieces: seq<Piece>     // every read that returned bytes
    ghost var fetches: seq<Progress> // every fetch that succeeded

    ghost predicate SpoolOk()
      reads spool
    {
      spool.Valid() && Mirrors(spool.image, source) && size == |source| && 0 < size <= MAX
    }

    ghost predicate Valid()
      reads this, spool
    {
      && SpoolOk()
      && pos <= MAX && (evict.Some? ==> evict.value < BlockOf(pos))
      && FetchOk(source, size, fetching, now)
      && (forall i :: 0 <= i < |pieces| ==> IsPart(source, pieces[i]))
      && (forall i :: 0 <= i < |fetches| ==> Complete(fetches[i]))
    }

    constructor (ghost source: seq<Byte>, size: nat)
      requires size == |source| && 0 < size <= MAX
      ensures Valid() && fresh(spool) && this.source == source && pos == 0 && evict == None && fetching == Idle
      ensures pieces == [] && fetches == []
    {
      spool := new BlockSpool();
      this.size, this.source := size, source;
      pos, evict, fetching := 0, None, Idle;
      now, pieces, fetches := Progress(0, 0, {}, [], 0, 0, 0), [], [];
    }

    /** Storing bytes of the source: the spool stays a mirror of it. */
    method Store(data: seq<Byte>, offset: nat) returns (ok: bool)
      requires SpoolOk() && offset + |data| <= size && data == source[offset..offset + |data|]
      modifies spool
      ensures SpoolOk() && spool.closed == old(spool.closed)
      ensures forall o: nat :: o in old(spool.image) ==> o in spool.image
      ensures ok ==> Holds(spool.image, offset, offset + |data|)
    {
      ghost var image := spool.image;
      var n;
      n, ok := spool.WriteAt(data, offset);
      MirrorsAfter(image, source, offset, data[..n]);
    }

    // ---- Critical sections of a fetch, which holds the network lock ----

    method BeginFetch(offset: nat)
      requires Valid() && fetching == Idle && offset < size
      modifies this`fetching, this`now
      ensures Valid() && fetching == Probing(offset, offset + Min(3 * BLOCK, size - offset))
      ensures now == Progress(offset, fetching.end, spool.image.Keys, [], 0, 0, 0)
    {
      fetching := Probing(offset, offset + Min(3 * BLOCK, size - offset));
      now := Progress(offset, fetching.end, spool.image.Keys, [], 0, 0, 0);
    }

    /** Looking whether the next bytes are there already. */
    method Probe() returns (failed: bool)
      requires Valid() && fetching.Probing?
      modifies this`fetching, this`now, this`fetches
      ensures Valid() && Measure(fetching) < Measure(old(fetching)) && (failed ==> fetching == Idle)
      ensures fetches == if failed || fetching != Idle then old(fetches) else old(fetches) + [now]
      ensures now.faults == old(now.faults) + if failed then 1 else 0
      ensures fetching != Idle ==> !fetching.Body? && fetching.end == old(fetching).end
      ensures fetching != Idle ==> old(fetching).at <= fetching.at
      ensures !failed ==>
                Holds(spool.image, old(fetching).at, if fetching.Idle? then old(fetching).end else fetching.at)
    {
      var at, end := fetching.at, fetching.end;
      var data, ok := spool.ReadAt(Min(65536, end - at), at);
      if !ok {
        fetching, now := Idle, Faulted(now);
        return true;
      }
      failed := false;
      if data == [] {
        fetching, now := Asking(at, end), Advanced(now, spool.image);
        return;
      }
      ReadIsHeld(spool.image, at, data);
      Found(source, size, fetching, now, spool.image, |data|);
      fetching, now := GoOn(at + |data|, end), Advanced(now, spool.image);
      if at + |data| >= end {
        fetches := fetches + [now];
      }
    }

    /** The answer to the request for everything from here to the end of the window. */
    method Accept(response: Option<Response>) returns (failed: bool)
      requires Valid() && fetching.Asking?
      requires response.Some? ==> Genuine(source, response.value)
      modifies this`fetching, this`now
      ensures Valid() && Measure(fetching) < Measure(old(fetching))
      ensures failed <==> response.None? || !IsGood(response.value, old(fetching).at, old(fetching).end, size)
      ensures now.faults == old(now.faults)
      ensures failed ==> fetching == Idle
      ensures !failed ==> fetching == Body(old(fetching).at, old(fetching).end, response.value, 0,
                                           response.value.bounds.value.last - old(fetching).at + 1)
    {
      if response.Some? {
        AcceptsGood(response.value, fetching.at, fetching.end, size);
      }
      if response.None? || !Accepts(response.value, fetching.at, fetching.end, size) {
        fetching := Idle;
        return true;
      }
      var remaining := RangeLength(response.value);
      fetching, now := Body(fetching.at, fetching.end, response.value, 0, remaining), Advanced(now, spool.image);
      failed := false;
    }

    /** One read of at most `n` bytes from the body, stored where it belongs. */
    method StoreNext(n: nat) returns (failed: bool)
      requires Valid() && fetching.Body? && fetching.remaining > 0
      modifies this`fetching, this`now, spool
      ensures Valid() && spool.closed == old(spool.closed) && Measure(fetching) < Measure(old(fetching))
      ensures forall o: nat :: o in old(spool.image) ==> o in spool.image
      ensures failed ==> fetching == Idle
      ensures failed && n > 0 && old(fetching).taken < |old(fetching).r.body| ==> now.faults > 0
      ensures !failed ==> now.faults == old(now.faults)
      ensures !failed ==> fetching.Body? && fetching.r == old(fetching).r && fetching.end == old(fetching).end
      ensures !failed ==> old(fetching).at < fetching.at && Holds(spool.image, old(fetching).at, fetching.at)
    {
      var f := fetching;
      var got := Min(Min(65536, n), Min(f.remaining, |f.r.body| - f.taken));
      if got == 0 {
        fetching := Idle;
        return true;
      }
      BodyPart(source, size, f, got);
      var ok := Store(f.r.body[f.taken..f.taken + got], f.at);
      if !ok {
        fetching, now := Idle, Faulted(now);
        return true;
      }
      TookMore(source, size, f, now, spool.image, got);
      fetching, now := Further(f, got), Advanced(now, spool.image).(consumed := now.consumed + got);
      failed := false;
    }

    /** After the last byte of the range the body must end, without an error. */
    method BodyEnd() returns (failed: bool)
      requires Valid() && fetching.Body? && fetching.remaining == 0
      modifies this`fetching, this`now, this`fetches
      ensures Valid() && Measure(fetching) < Measure(old(fetching))
      ensures failed <==> !(|old(fetching).r.body| == RangeLength(old(fetching).r) && old(fetching).r.clean)
      ensures fetching == if failed then Idle else GoOn(old(fetching).at, old(fetching).end)
      ensures now.faults == old(now.faults)
      ensures fetches == if failed || fetching != Idle then old(fetches) else old(fetches) + [now]
    {
      var f := fetching;
      if f.taken != |f.r.body| || !f.r.clean {
        fetching := Idle;
        return true;
      }
      BodyDone(source, size, f, now, spool.image);
      fetching, now := GoOn(f.at, f.end), Advanced(now, spool.image).(completed := now.completed + [f.r]);
      failed := false;
      if f.at >= f.end {
        fetches := fetches + [now];
      }
    }

    // ---- Critical sections of a reader, which holds the read lock ----

    /** Reading what is there at the position, and moving past it. */
    method Take(cap: nat) returns (data: seq<Byte>, ok: bool)
      requires Valid() && evict == None && pos < size
      modifies this`pos, this`evict, this`pieces
      ensures Valid() && |data| <= cap && pos == old(pos) + |data|
      ensures data != [] ==> pos <= size && data == source[old(pos)..pos]
      ensures pieces == if data == [] then old(pieces) else old(pieces) + [Piece(old(pos), data)]
      ensures ok && cap > 0 ==> (data == [] <==> old(pos) !in spool.image)
      ensures evict == if BlockOf(pos) > BlockOf(old(pos)) then Some(BlockOf(old(pos))) else None
    {
      data, ok := spool.ReadAt(cap, pos);
      if data != [] {
        ReadIsPart(spool.image, source, pos, data);
        pieces := pieces + [Piece(pos, data)];
        var block := BlockOf(pos);
        pos := pos + |data|;
        if BlockOf(pos) > block {
          evict := Some(block);
        }
      }
    }

    /** Removing a block the reader has moved past, whether or not a fetch is filling it. */
    method Evict() returns (ok: bool)
      requires Valid() && evict.Some?
      modifies this`evict, spool`files, spool`blocks, spool`image
      ensures Valid() && evict == None
      ensures spool.image == if ok then Outside(old(spool.image), old(evict).value) else old(spool.image)
    {
      ok := spool.Discard(evict.value);
      evict := None;
    }

    /** At the end of the source the last block is removed. */
    method AtEnd() returns (ok: bool)
      requires Valid() && evict == None && pos >= size
      modifies spool`files, spool`blocks, spool`image
      ensures Valid()
      ensures spool.image == if ok then Outside(old(spool.image), BlockOf(size - 1)) else old(spool.image)
    {
      ok := spool.Discard(BlockOf(size - 1));
    }

    /** The position a seek counts from. */
    function Base(whence: Whence): nat
      reads this`pos
    {
      match whence
      case FromCurrent => pos
      case FromEnd => size
      case _ => 0
    }

    /** A seek succeeds exactly when the position is not negative and fits 64 bits. */
    method Seek(offset: int, whence: Whence) returns (next: int, ok: bool)
      requires Valid() && evict == None && -MAX - 1 <= offset <= MAX
      modifies this`pos
      ensures Valid()
      ensures ok <==> whence != Invalid && 0 <= old(Base(whence)) + offset <= MAX
      ensures pos == if ok then old(Base(whence)) + offset else old(pos)
      ensures ok ==> next == pos
    {
      var base := 0;
      match whence {
        case FromStart =>
        case FromCurrent => base := pos;
        case FromEnd => base := size;
        case Invalid => return 0, false;
      }
      next := Wrapped(base + offset);
      if next < 0 || (offset > 0 && next < base) {
        return 0, false;
      }
      pos := next;
      ok := true;
    }

    // ---- Fetch and Read without interruption ----

    /** The rest of a fetch after its request was accepted: exactly the bytes of its range are consumed. */
    method TakeBody(wants: seq<nat>) returns (failed: bool)
      requires Valid() && fetching.Body?
      modifies this`fetching, this`now, this`fetches, spool
      ensures Valid() && spool.closed == old(spool.closed) && Measure(fetching) < Measure(old(fetching))
      ensures forall o: nat :: o in old(spool.image) ==> o in spool.image
      ensures !failed ==> |old(fetching).r.body| == RangeLength(old(fetching).r) && old(fetching).r.clean
      ensures failed ==>
        now.faults > 0 || !AllRead(wants)
        || |old(fetching).r.body| != RangeLength(old(fetching).r) || !old(fetching).r.clean
      ensures var next := old(fetching).at + old(fetching).remaining;
        && fetching == (if failed then Idle else GoOn(next, old(fetching).end))
        && (!failed ==> Holds(spool.image, old(fetching).at, next))
    {
      var i := 0;
      while fetching.remaining > 0
        invariant Valid() && spool.closed == old(spool.closed) && fetches == old(fetches)
        invariant now.faults == old(now.faults)
        invariant fetching.Body? && fetching.r == old(fetching).r && fetching.end == old(fetching).end
        invariant old(fetching).at <= fetching.at && Measure(fetching) <= Measure(old(fetching))
        invariant fetching.at + fetching.remaining == old(fetching.at) + old(fetching.remaining)
        invariant forall o: nat :: o in old(spool.image) ==> o in spool.image
        invariant Holds(spool.image, old(fetching).at, fetching.at)
        decreases Measure(fetching)
      {
        failed := StoreNext(if i < |wants| then wants[i] else 65536);
        if failed {
          return;
        }
        i := i + 1;
      }
      failed := BodyEnd();
    }

    /** One round of the loop below: bytes that are there are skipped, others are requested and stored. */
    method FetchRound(response: Option<Response>, wants: seq<nat>) returns (failed: bool)
      requires Valid() && fetching != Idle && !fetching.Body?
      requires response.Some? ==> Genuine(source, response.value)
      modifies this`fetching, this`now, this`fetches, spool
      ensures Valid() && !fetching.Body? && spool.closed == old(spool.closed)
      ensures Measure(fetching) < Measure(old(fetching)) && (failed ==> fetching == Idle)
      ensures forall o: nat :: o in old(spool.image) ==> o in spool.image
      ensures failed ==>
        now.faults > 0 || !AllRead(wants)
        || (old(fetching).Asking? && !Delivers(response, old(fetching).at, old(fetching).end, size))
      ensures fetching != Idle ==> fetching.end == old(fetching).end && old(fetching).at <= fetching.at
      ensures !failed ==>
                Holds(spool.image, old(fetching).at, if fetching.Idle? then old(fetching).end else fetching.at)
    {
      if fetching.Probing? {
        failed := Probe();
      } else {
        failed := Accept(response);
        if !failed {
          failed := TakeBody(wants);
        }
      }
    }

    /**
     Filling the spool from `offset` on with what is not there yet; `answer` is what the server
     answers to the request for the rest from a position, `None` a request that fails. Without an
     eviction in between, a fetch that succeeds leaves its whole window in the spool; and it does
     succeed if every request is answered by what it asked for and no operation of the spool fails.
     */
    method Fetch(offset: nat, answer: nat -> Option<Response>, wants: seq<nat>) returns (ok: bool)
      requires Valid() && fetching == Idle && offset < size
      requires forall at :: answer(at).Some? ==> Genuine(source, answer(at).value)
      modifies this`fetching, this`now, this`fetches, spool
      ensures Valid() && fetching == Idle && spool.closed == old(spool.closed)
      ensures ok ==> Holds(spool.image, offset, offset + Min(3 * BLOCK, size - offset))
      ensures !ok ==>
        now.faults > 0 || !AllRead(wants)
        || !AllDelivered(answer, offset, offset + Min(3 * BLOCK, size - offset), size)
    {
      BeginFetch(offset);
      ghost var end := fetching.end;
      var failed := false;
      while fetching != Idle
        invariant Valid() && !fetching.Body? && spool.closed == old(spool.closed)
        invariant !failed ==> Holds(spool.image, offset, if fetching.Idle? then end else fetching.at)
        invariant failed ==> now.faults > 0 || !AllRead(wants) || !AllDelivered(answer, offset, end, size)
        invariant !fetching.Idle? ==> !failed && fetching.end == end && offset <= fetching.at
        decreases Measure(fetching)
      {
        failed := FetchRound(if fetching.Asking? then answer(fetching.at) else None, wants);
      }
      ok := !failed;
    }

    /** One attempt of a read; `Wait` is where it asks for its position and blocks. */
    method Read(cap: nat, cancelled: bool) returns (data: seq<Byte>, status: Status)
      requires Valid() && evict == None
      modifies this`pos, this`evict, this`pieces, spool`files, spool`blocks, spool`image
      ensures Valid() && evict == None && |data| <= cap && pos == old(pos) + |data|
      ensures data != [] ==> pos <= size && data == source[old(pos)..pos]
      ensures status == EndOfFile ==> data == [] && pos >= size
      ensures status == Data && cap > 0 ==> data != []
      ensures status == Wait ==> data == [] && pos !in spool.image && pos < size
      ensures status == Data && BlockOf(pos) > BlockOf(old(pos)) ==>
                spool.image == Outside(old(spool.image), BlockOf(old(pos)))
      ensures status == Wait || (status == Data && BlockOf(pos) <= BlockOf(old(pos))) ==>
                spool.image == old(spool.image)
    {
      if cap == 0 {
        return [], Data;
      }
      if pos >= size {
        var removed := AtEnd();
        return [], if removed then EndOfFile else Error;
      }
      if cancelled {
        return [], Error;
      }
      var ok;
      data, ok := Take(cap);
      if data == [] {
        return [], if ok then Wait else Error;
      }
      if evict.Some? {
        var removed := Evict();
        ok := ok && removed;
      }
      status := if ok then Data else Error;
    }

    /** One critical section of a fetch, if it is the fetch's turn for it. */
    method FetchStep(op: Op) returns (failed: bool)
      requires Valid() && (op.Accept? && op.response.Some? ==> Genuine(source, op.response.value))
      modifies this`fetching, this`now, this`fetches, spool
      ensures Valid() && old(fetches) <= fetches
    {
      failed := false;
      match op {
        case Begin(offset) =>
          if fetching == Idle && offset < size {
            BeginFetch(offset);
          }
        case Probe =>
          if fetching.Probing? {
            failed := Probe();
          }
        case Accept(response) =>
          if fetching.Asking? {
            failed := Accept(response);
          }
        case StoreNext(n) =>
          if fetching.Body? && fetching.remaining > 0 {
            failed := StoreNext(n);
          }
        case BodyEnd =>
          if fetching.Body? && fetching.remaining == 0 {
            failed := BodyEnd();
          }
        case _ =>
      }
    }

    /** One critical section of a reader, if it holds the read lock for it. */
    method ReadStep(op: Op)
      requires Valid()
      modifies this`pos, this`evict, this`pieces, spool`files, spool`blocks, spool`image
      ensures Valid() && old(pieces) <= pieces
    {
      match op {
        case Take(cap) =>
          if evict == None && pos < size {
            var _, _ := Take(cap);
          }
        case Evict =>
          if evict.Some? {
            var _ := Evict();
          }
        case AtEnd =>
          if evict == None && pos >= size {
            var _ := AtEnd();
          }
        case Seek(offset, whence) =>
          if evict == None && -MAX - 1 <= offset <= MAX {
            var _, _ := Seek(offset, whence);
          }
        case _ =>
      }
    }

    method End(err: bool)
      requires Valid()
      modifies spool`ended, spool`failed
      ensures Valid() && spool.failed == (old(spool.failed) || err)
    {
      spool.End(err);
    }

    method Close()
      requires Valid()
      modifies spool
      ensures Valid() && spool.closed && spool.image == map[]
    {
      spool.Close();
    }
  }

  /** A critical section, with what the server or the caller decides in it. */
  datatype Op =
    | Begin(offset: nat)
    | Probe
    | Accept(response: Option<Response>)
    | StoreNext(n: nat)
    | BodyEnd
    | Take(cap: nat)
    | Evict
    | AtEnd
    | Seek(distance: int, whence: Whence)
    | End(err: bool)
    | Close

  predicate OfFetch(op: Op) {
    op.Begin? || op.Probe? || op.Accept? || op.StoreNext? || op.BodyEnd?
  }

  /**
   Any schedule of critical sections that respects the two locks, with evictions and seeks in the
   middle of fetches: every read gets the source's bytes at its position. Every fetch that succeeds
   has found or stored each position of its window at some moment, has consumed exactly the lengths
   of the ranges it validated, and took at most four sections a byte of its window and one more.
   */
  method Schedule(h: HttpSpool, ops: seq<Op>)
    requires h.Valid()
    requires forall i :: 0 <= i < |ops| && ops[i].Accept? && ops[i].response.Some? ==>
               Genuine(h.source, ops[i].response.value)
    modifies h, h.spool
    ensures h.Valid() && old(h.pieces) <= h.pieces && old(h.fetches) <= h.fetches
    ensures forall i :: 0 <= i < |h.pieces| ==> IsPart(h.source, h.pieces[i])
    ensures forall i :: 0 <= i < |h.fetches| ==> Complete(h.fetches[i])
    ensures h.fetching != Idle ==> h.now.sections <= 12 * BLOCK + 1
  {
    var i := 0;
    while i < |ops|
      invariant i <= |ops| && h.Valid() && old(h.pieces) <= h.pieces && old(h.fetches) <= h.fetches
    {
      if OfFetch(ops[i]) {
        var _ := h.FetchStep(ops[i]);
      } else if ops[i].End? {
        h.End(ops[i].err);
      } else if ops[i].Close? {
        h.Close();
      } else {
        h.ReadStep(ops[i]);
      }
      i := i + 1;
    }
  }
}
