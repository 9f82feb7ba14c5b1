/** The controller that grows the number of connections while responses keep arriving. */
module SlowStart {
  import opened Base

  function Pow(b: nat, e: nat): nat {
    if e == 0 then 1 else b * Pow(b, e - 1)
  }

  /** The size of the next batch after `k` batches were launched: 1, 2, 4, 16, 256, ... capped. */
  function Batch(k: nat, max: nat): nat {
    if k == 0 then 1 else Min(max, Pow(2, Pow(2, k - 1)))
  }

  lemma {:induction false} PowAdd(a: nat, b: nat)
    ensures Pow(2, a + b) == Pow(2, a) * Pow(2, b)
  {
    if a > 0 {
      PowAdd(a - 1, b);
      assert Pow(2, a + b) == 2 * Pow(2, a + b - 1);
      assert 2 * (Pow(2, a - 1) * Pow(2, b)) == (2 * Pow(2, a - 1)) * Pow(2, b);
    }
  }

  lemma {:induction false} PowPositive(e: nat)
    ensures Pow(2, e) >= e + 1
  {
    if e > 0 {
      PowPositive(e - 1);
    }
  }

  lemma MulGrows(a: nat, b: nat, c: nat)
    requires a <= b
    ensures a * c <= b * c && c * a <= c * b
  {
  }

  /** Capping before or after squaring makes no difference. */
  lemma CapSquare(p: nat, max: nat)
    requires p >= 1 && max >= 1
    ensures Min(max, p * p) == Min(max, Min(max, p) * Min(max, p))
  {
    if p > max {
      MulGrows(1, max, max);
      MulGrows(max, p, max);
      MulGrows(max, p, p);
    }
  }

  /** Squaring the capped size and capping again is the next size. */
  lemma BatchSquares(k: nat, max: nat)
    requires k >= 1 && max >= 1
    ensures Batch(k + 1, max) == Min(max, Batch(k, max) * Batch(k, max))
  {
    var e := Pow(2, k - 1);
    PowAdd(e, e);
    PowPositive(e);
    CapSquare(Pow(2, e), max);
  }

  /** From the first batch on only a maximum of one keeps the size at one. */
  lemma BatchStaysOne(k: nat, max: nat)
    requires k >= 1 && max >= 1
    ensures Batch(k, max) == 1 <==> max == 1
  {
    PowPositive(k - 1);
    PowPositive(Pow(2, k - 1));
  }

  lemma Division(max: nat, n: nat)
    requires n >= 1
    ensures (max / n) * n <= max < (max / n) * n + n
  {
  }

  lemma Successor(q: nat, n: nat)
    ensures (q + 1) * n == q * n + n
  {
  }

  /** The division test decides exactly whether the square would exceed the maximum. */
  lemma CapIsExact(n: nat, max: nat)
    requires n >= 1
    ensures n > max / n <==> n * n > max
  {
    var q := max / n;
    Division(max, n);
    if n > q {
      MulGrows(q + 1, n, n);
      Successor(q, n);
    } else {
      MulGrows(n, q, n);
    }
  }

  /** One commit of the controller, without ever forming a product above the maximum. */
  function NextSize(n: nat, max: nat): nat
    requires n >= 1
  {
    if n == 1 then Min(2, max)
    else if n > max / n then max
    else n * n
  }

  lemma NextSizeIsNextBatch(k: nat, max: nat)
    requires max >= 1
    ensures Batch(k, max) >= 1 && NextSize(Batch(k, max), max) == Batch(k + 1, max) <= Max(max, 1)
  {
    if k == 0 {
      assert Pow(2, 0) == 1 && Pow(2, 1) == 2;
    } else {
      BatchSquares(k, max);
      BatchStaysOne(k, max);
      PowPositive(Pow(2, k - 1));
      CapIsExact(Batch(k, max), max);
    }
  }

  /** `expansionCh` has room for one signal; `signal` says whether it is there. */
  class SlowStartController {
    const maxConnections: nat
    var totalLaunched: nat
    var batchPending: nat
    var batchReady: nat
    var nextBatchSize: nat
    var signal: bool
    var paused: bool
    ghost var commits: nat

    ghost predicate Valid()
      reads this
    {
      && maxConnections >= 1
      && nextBatchSize == Batch(commits, maxConnections)
      && totalLaunched <= maxConnections
    }

    /** What GetNextBatchSize answers. */
    ghost function NextBatch(): nat
      requires Valid()
      reads this
    {
      if paused then 0 else Min(Batch(commits, maxConnections), maxConnections - totalLaunched)
    }

    constructor (max: nat)
      requires max >= 1
      ensures Valid() && maxConnections == max && totalLaunched == 0 && commits == 0
      ensures batchPending == 0 && batchReady == 0 && !signal && !paused
    {
      maxConnections := max;
      totalLaunched, batchPending, batchReady, nextBatchSize := 0, 0, 0, 1;
      signal, paused := false, false;
      commits := 0;
    }

    method OnConnectSuccess() returns (complete: bool)
      requires Valid()
      modifies `batchReady, `signal
      ensures Valid() && batchReady == old(batchReady) + 1
      ensures complete <==> batchReady >= batchPending
      ensures signal <==> old(signal) || complete
    {
      batchReady := batchReady + 1;
      complete := batchReady >= batchPending;
      if complete {
        signal := true;
      }
    }

    method OnConnectFailed()
      requires Valid()
      modifies `batchPending, `signal
      ensures Valid() && batchPending == Max(old(batchPending) - 1, 0)
      ensures signal <==> old(signal) || batchPending == 0
    {
      if batchPending > 0 {
        batchPending := batchPending - 1;
      }
      if batchPending == 0 {
        signal := true;
      }
    }

    method GetNextBatchSize() returns (n: nat)
      requires Valid()
      ensures n == NextBatch() && totalLaunched + n <= maxConnections
    {
      if paused {
        return 0;
      }
      var remaining := maxConnections - totalLaunched;
      if remaining <= 0 {
        return 0;
      }
      n := nextBatchSize;
      if n > remaining {
        n := remaining;
      }
    }

    /** `count` connections are launched. */
    method CommitBatch(count: nat)
      requires Valid() && totalLaunched + count <= maxConnections
      modifies `totalLaunched, `nextBatchSize, `batchPending, `batchReady, `commits
      ensures Valid() && commits == old(commits) + 1 && totalLaunched == old(totalLaunched) + count
      ensures nextBatchSize == Min(maxConnections, Pow(2, Pow(2, commits - 1)))
      ensures batchPending == count && batchReady == 0
    {
      totalLaunched := totalLaunched + count;
      NextSizeIsNextBatch(commits, maxConnections);
      if nextBatchSize == 1 {
        nextBatchSize := Min(2, maxConnections);
      } else if nextBatchSize > maxConnections / nextBatchSize {
        nextBatchSize := maxConnections;
      } else {
        nextBatchSize := nextBatchSize * nextBatchSize;
      }
      batchPending, batchReady := count, 0;
      commits := commits + 1;
    }
  }
}
