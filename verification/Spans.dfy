/** Canonical lists of byte intervals: sorted, disjoint and not touching. */
module Spans {
  import opened Base

  /** The positions from `start` up to but not including `end`. */
  datatype Span = Span(start: nat, end: nat)

  predicate Within(x: Span, p: nat) {
    x.start <= p < x.end
  }

  /** The position is in one of the intervals. */
  predicate In(spans: seq<Span>, p: nat) {
    spans != [] && (Within(spans[|spans| - 1], p) || In(spans[..|spans| - 1], p))
  }

  /** Every interval is nonempty and ends before the next one starts. */
  predicate Canonical(spans: seq<Span>) {
    spans == [] ||
    var init, last := spans[..|spans| - 1], spans[|spans| - 1];
    && Canonical(init) && last.start < last.end
    && (init != [] ==> init[|init| - 1].end < last.start)
  }

  function Total(spans: seq<Span>): int {
    if spans == [] then 0
    else Total(spans[..|spans| - 1]) + spans[|spans| - 1].end - spans[|spans| - 1].start
  }

  lemma {:induction false} InSome(spans: seq<Span>, p: nat)
    ensures In(spans, p) <==> exists i :: 0 <= i < |spans| && Within(spans[i], p)
  {
    if spans != [] {
      var init := spans[..|spans| - 1];
      InSome(init, p);
      if In(init, p) {
        var i :| 0 <= i < |init| && Within(init[i], p);
        assert Within(spans[i], p);
      }
      if i :| 0 <= i < |init| && Within(spans[i], p) {
        assert Within(init[i], p);
      }
    }
  }

  lemma {:induction false} Ordered(spans: seq<Span>)
    requires Canonical(spans)
    ensures forall i :: 0 <= i < |spans| ==> spans[i].start < spans[i].end
    ensures forall i, j :: 0 <= i < j < |spans| ==> spans[i].end < spans[j].start
  {
    if spans != [] {
      var init, last := spans[..|spans| - 1], spans[|spans| - 1];
      Ordered(init);
      forall i, j | 0 <= i < j < |spans| ensures spans[i].end < spans[j].start {
        assert spans[i] == init[i];
        if j < |init| {
          assert spans[j] == init[j];
        }
      }
      forall i | 0 <= i < |spans| ensures spans[i].start < spans[i].end {
        if i < |init| {
          assert spans[i] == init[i];
        }
      }
    }
  }

  /** Nothing lies at or after the end of the last interval, or just before its start. */
  lemma {:induction false} LastEnds(spans: seq<Span>, p: nat)
    requires Canonical(spans) && In(spans, p)
    ensures p < spans[|spans| - 1].end
    ensures !Within(spans[|spans| - 1], p) ==> p + 1 < spans[|spans| - 1].start
  {
    if !Within(spans[|spans| - 1], p) {
      LastEnds(spans[..|spans| - 1], p);
    }
  }

  /** The position at the end of an interval is free: the next one does not touch. */
  lemma EndIsFree(spans: seq<Span>, i: nat)
    requires Canonical(spans) && i < |spans|
    ensures !In(spans, spans[i].end)
  {
    InSome(spans, spans[i].end);
    Ordered(spans);
  }

  // ---- Counting ----

  /** The positions of an interval that a list does not have yet. */
  function Missing(spans: seq<Span>, x: Span): set<nat> {
    set p: nat | p < x.end && Within(x, p) && !In(spans, p)
  }

  lemma {:induction false} IntervalSize(s: set<nat>, x: Span)
    requires x.start <= x.end && forall p: nat :: p in s <==> Within(x, p)
    ensures |s| == x.end - x.start
    decreases x.end - x.start
  {
    if x.start < x.end {
      assert Within(x, x.end - 1);
      var rest, shorter := s - {x.end - 1}, Span(x.start, x.end - 1);
      forall p: nat ensures p in rest <==> Within(shorter, p) {
        assert p in s <==> Within(x, p);
      }
      IntervalSize(rest, shorter);
    } else {
      assert forall p: nat :: !Within(x, p);
      assert s == {};
    }
  }

  lemma MissingBound(spans: seq<Span>, x: Span)
    requires x.start <= x.end
    ensures |Missing(spans, x)| <= x.end - x.start
  {
    var all := set p: nat | p < x.end && Within(x, p);
    IntervalSize(all, x);
    assert all == Missing(spans, x) + (all - Missing(spans, x));
  }

  /** The total length of a canonical list is the number of positions it covers. */
  lemma {:induction false} TotalIsSize(spans: seq<Span>, s: set<nat>)
    requires Canonical(spans) && forall p: nat :: p in s <==> In(spans, p)
    ensures |s| == Total(spans)
  {
    if spans == [] {
      assert s == {};
    } else {
      var init, last := spans[..|spans| - 1], spans[|spans| - 1];
      var lasts := set p | p in s && Within(last, p);
      var rest := s - lasts;
      forall p: nat ensures p in rest <==> In(init, p) {
        if In(init, p) {
          LastEnds(init, p);
        }
      }
      forall p: nat ensures p in lasts <==> Within(last, p) {
        assert Within(last, p) ==> In(spans, p);
      }
      TotalIsSize(init, rest);
      IntervalSize(lasts, last);
      assert s == rest + lasts;
    }
  }

  /** The positions of a canonical list. */
  function Positions(spans: seq<Span>, bound: nat): set<nat> {
    set p: nat | p < bound && In(spans, p)
  }

  /** How much longer a list got is how many positions it did not have. */
  lemma Growth(spans: seq<Span>, out: seq<Span>, x: Span)
    requires Canonical(spans) && Canonical(out)
    requires forall p: nat :: In(out, p) <==> In(spans, p) || Within(x, p)
    ensures Total(out) - Total(spans) == |Missing(spans, x)|
  {
    var bound := if out == [] then 0 else out[|out| - 1].end;
    var before, after := Positions(spans, bound), Positions(out, bound);
    forall p: nat | In(out, p) ensures p < bound {
      LastEnds(out, p);
    }
    forall p: nat ensures p in before <==> In(spans, p) {
    }
    TotalIsSize(spans, before);
    TotalIsSize(out, after);
    assert after == before + Missing(spans, x);
  }

  // ---- The canonical list of a set of positions is unique ----

  lemma HasLast(spans: seq<Span>)
    requires Canonical(spans) && spans != []
    ensures In(spans, spans[|spans| - 1].start) && In(spans, spans[|spans| - 1].end - 1)
  {
  }

  lemma SameLast(a: seq<Span>, b: seq<Span>)
    requires Canonical(a) && Canonical(b) && a != [] && b != []
    requires forall p: nat :: In(a, p) <==> In(b, p)
    ensures a[|a| - 1] == b[|b| - 1]
  {
    var x, y := a[|a| - 1], b[|b| - 1];
    HasLast(a);
    HasLast(b);
    LastEnds(b, x.end - 1);
    LastEnds(a, y.end - 1);
    if x.start < y.start {
      assert In(a, y.start - 1);
      LastEnds(b, y.start - 1);
    } else if y.start < x.start {
      assert In(b, x.start - 1);
      LastEnds(a, x.start - 1);
    }
  }

  /** Adding intervals in any order gives the same list. */
  lemma {:induction false} CanonicalIsUnique(a: seq<Span>, b: seq<Span>)
    requires Canonical(a) && Canonical(b) && forall p: nat :: In(a, p) <==> In(b, p)
    ensures a == b
  {
    if a != [] {
      HasLast(a);
    }
    if b != [] {
      HasLast(b);
    }
    if a != [] {
      SameLast(a, b);
      var x, inA, inB := a[|a| - 1], a[..|a| - 1], b[..|b| - 1];
      forall p: nat ensures In(inA, p) <==> In(inB, p) {
        if In(inA, p) {
          LastEnds(inA, p);
        }
        if In(inB, p) {
          LastEnds(inB, p);
        }
        assert In(a, p) <==> In(b, p);
      }
      CanonicalIsUnique(inA, inB);
      assert a == inA + [x] && b == inB + [x];
    }
  }

  // ---- Adding an interval ----

  method SumLengths(spans: seq<Span>) returns (sum: int)
    ensures sum == Total(spans)
  {
    sum := 0;
    var i := 0;
    while i < |spans|
      invariant 0 <= i <= |spans|
      invariant sum == Total(spans[..i])
    {
      assert spans[..i + 1][..i] == spans[..i];
      sum := sum + spans[i].end - spans[i].start;
      i := i + 1;
    }
    assert spans[..i] == spans;
  }

  lemma Snoc(spans: seq<Span>, x: Span)
    ensures forall p: nat :: In(spans + [x], p) <==> In(spans, p) || Within(x, p)
  {
    assert (spans + [x])[..|spans|] == spans;
  }

  lemma SnocCanonical(spans: seq<Span>, x: Span)
    ensures Canonical(spans + [x]) <==>
              Canonical(spans) && x.start < x.end && (spans != [] ==> spans[|spans| - 1].end < x.start)
  {
    assert (spans + [x])[..|spans|] == spans;
  }

  /** The list put out so far ends before both the growing interval and the next one. */
  predicate Behind(out: seq<Span>, x: Span) {
    out != [] ==> out[|out| - 1].end < x.start
  }

  /** One interval of the old list is passed over, waits behind the new one, or is joined to it. */
  method MergeOne(out: seq<Span>, next: Span, span: Span) returns (out': seq<Span>, next': Span)
    requires Canonical(out) && next.start < next.end && span.start < span.end && Behind(out, next) && Behind(out, span)
    ensures Canonical(out') && next'.start < next'.end && Behind(out', next')
    ensures forall x: Span :: span.end < x.start ==> Behind(out', x)
    ensures forall p: nat :: In(out', p) || Within(next', p) <==> In(out, p) || Within(next, p) || Within(span, p)
  {
    if span.end < next.start {
      Snoc(out, span);
      SnocCanonical(out, span);
      out', next' := out + [span], next;
    } else if next.end < span.start {
      Snoc(out, next);
      SnocCanonical(out, next);
      out', next' := out + [next], span;
    } else {
      out', next' := out, Span(Min(next.start, span.start), Max(next.end, span.end));
    }
  }

  method Merge(spans: seq<Span>, added: Span) returns (out: seq<Span>)
    requires Canonical(spans) && added.start < added.end
    ensures Canonical(out)
    ensures forall p: nat :: In(out, p) <==> In(spans, p) || Within(added, p)
  {
    var next := added;
    out := [];
    var i := 0;
    Ordered(spans);
    while i < |spans|
      invariant 0 <= i <= |spans|
      invariant Canonical(out) && next.start < next.end && Behind(out, next)
      invariant i < |spans| ==> Behind(out, spans[i])
      invariant forall p: nat :: In(out, p) || Within(next, p) <==> In(spans[..i], p) || Within(added, p)
    {
      assert spans[..i + 1] == spans[..i] + [spans[i]];
      Snoc(spans[..i], spans[i]);
      out, next := MergeOne(out, next, spans[i]);
      i := i + 1;
    }
    assert spans[..i] == spans;
    Snoc(out, next);
    SnocCanonical(out, next);
    out := out + [next];
  }

  /**
   Adding an interval keeps the list canonical, covers exactly what it covered and the interval,
   and counts exactly the positions that were not covered before.
   */
  method AddSpan(spans: seq<Span>, added: Span) returns (out: seq<Span>, count: int)
    requires Canonical(spans) && added.start < added.end
    ensures Canonical(out)
    ensures forall p: nat :: In(out, p) <==> In(spans, p) || Within(added, p)
    ensures count == |Missing(spans, added)| == Total(out) - Total(spans)
  {
    var before := SumLengths(spans);
    out := Merge(spans, added);
    var after := SumLengths(out);
    count := after - before;
    Growth(spans, out, added);
  }
}
