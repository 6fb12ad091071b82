/** Interpolated percentiles of a sorted list of whole numbers, rounded half to even. */
module Percentile {
  import opened Orders
  import opened Rounding

  datatype Answer = NoValues | Value(n: int)

  type Percent = p: real | 0.0 <= p <= 100.0 witness 0.0

  /** How far along the list a percentile falls. */
  function Along(n: nat, p: Percent): real
    requires n > 0
  {
    (n - 1) as real * (p / 100.0)
  }

  lemma AlongInRange(n: nat, p: Percent)
    requires n > 0
    ensures 0.0 <= Along(n, p) <= (n - 1) as real
    ensures 0 <= Along(n, p).Floor < n && Along(n, p).Floor as real <= Along(n, p) < Along(n, p).Floor as real + 1.0
  {
    var q := p / 100.0;
    assert 0.0 <= q <= 1.0;
    Scale((n - 1) as real, q, 1.0);
  }

  lemma Scale(a: real, q: real, r: real)
    requires a >= 0.0 && 0.0 <= q <= r
    ensures 0.0 <= a * q <= a * r
  {
    assert a * (r - q) >= 0.0;
  }

  /** On the segment from value to value. */
  function Interpolated(vals: seq<int>, k: real): real
    requires 0.0 <= k && k.Floor + 1 < |vals|
  {
    var f := k.Floor;
    vals[f] as real + (vals[f + 1] - vals[f]) as real * (k - f as real)
  }

  function Pct(vals: seq<int>, p: Percent): Answer {
    if vals == [] then NoValues
    else
      var k := Along(|vals|, p);
      AlongInRange(|vals|, p);
      var f := k.Floor;
      var c := if f + 1 < |vals| - 1 then f + 1 else |vals| - 1;
      if f == c then Value(vals[f]) else Value(RoundEven(Interpolated(vals, k)))
  }

  lemma SegmentBounds(vals: seq<int>, k: real)
    requires Sorted(vals, IntLe) && 0.0 <= k && k.Floor + 1 < |vals|
    ensures vals[k.Floor] as real <= Interpolated(vals, k) <= vals[k.Floor + 1] as real
  {
    var f := k.Floor;
    assert IntLe(vals[f], vals[f + 1]);
    var d := (vals[f + 1] - vals[f]) as real;
    Scale(d, k - f as real, 1.0);
  }

  /** The value at a position, wherever it falls. */
  function At(vals: seq<int>, k: real): int
    requires vals != [] && 0.0 <= k <= (|vals| - 1) as real
  {
    if k.Floor + 1 < |vals| then RoundEven(Interpolated(vals, k)) else vals[|vals| - 1]
  }

  lemma PctIsAt(vals: seq<int>, p: Percent)
    requires vals != []
    ensures 0.0 <= Along(|vals|, p) <= (|vals| - 1) as real
    ensures Pct(vals, p) == Value(At(vals, Along(|vals|, p)))
  {
    hide Along, Interpolated;
    AlongInRange(|vals|, p);
  }

  lemma AtBetween(vals: seq<int>, k: real)
    requires vals != [] && Sorted(vals, IntLe) && 0.0 <= k <= (|vals| - 1) as real
    ensures vals[k.Floor] <= At(vals, k)
    ensures k.Floor + 1 < |vals| ==> At(vals, k) <= vals[k.Floor + 1]
    ensures k == k.Floor as real ==> At(vals, k) == vals[k.Floor]
  {
    if k.Floor + 1 < |vals| {
      SegmentBounds(vals, k);
      RoundEvenBetween(vals[k.Floor], Interpolated(vals, k), vals[k.Floor + 1]);
      if k == k.Floor as real {
        RoundEvenBetween(vals[k.Floor], Interpolated(vals, k), vals[k.Floor]);
      }
    }
  }

  lemma SegmentMonotone(vals: seq<int>, f: nat, k: real, l: real)
    requires Sorted(vals, IntLe) && f + 1 < |vals| && 0.0 <= k <= l && k.Floor == f && l.Floor == f
    ensures Interpolated(vals, k) <= Interpolated(vals, l)
  {
    assert IntLe(vals[f], vals[f + 1]);
    var d := (vals[f + 1] - vals[f]) as real;
    var x, y := k - f as real, l - f as real;
    Scale(d, x, y);
  }

  lemma FloorMonotone(k: real, l: real)
    requires k <= l
    ensures k.Floor <= l.Floor
  {
  }

  lemma AtMonotone(vals: seq<int>, k: real, l: real)
    requires vals != [] && Sorted(vals, IntLe) && 0.0 <= k <= l <= (|vals| - 1) as real
    ensures At(vals, k) <= At(vals, l)
  {
    hide Interpolated, RoundEven;
    var f, g := k.Floor, l.Floor;
    FloorMonotone(k, l);
    AtBetween(vals, k);
    AtBetween(vals, l);
    if f < g {
      assert f + 1 == g || IntLe(vals[f + 1], vals[g]);
    } else if f + 1 < |vals| {
      SegmentMonotone(vals, f, k, l);
      RoundEvenMonotone(Interpolated(vals, k), Interpolated(vals, l));
    }
  }

  /** For every sorted list and 0 <= p <= q <= 100: a percentile lies between the least and the greatest value, is
      never above a higher percentile whatever segments they fall in and however halves are rounded, and is the least
      value at 0 and the greatest at 100. */
  lemma PercentilesAreOrdered(vals: seq<int>, p: Percent, q: Percent)
    requires vals != [] && Sorted(vals, IntLe) && p <= q
    ensures Pct(vals, p).Value? && Pct(vals, q).Value? && Pct(vals, p).n <= Pct(vals, q).n
    ensures vals[0] <= Pct(vals, p).n <= vals[|vals| - 1]
    ensures Pct(vals, 0.0) == Value(vals[0]) && Pct(vals, 100.0) == Value(vals[|vals| - 1])
  {
    hide At, Pct;
    var top := (|vals| - 1) as real;
    PctIsAt(vals, p);
    PctIsAt(vals, q);
    PctIsAt(vals, 0.0);
    PctIsAt(vals, 100.0);
    Scale(top, p / 100.0, q / 100.0);
    assert Along(|vals|, 0.0) == 0.0 && Along(|vals|, 100.0) == top;
    AtMonotone(vals, Along(|vals|, p), Along(|vals|, q));
    AtMonotone(vals, 0.0, Along(|vals|, p));
    AtMonotone(vals, Along(|vals|, p), top);
    AtBetween(vals, 0.0);
    AtBetween(vals, top);
  }

  /** The p-th percentile of n + 1 values stands n * p / 100 steps along the list: on a value, or part of the way from one
      to the next. */
  predicate Stands(vals: seq<int>, p: real, i: nat, rest: real, x: real) {
    && i < |vals| && 0.0 <= rest < 1.0 && (i as real + rest) * 100.0 == (|vals| - 1) as real * p
    && (rest > 0.0 ==> i + 1 < |vals|)
    && x == if rest == 0.0 then vals[i] as real else (1.0 - rest) * vals[i] as real + rest * vals[i + 1] as real
  }

  lemma Proportion(a: int, b: int, rest: real)
    ensures a as real + (b - a) as real * rest == (1.0 - rest) * a as real + rest * b as real
  {
    assert (b - a) as real * rest == rest * b as real - rest * a as real;
  }

  lemma AlongTimes(n: nat, p: Percent)
    requires n > 0
    ensures Along(n, p) * 100.0 == (n - 1) as real * p
  {
    var q := p / 100.0;
    assert q * 100.0 == p;
    assert ((n - 1) as real * q) * 100.0 == (n - 1) as real * (q * 100.0);
  }

  /** Every percentile is the whole number nearest to the exact interpolation, and the even one of two that are as near. */
  lemma PercentileIsNearest(vals: seq<int>, p: Percent, n: int) returns (i: nat, rest: real, x: real)
    requires vals != []
    ensures Stands(vals, p, i, rest, x)
    ensures Pct(vals, p) == Value(n) <==> -0.5 < x - n as real < 0.5 || ((x - n as real == 0.5 || x - n as real == -0.5) && n % 2 == 0)
  {
    hide Along, Pct, RoundEven;
    AlongInRange(|vals|, p);
    AlongTimes(|vals|, p);
    PctIsAt(vals, p);
    var k := Along(|vals|, p);
    i, rest := k.Floor, k - k.Floor as real;
    assert i as real + rest == k;
    if i + 1 < |vals| {
      Proportion(vals[i], vals[i + 1], rest);
      x := Interpolated(vals, k);
      RoundEvenIs(x, n);
    } else {
      x := vals[i] as real;
      assert rest == 0.0;
    }
  }

  // ---- the register of a corpus -------------------------------------------------------------------

  datatype Register = Register(median: Answer, p75: Answer, p90: Answer)

  function Lengths(texts: seq<string>): seq<int> {
    if texts == [] then [] else Lengths(texts[..|texts| - 1]) + [|texts[|texts| - 1]|]
  }

  /** Character lengths, sorted, and three of their percentiles. */
  method CharLength(texts: seq<string>) returns (r: Register)
    ensures var sorted := Sort(Lengths(texts), IntLe);
            r == Register(Pct(sorted, 50.0), Pct(sorted, 75.0), Pct(sorted, 90.0))
    ensures texts == [] ==> r == Register(NoValues, NoValues, NoValues)
    ensures texts != [] ==>
              && r.median.Value? && r.p75.Value? && r.p90.Value?
              && r.median.n <= r.p75.n <= r.p90.n
              && (exists i, j :: 0 <= i < |texts| && 0 <= j < |texts| && |texts[i]| <= r.median.n && r.p90.n <= |texts[j]|)
  {
    hide Pct, Sort, TotalOrder;
    var lengths: seq<int> := [];
    for i := 0 to |texts|
      invariant lengths == Lengths(texts[..i])
    {
      assert texts[..i + 1][..i] == texts[..i];
      lengths := lengths + [|texts[i]|];
    }
    assert texts[..|texts|] == texts;
    var sorted := Sort(lengths, IntLe);
    r := Register(Pct(sorted, 50.0), Pct(sorted, 75.0), Pct(sorted, 90.0));
    IntLeIsTotal();
    SortSorts(lengths, IntLe);
    LengthsAre(texts);
    if texts == [] {
      NoPercentile(sorted);
    } else {
      PercentilesAreOrdered(sorted, 50.0, 75.0);
      PercentilesAreOrdered(sorted, 75.0, 90.0);
      PercentilesAreOrdered(sorted, 90.0, 90.0);
      SortKeepsMembers(lengths, IntLe, sorted[0]);
      SortKeepsMembers(lengths, IntLe, sorted[|sorted| - 1]);
      var i :| 0 <= i < |lengths| && lengths[i] == sorted[0];
      var j :| 0 <= j < |lengths| && lengths[j] == sorted[|sorted| - 1];
      assert |texts[i]| <= r.median.n && r.p90.n <= |texts[j]|;
    }
  }

  lemma NoPercentile(vals: seq<int>)
    requires vals == []
    ensures forall p: Percent :: Pct(vals, p) == NoValues
  {
  }

  lemma {:induction false} LengthsAre(texts: seq<string>)
    ensures |Lengths(texts)| == |texts| && forall i :: 0 <= i < |texts| ==> Lengths(texts)[i] == |texts[i]|
  {
    if texts != [] {
      LengthsAre(texts[..|texts| - 1]);
    }
  }
}
