/** Choosing the gate's threshold from a gold set. Scores are whole numbers of ten-thousandths, as they are rounded to
    four places before they are compared; a cut between two scores may fall on a half. */
module Calibration {
  import opened Orders

  /** How the nearest ten-thousandth to an exact half (given twice over) is chosen: up, or down. */
  type Ties = int -> bool

  function HalfEven(twice: int): bool {
    (twice / 2) % 2 == 1
  }

  function RoundHalf(twice: int, ties: Ties): int {
    if twice % 2 == 0 then twice / 2 else if ties(twice) then (twice + 1) / 2 else (twice - 1) / 2
  }

  function Half(twice: int): real {
    twice as real / 2.0
  }

  function AtLeast(s: seq<int>, t: real): (n: nat)
    ensures n <= |s|
  {
    if s == [] then 0 else (if s[0] as real >= t then 1 else 0) + AtLeast(s[1..], t)
  }

  function Rate(s: seq<int>, t: real): real
    requires s != []
  {
    AtLeast(s, t) as real / |s| as real
  }

  /** Harmonic mean of precision and recall, from the hits, the false alarms and the number of positives. */
  function Score(tp: nat, fp: nat, positives: nat): real
    requires tp <= positives
  {
    var fn := positives - tp;
    var precision := if tp + fp != 0 then tp as real / (tp + fp) as real else 0.0;
    var recall := if tp + fn != 0 then tp as real / (tp + fn) as real else 0.0;
    if precision + recall != 0.0 then 2.0 * precision * recall / (precision + recall) else 0.0
  }

  function F1(ps: seq<int>, ns: seq<int>, t: real): real {
    Score(AtLeast(ps, t), AtLeast(ns, t), |ps|)
  }

  datatype Verdict = Picked(twice: int, threshold: int, separated: bool, tpr: real, fpr: real) | EmptyScores | OneScore

  predicate Least(x: int, s: seq<int>) {
    x in s && forall y :: y in s ==> x <= y
  }

  predicate Greatest(x: int, s: seq<int>) {
    x in s && forall y :: y in s ==> y <= x
  }

  /** No real cut above the lowest score beats this one, and every cut below a score that this one is above does worse. */
  ghost predicate BestCut(ps: seq<int>, ns: seq<int>, cut: real) {
    && (forall t: real, low :: Least(low, ps + ns) && t > low as real ==> F1(ps, ns, t) <= F1(ps, ns, cut))
    && (forall t: real, low, x :: Least(low, ps + ns) && low as real < t <= x as real < cut && x in ps + ns
          ==> F1(ps, ns, t) < F1(ps, ns, cut))
  }

  // ---- counting at a cut --------------------------------------------------------------------------

  lemma {:induction false} AtLeastInsert(x: int, s: seq<int>, t: real)
    ensures AtLeast(Insert(x, s, IntLe), t) == (if x as real >= t then 1 else 0) + AtLeast(s, t)
  {
    if s != [] && !IntLe(x, s[0]) {
      AtLeastInsert(x, s[1..], t);
    }
  }

  lemma {:induction false} AtLeastSort(s: seq<int>, t: real)
    ensures AtLeast(Sort(s, IntLe), t) == AtLeast(s, t)
  {
    if s != [] {
      AtLeastSort(s[1..], t);
      AtLeastInsert(s[0], Sort(s[1..], IntLe), t);
    }
  }

  predicate SameSides(s: seq<int>, t: real, u: real) {
    forall x :: x in s ==> (x as real >= t <==> x as real >= u)
  }

  lemma {:induction false} SameSide(s: seq<int>, t: real, u: real)
    requires SameSides(s, t, u)
    ensures AtLeast(s, t) == AtLeast(s, u)
  {
    if s != [] {
      assert s[0] in s;
      assert forall x :: x in s[1..] ==> x in s;
      SameSide(s[1..], t, u);
    }
  }

  predicate AllAbove(s: seq<int>, t: real) {
    forall x :: x in s ==> x as real >= t
  }

  predicate NoneAbove(s: seq<int>, t: real) {
    forall x :: x in s ==> !(x as real >= t)
  }

  lemma {:induction false} AllAtLeast(s: seq<int>, t: real)
    ensures AtLeast(s, t) == |s| <==> AllAbove(s, t)
    ensures AtLeast(s, t) == 0 <==> NoneAbove(s, t)
  {
    if s != [] {
      var x := s[0];
      AllAtLeast(s[1..], t);
      assert x in s && forall y :: y in s <==> y == x || y in s[1..];
      assert AllAbove(s, t) <==> x as real >= t && AllAbove(s[1..], t);
      assert NoneAbove(s, t) <==> !(x as real >= t) && NoneAbove(s[1..], t);
    }
  }

  lemma F1SameSide(ps: seq<int>, ns: seq<int>, t: real, u: real)
    requires SameSides(ps + ns, t, u)
    ensures F1(ps, ns, t) == F1(ps, ns, u)
  {
    hide Score, AtLeast;
    assert forall x :: x in ps || x in ns ==> x in ps + ns;
    SameSide(ps, t, u);
    SameSide(ns, t, u);
  }

  lemma F1Sort(ps: seq<int>, ns: seq<int>, t: real)
    ensures |Sort(ps, IntLe)| == |ps| && F1(Sort(ps, IntLe), Sort(ns, IntLe), t) == F1(ps, ns, t)
  {
    hide Score, AtLeast, Sort, TotalOrder;
    IntLeIsTotal();
    SortSorts(ps, IntLe);
    AtLeastSort(ps, t);
    AtLeastSort(ns, t);
  }

  /** The measure in one fraction: twice the hits over hits, false alarms and all positives. */
  lemma ScoreClosed(tp: nat, fp: nat, positives: nat)
    requires tp <= positives && positives > 0
    ensures Score(tp, fp, positives) == (2 * tp) as real / (tp + fp + positives) as real
  {
    if tp > 0 {
      HarmonicMean(tp as real, (tp + fp) as real, positives as real);
    }
  }

  lemma HarmonicMean(a: real, b: real, c: real)
    requires a > 0.0 && b > 0.0 && c > 0.0
    ensures a / b + a / c != 0.0 && 2.0 * (a / b) * (a / c) / (a / b + a / c) == 2.0 * a / (b + c)
  {
    var x, y := a / b, a / c;
    assert x * b == a && y * c == a;
    assert x > 0.0 && y > 0.0;
    Spread(x, y, b, c, a);
    CrossDivide(2.0 * x * y, x + y, 2.0 * a, b + c);
  }

  lemma Spread(x: real, y: real, b: real, c: real, a: real)
    requires x * b == a && y * c == a
    ensures (2.0 * x * y) * (b + c) == 2.0 * a * (x + y)
  {
    assert (x * y) * b == y * (x * b);
    assert (x * y) * c == x * (y * c);
    assert (2.0 * x * y) * (b + c) == 2.0 * ((x * y) * b) + 2.0 * ((x * y) * c);
  }

  lemma CrossDivide(n: real, d: real, m: real, e: real)
    requires d > 0.0 && e > 0.0 && n * e == m * d
    ensures n / d == m / e
  {
    var q := n / d;
    assert q * d == n;
    assert (q * e) * d == m * d;
    assert q * e == m;
  }

  /** More false alarms, worse measure; and a cut that catches nothing scores nothing. */
  lemma ScoreFalls(tp: nat, fp: nat, more: nat, positives: nat)
    requires tp <= positives && positives > 0 && fp <= more
    ensures Score(tp, more, positives) <= Score(tp, fp, positives)
    ensures Score(tp, fp, positives) >= 0.0 && Score(0, fp, positives) == 0.0
  {
    ScoreClosed(tp, fp, positives);
    ScoreClosed(tp, more, positives);
    ScoreClosed(0, fp, positives);
    FractionFalls((2 * tp) as real, (tp + fp + positives) as real, (tp + more + positives) as real);
  }

  lemma FractionFalls(n: real, d: real, e: real)
    requires n >= 0.0 && 0.0 < d <= e
    ensures 0.0 <= n / e <= n / d
  {
    var q := n / e;
    assert q * e == n;
    assert q * d <= n;
  }

  // ---- from the candidate midpoints to every real cut -------------------------------------------------

  function Mid(c: seq<int>, j: nat): real
    requires j + 1 < |c|
  {
    Half(c[j] + c[j + 1])
  }

  /** Midpoint b is the first of the best among the first i. */
  predicate BestSoFar(ps: seq<int>, ns: seq<int>, c: seq<int>, i: nat, b: nat)
    requires i < |c|
  {
    && b < i
    && (forall j | 0 <= j < i :: F1(ps, ns, Mid(c, j)) <= F1(ps, ns, Mid(c, b)))
    && (forall j | 0 <= j < b :: F1(ps, ns, Mid(c, j)) < F1(ps, ns, Mid(c, b)))
  }

  ghost predicate Scores(c: seq<int>, ps: seq<int>, ns: seq<int>) {
    Increasing(c, IntLe) && forall x :: x in c <==> x in ps + ns
  }

  /** The gap a cut falls in. */
  lemma {:induction false} GapOf(c: seq<int>, t: real, n: nat) returns (j: nat)
    requires Increasing(c, IntLe) && n < |c| && c[0] as real < t <= c[n] as real
    ensures j < n && c[j] as real < t <= c[j + 1] as real
  {
    if t <= c[n - 1] as real {
      j := GapOf(c, t, n - 1);
    } else {
      j := n - 1;
    }
  }

  /** All cuts in one gap part the scores alike. */
  lemma SameGap(c: seq<int>, ps: seq<int>, ns: seq<int>, j: nat, t: real)
    requires Scores(c, ps, ns) && j + 1 < |c| && c[j] as real < t <= c[j + 1] as real
    ensures SameSides(ps + ns, t, Mid(c, j))
  {
    forall x | x in ps + ns
      ensures x as real >= t <==> x as real >= Mid(c, j)
    {
      assert x in c;
      var k :| 0 <= k < |c| && c[k] == x;
      assert k <= j ==> c[k] <= c[j];
      assert k > j ==> c[k] >= c[j + 1];
    }
  }

  lemma MidInGap(c: seq<int>, j: nat)
    requires Increasing(c, IntLe) && j + 1 < |c|
    ensures c[j] as real < Mid(c, j) < c[j + 1] as real
  {
  }

  lemma LowestIsFirst(c: seq<int>, ps: seq<int>, ns: seq<int>, low: int)
    requires Scores(c, ps, ns) && Least(low, ps + ns)
    ensures c != [] && c[0] == low
  {
    assert low in c;
    assert c[0] in c;
    assert c[0] in ps + ns;
  }

  /** What beats every midpoint beats every real cut above the lowest score. */
  lemma BestMidpointIsBestCut(ps: seq<int>, ns: seq<int>, c: seq<int>, b: nat)
    requires Scores(c, ps, ns) && |c| > 1 && ps != [] && BestSoFar(ps, ns, c, |c| - 1, b)
    ensures BestCut(ps, ns, Mid(c, b))
  {
    forall t: real, low | Least(low, ps + ns) && t > low as real
      ensures F1(ps, ns, t) <= F1(ps, ns, Mid(c, b))
    {
      LowestIsFirst(c, ps, ns, low);
      AnyCutLoses(ps, ns, c, b, t);
    }
    forall t: real, low, x | Least(low, ps + ns) && low as real < t <= x as real < Mid(c, b) && x in ps + ns
      ensures F1(ps, ns, t) < F1(ps, ns, Mid(c, b))
    {
      LowestIsFirst(c, ps, ns, low);
      EarlierCutLoses(ps, ns, c, b, t, x);
    }
  }

  lemma AnyCutLoses(ps: seq<int>, ns: seq<int>, c: seq<int>, b: nat, t: real)
    requires Scores(c, ps, ns) && |c| > 1 && ps != [] && BestSoFar(ps, ns, c, |c| - 1, b) && t > c[0] as real
    ensures F1(ps, ns, t) <= F1(ps, ns, Mid(c, b))
  {
    hide F1;
    if t <= c[|c| - 1] as real {
      var j := GapOf(c, t, |c| - 1);
      SameGap(c, ps, ns, j, t);
      F1SameSide(ps, ns, t, Mid(c, j));
    } else {
      NothingAbove(ps, ns, c, t);
      F1NotNegative(ps, ns, Mid(c, b));
    }
  }

  lemma NothingAbove(ps: seq<int>, ns: seq<int>, c: seq<int>, t: real)
    requires Scores(c, ps, ns) && c != [] && ps != [] && t > c[|c| - 1] as real
    ensures F1(ps, ns, t) == 0.0
  {
    forall x | x in ps
      ensures !(x as real >= t)
    {
      assert x in ps + ns;
      var k :| 0 <= k < |c| && c[k] == x;
      assert c[k] <= c[|c| - 1];
    }
    AllAtLeast(ps, t);
    ScoreFalls(0, AtLeast(ns, t), AtLeast(ns, t), |ps|);
  }

  lemma F1NotNegative(ps: seq<int>, ns: seq<int>, t: real)
    requires ps != []
    ensures F1(ps, ns, t) >= 0.0
  {
    ScoreFalls(AtLeast(ps, t), AtLeast(ns, t), AtLeast(ns, t), |ps|);
  }

  lemma EarlierCutLoses(ps: seq<int>, ns: seq<int>, c: seq<int>, b: nat, t: real, x: int)
    requires Scores(c, ps, ns) && |c| > 1 && ps != [] && BestSoFar(ps, ns, c, |c| - 1, b)
    requires c[0] as real < t <= x as real < Mid(c, b) && x in ps + ns
    ensures F1(ps, ns, t) < F1(ps, ns, Mid(c, b))
  {
    hide F1;
    assert x in c;
    var k :| 0 <= k < |c| && c[k] == x;
    MidInGap(c, b);
    assert k <= b;
    assert 0 < k;
    var j := GapOf(c, t, k);
    SameGap(c, ps, ns, j, t);
    F1SameSide(ps, ns, t, Mid(c, j));
  }

  // ---- the search -----------------------------------------------------------------------------------

  method BestMidpoint(ps: seq<int>, ns: seq<int>, c: seq<int>) returns (b: nat)
    requires |c| > 1 && ps != []
    ensures BestSoFar(ps, ns, c, |c| - 1, b)
  {
    hide F1, Mid;
    b := 0;
    var best := -1.0;
    for i := 0 to |c| - 1
      invariant i == 0 ==> best == -1.0
      invariant i > 0 ==> BestSoFar(ps, ns, c, i, b) && best == F1(ps, ns, Mid(c, b))
    {
      var f1 := F1(ps, ns, Mid(c, i));
      F1NotNegative(ps, ns, Mid(c, i));
      if f1 > best {
        b, best := i, f1;
      }
    }
  }

  /** Two scores of the set with none between them. */
  predicate Neighbours(lo: int, hi: int, s: seq<int>) {
    lo in s && hi in s && lo < hi && forall x :: x in s ==> x <= lo || hi <= x
  }

  /** Twice the cut is the sum of two neighbouring scores. */
  predicate Midway(twice: int, s: seq<int>) {
    exists lo, hi | lo in s && hi in s :: Neighbours(lo, hi, s) && twice == lo + hi
  }

  lemma MidIsMidway(c: seq<int>, ps: seq<int>, ns: seq<int>, b: nat)
    requires Scores(c, ps, ns) && b + 1 < |c|
    ensures Midway(c[b] + c[b + 1], ps + ns)
  {
    assert c[b] in c && c[b + 1] in c;
    forall x | x in ps + ns
      ensures x <= c[b] || c[b + 1] <= x
    {
      assert x in c;
      var k :| 0 <= k < |c| && c[k] == x;
      assert k <= b ==> c[k] <= c[b];
      assert k > b ==> c[k] >= c[b + 1];
    }
    assert Neighbours(c[b], c[b + 1], ps + ns);
  }

  lemma MidwayUnsorted(twice: int, pos: seq<int>, neg: seq<int>)
    requires Midway(twice, Sort(pos, IntLe) + Sort(neg, IntLe))
    ensures Midway(twice, pos + neg)
  {
    hide Sort;
    SameScores(pos, neg);
    var all := Sort(pos, IntLe) + Sort(neg, IntLe);
    var lo, hi :| lo in all && hi in all && Neighbours(lo, hi, all) && twice == lo + hi;
    assert Neighbours(lo, hi, pos + neg);
  }

  /** What the choice must be, in terms of the scores as they were given. */
  ghost predicate WellPicked(pos: seq<int>, neg: seq<int>, ties: Ties, v: Verdict)
    requires v.Picked? && pos != [] && neg != []
  {
    && (v.separated <==> forall n, p :: n in neg && p in pos ==> n < p)
    && (v.separated ==> forall hi, lo :: Greatest(hi, neg) && Least(lo, pos) ==> v.twice == hi + lo)
    && (!v.separated ==> BestCut(pos, neg, Half(v.twice)) && Midway(v.twice, pos + neg))
    && v.threshold == RoundHalf(v.twice, ties)
    && v.tpr == Rate(pos, v.threshold as real)
    && v.fpr == Rate(neg, v.threshold as real)
  }

  /** Midpoint between fully separated sets, else the first best midpoint; the scan, and the rounding after it. An
      empty set and an overlap of one single score raise. */
  method PickThreshold(pos: seq<int>, neg: seq<int>, ties: Ties) returns (v: Verdict)
    ensures v.EmptyScores? <==> pos == [] || neg == []
    ensures v.OneScore? <==> pos != [] && neg != [] && forall x, y :: x in pos + neg && y in pos + neg ==> x == y
    ensures v.Picked? ==> WellPicked(pos, neg, ties, v)
  {
    hide F1, AtLeast, Sort, TotalOrder, Sorted, SortedSet, BestCut, Scores, Midway;
    if neg == [] || pos == [] {
      return EmptyScores;
    }
    var ps := Sort(pos, IntLe);
    var ns := Sort(neg, IntLe);
    Ends(pos);
    Ends(neg);
    AnyTwo(pos, neg);
    var separated := ns[|ns| - 1] < ps[0];
    var twice: int;
    if separated {
      assert ns[|ns| - 1] in pos + neg && ps[0] in pos + neg;
      twice := ns[|ns| - 1] + ps[0];
    } else {
      var candidates := SortedSet(ps + ns, IntLe);
      Candidates(pos, neg);
      if |candidates| <= 1 {
        return OneScore;
      }
      var b := BestMidpoint(ps, ns, candidates);
      BestMidpointIsBestCut(ps, ns, candidates, b);
      BestCutUnsorted(pos, neg, Mid(candidates, b));
      MidIsMidway(candidates, ps, ns, b);
      MidwayUnsorted(candidates[b] + candidates[b + 1], pos, neg);
      twice := candidates[b] + candidates[b + 1];
    }
    var threshold := RoundHalf(twice, ties);
    AtLeastSort(pos, threshold as real);
    AtLeastSort(neg, threshold as real);
    v := Picked(twice, threshold, separated, Rate(ps, threshold as real), Rate(ns, threshold as real));
  }

  lemma Ends(s: seq<int>)
    requires s != []
    ensures var t := Sort(s, IntLe); |t| == |s| && Least(t[0], s) && Greatest(t[|t| - 1], s)
  {
    hide Sort, TotalOrder;
    var t := Sort(s, IntLe);
    IntLeIsTotal();
    SortSorts(s, IntLe);
    forall x
      ensures x in t <==> x in s
    {
      SortKeepsMembers(s, IntLe, x);
    }
    assert t[0] in t && t[|t| - 1] in t;
    forall y | y in s
      ensures t[0] <= y <= t[|t| - 1]
    {
      var k :| 0 <= k < |t| && t[k] == y;
      assert IntLe(t[0], t[k]) && IntLe(t[k], t[|t| - 1]);
    }
  }

  /** The sets are separated exactly when their nearest ends are. */
  lemma AnyTwo(pos: seq<int>, neg: seq<int>)
    requires pos != [] && neg != []
    ensures forall hi, lo :: Greatest(hi, neg) && Least(lo, pos) ==>
              (hi < lo <==> forall n, p :: n in neg && p in pos ==> n < p)
  {
    assert pos[0] in pos && neg[0] in neg;
  }

  lemma Candidates(pos: seq<int>, neg: seq<int>)
    requires pos != [] && neg != []
    ensures var ps, ns := Sort(pos, IntLe), Sort(neg, IntLe);
            var c := SortedSet(ps + ns, IntLe);
            Scores(c, ps, ns) && (|c| <= 1 <==> forall x, y :: x in pos + neg && y in pos + neg ==> x == y)
  {
    var ps, ns := Sort(pos, IntLe), Sort(neg, IntLe);
    var c := SortedSet(ps + ns, IntLe);
    IntLeIsTotal();
    SortedSetIs(ps + ns, IntLe);
    SameScores(pos, neg);
    assert pos[0] in pos + neg;
    if |c| > 1 {
      assert c[0] in c && c[1] in c && c[0] != c[1];
    } else {
      forall x, y | x in pos + neg && y in pos + neg
        ensures x == y
      {
        assert x in c && y in c;
      }
    }
  }

  lemma SameScores(pos: seq<int>, neg: seq<int>)
    ensures forall x :: x in Sort(pos, IntLe) + Sort(neg, IntLe) <==> x in pos + neg
  {
    IntLeIsTotal();
    forall x
      ensures x in Sort(pos, IntLe) + Sort(neg, IntLe) <==> x in pos + neg
    {
      SortKeepsMembers(pos, IntLe, x);
      SortKeepsMembers(neg, IntLe, x);
    }
  }

  lemma BestCutUnsorted(pos: seq<int>, neg: seq<int>, cut: real)
    requires BestCut(Sort(pos, IntLe), Sort(neg, IntLe), cut)
    ensures BestCut(pos, neg, cut)
  {
    hide F1, Sort;
    var ps, ns := Sort(pos, IntLe), Sort(neg, IntLe);
    SameScores(pos, neg);
    forall low | Least(low, pos + neg)
      ensures Least(low, ps + ns)
    {
    }
    forall t: real
      ensures F1(ps, ns, t) == F1(pos, neg, t)
    {
      F1Sort(pos, neg, t);
    }
  }

  // ---- what rounding does to the cut ----------------------------------------------------------------

  /** The rounded threshold parts the scores as the exact midpoint does if and only if the neighbouring scores are at
      least two ten-thousandths apart or the half between them is rounded up. */
  lemma RoundingKeepsTheCut(s: seq<int>, lo: int, hi: int, ties: Ties)
    requires Neighbours(lo, hi, s)
    ensures SameSides(s, RoundHalf(lo + hi, ties) as real, Half(lo + hi)) <==> hi - lo >= 2 || ties(lo + hi)
  {
    var r := RoundHalf(lo + hi, ties);
    if hi - lo >= 2 || ties(lo + hi) {
      assert lo < r <= hi;
      forall x | x in s
        ensures x as real >= r as real <==> x as real >= Half(lo + hi)
      {
      }
    } else {
      assert r == lo && lo in s;
    }
  }

  /** Fully separated sets: the chosen threshold accepts every positive, and rejects every negative if and only if the
      gap is at least two ten-thousandths or the half is rounded up; with half-even rounding, if the highest negative
      is odd. */
  lemma SeparatedRates(pos: seq<int>, neg: seq<int>, ties: Ties, v: Verdict, hi: int, lo: int)
    requires pos != [] && neg != [] && v.Picked? && v.separated && WellPicked(pos, neg, ties, v)
    requires Greatest(hi, neg) && Least(lo, pos)
    ensures v.tpr == 1.0 && (v.fpr == 0.0 <==> lo - hi >= 2 || ties(hi + lo))
    ensures lo == hi + 1 && ties == HalfEven ==> (v.fpr == 0.0 <==> hi % 2 == 1)
  {
    assert hi < lo;
    var r := v.threshold;
    assert r == RoundHalf(hi + lo, ties) && hi <= r <= lo;
    assert lo == hi + 1 ==> (hi + lo) / 2 == hi;
    assert hi < r <==> lo - hi >= 2 || ties(hi + lo);
    AllAtLeast(pos, r as real);
    AllAtLeast(neg, r as real);
    assert AllAbove(pos, r as real);
    if hi < r {
      assert NoneAbove(neg, r as real);
    } else {
      assert hi in neg && !NoneAbove(neg, r as real);
      Fraction(AtLeast(neg, r as real), |neg|);
    }
    Fraction(|pos|, |pos|);
  }

  lemma Fraction(n: nat, d: nat)
    requires 0 < n <= d
    ensures n as real / d as real > 0.0 && (n == d ==> n as real / d as real == 1.0)
  {
  }

  /** Highest negative 0.0006, lowest positive 0.0007: the threshold is rounded down onto the negative. */
  lemma NarrowGapWitness()
    ensures RoundHalf(6 + 7, HalfEven) == 6 && Rate([6], 6.0) == 1.0
  {
    assert AtLeast([6], 6.0) == 1 by {
      assert [6][1..] == [];
    }
  }

  // ---- cuts at or below the lowest score --------------------------------------------------------------

  lemma FractionOrder(a: int, b: nat, c: int, d: nat)
    requires b > 0 && d > 0
    ensures a as real / b as real >= c as real / d as real <==> a * d >= c * b
  {
    var x, y := a as real / b as real, c as real / d as real;
    assert x * b as real == a as real && y * d as real == c as real;
    assert (a * d) as real == x * b as real * d as real && (c * b) as real == y * d as real * b as real;
    var m := b as real * d as real;
    assert (a * d) as real == x * m && (c * b) as real == y * m;
    Ordered(x, y, m);
  }

  lemma Ordered(x: real, y: real, m: real)
    requires m > 0.0
    ensures x >= y <==> x * m >= y * m
  {
    assert (x - y) * m == x * m - y * m;
  }

  /** Against accepting everything, a cut is judged by the negatives and the positives it turns away. */
  lemma ScoreAgainstAll(tp: nat, fp: nat, p: nat, n: nat)
    requires tp <= p && fp <= n && p > 0
    ensures Score(tp, fp, p) >= Score(p, n, p) <==> p * (n - fp) >= (p + n) * (p - tp)
  {
    hide Score;
    ScoreClosed(tp, fp, p);
    ScoreClosed(p, n, p);
    FractionOrder(2 * tp, tp + fp + p, 2 * p, p + n + p);
    assert (2 * tp) * (p + n + p) - (2 * p) * (tp + fp + p) == 2 * (tp * p + tp * n - p * fp - p * p);
    assert p * (n - fp) - (p + n) * (p - tp) == tp * p + tp * n - p * fp - p * p;
  }

  function Below(s: seq<int>, t: real): nat {
    |s| - AtLeast(s, t)
  }

  /** Turning away what lies below x is worth it: against all negatives and positives, enough negatives lie there. */
  predicate PaysOff(pos: seq<int>, neg: seq<int>, x: int) {
    |pos| * Below(neg, x as real) >= (|pos| + |neg|) * Below(pos, x as real)
  }

  lemma PaysOffExactly(pos: seq<int>, neg: seq<int>, x: int, t: real)
    requires pos != [] && AllAbove(pos + neg, t)
    ensures F1(pos, neg, x as real) >= F1(pos, neg, t) <==> PaysOff(pos, neg, x)
  {
    hide Score, AtLeast;
    assert forall y :: y in pos || y in neg ==> y in pos + neg;
    AllAtLeast(pos, t);
    AllAtLeast(neg, t);
    ScoreAgainstAll(AtLeast(pos, x as real), AtLeast(neg, x as real), |pos|, |neg|);
  }

  ghost predicate BestOfAll(pos: seq<int>, neg: seq<int>, cut: real) {
    forall t: real :: F1(pos, neg, t) <= F1(pos, neg, cut)
  }

  lemma LowCutsAcceptAll(pos: seq<int>, neg: seq<int>, low: int, t: real)
    requires Least(low, pos + neg) && t <= low as real
    ensures AllAbove(pos + neg, t)
  {
  }

  /** One score that pays off is enough for the chosen cut to be best among all real cuts. */
  lemma PayingOffMakesItBest(pos: seq<int>, neg: seq<int>, cut: real, low: int, x: int)
    requires pos != [] && BestCut(pos, neg, cut) && Least(low, pos + neg) && x > low && PaysOff(pos, neg, x)
    ensures BestOfAll(pos, neg, cut)
  {
    hide F1, PaysOff;
    forall t: real
      ensures F1(pos, neg, t) <= F1(pos, neg, cut)
    {
      if t <= low as real {
        LowCutsAcceptAll(pos, neg, low, t);
        PaysOffExactly(pos, neg, x, t);
        assert F1(pos, neg, x as real) <= F1(pos, neg, cut);
      }
    }
  }

  /** The search never tries a cut at or below the lowest score. The cut it chooses is best among all real cuts if and
      only if some score above the lowest pays off. */
  lemma BestOfAllExactlyWhenSomeScorePaysOff(pos: seq<int>, neg: seq<int>, twice: int, low: int)
    requires pos != [] && BestCut(pos, neg, Half(twice)) && Midway(twice, pos + neg) && Least(low, pos + neg)
    ensures BestOfAll(pos, neg, Half(twice)) <==> exists x :: x in pos + neg && x > low && PaysOff(pos, neg, x)
  {
    hide F1, PaysOff, BestCut;
    if BestOfAll(pos, neg, Half(twice)) {
      var lo, hi :| lo in pos + neg && hi in pos + neg && Neighbours(lo, hi, pos + neg) && twice == lo + hi;
      forall x | x in pos + neg
        ensures x as real >= hi as real <==> x as real >= Half(twice)
      {
      }
      F1SameSide(pos, neg, hi as real, Half(twice));
      LowCutsAcceptAll(pos, neg, low, low as real);
      assert F1(pos, neg, low as real) <= F1(pos, neg, Half(twice));
      PaysOffExactly(pos, neg, hi, low as real);
      assert hi > low;
    }
    if exists x :: x in pos + neg && x > low && PaysOff(pos, neg, x) {
      var x :| x in pos + neg && x > low && PaysOff(pos, neg, x);
      PayingOffMakesItBest(pos, neg, Half(twice), low, x);
    }
  }

  /** So it is whenever the lowest score is a negative: turning that one away costs no positive. */
  lemma BestOfAllWhenTheLowestIsNegative(pos: seq<int>, neg: seq<int>, cut: real, low: int, next: int, t: real)
    requires pos != [] && BestCut(pos, neg, cut)
    requires Neighbours(low, next, pos + neg) && Least(low, pos + neg) && low !in pos
    ensures F1(pos, neg, t) <= F1(pos, neg, cut)
  {
    hide F1, AtLeast;
    forall x | x in pos
      ensures x as real >= next as real
    {
      assert x in pos + neg;
    }
    AllAtLeast(pos, next as real);
    assert AllAbove(pos, next as real);
    assert Below(pos, next as real) == 0;
    assert PaysOff(pos, neg, next);
    PayingOffMakesItBest(pos, neg, cut, low, next);
  }

  /** When the lowest score is a positive, accepting everything can beat the chosen cut: here the only midpoint
      catches nothing. */
  lemma AcceptingEverythingCanWin()
    ensures F1([1], [2], Half(3)) == 0.0 && F1([1], [2], 1.0) > 0.0
  {
    assert [1][1..] == [] && [2][1..] == [];
    assert AtLeast([1], Half(3)) == 0 && AtLeast([2], Half(3)) == 1;
    assert AtLeast([1], 1.0) == 1 && AtLeast([2], 1.0) == 1;
    ScoreClosed(0, 1, 1);
    ScoreClosed(1, 1, 1);
  }
}
