/** When the recorder that prices on read and the one that prices on write report the same. */
module MeteringAgreement {
  import opened Orders
  import opened Rounding
  import opened Metering

  // ---- storing commutes with selecting and grouping -------------------------------------------------

  lemma StoreSnoc(rows: seq<Record>, r: Record)
    ensures StoreAll(rows + [r]) == StoreAll(rows) + [Store(r)]
  {
    assert (rows + [r])[..|rows|] == rows;
  }

  lemma SelectSnoc(rows: seq<Record>, q: Query, r: Record)
    ensures Select(rows + [r], q) == if Selects(q, r.at) then Select(rows, q) + [r] else Select(rows, q)
  {
    assert (rows + [r])[..|rows|] == rows;
    assert Select(rows, q) + [] == Select(rows, q);
  }

  lemma {:induction false} StoreSelect(rows: seq<Record>, q: Query)
    ensures Select(StoreAll(rows), q) == StoreAll(Select(rows, q))
  {
    hide Selects, Store, Select, StoreAll;
    if rows == [] {
      Empties(q);
    } else {
      var n := |rows| - 1;
      assert rows == rows[..n] + [rows[n]];
      StoreSelect(rows[..n], q);
      StoreSnoc(rows[..n], rows[n]);
      SelectSnoc(rows[..n], q, rows[n]);
      SelectSnoc(StoreAll(rows[..n]), q, Store(rows[n]));
      StoreSnoc(Select(rows[..n], q), rows[n]);
      StoreKeepsKey(rows[n]);
    }
  }

  lemma Empties(q: Query)
    ensures Select([], q) == [] && StoreAll([]) == []
  {
  }

  lemma StoreKeepsKey(r: Record)
    ensures Store(r).at == r.at
  {
  }

  lemma {:induction false} StoreRowsAt(rows: seq<Record>, k: GroupKey)
    ensures RowsAt(StoreAll(rows), k) == StoreAll(RowsAt(rows, k))
  {
    hide Store, RowsAt, StoreAll;
    if rows == [] {
      NoneAt(k);
    } else {
      var n := |rows| - 1;
      assert rows == rows[..n] + [rows[n]];
      StoreRowsAt(rows[..n], k);
      StoreSnoc(rows[..n], rows[n]);
      RowsAtSnoc(rows[..n], rows[n], k);
      RowsAtSnoc(StoreAll(rows[..n]), Store(rows[n]), k);
      StoreSnoc(RowsAt(rows[..n], k), rows[n]);
      StoreKeepsKey(rows[n]);
    }
  }

  lemma NoneAt(k: GroupKey)
    ensures RowsAt([], k) == [] && StoreAll([]) == []
  {
  }

  /** Everything but the price is stored as it was recorded. */
  predicate SameFacts(rows: seq<Record>, stored: seq<Record>) {
    && |stored| == |rows|
    && Keys(stored) == Keys(rows) && Used(stored) == Used(rows)
    && (forall i | 0 <= i < |rows| :: stored[i].org == rows[i].org && stored[i].conversation == rows[i].conversation)
  }

  lemma {:induction false} StoreKeepsFacts(rows: seq<Record>)
    ensures SameFacts(rows, StoreAll(rows))
  {
    hide Cost, BasisOf, RoundAway;
    if rows != [] {
      StoreKeepsFacts(rows[..|rows| - 1]);
    }
  }

  // ---- one group ------------------------------------------------------------------------------------

  predicate AllWhole(rows: seq<Record>) {
    forall i | 0 <= i < |rows| :: Whole(Cost(rows[i]))
  }

  lemma FloorOfHalfAbove(n: int)
    ensures (n as real + 0.5).Floor == n && (0.5 - n as real).Floor == -n
  {
  }

  lemma WholeRounds(x: real, n: int)
    requires x == n as real
    ensures RoundAway(x) == n && RoundEven(x) == n
  {
    FloorOfHalfAbove(n);
    assert x.Floor == n;
  }

  lemma NoCosts()
    ensures Costs([]) == 0.0 && StoredCosts([]) == 0
  {
  }

  lemma StoredCostsSnoc(rows: seq<Record>, r: Record)
    requires r.pricing.AtWrite?
    ensures StoredCosts(rows + [r]) == StoredCosts(rows) + r.pricing.cost
  {
    assert (rows + [r])[..|rows|] == rows;
  }

  /** At most one organisation, and no empty identifiers. */
  predicate Plain(rows: seq<Record>) {
    "" !in Orgs(rows) && |Orgs(rows)| <= 1 && "" !in Conversations(rows)
  }

  lemma SameSets(rows: seq<Record>, stored: seq<Record>)
    requires SameFacts(rows, stored)
    ensures Orgs(stored) == Orgs(rows) && Conversations(stored) == Conversations(rows)
  {
    hide Used, Keys;
    forall o
      ensures o in Orgs(stored) <==> o in Orgs(rows)
      ensures o in Conversations(stored) <==> o in Conversations(rows)
    {
    }
  }

  function OrgInMemory(orgs: set<string>): Maybe {
    var named := orgs - {""};
    if |named| == 1 then Is(Only(named)) else Null
  }

  ghost function OrgInTable(orgs: set<string>): Maybe {
    if orgs == {} then Null else Is(LeastOf(orgs))
  }

  lemma EmptyIsLeast(x: string)
    ensures StringLe("", x)
  {
  }

  lemma OrgsAgree(orgs: set<string>)
    ensures OrgInMemory(orgs) == OrgInTable(orgs) <==> "" !in orgs && |orgs| <= 1
  {
    hide StringLe;
    var named := orgs - {""};
    if "" in orgs {
      EmptyIsLeast(LeastOf(orgs));
      StringLeTotal(LeastOf(orgs), "");
      assert LeastOf(orgs) == "";
    } else {
      assert named == orgs;
      if |orgs| == 1 {
        SingletonHasOne(orgs);
      } else {
        assert |orgs| == 0 <==> orgs == {};
      }
    }
  }

  /** What rounding each price into its column has cost the group so far: the accumulated error. */
  function ColumnError(rows: seq<Record>): real {
    if rows == [] then 0.0
    else
      var cost := Cost(rows[|rows| - 1]);
      ColumnError(rows[..|rows| - 1]) + (cost - RoundAway(cost) as real)
  }

  lemma {:induction false} ErrorIsTheDifference(rows: seq<Record>)
    ensures Costs(rows) == StoredCosts(StoreAll(rows)) as real + ColumnError(rows)
  {
    hide Cost, BasisOf, RoundAway, StoredCosts, Costs;
    if rows == [] {
      NoCosts();
    } else {
      var n := |rows| - 1;
      ErrorIsTheDifference(rows[..n]);
      StoredCostsSnoc(StoreAll(rows[..n]), Store(rows[n]));
      assert rows == rows[..n] + [rows[n]];
      CostsSnoc(rows[..n], rows[n]);
      assert StoreAll(rows) == StoreAll(rows[..n]) + [Store(rows[n])];
    }
  }

  /** The error is too small to show: under half a unit, or half a unit beside an even stored sum. */
  predicate ErrorVanishes(rows: seq<Record>) {
    var e := ColumnError(rows);
    -0.5 < e < 0.5 || ((e == 0.5 || e == -0.5) && StoredCosts(StoreAll(rows)) % 2 == 0)
  }

  /** A group prices and counts the same either way exactly when it is plain and its rounding error does not show. */
  lemma GroupsAgree(k: GroupKey, rows: seq<Record>)
    ensures InMemory(k, rows) == GroupBy(k, StoreAll(rows)) <==> Plain(rows) && ErrorVanishes(rows)
  {
    hide Cost, Costs, StoredCosts, Used, Keys, StoreAll, Mean, Orgs, Conversations, Only, RoundEven, ColumnError;
    StoreKeepsFacts(rows);
    SameSets(rows, StoreAll(rows));
    ErrorIsTheDifference(rows);
    RoundEvenIs(Costs(rows), StoredCosts(StoreAll(rows)));
    OrgsAgree(Orgs(rows));
    var c := Conversations(rows);
    assert |c - {""}| == |c| <==> "" !in c by {
      if "" !in c {
        assert c - {""} == c;
      }
    }
  }

  // ---- whole reports --------------------------------------------------------------------------------

  lemma {:induction false} ReportsAgree(keys: seq<GroupKey>, rows: seq<Record>)
    ensures Report(keys, rows) == TableReport(keys, StoreAll(rows))
            <==> forall k :: k in keys ==> Plain(RowsAt(rows, k)) && ErrorVanishes(RowsAt(rows, k))
  {
    hide InMemory, GroupBy, Plain, ErrorVanishes, StoreAll, RowsAt;
    if keys != [] {
      var k := keys[0];
      ReportsAgree(keys[1..], rows);
      StoreRowsAt(rows, k);
      GroupsAgree(k, RowsAt(rows, k));
      assert k in keys && forall j :: j in keys <==> j == k || j in keys[1..];
      SameCons(InMemory(k, RowsAt(rows, k)), GroupBy(k, RowsAt(StoreAll(rows), k)),
               Report(keys[1..], rows), TableReport(keys[1..], StoreAll(rows)));
    }
  }

  lemma SameCons<T>(a: T, b: T, x: seq<T>, y: seq<T>)
    ensures [a] + x == [b] + y <==> a == b && x == y
  {
    if [a] + x == [b] + y {
      assert ([a] + x)[0] == a && ([b] + y)[0] == b;
      assert ([a] + x)[1..] == x && ([b] + y)[1..] == y;
    }
  }

  lemma {:induction false} WholeGroup(rows: seq<Record>, k: GroupKey)
    requires AllWhole(rows)
    ensures AllWhole(RowsAt(rows, k))
  {
    hide Cost;
    if rows != [] {
      WholeGroup(rows[..|rows| - 1], k);
    }
  }

  lemma {:induction false} WholeSelection(rows: seq<Record>, q: Query)
    requires AllWhole(rows)
    ensures AllWhole(Select(rows, q))
  {
    hide Cost, Selects;
    if rows != [] {
      WholeSelection(rows[..|rows| - 1], q);
    }
  }

  /** For the same rows, the recorder that prices on read and the one that prices on write return equal aggregates if
      and only if every selected group has at most one organisation, no empty organisation or conversation identifier,
      and a rounding error that does not show. */
  lemma RecordersAgree(rows: seq<Record>, q: Query)
    ensures var sel := Select(rows, q);
            Daily(rows, q) == DailyStored(StoreAll(rows), q)
            <==> forall k :: k in Keys(sel) ==> Plain(RowsAt(sel, k)) && ErrorVanishes(RowsAt(sel, k))
  {
    hide KeyLe, TotalOrder, Plain, ErrorVanishes, SortedSet, Select, Keys, RowsAt, Used;
    var sel := Select(rows, q);
    StoreSelect(rows, q);
    StoreKeepsFacts(sel);
    KeyLeIsTotal();
    SortedSetIs(Keys(sel), KeyLe);
    ReportsAgree(SortedSet(Keys(sel), KeyLe), sel);
  }

  lemma {:induction false} WholeHasNoError(rows: seq<Record>)
    requires AllWhole(rows)
    ensures ColumnError(rows) == 0.0
  {
    hide Cost, BasisOf, RoundAway, RoundEven;
    if rows != [] {
      var n := |rows| - 1;
      WholeHasNoError(rows[..n]);
      WholeRounds(Cost(rows[n]), Cost(rows[n]).Floor);
    }
  }

  /** With whole prices, so for all modeled and free rows, only the identifiers matter. */
  lemma WholePricesAgree(rows: seq<Record>, q: Query)
    requires AllWhole(rows)
    ensures Daily(rows, q) == DailyStored(StoreAll(rows), q)
            <==> forall k :: k in Keys(Select(rows, q)) ==> Plain(RowsAt(Select(rows, q), k))
  {
    hide Daily, Plain, AllWhole, Select, Keys, RowsAt, ColumnError, StoredCosts;
    var sel := Select(rows, q);
    RecordersAgree(rows, q);
    WholeSelection(rows, q);
    forall k
      ensures ErrorVanishes(RowsAt(sel, k))
    {
      WholeGroup(sel, k);
      WholeHasNoError(RowsAt(sel, k));
    }
  }

  /** Modeled and free rows always have whole prices: every modeled price is a whole number of units. */
  lemma ModeledPricesAreWhole(r: Record)
    requires BasisOf(r) != ReportedCost
    ensures Whole(Cost(r))
  {
  }

  // ---- the price of a sum -----------------------------------------------------------------------------

  function UsedAt(rows: seq<Record>, rate: Rate): Usage {
    if rows == [] then Usage(0, 0, 0, 0)
    else
      var last := rows[|rows| - 1];
      var front := UsedAt(rows[..|rows| - 1], rate);
      if BasisOf(last) == Modeled && RateOf(last.model) == rate then Add(front, last.used) else front
  }

  function Price(u: Usage, rate: Rate): int {
    u.tokensIn * rate.tokenIn + u.tokensOut * rate.tokenOut
  }

  lemma PriceAdds(u: Usage, v: Usage, rate: Rate)
    ensures Price(Add(u, v), rate) == Price(u, rate) + Price(v, rate)
  {
    assert (u.tokensIn + v.tokensIn) * rate.tokenIn == u.tokensIn * rate.tokenIn + v.tokensIn * rate.tokenIn;
    assert (u.tokensOut + v.tokensOut) * rate.tokenOut == u.tokensOut * rate.tokenOut + v.tokensOut * rate.tokenOut;
  }

  lemma CostIsPrice(r: Record)
    requires BasisOf(r) != ReportedCost
    ensures Cost(r) == (if BasisOf(r) == Modeled then Price(r.used, RateOf(r.model)) else 0) as real
  {
    hide BasisOf, RateOf;
  }

  lemma NothingPriced(rate: Rate)
    ensures Price(Usage(0, 0, 0, 0), rate) == 0
  {
  }

  /** Adding up the price of every row is pricing the summed tokens, rate by rate. */
  lemma {:induction false} SumOfPricesIsPriceOfSums(rows: seq<Record>)
    requires forall r | r in rows :: BasisOf(r) != ReportedCost
    ensures Costs(rows) == (Price(UsedAt(rows, STANDARD), STANDARD) + Price(UsedAt(rows, GEMINI), GEMINI)) as real
  {
    hide BasisOf, RateOf, Price, Cost, Add;
    if rows == [] {
      NothingPriced(STANDARD);
      NothingPriced(GEMINI);
    } else {
      var n := |rows| - 1;
      var r := rows[n];
      assert r in rows && forall x :: x in rows[..n] ==> x in rows;
      SumOfPricesIsPriceOfSums(rows[..n]);
      CostIsPrice(r);
      OneRate(r);
      PriceAdds(UsedAt(rows[..n], STANDARD), r.used, STANDARD);
      PriceAdds(UsedAt(rows[..n], GEMINI), r.used, GEMINI);
    }
  }

  lemma OneRate(r: Record)
    ensures RateOf(r.model) == STANDARD || RateOf(r.model) == GEMINI
  {
  }

  // ---- where they part --------------------------------------------------------------------------------

  /** Costs that providers report need not be whole: two of 0.4 units each are one unit when added and rounded, but
      nothing when each is rounded into the table first. */
  lemma ReportedCostsCanPart(r: Record)
    requires r.reported == Usd(0.4) && r.pricing == AtRead
    ensures RoundEven(Costs([r, r])) == 1 && StoredCosts(StoreAll([r, r])) == 0
  {
    assert BasisOf(r) == ReportedCost && Cost(r) == 0.4;
    assert [r, r] == [r] + [r] && [r] == [] + [r];
    StoreSnoc([r], r);
    StoreSnoc([], r);
    assert Store(r).pricing.cost == 0;
    StoredCostsSnoc([], Store(r));
    StoredCostsSnoc(StoreAll([r]), Store(r));
    CostsSnoc([], r);
    CostsSnoc([r], r);
  }

  lemma CostsSnoc(rows: seq<Record>, r: Record)
    ensures Costs(rows + [r]) == Costs(rows) + Cost(r)
  {
    hide Cost;
    assert (rows + [r])[..|rows|] == rows;
  }

  /** The mean is rounded half to even, not half up as the helper is named. The two differ for exactly the latency
      sums that fall halfway above an even hundredth. */
  lemma MeanRoundsHalfToEven(latency: int, n: nat)
    ensures RoundEven(Mean(latency, n)) != HalfUp(Mean(latency, n)) <==> n > 0 && (200 * latency) % (4 * n) == n
  {
    HalfEvenAgainstHalfUp(Mean(latency, n));
    if n > 0 {
      HalfwayAboveEven(latency, n);
    }
  }

  lemma HalfwayAboveEven(latency: int, n: nat)
    requires n > 0
    ensures var x := Mean(latency, n); x - x.Floor as real == 0.5 && x.Floor % 2 == 0 <==> (200 * latency) % (4 * n) == n
  {
    hide RoundEven;
    var x := Mean(latency, n);
    TwiceTheMean(latency, n);
    if x - x.Floor as real == 0.5 && x.Floor % 2 == 0 {
      var g := x.Floor / 2;
      assert x == 2.0 * g as real + 0.5;
      Remainder(200 * latency, n, g, x);
    }
    if (200 * latency) % (4 * n) == n {
      var g := (200 * latency) / (4 * n);
      DivisionUndone(200 * latency, 4 * n);
      assert 200 * latency == 4 * n * g + n;
      MeanOf(latency, n, g);
      assert x == (2 * g) as real + 0.5;
      assert x.Floor == 2 * g;
    }
  }

  lemma TwiceTheMean(latency: int, n: nat)
    requires n > 0
    ensures 2.0 * Mean(latency, n) * n as real == (200 * latency) as real
  {
    var x := Mean(latency, n);
    assert x * n as real == 100.0 * latency as real;
  }

  lemma DivisionUndone(a: int, m: nat)
    requires m > 0
    ensures a == m * (a / m) + a % m
  {
  }

  lemma Remainder(a: int, n: nat, g: int, x: real)
    requires n > 0 && x == 2.0 * g as real + 0.5 && 2.0 * x * n as real == a as real
    ensures a % (4 * n) == n
  {
    assert 2.0 * x * n as real == (4 * g + 1) as real * n as real;
    assert (4 * g + 1) as real * n as real == ((4 * g + 1) * n) as real;
    assert a == g * (4 * n) + n by {
      assert (4 * g + 1) * n == g * (4 * n) + n;
    }
    RemainderIs(a, 4 * n, g, n);
  }

  lemma RemainderIs(a: int, m: nat, g: int, r: nat)
    requires r < m && a == g * m + r
    ensures a % m == r
  {
    DivisionUndone(a, m);
    var h := a / m;
    assert (h - g) * m == r - a % m;
    OutsideTheStep(h - g, m);
  }

  lemma OutsideTheStep(d: int, m: nat)
    ensures d >= 1 ==> d * m >= m
    ensures d <= -1 ==> d * m <= 0 - m
  {
  }

  lemma MeanOf(latency: int, n: nat, g: int)
    requires n > 0 && 200 * latency == 4 * n * g + n
    ensures Mean(latency, n) == (2 * g) as real + 0.5
  {
    hide Mean;
    var x := Mean(latency, n);
    TwiceTheMean(latency, n);
    assert 4 * n * g + n == (4 * g + 1) * n;
    assert ((4 * g + 1) * n) as real == (4 * g + 1) as real * n as real;
    Cancel(2.0 * x, (4 * g + 1) as real, n as real);
  }

  lemma Cancel(a: real, b: real, c: real)
    requires c > 0.0 && a * c == b * c
    ensures a == b
  {
    assert (a - b) * c == 0.0;
  }

  /** For one latency of 1 among eight turns, the mean 0.125 is reported as 0.12. */
  lemma OneInEight()
    ensures RoundEven(Mean(1, 8)) == 12 && HalfUp(Mean(1, 8)) == 13
  {
    assert Mean(1, 8) == 12.5;
  }
}
