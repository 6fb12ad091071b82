/** What the daily aggregates guarantee, and when the two recorders report the same. */
module MeteringLaws {
  import opened Orders
  import opened Metering

  // ---- keys -----------------------------------------------------------------------------------------

  function ReportKeys(aggregates: seq<Aggregate>): seq<GroupKey> {
    if aggregates == [] then [] else [aggregates[0].at] + ReportKeys(aggregates[1..])
  }

  lemma {:induction false} KeysOfReport(keys: seq<GroupKey>, rows: seq<Record>)
    ensures ReportKeys(Report(keys, rows)) == keys
  {
    hide InMemory;
    if keys != [] {
      KeysOfReport(keys[1..], rows);
      InMemoryKey(keys[0], RowsAt(rows, keys[0]));
    }
  }

  lemma InMemoryKey(k: GroupKey, rows: seq<Record>)
    ensures InMemory(k, rows).at == k
  {
  }

  lemma {:induction false} KeysAre(rows: seq<Record>, k: GroupKey)
    ensures k in Keys(rows) <==> exists r :: r in rows && r.at == k
  {
    if rows != [] {
      var n := |rows| - 1;
      KeysAre(rows[..n], k);
      assert forall r :: r in rows <==> r in rows[..n] || r == rows[n];
    }
  }

  lemma {:induction false} SelectIs(rows: seq<Record>, q: Query, r: Record)
    ensures r in Select(rows, q) <==> r in rows && Selects(q, r.at)
  {
    hide Selects;
    if rows != [] {
      var n := |rows| - 1;
      SelectIs(rows[..n], q, r);
      assert r in rows <==> r in rows[..n] || r == rows[n];
    }
  }

  /** The aggregates come in strictly increasing key order, and there is one for a key exactly when some row the
      query selects has that key: each selected row falls in exactly one group. */
  lemma KeysStrictlyIncrease(rows: seq<Record>, q: Query, k: GroupKey)
    ensures Increasing(ReportKeys(Daily(rows, q)), KeyLe)
    ensures k in ReportKeys(Daily(rows, q)) <==> exists r :: r in rows && Selects(q, r.at) && r.at == k
  {
    hide Selects, KeyLe, TotalOrder, Keys, Select, SortedSet, Report, Increasing;
    var sel := Select(rows, q);
    KeyLeIsTotal();
    SortedSetIs(Keys(sel), KeyLe);
    KeysOfReport(SortedSet(Keys(sel), KeyLe), sel);
    KeysAre(sel, k);
    forall r
      ensures r in sel <==> r in rows && Selects(q, r.at)
    {
      SelectIs(rows, q, r);
    }
  }

  // ---- conservation -----------------------------------------------------------------------------------

  /** Requests and tokens over a list of aggregates. */
  function Totals(aggregates: seq<Aggregate>): (int, int, int) {
    if aggregates == [] then (0, 0, 0)
    else
      var rest := Totals(aggregates[1..]);
      var a := aggregates[0];
      (a.requests + rest.0, a.tokensIn + rest.1, a.tokensOut + rest.2)
  }

  function UsedOver(keys: seq<GroupKey>, rows: seq<Record>): Usage {
    if keys == [] then Usage(0, 0, 0, 0) else Add(Used(RowsAt(rows, keys[0])), UsedOver(keys[1..], rows))
  }

  lemma {:induction false} TotalsOfReport(keys: seq<GroupKey>, rows: seq<Record>)
    ensures var u := UsedOver(keys, rows); Totals(Report(keys, rows)) == (u.requests, u.tokensIn, u.tokensOut)
  {
    hide InMemory, RowsAt, Used;
    if keys != [] {
      TotalsOfReport(keys[1..], rows);
      InMemorySums(keys[0], RowsAt(rows, keys[0]));
    }
  }

  lemma InMemorySums(k: GroupKey, rows: seq<Record>)
    ensures var a := InMemory(k, rows); var u := Used(rows);
            a.requests == u.requests && a.tokensIn == u.tokensIn && a.tokensOut == u.tokensOut
  {
  }

  predicate NoRepeats(keys: seq<GroupKey>) {
    forall i, j :: 0 <= i < j < |keys| ==> keys[i] != keys[j]
  }

  lemma {:induction false} OneMoreRow(keys: seq<GroupKey>, rows: seq<Record>, r: Record)
    requires NoRepeats(keys)
    ensures UsedOver(keys, rows + [r]) == if r.at in keys then Add(UsedOver(keys, rows), r.used) else UsedOver(keys, rows)
  {
    hide RowsAt, Used;
    if keys != [] {
      OneMoreRow(keys[1..], rows, r);
      RowsAtSnoc(rows, r, keys[0]);
      UsedSnoc(RowsAt(rows, keys[0]), r);
      assert r.at in keys <==> r.at == keys[0] || r.at in keys[1..];
      assert keys[0] !in keys[1..];
    }
  }

  lemma UsedSnoc(rows: seq<Record>, r: Record)
    ensures Used(rows + [r]) == Add(Used(rows), r.used)
  {
    assert (rows + [r])[..|rows|] == rows;
  }

  lemma {:induction false} NoRows(keys: seq<GroupKey>)
    ensures UsedOver(keys, []) == Usage(0, 0, 0, 0)
  {
    if keys != [] {
      NoRows(keys[1..]);
    }
  }

  lemma {:induction false} UsedIsConserved(keys: seq<GroupKey>, rows: seq<Record>)
    requires NoRepeats(keys) && forall r | r in rows :: r.at in keys
    ensures UsedOver(keys, rows) == Used(rows)
  {
    hide UsedOver;
    if rows == [] {
      NoRows(keys);
    } else {
      var n := |rows| - 1;
      assert rows == rows[..n] + [rows[n]];
      assert rows[n] in rows;
      assert forall r :: r in rows[..n] ==> r in rows;
      UsedIsConserved(keys, rows[..n]);
      OneMoreRow(keys, rows[..n], rows[n]);
    }
  }

  /** Grouping neither loses nor invents usage: over the aggregates, requests and tokens add up to those of the
      selected rows. */
  lemma DailyConserves(rows: seq<Record>, q: Query)
    ensures var u := Used(Select(rows, q)); Totals(Daily(rows, q)) == (u.requests, u.tokensIn, u.tokensOut)
  {
    hide Selects, KeyLe, TotalOrder, Keys, Select, SortedSet, Report, Used, UsedOver, Totals;
    var sel := Select(rows, q);
    var keys := SortedSet(Keys(sel), KeyLe);
    KeyLeIsTotal();
    SortedSetIs(Keys(sel), KeyLe);
    forall r | r in sel
      ensures r.at in keys
    {
      KeysAre(sel, r.at);
    }
    UsedIsConserved(keys, sel);
    TotalsOfReport(keys, sel);
  }

  // ---- filters and windows ------------------------------------------------------------------------------

  function Keep(aggregates: seq<Aggregate>, q: Query): seq<Aggregate> {
    if aggregates == [] then []
    else (if Selects(q, aggregates[0].at) then [aggregates[0]] else []) + Keep(aggregates[1..], q)
  }

  function KeepKeys(keys: seq<GroupKey>, q: Query): seq<GroupKey> {
    if keys == [] then [] else (if Selects(q, keys[0]) then [keys[0]] else []) + KeepKeys(keys[1..], q)
  }

  lemma {:induction false} KeepKeysAre(keys: seq<GroupKey>, q: Query, le: (GroupKey, GroupKey) -> bool)
    requires Increasing(keys, le)
    ensures Increasing(KeepKeys(keys, q), le)
    ensures forall k :: k in KeepKeys(keys, q) <==> k in keys && Selects(q, k)
  {
    hide Selects;
    if keys != [] {
      var rest := KeepKeys(keys[1..], q);
      KeepKeysAre(keys[1..], q, le);
      assert forall k :: k in keys <==> k == keys[0] || k in keys[1..];
      forall j | 0 <= j < |rest|
        ensures le(keys[0], rest[j]) && keys[0] != rest[j]
      {
        assert rest[j] in rest;
        var i :| 1 <= i < |keys| && keys[i] == rest[j];
      }
    }
  }

  lemma {:induction false} RowsAtWithin(rows: seq<Record>, narrow: Query, wide: Query, k: GroupKey)
    requires Selects(narrow, k) && Selects(wide, k)
    ensures RowsAt(Select(rows, narrow), k) == RowsAt(Select(rows, wide), k)
  {
    if rows != [] {
      var n := |rows| - 1;
      RowsAtWithin(rows[..n], narrow, wide, k);
      RowsAtSelect(rows, narrow, k);
      RowsAtSelect(rows, wide, k);
    }
  }

  lemma RowsAtSelect(rows: seq<Record>, q: Query, k: GroupKey)
    requires rows != [] && Selects(q, k)
    ensures var n := |rows| - 1;
            RowsAt(Select(rows, q), k)
            == if rows[n].at == k then RowsAt(Select(rows[..n], q), k) + [rows[n]] else RowsAt(Select(rows[..n], q), k)
  {
    hide Selects;
    var n := |rows| - 1;
    var front := Select(rows[..n], q);
    if Selects(q, rows[n].at) {
      RowsAtSnoc(front, rows[n], k);
    } else {
      assert front + [] == front;
    }
  }

  lemma {:induction false} KeepReport(keys: seq<GroupKey>, rows: seq<Record>, narrow: Query, wide: Query, f: Query)
    requires forall k | k in keys :: Selects(wide, k) && (Selects(narrow, k) <==> Selects(f, k))
    ensures Keep(Report(keys, Select(rows, wide)), f) == Report(KeepKeys(keys, f), Select(rows, narrow))
  {
    hide Selects, InMemory, Select, RowsAt;
    if keys != [] {
      assert keys[0] in keys && forall k :: k in keys[1..] ==> k in keys;
      KeepReport(keys[1..], rows, narrow, wide, f);
      InMemoryKey(keys[0], RowsAt(Select(rows, wide), keys[0]));
      if Selects(f, keys[0]) {
        RowsAtWithin(rows, narrow, wide, keys[0]);
        assert KeepKeys(keys, f)[1..] == KeepKeys(keys[1..], f);
      } else {
        assert KeepKeys(keys, f) == KeepKeys(keys[1..], f);
      }
    }
  }

  lemma KeysOfSelect(rows: seq<Record>, q: Query, k: GroupKey)
    ensures k in Keys(Select(rows, q)) <==> Selects(q, k) && exists r :: r in rows && r.at == k
  {
    hide Selects, Keys, Select;
    KeysAre(Select(rows, q), k);
    forall r
      ensures r in Select(rows, q) <==> r in rows && Selects(q, r.at)
    {
      SelectIs(rows, q, r);
    }
  }

  /** Narrowing the query is narrowing the report. */
  lemma NarrowerReport(rows: seq<Record>, narrow: Query, wide: Query, f: Query)
    requires forall k :: Selects(narrow, k) <==> Selects(wide, k) && Selects(f, k)
    ensures Daily(rows, narrow) == Keep(Daily(rows, wide), f)
  {
    hide Selects, KeyLe, TotalOrder, Keys, Select, SortedSet, Report, Increasing, KeepKeys, Keep;
    var keys := SortedSet(Keys(Select(rows, wide)), KeyLe);
    var kept := SortedSet(Keys(Select(rows, narrow)), KeyLe);
    KeyLeIsTotal();
    SortedSetIs(Keys(Select(rows, wide)), KeyLe);
    SortedSetIs(Keys(Select(rows, narrow)), KeyLe);
    KeepKeysAre(keys, f, KeyLe);
    forall k
      ensures k in keys <==> Selects(wide, k) && exists r :: r in rows && r.at == k
      ensures k in kept <==> Selects(narrow, k) && exists r :: r in rows && r.at == k
    {
      KeysOfSelect(rows, wide, k);
      KeysOfSelect(rows, narrow, k);
    }
    IncreasingIsUnique(kept, KeepKeys(keys, f), KeyLe);
    KeepReport(keys, rows, narrow, wide, f);
  }

  /** Filtering by persona or key before grouping, or after, gives the same aggregates. */
  lemma FiltersCommute(rows: seq<Record>, q: Query)
    ensures Daily(rows, q) == Keep(Daily(rows, Query(q.from, q.to, Null, Null)), q)
  {
    hide Daily, Keep;
    NarrowerReport(rows, q, Query(q.from, q.to, Null, Null), q);
  }

  /** Two adjacent windows report, one after the other, what the joined window reports. */
  lemma AdjacentWindowsConcatenate(rows: seq<Record>, from: int, mid: int, to: int, persona: Maybe, key: Maybe)
    requires from <= mid + 1 && mid <= to
    ensures Daily(rows, Query(from, to, persona, key))
            == Daily(rows, Query(from, mid, persona, key)) + Daily(rows, Query(mid + 1, to, persona, key))
  {
    hide Daily, Keep, KeyLe;
    var whole := Daily(rows, Query(from, to, persona, key));
    var early, late := Query(from, mid, persona, key), Query(mid + 1, to, persona, key);
    NarrowerReport(rows, early, Query(from, to, persona, key), early);
    NarrowerReport(rows, late, Query(from, to, persona, key), late);
    DailyKeys(rows, Query(from, to, persona, key));
    SplitByDay(whole, early, late, mid);
  }

  /** Every aggregate answers the query, and days do not fall along the report. */
  lemma DailyKeys(rows: seq<Record>, q: Query)
    ensures var d := Daily(rows, q);
            && (forall i :: 0 <= i < |d| ==> Selects(q, d[i].at))
            && (forall i, j :: 0 <= i < j < |d| ==> d[i].at.day <= d[j].at.day)
  {
    hide Selects, KeyLe, Daily;
    var d := Daily(rows, q);
    ReportKeysAt(d);
    forall i | 0 <= i < |d|
      ensures Selects(q, d[i].at)
    {
      KeysStrictlyIncrease(rows, q, d[i].at);
      assert d[i].at in ReportKeys(d);
    }
    forall i, j | 0 <= i < j < |d|
      ensures d[i].at.day <= d[j].at.day
    {
      KeysStrictlyIncrease(rows, q, d[i].at);
      assert KeyLe(ReportKeys(d)[i], ReportKeys(d)[j]);
      KeyLeDays(d[i].at, d[j].at);
    }
  }

  lemma KeyLeDays(a: GroupKey, b: GroupKey)
    requires KeyLe(a, b)
    ensures a.day <= b.day
  {
  }

  lemma {:induction false} ReportKeysAt(d: seq<Aggregate>)
    ensures |ReportKeys(d)| == |d| && forall i :: 0 <= i < |d| ==> ReportKeys(d)[i] == d[i].at
  {
    if d != [] {
      ReportKeysAt(d[1..]);
    }
  }

  lemma {:induction false} SplitByDay(d: seq<Aggregate>, early: Query, late: Query, mid: int)
    requires forall i, j :: 0 <= i < j < |d| ==> d[i].at.day <= d[j].at.day
    requires forall i :: 0 <= i < |d| ==> (Selects(early, d[i].at) <==> d[i].at.day <= mid)
    requires forall i :: 0 <= i < |d| ==> (Selects(late, d[i].at) <==> mid < d[i].at.day)
    ensures d == Keep(d, early) + Keep(d, late)
  {
    hide Selects;
    if d != [] {
      SplitByDay(d[1..], early, late, mid);
      if d[0].at.day > mid {
        NothingEarly(d[1..], early);
      }
      assert d == [d[0]] + d[1..];
    }
  }

  lemma {:induction false} NothingEarly(d: seq<Aggregate>, early: Query)
    requires forall i :: 0 <= i < |d| ==> !Selects(early, d[i].at)
    ensures Keep(d, early) == []
  {
    hide Selects;
    if d != [] {
      NothingEarly(d[1..], early);
    }
  }
}
