/** What a daily report says, spelled out: which groups it has, in which order, and what is added up in each. */
module MeteringSums {
  import opened Text
  import opened Orders
  import opened Rounding
  import opened Metering
  import Laws = MeteringLaws

  // ---- plain sums over the rows ---------------------------------------------------------------------

  function RequestsAt(rows: seq<Record>, k: GroupKey): int {
    if rows == [] then 0
    else RequestsAt(rows[..|rows| - 1], k) + (if rows[|rows| - 1].at == k then rows[|rows| - 1].used.requests else 0)
  }

  function TokensInAt(rows: seq<Record>, k: GroupKey): int {
    if rows == [] then 0
    else TokensInAt(rows[..|rows| - 1], k) + (if rows[|rows| - 1].at == k then rows[|rows| - 1].used.tokensIn else 0)
  }

  function TokensOutAt(rows: seq<Record>, k: GroupKey): int {
    if rows == [] then 0
    else TokensOutAt(rows[..|rows| - 1], k) + (if rows[|rows| - 1].at == k then rows[|rows| - 1].used.tokensOut else 0)
  }

  function LatencyAt(rows: seq<Record>, k: GroupKey): int {
    if rows == [] then 0
    else LatencyAt(rows[..|rows| - 1], k) + (if rows[|rows| - 1].at == k then rows[|rows| - 1].used.latency else 0)
  }

  function CountAt(rows: seq<Record>, k: GroupKey): nat {
    if rows == [] then 0
    else CountAt(rows[..|rows| - 1], k) + (if rows[|rows| - 1].at == k then 1 else 0)
  }

  /** What a row is charged: what its provider reported, nothing for a fake provider, else its tokens at the model's rate,
      in hundred-millionths of a dollar a token. */
  function Charge(r: Record): real {
    if r.reported.Usd? && r.reported.units > 0.0 then r.reported.units
    else if Contains(r.provider, "fake") then 0.0
    else if r.model.Is? && Lower(r.model.text) in {"gemini-2.5-flash", "google/gemini-3-flash-preview"} then
      (30 * r.used.tokensIn + 250 * r.used.tokensOut) as real
    else (60 * r.used.tokensIn + 220 * r.used.tokensOut) as real
  }

  function ChargeAt(rows: seq<Record>, k: GroupKey): real {
    if rows == [] then 0.0
    else ChargeAt(rows[..|rows| - 1], k) + (if rows[|rows| - 1].at == k then Charge(rows[|rows| - 1]) else 0.0)
  }

  /** The sum of the cost column. */
  function ColumnAt(table: seq<Record>, k: GroupKey): int {
    if table == [] then 0
    else
      var last := table[|table| - 1];
      ColumnAt(table[..|table| - 1], k) + (if last.at == k && last.pricing.AtWrite? then last.pricing.cost else 0)
  }

  lemma ChargeIsCost(r: Record)
    ensures Charge(r) == Cost(r)
  {
    hide Contains, Lower;
  }

  lemma {:induction false} SumsOfGroup(rows: seq<Record>, k: GroupKey)
    ensures var g := RowsAt(rows, k);
            && Used(g) == Usage(RequestsAt(rows, k), TokensInAt(rows, k), TokensOutAt(rows, k), LatencyAt(rows, k))
            && |g| == CountAt(rows, k)
  {
    if rows != [] {
      var n := |rows| - 1;
      var g := RowsAt(rows[..n], k);
      SumsOfGroup(rows[..n], k);
      if rows[n].at == k {
        assert (g + [rows[n]])[..|g|] == g;
      } else {
        assert g + [] == g;
      }
    }
  }

  lemma {:induction false} CostsOfGroup(rows: seq<Record>, k: GroupKey)
    ensures Costs(RowsAt(rows, k)) == ChargeAt(rows, k) && StoredCosts(RowsAt(rows, k)) == ColumnAt(rows, k)
  {
    hide Charge, Cost;
    if rows != [] {
      var n := |rows| - 1;
      var g := RowsAt(rows[..n], k);
      CostsOfGroup(rows[..n], k);
      ChargeIsCost(rows[n]);
      if rows[n].at == k {
        assert (g + [rows[n]])[..|g|] == g;
      } else {
        assert g + [] == g;
      }
    }
  }

  lemma {:induction false} GroupMembers(rows: seq<Record>, k: GroupKey, r: Record)
    ensures r in RowsAt(rows, k) <==> r in rows && r.at == k
  {
    if rows != [] {
      var n := |rows| - 1;
      GroupMembers(rows[..n], k, r);
      assert r in rows <==> r in rows[..n] || r == rows[n];
    }
  }

  // ---- which rows, which groups -----------------------------------------------------------------------

  /** The query takes a row: its day lies in the window, and persona and key are the ones asked for, if any are. */
  predicate Takes(q: Query, r: Record) {
    && q.from <= r.at.day && r.at.day <= q.to
    && (q.persona == Null || q.persona == Is(r.at.persona)) && (q.key == Null || q.key == Is(r.at.key))
  }

  /** By day, then key, then persona, then key source. */
  ghost predicate Before(a: GroupKey, b: GroupKey) {
    || a.day < b.day
    || (a.day == b.day && Precedes(a.key, b.key))
    || (a.day == b.day && a.key == b.key && Precedes(a.persona, b.persona))
    || (a.day == b.day && a.key == b.key && a.persona == b.persona && Precedes(a.source, b.source))
  }

  lemma KeyOrder(a: GroupKey, b: GroupKey)
    ensures KeyLe(a, b) && a != b <==> Before(a, b)
  {
    hide StringLe, Precedes;
    StringLeIsLexicographic(a.key, b.key);
    StringLeIsLexicographic(a.persona, b.persona);
    StringLeIsLexicographic(a.source, b.source);
  }

  /** A report has one entry for each key among the rows the query takes, and they come strictly in order. */
  lemma GroupsOfReport(rows: seq<Record>, q: Query, k: GroupKey)
    ensures (exists a :: a in Daily(rows, q) && a.at == k) <==> exists r :: r in rows && Takes(q, r) && r.at == k
    ensures forall i, j :: 0 <= i < j < |Daily(rows, q)| ==> Before(Daily(rows, q)[i].at, Daily(rows, q)[j].at)
  {
    hide Daily, KeyLe, Before;
    var d := Daily(rows, q);
    Laws.ReportKeysAt(d);
    forall r
      ensures Takes(q, r) <==> Selects(q, r.at)
    {
    }
    hide Takes, Selects;
    Laws.KeysStrictlyIncrease(rows, q, k);
    if a :| a in d && a.at == k {
      var i :| 0 <= i < |d| && d[i] == a;
      assert Laws.ReportKeys(d)[i] == k;
    }
    if k in Laws.ReportKeys(d) {
      var i :| 0 <= i < |d| && Laws.ReportKeys(d)[i] == k;
      assert d[i] in d;
    }
    forall i, j | 0 <= i < j < |d|
      ensures Before(d[i].at, d[j].at)
    {
      Laws.KeysStrictlyIncrease(rows, q, d[i].at);
      assert KeyLe(Laws.ReportKeys(d)[i], Laws.ReportKeys(d)[j]) && Laws.ReportKeys(d)[i] != Laws.ReportKeys(d)[j];
      KeyOrder(d[i].at, d[j].at);
    }
  }

  // ---- what each entry says ----------------------------------------------------------------------------

  /** n is x rounded to the nearest whole number, halves to even. */
  predicate Nearest(x: real, n: int) {
    -0.5 < x - n as real < 0.5 || ((x - n as real == 0.5 || x - n as real == -0.5) && n % 2 == 0)
  }

  /** The entry adds up the group's rows. The mean latency is 100 times their latencies over their number. */
  predicate AddsUp(a: Aggregate, rows: seq<Record>) {
    && a.requests == RequestsAt(rows, a.at) && a.tokensIn == TokensInAt(rows, a.at) && a.tokensOut == TokensOutAt(rows, a.at)
    && CountAt(rows, a.at) > 0
    && Nearest((100 * LatencyAt(rows, a.at)) as real / CountAt(rows, a.at) as real, a.latencyCents)
  }

  function ConversationsAt(rows: seq<Record>, k: GroupKey): set<string> {
    set r | r in rows && r.at == k && r.conversation.Is? :: r.conversation.text
  }

  function OrgsAt(rows: seq<Record>, k: GroupKey): set<string> {
    set r | r in rows && r.at == k && r.org.Is? :: r.org.text
  }

  /** The in-memory report of a group: sums, the price of the summed charges, the number of distinct non-empty
      conversations, and the one non-empty organisation if there is just one. */
  predicate Says(a: Aggregate, rows: seq<Record>) {
    var named := OrgsAt(rows, a.at) - {""};
    && AddsUp(a, rows)
    && Nearest(ChargeAt(rows, a.at), a.cost)
    && a.conversations == |ConversationsAt(rows, a.at) - {""}|
    && (if |named| == 1 then a.org.Is? && named == {a.org.text} else a.org == Null)
  }

  /** The stored report: the same sums, the sum of the cost column, the number of distinct conversations, and the least
      organisation. */
  ghost predicate SaysStored(a: Aggregate, table: seq<Record>) {
    var orgs := OrgsAt(table, a.at);
    && AddsUp(a, table)
    && a.cost == ColumnAt(table, a.at)
    && a.conversations == |ConversationsAt(table, a.at)|
    && (if orgs == {} then a.org == Null else a.org.Is? && a.org.text in orgs && forall o :: o in orgs ==> StringLe(a.org.text, o))
  }

  lemma MeanIs(latency: int, n: nat)
    requires n > 0
    ensures Nearest((100 * latency) as real / n as real, RoundEven(Mean(latency, n)))
  {
    assert (100 * latency) as real == 100.0 * latency as real;
    RoundEvenIs(Mean(latency, n), RoundEven(Mean(latency, n)));
  }

  lemma GroupSets(rows: seq<Record>, k: GroupKey)
    ensures Conversations(RowsAt(rows, k)) == ConversationsAt(rows, k) && Orgs(RowsAt(rows, k)) == OrgsAt(rows, k)
  {
    hide RowsAt;
    var g := RowsAt(rows, k);
    forall r
      ensures r in g <==> r in rows && r.at == k
    {
      GroupMembers(rows, k, r);
    }
    forall c
      ensures c in Conversations(g) <==> c in ConversationsAt(rows, k)
      ensures c in Orgs(g) <==> c in OrgsAt(rows, k)
    {
    }
  }

  lemma OneNamed(orgs: set<string>)
    ensures |orgs| == 1 ==> orgs == {Only(orgs)}
  {
    if |orgs| == 1 {
      SingletonHasOne(orgs);
      var x := Only(orgs);
      assert x in orgs;
    }
  }

  lemma EntrySays(rows: seq<Record>, k: GroupKey)
    requires CountAt(rows, k) > 0
    ensures Says(InMemory(k, RowsAt(rows, k)), rows)
  {
    hide RowsAt, Used, Costs, Conversations, Orgs, Only, RoundEven, Mean, Nearest, ConversationsAt, OrgsAt;
    SumsOfGroup(rows, k);
    CostsOfGroup(rows, k);
    GroupSets(rows, k);
    MeanIs(LatencyAt(rows, k), CountAt(rows, k));
    CentsAreNearest(ChargeAt(rows, k));
    OneNamed(OrgsAt(rows, k) - {""});
  }

  lemma CentsAreNearest(x: real)
    ensures Nearest(x, RoundEven(x))
  {
    RoundEvenIs(x, RoundEven(x));
  }

  lemma StoredEntrySays(table: seq<Record>, k: GroupKey)
    requires CountAt(table, k) > 0
    ensures SaysStored(GroupBy(k, RowsAt(table, k)), table)
  {
    hide RowsAt, Used, StoredCosts, Conversations, Orgs, RoundEven, Mean, Nearest, StringLe, ConversationsAt, OrgsAt;
    SumsOfGroup(table, k);
    CostsOfGroup(table, k);
    GroupSets(table, k);
    MeanIs(LatencyAt(table, k), CountAt(table, k));
  }

  lemma {:induction false} CountMeans(rows: seq<Record>, k: GroupKey)
    ensures CountAt(rows, k) > 0 <==> exists r :: r in rows && r.at == k
  {
    if rows != [] {
      var n := |rows| - 1;
      CountMeans(rows[..n], k);
      assert forall r :: r in rows <==> r in rows[..n] || r == rows[n];
    }
  }

  /** Selecting first loses nothing of a group the query takes. */
  lemma {:induction false} SelectKeepsGroup(rows: seq<Record>, q: Query, k: GroupKey)
    requires Selects(q, k)
    ensures RowsAt(Select(rows, q), k) == RowsAt(rows, k)
  {
    hide Selects;
    if rows != [] {
      var n := |rows| - 1;
      SelectKeepsGroup(rows[..n], q, k);
      Laws.RowsAtSelect(rows, q, k);
      assert RowsAt(rows[..n], k) + [] == RowsAt(rows[..n], k);
    }
  }

  lemma {:induction false} EntryOf(keys: seq<GroupKey>, rows: seq<Record>, a: Aggregate)
    ensures a in Report(keys, rows) <==> exists k :: k in keys && a == InMemory(k, RowsAt(rows, k))
  {
    hide InMemory, RowsAt;
    if keys != [] {
      EntryOf(keys[1..], rows, a);
      assert a in Report(keys, rows) <==> a == InMemory(keys[0], RowsAt(rows, keys[0])) || a in Report(keys[1..], rows);
      assert forall k :: k in keys <==> k == keys[0] || k in keys[1..];
    }
  }

  lemma {:induction false} StoredEntryOf(keys: seq<GroupKey>, rows: seq<Record>, a: Aggregate)
    ensures a in TableReport(keys, rows) <==> exists k :: k in keys && a == GroupBy(k, RowsAt(rows, k))
  {
    hide GroupBy, RowsAt;
    if keys != [] {
      StoredEntryOf(keys[1..], rows, a);
      assert a in TableReport(keys, rows) <==> a == GroupBy(keys[0], RowsAt(rows, keys[0])) || a in TableReport(keys[1..], rows);
      assert forall k :: k in keys <==> k == keys[0] || k in keys[1..];
    }
  }

  /** The key of an entry is that of a row the query takes. */
  lemma KeyOfEntry(rows: seq<Record>, q: Query, k: GroupKey)
    requires k in SortedSet(Keys(Select(rows, q)), KeyLe)
    ensures Selects(q, k) && CountAt(rows, k) > 0
  {
    hide Selects, KeyLe, TotalOrder, SortedSet, Keys, Select;
    KeyLeIsTotal();
    SortedSetIs(Keys(Select(rows, q)), KeyLe);
    Laws.KeysOfSelect(rows, q, k);
    CountMeans(rows, k);
  }

  /** Every entry of every in-memory report says what its group's rows add up to: nothing is lost, counted twice or taken
      from another group. */
  lemma EveryEntrySays(rows: seq<Record>, q: Query, a: Aggregate)
    requires a in Daily(rows, q)
    ensures Says(a, rows)
  {
    hide Selects, KeyLe, SortedSet, Keys, Select, Report, InMemory, RowsAt, Says;
    var keys := SortedSet(Keys(Select(rows, q)), KeyLe);
    EntryOf(keys, Select(rows, q), a);
    var k :| k in keys && a == InMemory(k, RowsAt(Select(rows, q), k));
    KeyOfEntry(rows, q, k);
    SelectKeepsGroup(rows, q, k);
    EntrySays(rows, k);
  }

  /** And so does every entry of the durable report, of the rows as they are stored. */
  lemma EveryStoredEntrySays(table: seq<Record>, q: Query, a: Aggregate)
    requires a in DailyStored(table, q)
    ensures SaysStored(a, table)
  {
    hide Selects, KeyLe, SortedSet, Keys, Select, TableReport, GroupBy, RowsAt, SaysStored;
    var keys := SortedSet(Keys(Select(table, q)), KeyLe);
    StoredEntryOf(keys, Select(table, q), a);
    var k :| k in keys && a == GroupBy(k, RowsAt(Select(table, q), k));
    KeyOfEntry(table, q, k);
    SelectKeepsGroup(table, q, k);
    StoredEntrySays(table, k);
  }

  /** A stored row is the recorded one with its price rounded to the column: to the nearest unit, halves away from zero. */
  lemma StoredRow(r: Record)
    ensures var s := Store(r);
            && s.pricing.AtWrite? && r == s.(pricing := r.pricing)
            && var c := s.pricing.cost as real; var x := Charge(r);
               x - 0.5 <= c <= x + 0.5 && (c == x - 0.5 ==> x < 0.0) && (c == x + 0.5 ==> x > 0.0)
  {
    hide Cost, Charge, BasisOf;
    ChargeIsCost(r);
  }

  // ---- totals ----------------------------------------------------------------------------------------------

  function Requests(rows: seq<Record>, q: Query): int {
    if rows == [] then 0
    else Requests(rows[..|rows| - 1], q) + (if Takes(q, rows[|rows| - 1]) then rows[|rows| - 1].used.requests else 0)
  }

  function TokensIn(rows: seq<Record>, q: Query): int {
    if rows == [] then 0
    else TokensIn(rows[..|rows| - 1], q) + (if Takes(q, rows[|rows| - 1]) then rows[|rows| - 1].used.tokensIn else 0)
  }

  function TokensOut(rows: seq<Record>, q: Query): int {
    if rows == [] then 0
    else TokensOut(rows[..|rows| - 1], q) + (if Takes(q, rows[|rows| - 1]) then rows[|rows| - 1].used.tokensOut else 0)
  }

  lemma {:induction false} UsedOfSelection(rows: seq<Record>, q: Query)
    ensures var u := Used(Select(rows, q));
            (u.requests, u.tokensIn, u.tokensOut) == (Requests(rows, q), TokensIn(rows, q), TokensOut(rows, q))
  {
    if rows != [] {
      var n := |rows| - 1;
      var front := Select(rows[..n], q);
      UsedOfSelection(rows[..n], q);
      assert Takes(q, rows[n]) <==> Selects(q, rows[n].at);
      if Selects(q, rows[n].at) {
        assert (front + [rows[n]])[..|front|] == front;
      } else {
        assert front + [] == front;
      }
    }
  }

  /** Grouping neither loses nor invents usage: the requests and tokens of a report add up to those of the rows it is of. */
  lemma ReportsConserve(rows: seq<Record>, q: Query)
    ensures Laws.Totals(Daily(rows, q)) == (Requests(rows, q), TokensIn(rows, q), TokensOut(rows, q))
  {
    hide Daily, Select, Used;
    Laws.DailyConserves(rows, q);
    UsedOfSelection(rows, q);
  }
}
