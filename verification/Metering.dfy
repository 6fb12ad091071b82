/** Usage rows, their prices, and the two recorders that add them up by day, key, persona and key source. Money is
    counted in hundred-millionths of a dollar, the last place of NUMERIC(14,8). */
module Metering {
  import opened Text
  import opened Orders
  import opened Rounding

  datatype Maybe = Null | Is(text: string)

  /** A cost the provider reported, in any fraction of the unit. */
  datatype Reported = NoReport | Usd(units: real)

  datatype Usage = Usage(requests: int, tokensIn: int, tokensOut: int, latency: int)
  datatype GroupKey = GroupKey(day: int, key: string, persona: string, source: string)
  datatype Basis = ReportedCost | Free | Modeled

  /** When a row gets its price: each time it is read, or once, when it is written. */
  datatype Pricing = AtRead | AtWrite(cost: int, basis: Basis)
  datatype Record = Record(at: GroupKey, org: Maybe, conversation: Maybe, provider: string, model: Maybe, used: Usage,
                           reported: Reported, pricing: Pricing)

  // ---- pricing ----------------------------------------------------------------------------------

  /** Units per token in and out: 0.60 and 2.20, or 0.30 and 2.50, dollars per million. */
  datatype Rate = Rate(tokenIn: nat, tokenOut: nat)
  const STANDARD := Rate(60, 220)
  const GEMINI := Rate(30, 250)

  function RateOf(model: Maybe): Rate {
    var name := if model.Is? then Lower(model.text) else "";
    if name == "gemini-2.5-flash" || name == "google/gemini-3-flash-preview" then GEMINI else STANDARD
  }

  function BasisOf(r: Record): Basis {
    if r.reported.Usd? && r.reported.units > 0.0 then ReportedCost
    else if Contains(r.provider, "fake") then Free
    else Modeled
  }

  function Cost(r: Record): real {
    match BasisOf(r)
    case ReportedCost => r.reported.units
    case Free => 0.0
    case Modeled => (r.used.tokensIn * RateOf(r.model).tokenIn + r.used.tokensOut * RateOf(r.model).tokenOut) as real
  }

  /** To the nearest unit as a NUMERIC is stored: halves away from zero. */
  function RoundAway(x: real): int {
    if x >= 0.0 then (x + 0.5).Floor else -((0.5 - x).Floor)
  }

  predicate Whole(x: real) {
    x == x.Floor as real
  }

  // ---- selecting and grouping -------------------------------------------------------------------

  datatype Query = Query(from: int, to: int, persona: Maybe, key: Maybe)

  predicate Selects(q: Query, k: GroupKey) {
    && q.from <= k.day <= q.to
    && (q.persona.Is? ==> k.persona == q.persona.text)
    && (q.key.Is? ==> k.key == q.key.text)
  }

  function Select(rows: seq<Record>, q: Query): seq<Record> {
    if rows == [] then []
    else
      var n := |rows| - 1;
      Select(rows[..n], q) + (if Selects(q, rows[n].at) then [rows[n]] else [])
  }

  function Keys(rows: seq<Record>): seq<GroupKey> {
    if rows == [] then [] else Keys(rows[..|rows| - 1]) + [rows[|rows| - 1].at]
  }

  function RowsAt(rows: seq<Record>, k: GroupKey): seq<Record> {
    if rows == [] then []
    else
      var n := |rows| - 1;
      RowsAt(rows[..n], k) + (if rows[n].at == k then [rows[n]] else [])
  }

  predicate StringLess(a: string, b: string) {
    a != b && StringLe(a, b)
  }

  predicate KeyLe(a: GroupKey, b: GroupKey) {
    || a.day < b.day
    || (a.day == b.day
        && (|| StringLess(a.key, b.key)
            || (a.key == b.key
                && (StringLess(a.persona, b.persona) || (a.persona == b.persona && StringLe(a.source, b.source))))))
  }

  // ---- adding up --------------------------------------------------------------------------------

  function Add(a: Usage, b: Usage): Usage {
    Usage(a.requests + b.requests, a.tokensIn + b.tokensIn, a.tokensOut + b.tokensOut, a.latency + b.latency)
  }

  function Used(rows: seq<Record>): Usage {
    if rows == [] then Usage(0, 0, 0, 0) else Add(Used(rows[..|rows| - 1]), rows[|rows| - 1].used)
  }

  function Costs(rows: seq<Record>): real {
    if rows == [] then 0.0 else Costs(rows[..|rows| - 1]) + Cost(rows[|rows| - 1])
  }

  /** The row as it goes into the table, its price rounded to the column. */
  function Store(r: Record): Record {
    r.(pricing := AtWrite(RoundAway(Cost(r)), BasisOf(r)))
  }

  function StoreAll(rows: seq<Record>): seq<Record> {
    if rows == [] then [] else StoreAll(rows[..|rows| - 1]) + [Store(rows[|rows| - 1])]
  }

  /** SUM over the cost column. */
  function StoredCosts(rows: seq<Record>): int {
    if rows == [] then 0
    else
      var last := rows[|rows| - 1].pricing;
      StoredCosts(rows[..|rows| - 1]) + (if last.AtWrite? then last.cost else 0)
  }

  function Orgs(rows: seq<Record>): set<string> {
    set i | 0 <= i < |rows| && rows[i].org.Is? :: rows[i].org.text
  }

  function Conversations(rows: seq<Record>): set<string> {
    set i | 0 <= i < |rows| && rows[i].conversation.Is? :: rows[i].conversation.text
  }

  datatype Aggregate = Aggregate(at: GroupKey, requests: int, tokensIn: int, tokensOut: int, cost: int, latencyCents: int,
                                 conversations: nat, org: Maybe)

  /** The mean in hundredths; an empty group has none, and reads as zero. */
  function Mean(latency: int, n: nat): real {
    if n == 0 then 0.0 else 100.0 * latency as real / n as real
  }

  /** The one element of a one-element set. */
  function Only(s: set<string>): string
    requires |s| == 1
  {
    SingletonHasOne(s);
    var x :| x in s;
    x
  }

  lemma SingletonHasOne(s: set<string>)
    requires |s| == 1
    ensures exists x :: x in s && forall y :: y in s ==> y == x
  {
    var x :| x in s;
    assert |s - {x}| == 0;
  }

  /** The group as the in-memory recorder reports it: empty texts do not count. */
  function InMemory(k: GroupKey, rows: seq<Record>): Aggregate
  {
    var orgs := Orgs(rows) - {""};
    var u := Used(rows);
    Aggregate(k, u.requests, u.tokensIn, u.tokensOut, RoundEven(Costs(rows)), RoundEven(Mean(u.latency, |rows|)),
              |Conversations(rows) - {""}|, if |orgs| == 1 then Is(Only(orgs)) else Null)
  }

  ghost function LeastOf(s: set<string>): (x: string)
    requires s != {}
    ensures x in s && forall y :: y in s ==> StringLe(x, y)
  {
    HasLeast(s);
    var x :| x in s && forall y :: y in s ==> StringLe(x, y);
    x
  }

  lemma {:induction false} HasLeast(s: set<string>)
    requires s != {}
    ensures exists x :: x in s && forall y :: y in s ==> StringLe(x, y)
    decreases |s|
  {
    var a :| a in s;
    StringLeIsTotal();
    if s == {a} {
      assert forall y :: y in s ==> StringLe(a, y);
    } else {
      HasLeast(s - {a});
      var x :| x in s - {a} && forall y :: y in s - {a} ==> StringLe(x, y);
      var least := if StringLe(a, x) then a else x;
      assert forall y :: y in s ==> y == a || y in s - {a};
      assert least in s && forall y :: y in s ==> StringLe(least, y);
    }
  }

  /** The group as the database reports it: SUM, AVG, COUNT DISTINCT and MIN skip only NULL. */
  ghost function GroupBy(k: GroupKey, rows: seq<Record>): Aggregate
  {
    var u := Used(rows);
    Aggregate(k, u.requests, u.tokensIn, u.tokensOut, StoredCosts(rows), RoundEven(Mean(u.latency, |rows|)),
              |Conversations(rows)|, if Orgs(rows) == {} then Null else Is(LeastOf(Orgs(rows))))
  }

  function Report(keys: seq<GroupKey>, rows: seq<Record>): seq<Aggregate> {
    if keys == [] then [] else [InMemory(keys[0], RowsAt(rows, keys[0]))] + Report(keys[1..], rows)
  }

  ghost function TableReport(keys: seq<GroupKey>, rows: seq<Record>): seq<Aggregate> {
    if keys == [] then [] else [GroupBy(keys[0], RowsAt(rows, keys[0]))] + TableReport(keys[1..], rows)
  }

  /** What the in-memory recorder owes: one aggregate for each key among the selected rows, in key order. */
  function Daily(rows: seq<Record>, q: Query): seq<Aggregate> {
    Report(SortedSet(Keys(Select(rows, q)), KeyLe), Select(rows, q))
  }

  /** What the database owes: the same grouping over the stored rows. */
  ghost function DailyStored(rows: seq<Record>, q: Query): seq<Aggregate> {
    TableReport(SortedSet(Keys(Select(rows, q)), KeyLe), Select(rows, q))
  }

  // ---- the order of keys --------------------------------------------------------------------------

  lemma KeyLeTotal(a: GroupKey, b: GroupKey)
    ensures KeyLe(a, b) || KeyLe(b, a)
    ensures KeyLe(a, b) && KeyLe(b, a) ==> a == b
  {
    hide StringLe;
    StringLeTotal(a.key, b.key);
    StringLeTotal(a.persona, b.persona);
    StringLeTotal(a.source, b.source);
  }

  lemma LessTransitive(a: string, b: string, c: string)
    ensures StringLess(a, b) && StringLess(b, c) ==> StringLess(a, c)
  {
    hide StringLe;
    if StringLess(a, b) && StringLess(b, c) {
      StringLeTransitive(a, b, c);
      StringLeTotal(a, b);
    }
  }

  lemma KeyLeTransitive(a: GroupKey, b: GroupKey, c: GroupKey)
    requires KeyLe(a, b) && KeyLe(b, c)
    ensures KeyLe(a, c)
  {
    hide StringLe, StringLess;
    LessTransitive(a.key, b.key, c.key);
    LessTransitive(a.persona, b.persona, c.persona);
    if StringLe(a.source, b.source) && StringLe(b.source, c.source) {
      StringLeTransitive(a.source, b.source, c.source);
    }
  }

  lemma KeyLeIsTotal()
    ensures TotalOrder(KeyLe)
  {
    hide KeyLe;
    forall a, b
      ensures (KeyLe(a, b) || KeyLe(b, a)) && (KeyLe(a, b) && KeyLe(b, a) ==> a == b)
    {
      KeyLeTotal(a, b);
    }
    forall a, b, c | KeyLe(a, b) && KeyLe(b, c)
      ensures KeyLe(a, c)
    {
      KeyLeTransitive(a, b, c);
    }
  }

  // ---- the in-memory recorder -----------------------------------------------------------------------

  predicate AggregateLe(a: Aggregate, b: Aggregate) {
    KeyLe(a.at, b.at)
  }

  class InMemoryUsageRecorder {
    var rows: seq<Record>

    constructor ()
      ensures rows == []
    {
      rows := [];
    }

    method RecordTurn(record: Record)
      modifies this
      ensures rows == old(rows) + [record]
    {
      rows := rows + [record];
    }

    /** Group in a dictionary, add each group up, sort the aggregates by key. */
    method DailyAggregates(q: Query) returns (aggregates: seq<Aggregate>)
      ensures aggregates == Daily(rows, q)
    {
      hide Selects, KeyLe, InMemory;
      var grouped: map<GroupKey, seq<Record>> := map[];
      var order: seq<GroupKey> := [];
      for i := 0 to |rows|
        invariant Grouped(Select(rows[..i], q), grouped, order)
      {
        assert rows[..i + 1][..i] == rows[..i];
        if !Selects(q, rows[i].at) {
          assert Select(rows[..i], q) + [] == Select(rows[..i], q);
          continue;
        }
        ghost var sel := Select(rows[..i], q);
        GroupedGrows(sel, grouped, order, rows[i]);
        var k := rows[i].at;
        if k in grouped {
          grouped := grouped[k := grouped[k] + [rows[i]]];
        } else {
          grouped := grouped[k := [rows[i]]];
          order := order + [k];
        }
      }
      assert rows[..|rows|] == rows;
      ghost var sel := Select(rows, q);
      aggregates := [];
      for i := 0 to |order|
        invariant Grouped(sel, grouped, order)
        invariant aggregates == Report(order[..i], sel)
      {
        ReportSnoc(order[..i], order[i], sel);
        assert order[..i + 1] == order[..i] + [order[i]];
        aggregates := aggregates + [InMemory(order[i], grouped[order[i]])];
      }
      assert order[..|order|] == order;
      aggregates := Sort(aggregates, AggregateLe);
      SortReport(order, sel);
      OrderIsSortedSet(sel, grouped, order);
    }
  }

  ghost predicate Grouped(sel: seq<Record>, grouped: map<GroupKey, seq<Record>>, order: seq<GroupKey>) {
    && (forall k :: k in grouped <==> k in Keys(sel))
    && (forall k :: k in grouped <==> k in order)
    && (forall k :: k in grouped ==> grouped[k] == RowsAt(sel, k))
    && (forall i, j :: 0 <= i < j < |order| ==> order[i] != order[j])
  }

  lemma RowsAtSnoc(sel: seq<Record>, r: Record, k: GroupKey)
    ensures RowsAt(sel + [r], k) == if k == r.at then RowsAt(sel, k) + [r] else RowsAt(sel, k)
  {
    assert (sel + [r])[..|sel|] == sel;
    assert RowsAt(sel, k) + [] == RowsAt(sel, k);
  }

  lemma KeysSnoc(sel: seq<Record>, r: Record)
    ensures Keys(sel + [r]) == Keys(sel) + [r.at]
  {
    assert (sel + [r])[..|sel|] == sel;
  }

  lemma GroupedGrows(sel: seq<Record>, grouped: map<GroupKey, seq<Record>>, order: seq<GroupKey>, r: Record)
    requires Grouped(sel, grouped, order)
    ensures r.at in grouped ==> Grouped(sel + [r], grouped[r.at := grouped[r.at] + [r]], order)
    ensures r.at !in grouped ==> Grouped(sel + [r], grouped[r.at := [r]], order + [r.at])
  {
    hide RowsAt, Keys;
    KeysSnoc(sel, r);
    forall k
      ensures RowsAt(sel + [r], k) == if k == r.at then RowsAt(sel, k) + [r] else RowsAt(sel, k)
    {
      RowsAtSnoc(sel, r, k);
    }
    NoRowsAt(sel, r.at);
    assert [] + [r] == [r];
  }

  lemma {:induction false} NoRowsAt(rows: seq<Record>, k: GroupKey)
    ensures RowsAt(rows, k) == [] <==> k !in Keys(rows)
  {
    if rows != [] {
      NoRowsAt(rows[..|rows| - 1], k);
    }
  }

  lemma {:induction false} ReportSnoc(keys: seq<GroupKey>, k: GroupKey, rows: seq<Record>)
    ensures Report(keys + [k], rows) == Report(keys, rows) + [InMemory(k, RowsAt(rows, k))]
  {
    hide InMemory;
    if keys != [] {
      assert (keys + [k])[1..] == keys[1..] + [k];
      ReportSnoc(keys[1..], k, rows);
    }
  }

  lemma {:induction false} InsertReport(k: GroupKey, keys: seq<GroupKey>, rows: seq<Record>)
    ensures Report(Insert(k, keys, KeyLe), rows) == Insert(InMemory(k, RowsAt(rows, k)), Report(keys, rows), AggregateLe)
  {
    hide KeyLe;
    if keys != [] && !KeyLe(k, keys[0]) {
      InsertReport(k, keys[1..], rows);
    }
  }

  lemma {:induction false} SortReport(keys: seq<GroupKey>, rows: seq<Record>)
    ensures Sort(Report(keys, rows), AggregateLe) == Report(Sort(keys, KeyLe), rows)
  {
    hide KeyLe, InMemory;
    if keys != [] {
      SortReport(keys[1..], rows);
      InsertReport(keys[0], Sort(keys[1..], KeyLe), rows);
    }
  }

  lemma OrderIsSortedSet(sel: seq<Record>, grouped: map<GroupKey, seq<Record>>, order: seq<GroupKey>)
    requires Grouped(sel, grouped, order)
    ensures Sort(order, KeyLe) == SortedSet(Keys(sel), KeyLe)
  {
    hide KeyLe, TotalOrder;
    KeyLeIsTotal();
    SortedSetIs(Keys(sel), KeyLe);
    SortSorts(order, KeyLe);
    DistinctStays(order, Sort(order, KeyLe));
    forall k
      ensures k in Sort(order, KeyLe) <==> k in SortedSet(Keys(sel), KeyLe)
    {
      SortKeepsMembers(order, KeyLe, k);
    }
    IncreasingIsUnique(Sort(order, KeyLe), SortedSet(Keys(sel), KeyLe), KeyLe);
  }

  lemma DistinctStays<T>(a: seq<T>, b: seq<T>)
    requires multiset(a) == multiset(b)
    requires forall i, j :: 0 <= i < j < |a| ==> a[i] != a[j]
    ensures forall i, j :: 0 <= i < j < |b| ==> b[i] != b[j]
  {
    forall i, j | 0 <= i < j < |b|
      ensures b[i] != b[j]
    {
      AtMostOnce(a, b[i]);
      Twice(b, i, j);
    }
  }

  lemma Twice<T>(b: seq<T>, i: nat, j: nat)
    requires i < j < |b|
    ensures b[i] == b[j] ==> multiset(b)[b[i]] >= 2
  {
    assert b == b[..j] + [b[j]] + b[j + 1..];
    assert b[i] in b[..j];
  }

  lemma {:induction false} AtMostOnce<T>(a: seq<T>, x: T)
    requires forall i, j :: 0 <= i < j < |a| ==> a[i] != a[j]
    ensures multiset(a)[x] <= 1
  {
    if a != [] {
      assert a == [a[0]] + a[1..];
      AtMostOnce(a[1..], x);
      assert a[0] !in a[1..];
    }
  }

  // ---- the durable recorder ---------------------------------------------------------------------------

  /** The table keeps one priced row for each turn. */
  class PostgresUsageRecorder {
    var table: seq<Record>

    constructor ()
      ensures table == []
    {
      table := [];
    }

    method RecordTurn(record: Record)
      modifies this
      ensures table == old(table) + [Store(record)]
    {
      table := table + [Store(record)];
    }

    ghost function DailyAggregates(q: Query): seq<Aggregate>
      reads this
    {
      DailyStored(table, q)
    }
  }
}
