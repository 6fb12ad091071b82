/** Writing back what was observed in chats: runs over growing exports, kept apart by a watermark. */
module Writeback {
  import opened Orders

  datatype Turn = Turn(id: int, conversation: string, day: string, content: string)
  datatype WindowMode = ByConversation | ByDay
  datatype Decision = Applied | Noise

  /** One logged decision; the line written carries the first and last id of its turns and how many there are. */
  datatype Entry = Entry(window: string, turns: seq<Turn>, decision: Decision)

  /** The filter of turns, the windows they are grouped in, and whether a window drifts from the baseline. */
  datatype Config = Config(matches: Turn -> bool, mode: WindowMode, drifts: seq<Turn> -> bool)
  datatype State = State(watermark: int, log: seq<Entry>)

  const MIN_LINES := 15

  function WindowOf(mode: WindowMode, t: Turn): string {
    if mode == ByDay then t.day else t.conversation
  }

  function Decide(c: Config, turns: seq<Turn>): Decision {
    if |turns| < MIN_LINES then Noise else if c.drifts(turns) then Applied else Noise
  }

  function New(c: Config, turns: seq<Turn>, watermark: int): seq<Turn> {
    if turns == [] then []
    else
      var last := turns[|turns| - 1];
      New(c, turns[..|turns| - 1], watermark) + (if last.id > watermark && c.matches(last) then [last] else [])
  }

  function Windows(mode: WindowMode, turns: seq<Turn>): seq<string> {
    if turns == [] then [] else Windows(mode, turns[..|turns| - 1]) + [WindowOf(mode, turns[|turns| - 1])]
  }

  function TurnsIn(mode: WindowMode, turns: seq<Turn>, window: string): seq<Turn> {
    if turns == [] then []
    else
      var last := turns[|turns| - 1];
      TurnsIn(mode, turns[..|turns| - 1], window) + (if WindowOf(mode, last) == window then [last] else [])
  }

  function Entries(c: Config, turns: seq<Turn>, windows: seq<string>): seq<Entry> {
    if windows == [] then []
    else
      var w := windows[|windows| - 1];
      var kept := TurnsIn(c.mode, turns, w);
      Entries(c, turns, windows[..|windows| - 1]) + [Entry(w, kept, Decide(c, kept))]
  }

  function MaxId(turns: seq<Turn>): int
    requires turns != []
  {
    if |turns| == 1 || turns[|turns| - 1].id >= MaxId(turns[..|turns| - 1]) then turns[|turns| - 1].id
    else MaxId(turns[..|turns| - 1])
  }

  /** One run: a log line for each window of the new turns, in window order; then the watermark, unless the run is dry. */
  function RunOnce(c: Config, s: State, exported: seq<Turn>, dry: bool): State {
    var unseen := New(c, exported, s.watermark);
    State(if !dry && unseen != [] then MaxId(unseen) else s.watermark,
          s.log + Entries(c, unseen, SortedSet(Windows(c.mode, unseen), StringLe)))
  }

  // ---- the tool ----------------------------------------------------------------------------------

  ghost predicate Grouped(mode: WindowMode, done: seq<Turn>, groups: map<string, seq<Turn>>, order: seq<string>) {
    && order == Windows(mode, done)
    && (forall w :: w in groups <==> w in order)
    && (forall w :: w in groups ==> groups[w] == TurnsIn(mode, done, w))
  }

  lemma GroupedGrows(mode: WindowMode, done: seq<Turn>, groups: map<string, seq<Turn>>, order: seq<string>, t: Turn)
    requires Grouped(mode, done, groups, order)
    ensures var w := WindowOf(mode, t);
            Grouped(mode, done + [t], groups[w := (if w in groups then groups[w] else []) + [t]], order + [w])
  {
    hide TurnsIn, Windows;
    WindowsSnoc(mode, done, t);
    forall w
      ensures TurnsIn(mode, done + [t], w) == if WindowOf(mode, t) == w then TurnsIn(mode, done, w) + [t] else TurnsIn(mode, done, w)
    {
      TurnsInSnoc(mode, done, t, w);
    }
    NoTurnsIn(mode, done, WindowOf(mode, t));
  }

  lemma WindowsSnoc(mode: WindowMode, done: seq<Turn>, t: Turn)
    ensures Windows(mode, done + [t]) == Windows(mode, done) + [WindowOf(mode, t)]
  {
    assert (done + [t])[..|done|] == done;
  }

  lemma TurnsInSnoc(mode: WindowMode, done: seq<Turn>, t: Turn, w: string)
    ensures TurnsIn(mode, done + [t], w) == if WindowOf(mode, t) == w then TurnsIn(mode, done, w) + [t] else TurnsIn(mode, done, w)
  {
    assert (done + [t])[..|done|] == done;
    assert TurnsIn(mode, done, w) + [] == TurnsIn(mode, done, w);
  }

  lemma {:induction false} NoTurnsIn(mode: WindowMode, turns: seq<Turn>, w: string)
    ensures w !in Windows(mode, turns) ==> TurnsIn(mode, turns, w) == []
  {
    if turns != [] {
      NoTurnsIn(mode, turns[..|turns| - 1], w);
    }
  }

  class Tool {
    const config: Config
    var watermark: int
    var log: seq<Entry>

    constructor (config: Config)
      ensures this.config == config && Abs() == Initial()
    {
      this.config := config;
      watermark := 0;
      log := [];
    }

    function Abs(): State
      reads this
    {
      State(watermark, log)
    }

    method Run(exported: seq<Turn>, dry: bool) returns (applied: nat, noise: nat)
      modifies this
      ensures Abs() == RunOnce(config, old(Abs()), exported, dry)
      ensures applied + noise == |log| - |old(log)|
    {
      hide TurnsIn, Windows, New, SortedSet, MaxId;
      var unseen := Select(exported);
      var groups: map<string, seq<Turn>> := map[];
      ghost var order: seq<string> := [];
      Ungrouped(config.mode);
      for i := 0 to |unseen|
        invariant unchanged(this)
        invariant Grouped(config.mode, unseen[..i], groups, order)
      {
        GroupedGrows(config.mode, unseen[..i], groups, order, unseen[i]);
        assert unseen[..i + 1] == unseen[..i] + [unseen[i]];
        var w := WindowOf(config.mode, unseen[i]);
        groups := groups[w := (if w in groups then groups[w] else []) + [unseen[i]]];
        order := order + [w];
      }
      assert unseen[..|unseen|] == unseen;
      applied, noise := LogWindows(unseen, groups);
      if !dry && unseen != [] {
        watermark := MaxId(unseen);
      }
    }

    method Select(exported: seq<Turn>) returns (unseen: seq<Turn>)
      ensures unseen == New(config, exported, watermark)
    {
      unseen := [];
      for i := 0 to |exported|
        invariant unseen == New(config, exported[..i], watermark)
      {
        assert exported[..i + 1][..i] == exported[..i];
        if exported[i].id > watermark && config.matches(exported[i]) {
          unseen := unseen + [exported[i]];
        }
      }
      assert exported[..|exported|] == exported;
    }

    /** One decision for each window, in order of its name. */
    method LogWindows(unseen: seq<Turn>, groups: map<string, seq<Turn>>) returns (applied: nat, noise: nat)
      requires Grouped(config.mode, unseen, groups, Windows(config.mode, unseen))
      modifies this`log
      ensures log == old(log) + Entries(config, unseen, SortedSet(Windows(config.mode, unseen), StringLe))
      ensures applied + noise == |log| - |old(log)|
    {
      hide TurnsIn, Windows, SortedSet, StringLe, TotalOrder, Increasing;
      applied, noise := 0, 0;
      ghost var order := Windows(config.mode, unseen);
      var windows := SortedSet(Windows(config.mode, unseen), StringLe);
      StringLeIsTotal();
      SortedSetIs(order, StringLe);
      var entries: seq<Entry> := [];
      for i := 0 to |windows|
        invariant unchanged(this) && entries == Entries(config, unseen, windows[..i])
        invariant applied + noise == |entries|
      {
        assert windows[..i + 1][..i] == windows[..i];
        assert windows[i] in windows;
        var turns := groups[windows[i]];
        var decision := Noise;
        if |turns| >= MIN_LINES && config.drifts(turns) {
          decision := Applied;
        }
        if decision == Applied {
          applied := applied + 1;
        } else {
          noise := noise + 1;
        }
        entries := entries + [Entry(windows[i], turns, decision)];
      }
      assert windows[..|windows|] == windows;
      log := log + entries;
    }
  }

  lemma Ungrouped(mode: WindowMode)
    ensures Grouped(mode, [], map[], [])
  {
  }

  // ---- runs -----------------------------------------------------------------------------------------

  function Initial(): State {
    State(0, [])
  }

  function RunAll(c: Config, exports: seq<seq<Turn>>): State {
    if exports == [] then Initial()
    else RunOnce(c, RunAll(c, exports[..|exports| - 1]), exports[|exports| - 1], false)
  }

  predicate IdOrdered(turns: seq<Turn>) {
    (forall i :: 0 <= i < |turns| ==> turns[i].id > 0) && (forall i, j :: 0 <= i < j < |turns| ==> turns[i].id < turns[j].id)
  }

  /** Each export continues the one before it, with ids that only grow. */
  predicate Growing(exports: seq<seq<Turn>>) {
    (forall i :: 0 < i < |exports| ==> exports[i - 1] <= exports[i]) && (forall i :: 0 <= i < |exports| ==> IdOrdered(exports[i]))
  }

  /** The turns in all logged windows, as often as they are logged. */
  function Logged(log: seq<Entry>): multiset<Turn> {
    if log == [] then multiset{} else Logged(log[..|log| - 1]) + multiset(log[|log| - 1].turns)
  }

  function LoggedCount(log: seq<Entry>): nat {
    if log == [] then 0 else LoggedCount(log[..|log| - 1]) + |log[|log| - 1].turns|
  }

  lemma {:induction false} LoggedAppend(a: seq<Entry>, b: seq<Entry>)
    ensures Logged(a + b) == Logged(a) + Logged(b)
  {
    if b == [] {
      assert a + b == a;
    } else {
      assert (a + b)[..|a + b| - 1] == a + b[..|b| - 1];
      LoggedAppend(a, b[..|b| - 1]);
    }
  }

  lemma {:induction false} CountIsSize(log: seq<Entry>)
    ensures LoggedCount(log) == |Logged(log)|
  {
    if log != [] {
      CountIsSize(log[..|log| - 1]);
    }
  }

  /** Cutting turns into windows keeps every turn once. */
  lemma {:induction false} WindowsPartition(c: Config, turns: seq<Turn>, windows: seq<string>)
    requires forall i, j :: 0 <= i < j < |windows| ==> windows[i] != windows[j]
    requires forall t | t in turns :: WindowOf(c.mode, t) in windows
    ensures Logged(Entries(c, turns, windows)) == multiset(turns)
  {
    hide Entries;
    if turns == [] {
      EmptyWindows(c, windows);
    } else {
      var n := |turns| - 1;
      assert turns == turns[..n] + [turns[n]] && turns[n] in turns;
      assert forall t :: t in turns[..n] ==> t in turns;
      WindowsPartition(c, turns[..n], windows);
      OneMoreTurn(c, turns[..n], turns[n], windows);
    }
  }

  lemma {:induction false} EmptyWindows(c: Config, windows: seq<string>)
    ensures Logged(Entries(c, [], windows)) == multiset{}
  {
    if windows != [] {
      EmptyWindows(c, windows[..|windows| - 1]);
    }
  }

  lemma {:induction false} OneMoreTurn(c: Config, turns: seq<Turn>, t: Turn, windows: seq<string>)
    requires forall i, j :: 0 <= i < j < |windows| ==> windows[i] != windows[j]
    ensures Logged(Entries(c, turns + [t], windows))
            == Logged(Entries(c, turns, windows)) + (if WindowOf(c.mode, t) in windows then multiset{t} else multiset{})
  {
    hide TurnsIn, Entries, Logged;
    if windows == [] {
      NoWindows(c, turns);
      NoWindows(c, turns + [t]);
    } else {
      var n := |windows| - 1;
      OneMoreTurn(c, turns, t, windows[..n]);
      EntriesLast(c, turns, windows);
      EntriesLast(c, turns + [t], windows);
      TurnsInSnoc(c.mode, turns, t, windows[n]);
      var was, kept := Logged(Entries(c, turns, windows[..n])), TurnsIn(c.mode, turns, windows[n]);
      if WindowOf(c.mode, t) == windows[n] {
        assert WindowOf(c.mode, t) !in windows[..n];
        assert multiset(kept + [t]) == multiset(kept) + multiset{t};
      } else {
        assert WindowOf(c.mode, t) in windows <==> WindowOf(c.mode, t) in windows[..n];
        assert was + multiset{t} + multiset(kept) == was + multiset(kept) + multiset{t};
      }
    }
  }

  lemma NoWindows(c: Config, turns: seq<Turn>)
    ensures Logged(Entries(c, turns, [])) == multiset{}
  {
  }

  lemma EntriesLast(c: Config, turns: seq<Turn>, windows: seq<string>)
    requires windows != []
    ensures var n := |windows| - 1;
            Logged(Entries(c, turns, windows)) == Logged(Entries(c, turns, windows[..n])) + multiset(TurnsIn(c.mode, turns, windows[n]))
  {
    hide TurnsIn;
    var n := |windows| - 1;
    var front := Entries(c, turns, windows[..n]);
    assert Entries(c, turns, windows)[..|front|] == front;
  }

  lemma {:induction false} WindowsAre(mode: WindowMode, turns: seq<Turn>, t: Turn)
    requires t in turns
    ensures WindowOf(mode, t) in Windows(mode, turns)
  {
    if t != turns[|turns| - 1] {
      WindowsAre(mode, turns[..|turns| - 1], t);
    }
  }

  /** A run logs every new turn once. */
  lemma RunLogsTheNew(c: Config, s: State, exported: seq<Turn>, dry: bool)
    ensures Logged(RunOnce(c, s, exported, dry).log) == Logged(s.log) + multiset(New(c, exported, s.watermark))
  {
    hide StringLe, TotalOrder, SortedSet, New, Entries, Windows, MaxId, Logged;
    var unseen := New(c, exported, s.watermark);
    var windows := SortedSet(Windows(c.mode, unseen), StringLe);
    StringLeIsTotal();
    SortedSetIs(Windows(c.mode, unseen), StringLe);
    forall t | t in unseen
      ensures WindowOf(c.mode, t) in windows
    {
      WindowsAre(c.mode, unseen, t);
    }
    WindowsPartition(c, unseen, windows);
    LoggedAppend(s.log, Entries(c, unseen, windows));
  }

  function Matching(c: Config, turns: seq<Turn>): seq<Turn> {
    New(c, turns, 0)
  }

  lemma {:induction false} NewAppend(c: Config, a: seq<Turn>, b: seq<Turn>, watermark: int)
    ensures New(c, a + b, watermark) == New(c, a, watermark) + New(c, b, watermark)
  {
    if b == [] {
      assert a + b == a && New(c, a, watermark) + [] == New(c, a, watermark);
    } else {
      assert (a + b)[..|a + b| - 1] == a + b[..|b| - 1];
      NewAppend(c, a, b[..|b| - 1], watermark);
    }
  }

  /** Turns all above, or none above, a watermark. */
  lemma {:induction false} NewAbove(c: Config, turns: seq<Turn>, watermark: int)
    requires watermark >= 0 && forall t | t in turns :: t.id > watermark
    ensures New(c, turns, watermark) == Matching(c, turns)
  {
    if turns != [] {
      assert turns[|turns| - 1] in turns && forall t :: t in turns[..|turns| - 1] ==> t in turns;
      NewAbove(c, turns[..|turns| - 1], watermark);
    }
  }

  lemma {:induction false} NewBelow(c: Config, turns: seq<Turn>, watermark: int)
    requires watermark >= 0 && forall t | t in Matching(c, turns) :: t.id <= watermark
    ensures New(c, turns, watermark) == []
  {
    if turns != [] {
      var n := |turns| - 1;
      var last := turns[n];
      assert forall t :: t in Matching(c, turns[..n]) ==> t in Matching(c, turns);
      assert last.id > 0 && c.matches(last) ==> last in Matching(c, turns);
      NewBelow(c, turns[..n], watermark);
    }
  }

  lemma {:induction false} NewAre(c: Config, turns: seq<Turn>, watermark: int, t: Turn)
    ensures t in New(c, turns, watermark) <==> t in turns && t.id > watermark && c.matches(t)
  {
    if turns != [] {
      var n := |turns| - 1;
      NewAre(c, turns[..n], watermark, t);
      assert t in turns <==> t in turns[..n] || t == turns[n];
    }
  }

  /** The watermark stands at the highest matching id so far. */
  predicate MarkedAt(c: Config, turns: seq<Turn>, watermark: int) {
    var m := Matching(c, turns);
    if m == [] then watermark == 0 else watermark == MaxId(m)
  }

  lemma {:induction false} MaxIdIsMax(turns: seq<Turn>)
    requires turns != []
    ensures (forall t :: t in turns ==> t.id <= MaxId(turns)) && exists t :: t in turns && t.id == MaxId(turns)
  {
    var n := |turns| - 1;
    assert turns[n] in turns;
    if n > 0 {
      MaxIdIsMax(turns[..n]);
      var t :| t in turns[..n] && t.id == MaxId(turns[..n]);
      assert t in turns;
      assert forall u :: u in turns <==> u in turns[..n] || u == turns[n];
    }
  }

  lemma {:induction false} MaxIdOfAppend(a: seq<Turn>, b: seq<Turn>)
    requires b != [] && forall s, t | s in a && t in b :: s.id < t.id
    ensures MaxId(a + b) == MaxId(b)
  {
    MaxIdIsMax(a + b);
    MaxIdIsMax(b);
    var t :| t in a + b && t.id == MaxId(a + b);
    var u :| u in b && u.id == MaxId(b);
    assert u in a + b;
    assert t in a || t in b;
  }

  /** The invariant: everything matching so far is logged once, and the watermark is the highest matching id. */
  ghost predicate Caught(c: Config, s: State, exported: seq<Turn>) {
    Logged(s.log) == multiset(Matching(c, exported)) && MarkedAt(c, exported, s.watermark) && s.watermark >= 0
  }

  lemma WatermarkCovers(c: Config, s: State, exported: seq<Turn>)
    requires Caught(c, s, exported)
    ensures forall t | t in Matching(c, exported) :: t.id <= s.watermark
    ensures s.watermark == 0 || exists t :: t in exported && t.id == s.watermark
  {
    var m := Matching(c, exported);
    if m != [] {
      MaxIdIsMax(m);
      var t :| t in m && t.id == MaxId(m);
      NewAre(c, exported, 0, t);
    }
  }

  lemma OneRunCatchesUp(c: Config, s: State, before: seq<Turn>, after: seq<Turn>)
    requires Caught(c, s, before) && before <= after && IdOrdered(after)
    ensures Caught(c, RunOnce(c, s, after, false), after)
    ensures New(c, after, s.watermark) == Matching(c, after[|before|..])
    ensures RunOnce(c, s, after, false).watermark >= s.watermark
  {
    hide New, Logged, Entries, Windows, SortedSet, MaxId;
    var newer := after[|before|..];
    assert after == before + newer;
    WatermarkCovers(c, s, before);
    forall t | t in newer
      ensures t.id > s.watermark && t.id > 0
    {
      var j :| |before| <= j < |after| && after[j] == t;
      if s.watermark > 0 {
        var u :| u in before && u.id == s.watermark;
        var i :| 0 <= i < |before| && before[i] == u;
        assert after[i] == u;
      }
    }
    NewAppend(c, before, newer, s.watermark);
    NewBelow(c, before, s.watermark);
    NewAbove(c, newer, s.watermark);
    assert [] + Matching(c, newer) == Matching(c, newer);
    NewAppend(c, before, newer, 0);
    RunLogsTheNew(c, s, after, false);
    MarkMoves(c, s, before, newer);
  }

  lemma MarkMoves(c: Config, s: State, before: seq<Turn>, newer: seq<Turn>)
    requires Caught(c, s, before) && forall t | t in newer :: t.id > s.watermark
    ensures var m := Matching(c, newer);
            MarkedAt(c, before + newer, if m != [] then MaxId(m) else s.watermark) && (m != [] ==> MaxId(m) >= s.watermark)
  {
    hide New, Logged, MaxId;
    var a, m := Matching(c, before), Matching(c, newer);
    NewAppend(c, before, newer, 0);
    WatermarkCovers(c, s, before);
    forall t | t in m
      ensures t in newer
    {
      NewAre(c, newer, 0, t);
    }
    if m != [] {
      MaxIdOfAppend(a, m);
      assert a + m != [];
      MaxIdIsMax(m);
    } else {
      assert a + m == a;
    }
  }

  /** Over any sequence of runs on growing exports: every matching turn is in exactly one logged window, nothing else
      is, and the watermark is the highest matching id. */
  lemma {:induction false} EveryMatchingTurnIsLoggedOnce(c: Config, exports: seq<seq<Turn>>)
    requires exports != [] && Growing(exports)
    ensures Caught(c, RunAll(c, exports), exports[|exports| - 1])
  {
    hide RunOnce, Caught;
    var n := |exports| - 1;
    if n == 0 {
      StartCaught(c);
      OneRunCatchesUp(c, Initial(), [], exports[0]);
      RunAllOne(c, exports);
    } else {
      var earlier := exports[..n];
      assert earlier[n - 1] == exports[n - 1];
      EveryMatchingTurnIsLoggedOnce(c, earlier);
      assert exports[n - 1] <= exports[n];
      OneRunCatchesUp(c, RunAll(c, earlier), exports[n - 1], exports[n]);
    }
  }

  lemma RunAllOne(c: Config, exports: seq<seq<Turn>>)
    requires |exports| == 1
    ensures RunAll(c, exports) == RunOnce(c, Initial(), exports[0], false)
  {
    hide RunOnce;
    assert exports[..0] == [];
  }

  lemma StartCaught(c: Config)
    ensures Caught(c, Initial(), [])
  {
  }

  lemma {:induction false} DistinctMultiplicity(turns: seq<Turn>, t: Turn)
    requires t in turns && forall i, j | 0 <= i < j < |turns| :: turns[i] != turns[j]
    ensures multiset(turns)[t] == 1
  {
    var n := |turns| - 1;
    assert turns == turns[..n] + [turns[n]];
    if t == turns[n] {
      assert t !in turns[..n];
    } else {
      DistinctMultiplicity(turns[..n], t);
    }
  }

  lemma {:induction false} MatchingOrdered(c: Config, turns: seq<Turn>)
    requires IdOrdered(turns)
    ensures IdOrdered(Matching(c, turns))
  {
    if turns != [] {
      var n := |turns| - 1;
      MatchingOrdered(c, turns[..n]);
      var m := Matching(c, turns[..n]);
      forall i | 0 <= i < |m|
        ensures m[i].id < turns[n].id
      {
        NewAre(c, turns[..n], 0, m[i]);
        var k :| 0 <= k < n && turns[k] == m[i];
      }
    }
  }

  // ---- what one run writes ------------------------------------------------------------------------------

  /** A turn the run has to deal with. */
  predicate Due(c: Config, watermark: int, exported: seq<Turn>, t: Turn) {
    t in exported && t.id > watermark && c.matches(t)
  }

  /** The window a turn belongs to, and what becomes of a window: it is applied only from fifteen lines on, and only when
      it drifts. */
  predicate InWindow(c: Config, t: Turn, window: string) {
    if c.mode == ByDay then t.day == window else t.conversation == window
  }

  predicate DecidedRight(c: Config, e: Entry) {
    e.decision == Applied <==> |e.turns| >= 15 && c.drifts(e.turns)
  }

  /** One entry for each window of due turns, in order of the windows' names, with exactly the due turns of its window. */
  ghost predicate LogsExactly(c: Config, watermark: int, exported: seq<Turn>, added: seq<Entry>) {
    && (forall e | e in added :: e.turns != [] && DecidedRight(c, e)
          && forall t :: t in e.turns <==> Due(c, watermark, exported, t) && InWindow(c, t, e.window))
    && (forall t | Due(c, watermark, exported, t) :: exists e :: e in added && InWindow(c, t, e.window))
    && (forall i, j :: 0 <= i < j < |added| ==> added[i].window != added[j].window && StringLe(added[i].window, added[j].window))
    && (IdOrdered(exported) ==> forall e | e in added :: IdOrdered(e.turns))
  }

  lemma {:induction false} TurnsInAre(mode: WindowMode, turns: seq<Turn>, w: string, t: Turn)
    ensures t in TurnsIn(mode, turns, w) <==> t in turns && WindowOf(mode, t) == w
  {
    if turns != [] {
      var n := |turns| - 1;
      TurnsInAre(mode, turns[..n], w, t);
      assert t in turns <==> t in turns[..n] || t == turns[n];
    }
  }

  lemma OrderedSnoc(kept: seq<Turn>, t: Turn)
    requires IdOrdered(kept) && t.id > 0 && forall u | u in kept :: u.id < t.id
    ensures IdOrdered(kept + [t])
  {
    assert forall i | 0 <= i < |kept| :: kept[i] in kept;
  }

  lemma OrderedLast(turns: seq<Turn>)
    requires turns != [] && IdOrdered(turns)
    ensures var n := |turns| - 1; IdOrdered(turns[..n]) && turns[n].id > 0 && forall u | u in turns[..n] :: u.id < turns[n].id
  {
  }

  lemma {:induction false} TurnsInOrdered(mode: WindowMode, turns: seq<Turn>, w: string)
    requires IdOrdered(turns)
    ensures IdOrdered(TurnsIn(mode, turns, w))
  {
    hide IdOrdered;
    if turns == [] {
      NoneOrdered();
    } else {
      var n := |turns| - 1;
      var kept := TurnsIn(mode, turns[..n], w);
      OrderedLast(turns);
      TurnsInOrdered(mode, turns[..n], w);
      forall u | u in kept
        ensures u.id < turns[n].id
      {
        TurnsInAre(mode, turns[..n], w, u);
      }
      OrderedSnoc(kept, turns[n]);
      assert kept + [] == kept;
    }
  }

  lemma NoneOrdered()
    ensures IdOrdered([])
  {
  }

  lemma {:induction false} NewOrdered(c: Config, turns: seq<Turn>, watermark: int)
    requires IdOrdered(turns)
    ensures IdOrdered(New(c, turns, watermark))
  {
    hide IdOrdered;
    if turns == [] {
      NoneOrdered();
    } else {
      var n := |turns| - 1;
      var kept := New(c, turns[..n], watermark);
      OrderedLast(turns);
      NewOrdered(c, turns[..n], watermark);
      forall u | u in kept
        ensures u.id < turns[n].id
      {
        NewAre(c, turns[..n], watermark, u);
      }
      OrderedSnoc(kept, turns[n]);
      assert kept + [] == kept;
    }
  }

  lemma {:induction false} EntriesAt(c: Config, turns: seq<Turn>, windows: seq<string>)
    ensures var es := Entries(c, turns, windows);
            && |es| == |windows|
            && forall i :: 0 <= i < |windows| ==>
                 es[i].window == windows[i] && es[i].turns == TurnsIn(c.mode, turns, windows[i]) && DecidedRight(c, es[i])
  {
    hide TurnsIn;
    if windows != [] {
      EntriesAt(c, turns, windows[..|windows| - 1]);
    }
  }

  lemma {:induction false} WindowHasTurn(mode: WindowMode, turns: seq<Turn>, w: string) returns (t: Turn)
    requires w in Windows(mode, turns)
    ensures t in turns && WindowOf(mode, t) == w
  {
    var n := |turns| - 1;
    t := turns[n];
    if WindowOf(mode, t) != w {
      t := WindowHasTurn(mode, turns[..n], w);
    }
  }

  lemma EntriesOfRun(c: Config, s: State, exported: seq<Turn>)
    ensures var unseen := New(c, exported, s.watermark);
            LogsExactly(c, s.watermark, exported, Entries(c, unseen, SortedSet(Windows(c.mode, unseen), StringLe)))
  {
    hide StringLe, TotalOrder, SortedSet, New, Entries, Windows, TurnsIn, DecidedRight, IdOrdered;
    var unseen := New(c, exported, s.watermark);
    var windows := SortedSet(Windows(c.mode, unseen), StringLe);
    var added := Entries(c, unseen, windows);
    StringLeIsTotal();
    SortedSetIs(Windows(c.mode, unseen), StringLe);
    EntriesAt(c, unseen, windows);
    forall t
      ensures t in unseen <==> Due(c, s.watermark, exported, t)
    {
      NewAre(c, exported, s.watermark, t);
    }
    forall e | e in added
      ensures e.turns != [] && DecidedRight(c, e)
      ensures forall t :: t in e.turns <==> Due(c, s.watermark, exported, t) && InWindow(c, t, e.window)
      ensures IdOrdered(exported) ==> IdOrdered(e.turns)
    {
      var i :| 0 <= i < |added| && added[i] == e;
      assert windows[i] in windows;
      var t := WindowHasTurn(c.mode, unseen, windows[i]);
      TurnsInAre(c.mode, unseen, windows[i], t);
      forall u
        ensures u in e.turns <==> Due(c, s.watermark, exported, u) && InWindow(c, u, e.window)
      {
        TurnsInAre(c.mode, unseen, windows[i], u);
      }
      if IdOrdered(exported) {
        NewOrdered(c, exported, s.watermark);
        TurnsInOrdered(c.mode, unseen, windows[i]);
      }
    }
    forall t | Due(c, s.watermark, exported, t)
      ensures exists e :: e in added && InWindow(c, t, e.window)
    {
      WindowsAre(c.mode, unseen, t);
      var i :| 0 <= i < |windows| && windows[i] == WindowOf(c.mode, t);
      assert added[i] in added;
    }
  }

  /** Every run, dry or not: the log keeps what it held and gains one rightly decided entry for each window of due turns;
      then the watermark moves to the highest due id, unless nothing is due or the run is dry. */
  lemma RunWritesExactly(c: Config, s: State, exported: seq<Turn>, dry: bool)
    ensures var after := RunOnce(c, s, exported, dry);
            && s.log <= after.log && LogsExactly(c, s.watermark, exported, after.log[|s.log|..])
            && (if dry || forall t :: !Due(c, s.watermark, exported, t) then after.watermark == s.watermark
                else (exists t :: Due(c, s.watermark, exported, t) && t.id == after.watermark)
                     && forall t | Due(c, s.watermark, exported, t) :: t.id <= after.watermark)
  {
    hide SortedSet, New, Entries, Windows, LogsExactly, MaxId;
    var unseen := New(c, exported, s.watermark);
    var added := Entries(c, unseen, SortedSet(Windows(c.mode, unseen), StringLe));
    EntriesOfRun(c, s, exported);
    assert (s.log + added)[|s.log|..] == added;
    forall t
      ensures t in unseen <==> Due(c, s.watermark, exported, t)
    {
      NewAre(c, exported, s.watermark, t);
    }
    if unseen != [] {
      MaxIdIsMax(unseen);
      assert unseen[0] in unseen;
    }
  }

  /** In numbers: each matching turn's multiplicity in the log is one, and the logged counts add up to the number of
      turns consumed. */
  lemma LoggedCountsAddUp(c: Config, exports: seq<seq<Turn>>, t: Turn)
    requires exports != [] && Growing(exports)
    ensures var log := RunAll(c, exports).log; var seen := exports[|exports| - 1];
            && LoggedCount(log) == |Matching(c, seen)|
            && Logged(log)[t] == (if t in seen && c.matches(t) then 1 else 0)
  {
    hide RunAll, Logged, New, MaxId;
    var seen := exports[|exports| - 1];
    EveryMatchingTurnIsLoggedOnce(c, exports);
    CountIsSize(RunAll(c, exports).log);
    NewAre(c, seen, 0, t);
    MatchingOrdered(c, seen);
    if t in Matching(c, seen) {
      DistinctMultiplicity(Matching(c, seen), t);
    } else {
      assert multiset(Matching(c, seen))[t] == 0;
    }
    if t in seen {
      var i :| 0 <= i < |seen| && seen[i] == t;
    }
  }

  /** Running again on the same export changes nothing, and no run moves the watermark back. */
  lemma RerunChangesNothing(c: Config, exports: seq<seq<Turn>>)
    requires exports != [] && Growing(exports)
    ensures RunOnce(c, RunAll(c, exports), exports[|exports| - 1], false) == RunAll(c, exports)
  {
    hide RunAll, New, Logged;
    var seen := exports[|exports| - 1];
    var s := RunAll(c, exports);
    EveryMatchingTurnIsLoggedOnce(c, exports);
    OneRunCatchesUp(c, s, seen, seen);
    assert seen[|seen|..] == [];
    NoEntries(c);
    assert s.log + [] == s.log;
  }

  lemma NoEntries(c: Config)
    ensures Matching(c, []) == [] && Entries(c, [], SortedSet(Windows(c.mode, []), StringLe)) == []
  {
  }

  /** A dry run is announced as writing nothing, but it appends its decisions to the log: the log is left alone if and
      only if there was nothing new. */
  lemma DryRunLogs(c: Config, s: State, exported: seq<Turn>)
    ensures var d := RunOnce(c, s, exported, true); var unseen := New(c, exported, s.watermark);
            d.watermark == s.watermark && (d.log == s.log <==> unseen == [])
  {
    hide New, Logged;
    RunLogsTheNew(c, s, exported, true);
    NoEntries(c);
    assert s.log + [] == s.log;
  }

  /** So a dry run before a real one logs the new turns twice. */
  lemma DryThenRealLogsTwice(c: Config, s: State, exported: seq<Turn>)
    ensures var unseen := multiset(New(c, exported, s.watermark));
            Logged(RunOnce(c, RunOnce(c, s, exported, true), exported, false).log) == Logged(s.log) + unseen + unseen
  {
    hide New, Logged;
    RunLogsTheNew(c, s, exported, true);
    RunLogsTheNew(c, RunOnce(c, s, exported, true), exported, false);
  }
}
