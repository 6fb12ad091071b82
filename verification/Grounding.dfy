/** The time-limited cache of groundable memories, shared by turns whose backend scans overlap. */
module Grounding {

  datatype Confidence = Missing | High | Medium | Low | Quarantine
  datatype Date = Undated | On(day: int)
  datatype Node = Node(id: string, confidence: Confidence, scope: nat, date: Date)

  /** Who asks: the persona, the disclosure rank of the requester, and the persona's knowledge boundary as written. */
  datatype Era = NoEra | Written(text: string)
  datatype Binding = Binding(persona: string, scope: nat, era: Era)
  datatype Key = Key(persona: string, scope: nat, era: string)

  /** Reads an ISO date; the text "None" is not one. */
  type Calendar = f: string -> Date | f("None") == Undated witness _ => Undated

  const TTL := 60

  function KeyOf(b: Binding): Key {
    Key(b.persona, b.scope, if b.era.NoEra? then "None" else b.era.text)
  }

  function Boundary(b: Binding, cal: Calendar): Date {
    if b.era.NoEra? || b.era.text == "" then Undated else cal(b.era.text)
  }

  predicate Admissible(n: Node, b: Binding, cal: Calendar) {
    && (n.confidence == High || n.confidence == Medium)
    && n.scope <= b.scope
    && (n.date.On? ==> Boundary(b, cal).On? && n.date.day <= Boundary(b, cal).day)
  }

  function Filter(nodes: seq<Node>, b: Binding, cal: Calendar): seq<Node> {
    if nodes == [] then []
    else (if Admissible(nodes[0], b, cal) then [nodes[0]] else []) + Filter(nodes[1..], b, cal)
  }

  /** The active memories of each persona. */
  type Backend = map<string, seq<Node>>

  function Scan(backend: Backend, b: Binding, cal: Calendar): seq<Node> {
    Filter(if b.persona in backend then backend[b.persona] else [], b, cal)
  }

  datatype Entry = Entry(stamp: int, refs: seq<Node>)
  datatype Answer = Nothing | Refs(refs: seq<Node>)
  /** An answer, when its turn read the clock, and when it was given. */
  datatype Reply = Reply(binding: Binding, asked: int, given: int, answer: Answer)

  /** A scan under way: when its turn read the clock, what the backend has returned so far, and when it did. */
  datatype Pending = Pending(binding: Binding, asked: int, read: Answer, readAt: int)
  datatype Moment = Moment(now: int, backend: Backend)
  datatype World = World(now: int, backend: Backend, cache: map<Key, Entry>, pending: map<nat, Pending>)

  datatype Event =
    | Tick(seconds: nat)
    | Change(backend: Backend)
    | Ask(turn: nat, binding: Binding)
    | Read(turn: nat)
    | Finish(turn: nat)
    | Fail(turn: nat)

  predicate Hit(s: World, b: Binding) {
    KeyOf(b) in s.cache && s.now - s.cache[KeyOf(b)].stamp < TTL
  }

  /** Turns are numbered afresh; a scan ends only after it has read, unless it fails. */
  predicate Enabled(s: World, e: Event) {
    match e
    case Tick(_) => true
    case Change(_) => true
    case Ask(turn, _) => turn !in s.pending
    case Read(turn) => turn in s.pending && s.pending[turn].read.Nothing?
    case Finish(turn) => turn in s.pending && s.pending[turn].read.Refs?
    case Fail(turn) => turn in s.pending
  }

  function Next(s: World, e: Event, cal: Calendar): World
    requires Enabled(s, e)
  {
    match e
    case Tick(d) => s.(now := s.now + d)
    case Change(backend) => s.(backend := backend)
    case Ask(turn, b) => if Hit(s, b) then s else s.(pending := s.pending[turn := Pending(b, s.now, Nothing, s.now)])
    case Read(turn) =>
      var p := s.pending[turn];
      s.(pending := s.pending[turn := p.(read := Refs(Scan(s.backend, p.binding, cal)), readAt := s.now)])
    case Finish(turn) =>
      var p := s.pending[turn];
      s.(cache := s.cache[KeyOf(p.binding) := Entry(p.asked, p.read.refs)], pending := s.pending - {turn})
    case Fail(turn) => s.(pending := s.pending - {turn})
  }

  /** What the turn that this event ends is told. */
  function Told(s: World, e: Event): seq<Reply>
    requires Enabled(s, e)
  {
    match e
    case Ask(_, b) => if Hit(s, b) then [Reply(b, s.now, s.now, Refs(s.cache[KeyOf(b)].refs))] else []
    case Finish(turn) => [Reply(s.pending[turn].binding, s.pending[turn].asked, s.now, s.pending[turn].read)]
    case Fail(turn) => [Reply(s.pending[turn].binding, s.pending[turn].asked, s.now, Nothing)]
    case _ => []
  }

  // ---- runs -------------------------------------------------------------------------------------

  /** A run: the world now, every moment it has been through, and every reply given. */
  datatype Run = Run(world: World, moments: seq<Moment>, replies: seq<Reply>)

  function Start(backend: Backend): Run {
    Run(World(0, backend, map[], map[]), [Moment(0, backend)], [])
  }

  function Extend(r: Run, e: Event, cal: Calendar): Run
    requires Enabled(r.world, e)
  {
    var w := Next(r.world, e, cal);
    Run(w, r.moments + [Moment(w.now, w.backend)], r.replies + Told(r.world, e))
  }

  ghost predicate Legal(r: Run, events: seq<Event>, cal: Calendar)
    decreases |events|
  {
    events == [] || (Enabled(r.world, events[0]) && Legal(Extend(r, events[0], cal), events[1..], cal))
  }

  ghost function RunAll(r: Run, events: seq<Event>, cal: Calendar): Run
    requires Legal(r, events, cal)
    decreases |events|
  {
    if events == [] then r else RunAll(Extend(r, events[0], cal), events[1..], cal)
  }

  /** The refs are what a scan of the backend returned at some moment after the given time. */
  predicate SeenAfter(moments: seq<Moment>, after: int, b: Binding, refs: seq<Node>, cal: Calendar) {
    exists i :: 0 <= i < |moments| && moments[i].now > after && Scan(moments[i].backend, b, cal) == refs
  }

  /** Keys stand for requesters: whoever asks with a key may see what was scanned for that key. */
  lemma SameKeySameScan(a: Binding, b: Binding, backend: Backend, cal: Calendar)
    requires KeyOf(a) == KeyOf(b)
    ensures Scan(backend, a, cal) == Scan(backend, b, cal)
  {
    SameFilter(if a.persona in backend then backend[a.persona] else [], a, b, cal);
  }

  lemma {:induction false} SameFilter(nodes: seq<Node>, a: Binding, b: Binding, cal: Calendar)
    requires a.scope == b.scope && Boundary(a, cal) == Boundary(b, cal)
    ensures Filter(nodes, a, cal) == Filter(nodes, b, cal)
  {
    if nodes != [] {
      SameFilter(nodes[1..], a, b, cal);
    }
  }

  /** A requester with this key. */
  function Owner(k: Key): Binding {
    Binding(k.persona, k.scope, Written(k.era))
  }

  predicate EntryFresh(r: Run, k: Key, cal: Calendar)
    requires k in r.world.cache
  {
    SeenAfter(r.moments, r.world.cache[k].stamp - 1, Owner(k), r.world.cache[k].refs, cal)
  }

  predicate PendingFresh(r: Run, turn: nat, cal: Calendar)
    requires turn in r.world.pending
  {
    var p := r.world.pending[turn];
    p.asked <= r.world.now && (p.read.Refs? ==> p.asked <= p.readAt && SeenAfter(r.moments, p.readAt - 1, p.binding, p.read.refs, cal))
  }

  predicate ReplyFresh(r: Run, y: Reply, cal: Calendar) {
    y.answer.Refs? ==> SeenAfter(r.moments, y.asked - 60, y.binding, y.answer.refs, cal)
  }

  predicate Fresh(r: Run, cal: Calendar) {
    && |r.moments| > 0 && r.moments[|r.moments| - 1] == Moment(r.world.now, r.world.backend)
    && (forall k :: k in r.world.cache ==> EntryFresh(r, k, cal))
    && (forall t :: t in r.world.pending ==> PendingFresh(r, t, cal))
    && (forall i :: 0 <= i < |r.replies| ==> ReplyFresh(r, r.replies[i], cal))
  }

  lemma SeenStays(moments: seq<Moment>, m: Moment, after: int, b: Binding, refs: seq<Node>, cal: Calendar)
    requires SeenAfter(moments, after, b, refs, cal)
    ensures SeenAfter(moments + [m], after, b, refs, cal)
  {
    var i :| 0 <= i < |moments| && moments[i].now > after && Scan(moments[i].backend, b, cal) == refs;
    assert (moments + [m])[i] == moments[i];
  }

  lemma SeenByOwner(moments: seq<Moment>, after: int, a: Binding, b: Binding, refs: seq<Node>, cal: Calendar)
    requires KeyOf(a) == KeyOf(b) && SeenAfter(moments, after, a, refs, cal)
    ensures SeenAfter(moments, after, b, refs, cal)
  {
    var i :| 0 <= i < |moments| && moments[i].now > after && Scan(moments[i].backend, a, cal) == refs;
    SameKeySameScan(a, b, moments[i].backend, cal);
  }

  lemma SeenEarlier(moments: seq<Moment>, after: int, earlier: int, b: Binding, refs: seq<Node>, cal: Calendar)
    requires earlier <= after && SeenAfter(moments, after, b, refs, cal)
    ensures SeenAfter(moments, earlier, b, refs, cal)
  {
  }

  lemma CacheStaysFresh(r: Run, e: Event, cal: Calendar)
    requires Fresh(r, cal) && Enabled(r.world, e)
    ensures var n := Extend(r, e, cal); forall k :: k in n.world.cache ==> EntryFresh(n, k, cal)
  {
    var n := Extend(r, e, cal);
    var m := Moment(n.world.now, n.world.backend);
    forall k | k in n.world.cache
      ensures EntryFresh(n, k, cal)
    {
      if e.Finish? && k == KeyOf(r.world.pending[e.turn].binding) {
        var p := r.world.pending[e.turn];
        assert PendingFresh(r, e.turn, cal);
        SeenEarlier(r.moments, p.readAt - 1, p.asked - 1, p.binding, p.read.refs, cal);
        SeenByOwner(r.moments, p.asked - 1, p.binding, Owner(k), p.read.refs, cal);
        SeenStays(r.moments, m, p.asked - 1, Owner(k), p.read.refs, cal);
      } else {
        assert k in r.world.cache && EntryFresh(r, k, cal);
        SeenStays(r.moments, m, r.world.cache[k].stamp - 1, Owner(k), r.world.cache[k].refs, cal);
      }
    }
  }

  lemma PendingStaysFresh(r: Run, e: Event, cal: Calendar)
    requires Fresh(r, cal) && Enabled(r.world, e)
    ensures var n := Extend(r, e, cal); forall t :: t in n.world.pending ==> PendingFresh(n, t, cal)
  {
    var n := Extend(r, e, cal);
    var m := Moment(n.world.now, n.world.backend);
    forall t | t in n.world.pending
      ensures PendingFresh(n, t, cal)
    {
      var p := n.world.pending[t];
      if e.Read? && t == e.turn {
        assert PendingFresh(r, t, cal);
        assert n.moments[|r.moments|] == m;
      } else if e.Ask? && t == e.turn {
      } else {
        assert t in r.world.pending && p == r.world.pending[t] && PendingFresh(r, t, cal);
        if p.read.Refs? {
          SeenStays(r.moments, m, p.readAt - 1, p.binding, p.read.refs, cal);
        }
      }
    }
  }

  lemma ToldIsFresh(r: Run, e: Event, cal: Calendar)
    requires Fresh(r, cal) && Enabled(r.world, e)
    ensures forall y :: y in Told(r.world, e) ==> ReplyFresh(Extend(r, e, cal), y, cal)
  {
    var n := Extend(r, e, cal);
    var m := Moment(n.world.now, n.world.backend);
    if e.Ask? && Hit(r.world, e.binding) {
      var k := KeyOf(e.binding);
      var entry := r.world.cache[k];
      assert EntryFresh(r, k, cal);
      SeenByOwner(r.moments, entry.stamp - 1, Owner(k), e.binding, entry.refs, cal);
      SeenStays(r.moments, m, entry.stamp - 1, e.binding, entry.refs, cal);
      SeenEarlier(n.moments, entry.stamp - 1, r.world.now - TTL, e.binding, entry.refs, cal);
    } else if e.Finish? {
      var p := r.world.pending[e.turn];
      assert PendingFresh(r, e.turn, cal);
      SeenStays(r.moments, m, p.readAt - 1, p.binding, p.read.refs, cal);
      SeenEarlier(n.moments, p.readAt - 1, p.asked - TTL, p.binding, p.read.refs, cal);
    }
  }

  /** Every event keeps the invariant. */
  lemma ExtendKeepsFresh(r: Run, e: Event, cal: Calendar)
    requires Fresh(r, cal) && Enabled(r.world, e)
    ensures Fresh(Extend(r, e, cal), cal)
  {
    hide ReplyFresh, EntryFresh, PendingFresh;
    var n := Extend(r, e, cal);
    CacheStaysFresh(r, e, cal);
    PendingStaysFresh(r, e, cal);
    ToldIsFresh(r, e, cal);
    forall i | 0 <= i < |n.replies|
      ensures ReplyFresh(n, n.replies[i], cal)
    {
      if i < |r.replies| {
        assert ReplyFresh(r, r.replies[i], cal);
        ReplyStaysFresh(r, e, r.replies[i], cal);
      } else {
        assert n.replies[i] in Told(r.world, e);
      }
    }
  }

  lemma ReplyStaysFresh(r: Run, e: Event, y: Reply, cal: Calendar)
    requires Enabled(r.world, e) && ReplyFresh(r, y, cal)
    ensures ReplyFresh(Extend(r, e, cal), y, cal)
  {
    var n := Extend(r, e, cal);
    if y.answer.Refs? {
      SeenStays(r.moments, Moment(n.world.now, n.world.backend), y.asked - TTL, y.binding, y.answer.refs, cal);
    }
  }

  lemma {:induction false} RunsStayFresh(r: Run, events: seq<Event>, cal: Calendar)
    requires Fresh(r, cal) && Legal(r, events, cal)
    ensures Fresh(RunAll(r, events, cal), cal)
    decreases |events|
  {
    hide Fresh, Enabled;
    if events != [] {
      ExtendKeepsFresh(r, events[0], cal);
      RunsStayFresh(Extend(r, events[0], cal), events[1..], cal);
    }
  }

  /** Under every interleaving of turns, slow scans, failures, clock ticks and ingestion: a turn that is given
      refs is given exactly what a scan for its own persona, disclosure rank and knowledge boundary returned at
      some moment later than sixty seconds before the turn read the clock. */
  lemma AnswersAreFreshSnapshots(backend: Backend, events: seq<Event>, cal: Calendar)
    requires Legal(Start(backend), events, cal)
    ensures var r := RunAll(Start(backend), events, cal);
            forall i :: 0 <= i < |r.replies| ==> ReplyFresh(r, r.replies[i], cal)
  {
    RunsStayFresh(Start(backend), events, cal);
  }

  /** The cost of caching is a bounded lag: once the persona's memories have been settled for sixty seconds, every
      turn that is given refs is given the settled ones. */
  lemma LagIsBounded(backend: Backend, events: seq<Event>, cal: Calendar, y: Reply, settled: seq<Node>)
    requires Legal(Start(backend), events, cal)
    requires var r := RunAll(Start(backend), events, cal);
             && y in r.replies && y.answer.Refs?
             && forall m | m in r.moments && m.now > y.asked - 60 :: Scan(m.backend, y.binding, cal) == settled
    ensures y.answer.refs == settled
  {
    AnswersAreFreshSnapshots(backend, events, cal);
    var r := RunAll(Start(backend), events, cal);
    var j :| 0 <= j < |r.replies| && r.replies[j] == y;
    assert ReplyFresh(r, r.replies[j], cal);
    var i :| 0 <= i < |r.moments| && r.moments[i].now > y.asked - TTL && Scan(r.moments[i].backend, y.binding, cal) == y.answer.refs;
    assert r.moments[i] in r.moments;
  }

  // ---- measured when the answer is given --------------------------------------------------------------

  /** A reply whose refs are a snapshot later than sixty seconds before it was given. */
  predicate GivenFresh(r: Run, y: Reply, cal: Calendar) {
    y.answer.Refs? ==> SeenAfter(r.moments, y.given - 60, y.binding, y.answer.refs, cal)
  }

  ghost predicate Timely(r: Run, cal: Calendar) {
    forall i :: 0 <= i < |r.replies| ==> GivenFresh(r, r.replies[i], cal)
  }

  /** The event finishes no scan later than so many seconds after the backend was read for it. */
  predicate PromptEvent(s: World, e: Event, d: nat)
    requires Enabled(s, e)
  {
    e.Finish? ==> s.now - s.pending[e.turn].readAt <= d
  }

  ghost predicate Prompt(r: Run, events: seq<Event>, cal: Calendar, d: nat)
    requires Legal(r, events, cal)
    decreases |events|
  {
    events == [] || (PromptEvent(r.world, events[0], d) && Prompt(Extend(r, events[0], cal), events[1..], cal, d))
  }

  lemma ToldIsTimely(r: Run, e: Event, cal: Calendar)
    requires Fresh(r, cal) && Enabled(r.world, e) && PromptEvent(r.world, e, TTL - 1)
    ensures forall y :: y in Told(r.world, e) ==> GivenFresh(Extend(r, e, cal), y, cal)
  {
    var n := Extend(r, e, cal);
    if e.Ask? {
      ToldIsFresh(r, e, cal);
      assert forall y :: y in Told(r.world, e) ==> y.given == y.asked && ReplyFresh(n, y, cal);
    } else if e.Finish? {
      var p := r.world.pending[e.turn];
      assert PendingFresh(r, e.turn, cal);
      SeenStays(r.moments, Moment(n.world.now, n.world.backend), p.readAt - 1, p.binding, p.read.refs, cal);
      SeenEarlier(n.moments, p.readAt - 1, r.world.now - TTL, p.binding, p.read.refs, cal);
    }
  }

  lemma GivenStaysFresh(r: Run, e: Event, y: Reply, cal: Calendar)
    requires Enabled(r.world, e) && GivenFresh(r, y, cal)
    ensures GivenFresh(Extend(r, e, cal), y, cal)
  {
    var n := Extend(r, e, cal);
    if y.answer.Refs? {
      SeenStays(r.moments, Moment(n.world.now, n.world.backend), y.given - TTL, y.binding, y.answer.refs, cal);
    }
  }

  lemma ExtendKeepsTimely(r: Run, e: Event, cal: Calendar)
    requires Fresh(r, cal) && Timely(r, cal) && Enabled(r.world, e) && PromptEvent(r.world, e, TTL - 1)
    ensures Timely(Extend(r, e, cal), cal)
  {
    hide GivenFresh, Fresh, PromptEvent;
    var n := Extend(r, e, cal);
    ToldIsTimely(r, e, cal);
    forall i | 0 <= i < |n.replies|
      ensures GivenFresh(n, n.replies[i], cal)
    {
      if i < |r.replies| {
        GivenStaysFresh(r, e, r.replies[i], cal);
      } else {
        assert n.replies[i] in Told(r.world, e);
      }
    }
  }

  lemma {:induction false} PromptRunsAreTimely(r: Run, events: seq<Event>, cal: Calendar, d: nat)
    requires d < TTL && Fresh(r, cal) && Timely(r, cal) && Legal(r, events, cal) && Prompt(r, events, cal, d)
    ensures Timely(RunAll(r, events, cal), cal)
    decreases |events|
  {
    hide Fresh, Timely, Enabled;
    if events != [] {
      ExtendKeepsFresh(r, events[0], cal);
      ExtendKeepsTimely(r, events[0], cal);
      PromptRunsAreTimely(Extend(r, events[0], cal), events[1..], cal, d);
    }
  }

  /** A memory everybody may see, and somebody who asks. */
  const OPEN_NODE := Node("m", High, 0, Undated)
  const SOMEBODY := Binding("p", 0, NoEra)

  /** Ask, read, lose the memory, let so much time pass, answer. */
  function SlowScan(d: nat): seq<Event> {
    [Ask(0, SOMEBODY), Read(0), Change(map[]), Tick(d), Finish(0)]
  }

  function LateRun(d: nat): Run {
    var seen := map["p" := [OPEN_NODE]];
    Run(World(d, map[], map[KeyOf(SOMEBODY) := Entry(0, [OPEN_NODE])], map[]),
        [Moment(0, seen), Moment(0, seen), Moment(0, seen), Moment(0, map[]), Moment(d, map[]), Moment(d, map[])],
        [Reply(SOMEBODY, 0, d, Refs([OPEN_NODE]))])
  }

  /** The run up to the tick: the scan has read the memory, and the memory is gone. */
  function WaitingRun(now: int, moments: seq<Moment>): Run {
    Run(World(now, map[], map[], map[0 := Pending(SOMEBODY, 0, Refs([OPEN_NODE]), 0)]), moments, [])
  }

  lemma UpToTheRead(cal: Calendar)
    ensures var start := Start(map["p" := [OPEN_NODE]]);
            && Enabled(start.world, Ask(0, SOMEBODY))
            && var a := Extend(start, Ask(0, SOMEBODY), cal);
               && Enabled(a.world, Read(0))
               && var b := Extend(a, Read(0), cal);
                  Extend(b, Change(map[]), cal)
                  == WaitingRun(0, [Moment(0, map["p" := [OPEN_NODE]]), Moment(0, map["p" := [OPEN_NODE]]),
                                    Moment(0, map["p" := [OPEN_NODE]]), Moment(0, map[])])
  {
    hide Scan;
    var start := Start(map["p" := [OPEN_NODE]]);
    var a := Extend(start, Ask(0, SOMEBODY), cal);
    OpenNodeIsSeen(cal);
    assert a.world.pending == map[0 := Pending(SOMEBODY, 0, Nothing, 0)];
    var b := Extend(a, Read(0), cal);
    assert b.world.pending == map[0 := Pending(SOMEBODY, 0, Refs([OPEN_NODE]), 0)];
  }

  lemma TickAndFinish(cal: Calendar, d: nat, before: seq<Moment>)
    ensures var e := Extend(WaitingRun(0, before), Tick(d), cal);
            && e == WaitingRun(d, before + [Moment(d, map[])])
            && Enabled(e.world, Finish(0)) && PromptEvent(e.world, Finish(0), d)
            && Extend(e, Finish(0), cal)
               == Run(World(d, map[], map[KeyOf(SOMEBODY) := Entry(0, [OPEN_NODE])], map[]),
                      before + [Moment(d, map[])] + [Moment(d, map[])], [Reply(SOMEBODY, 0, d, Refs([OPEN_NODE]))])
  {
    var e := Extend(WaitingRun(0, before), Tick(d), cal);
    assert Extend(e, Finish(0), cal).world.pending == map[];
  }

  lemma SlowScanRuns(cal: Calendar, d: nat)
    ensures var start := Start(map["p" := [OPEN_NODE]]);
            Legal(start, SlowScan(d), cal) && Prompt(start, SlowScan(d), cal, d) && RunAll(start, SlowScan(d), cal) == LateRun(d)
  {
    hide Legal, Prompt, RunAll, Extend, Enabled;
    var start := Start(map["p" := [OPEN_NODE]]);
    UpToTheRead(cal);
    var a := Extend(start, Ask(0, SOMEBODY), cal);
    var b := Extend(a, Read(0), cal);
    AlwaysEnabled(b.world, Change(map[]));
    var c := Extend(b, Change(map[]), cal);
    TickAndFinish(cal, d, c.moments);
    AlwaysEnabled(c.world, Tick(d));
    var e := Extend(c, Tick(d), cal);
    LastStep(e, d, cal);
    StepBack(c, Tick(d), [Finish(0)], d, cal);
    assert [Tick(d)] + [Finish(0)] == [Tick(d), Finish(0)];
    StepBack(b, Change(map[]), [Tick(d), Finish(0)], d, cal);
    assert [Change(map[])] + [Tick(d), Finish(0)] == [Change(map[]), Tick(d), Finish(0)];
    StepBack(a, Read(0), [Change(map[]), Tick(d), Finish(0)], d, cal);
    assert [Read(0)] + [Change(map[]), Tick(d), Finish(0)] == [Read(0), Change(map[]), Tick(d), Finish(0)];
    StepBack(start, Ask(0, SOMEBODY), [Read(0), Change(map[]), Tick(d), Finish(0)], d, cal);
    assert [Ask(0, SOMEBODY)] + [Read(0), Change(map[]), Tick(d), Finish(0)] == SlowScan(d);
  }

  lemma AlwaysEnabled(s: World, e: Event)
    requires e.Tick? || e.Change?
    ensures Enabled(s, e)
  {
  }

  lemma LastStep(r: Run, d: nat, cal: Calendar)
    requires Enabled(r.world, Finish(0)) && PromptEvent(r.world, Finish(0), d)
    ensures Legal(r, [Finish(0)], cal) && Prompt(r, [Finish(0)], cal, d)
    ensures RunAll(r, [Finish(0)], cal) == Extend(r, Finish(0), cal)
  {
    var n := Extend(r, Finish(0), cal);
    assert [Finish(0)][1..] == [];
    assert Legal(n, [], cal) && Prompt(n, [], cal, d) && RunAll(n, [], cal) == n;
  }

  lemma StepBack(r: Run, e: Event, rest: seq<Event>, d: nat, cal: Calendar)
    requires Enabled(r.world, e) && PromptEvent(r.world, e, d)
    requires Legal(Extend(r, e, cal), rest, cal) && Prompt(Extend(r, e, cal), rest, cal, d)
    ensures Legal(r, [e] + rest, cal) && Prompt(r, [e] + rest, cal, d)
    ensures RunAll(r, [e] + rest, cal) == RunAll(Extend(r, e, cal), rest, cal)
  {
    hide Extend, Enabled, PromptEvent;
    assert ([e] + rest)[1..] == rest;
  }

  lemma OpenNodeIsSeen(cal: Calendar)
    ensures Scan(map["p" := [OPEN_NODE]], SOMEBODY, cal) == [OPEN_NODE] && Scan(map[], SOMEBODY, cal) == []
  {
    var seen := [OPEN_NODE];
    assert seen[1..] == [] && Filter([], SOMEBODY, cal) == [];
    assert Admissible(OPEN_NODE, SOMEBODY, cal);
    assert Filter(seen, SOMEBODY, cal) == [OPEN_NODE] + [];
  }

  lemma LateRunIsLate(cal: Calendar, d: nat)
    requires d >= TTL
    ensures !Timely(LateRun(d), cal)
  {
    hide Scan;
    OpenNodeIsSeen(cal);
    var r := LateRun(d);
    var y := r.replies[0];
    forall i | 0 <= i < |r.moments| && r.moments[i].now > d - TTL
      ensures Scan(r.moments[i].backend, SOMEBODY, cal) != [OPEN_NODE]
    {
      assert i >= 4;
    }
    assert !SeenAfter(r.moments, d - TTL, SOMEBODY, [OPEN_NODE], cal);
    assert !GivenFresh(r, y, cal);
  }

  /** What is served is at most sixty seconds old when it is served if and only if scans are answered within less than
      sixty seconds of reading the backend: for d of at least sixty some run with scans no slower than d serves a memory
      that was gone for all of the last sixty seconds. */
  lemma FreshWhenGivenExactlyForPromptScans(cal: Calendar, d: nat)
    ensures (forall backend, events | Legal(Start(backend), events, cal) && Prompt(Start(backend), events, cal, d) ::
               Timely(RunAll(Start(backend), events, cal), cal))
            <==> d < 60
  {
    hide Timely, Prompt, Legal, RunAll;
    if d < TTL {
      forall backend, events | Legal(Start(backend), events, cal) && Prompt(Start(backend), events, cal, d)
        ensures Timely(RunAll(Start(backend), events, cal), cal)
      {
        StartIsTimely(backend, cal);
        PromptRunsAreTimely(Start(backend), events, cal, d);
      }
    } else {
      SlowScanRuns(cal, d);
      LateRunIsLate(cal, d);
    }
  }

  lemma StartIsTimely(backend: Backend, cal: Calendar)
    ensures Fresh(Start(backend), cal) && Timely(Start(backend), cal)
  {
  }

  /** So with prompt scans the lag holds of what is served: once the memories have been settled for sixty seconds, every
      answer given is the settled one. */
  lemma LagIsBoundedWhenServed(backend: Backend, events: seq<Event>, cal: Calendar, y: Reply, settled: seq<Node>)
    requires Legal(Start(backend), events, cal) && Prompt(Start(backend), events, cal, TTL - 1)
    requires var r := RunAll(Start(backend), events, cal);
             && y in r.replies && y.answer.Refs?
             && forall m | m in r.moments && m.now > y.given - 60 :: Scan(m.backend, y.binding, cal) == settled
    ensures y.answer.refs == settled
  {
    StartIsTimely(backend, cal);
    PromptRunsAreTimely(Start(backend), events, cal, TTL - 1);
    var r := RunAll(Start(backend), events, cal);
    var j :| 0 <= j < |r.replies| && r.replies[j] == y;
    assert GivenFresh(r, r.replies[j], cal);
    var i :| 0 <= i < |r.moments| && r.moments[i].now > y.given - TTL && Scan(r.moments[i].backend, y.binding, cal) == y.answer.refs;
    assert r.moments[i] in r.moments;
  }

  lemma {:induction false} FilterAdmits(nodes: seq<Node>, b: Binding, cal: Calendar, n: Node)
    ensures n in Filter(nodes, b, cal) <==> n in nodes && Admissible(n, b, cal)
  {
    if nodes != [] {
      FilterAdmits(nodes[1..], b, cal, n);
      assert n in nodes <==> n == nodes[0] || n in nodes[1..];
    }
  }

  /** The memory is dated no later than the requester's boundary; a boundary that is not written, is empty or is not a
      date lets no dated memory through. */
  predicate WithinEra(n: Node, b: Binding, cal: Calendar) {
    n.date.On? ==> b.era.Written? && b.era.text != "" && cal(b.era.text).On? && n.date.day <= cal(b.era.text).day
  }

  /** A scan returns exactly the persona's memories of high or medium confidence, at or below the requester's rank and
      within their era, each as often as the backend holds it. */
  lemma ScanReturnsExactly(backend: Backend, b: Binding, cal: Calendar, n: Node)
    ensures n in Scan(backend, b, cal) <==>
              && b.persona in backend && n in backend[b.persona]
              && n.confidence in {High, Medium} && n.scope <= b.scope && WithinEra(n, b, cal)
    ensures n in Scan(backend, b, cal) ==> multiset(Scan(backend, b, cal))[n] == multiset(backend[b.persona])[n]
  {
    var nodes := if b.persona in backend then backend[b.persona] else [];
    FilterAdmits(nodes, b, cal, n);
    if Admissible(n, b, cal) {
      FilterKeepsCounts(nodes, b, cal, n);
    }
  }

  lemma {:induction false} FilterKeepsCounts(nodes: seq<Node>, b: Binding, cal: Calendar, n: Node)
    requires Admissible(n, b, cal)
    ensures multiset(Filter(nodes, b, cal))[n] == multiset(nodes)[n]
  {
    hide Admissible;
    if nodes != [] {
      FilterKeepsCounts(nodes[1..], b, cal, n);
      assert nodes == [nodes[0]] + nodes[1..];
    }
  }

  /** The shared cache neither widens disclosure nor narrows it: whatever requesters have asked before, what anybody is
      given are exactly the memories that were theirs to see at one moment of the last sixty seconds, none above their own
      rank, after their own boundary or of low confidence. */
  lemma NobodySeesMoreThanTheirOwn(backend: Backend, events: seq<Event>, cal: Calendar, y: Reply)
    requires Legal(Start(backend), events, cal)
    requires y in RunAll(Start(backend), events, cal).replies && y.answer.Refs?
    ensures forall n | n in y.answer.refs ::
              n.confidence in {High, Medium} && n.scope <= y.binding.scope && WithinEra(n, y.binding, cal)
    ensures exists m | m in RunAll(Start(backend), events, cal).moments :: m.now > y.asked - 60 && GivesExactly(m.backend, y, cal)
  {
    hide Legal, RunAll, Scan, WithinEra;
    AnswersAreFreshSnapshots(backend, events, cal);
    var r := RunAll(Start(backend), events, cal);
    var j :| 0 <= j < |r.replies| && r.replies[j] == y;
    assert ReplyFresh(r, r.replies[j], cal);
    var i :| 0 <= i < |r.moments| && r.moments[i].now > y.asked - 60 && Scan(r.moments[i].backend, y.binding, cal) == y.answer.refs;
    var m := r.moments[i];
    forall n
      ensures n in y.answer.refs <==>
                && y.binding.persona in m.backend && n in m.backend[y.binding.persona]
                && n.confidence in {High, Medium} && n.scope <= y.binding.scope && WithinEra(n, y.binding, cal)
    {
      ScanReturnsExactly(m.backend, y.binding, cal, n);
    }
    assert m in r.moments && GivesExactly(m.backend, y, cal);
  }

  /** The answer holds the memories of this backend that are the requester's to see, and no others. */
  ghost predicate GivesExactly(backend: Backend, y: Reply, cal: Calendar)
    requires y.answer.Refs?
  {
    forall n :: n in y.answer.refs <==>
                  && y.binding.persona in backend && n in backend[y.binding.persona]
                  && n.confidence in {High, Medium} && n.scope <= y.binding.scope && WithinEra(n, y.binding, cal)
  }

  /** An entry whose scan was asked for less than sixty seconds ago answers its persona, rank and boundary at once and
      changes nothing; an older one, or none, starts a scan. */
  lemma LiveEntryAnswersAtOnce(s: World, turn: nat, b: Binding, cal: Calendar)
    requires Enabled(s, Ask(turn, b))
    ensures var k := Key(b.persona, b.scope, match b.era case NoEra => "None" case Written(text) => text);
            if k in s.cache && s.now < s.cache[k].stamp + 60 then
              Told(s, Ask(turn, b)) == [Reply(b, s.now, s.now, Refs(s.cache[k].refs))] && Next(s, Ask(turn, b), cal) == s
            else
              Told(s, Ask(turn, b)) == []
              && Next(s, Ask(turn, b), cal) == s.(pending := s.pending[turn := Pending(b, s.now, Nothing, s.now)])
  {
  }

  /** The cache changes only when a scan completes, and then only at that scan's key; a failed scan answers
      nothing and leaves every entry as it was. */
  lemma OnlyCompletedScansAreCached(s: World, e: Event, cal: Calendar, k: Key)
    requires Enabled(s, e)
    ensures var n := Next(s, e, cal);
            && (k in n.cache && (k !in s.cache || n.cache[k] != s.cache[k]) ==> e.Finish? && k == KeyOf(s.pending[e.turn].binding))
            && (k in s.cache ==> k in n.cache)
            && (e.Finish? && k == KeyOf(s.pending[e.turn].binding) ==>
                  k in n.cache && n.cache[k] == Entry(s.pending[e.turn].asked, s.pending[e.turn].read.refs))
            && (e.Fail? ==> n.cache == s.cache && Told(s, e)[0].answer == Nothing)
  {
  }

  // ---- the two halves of the coroutine --------------------------------------------------------------

  /** The application state the coroutine reads and writes around its one suspension point. */
  class ScopeCache {
    const calendar: Calendar
    var now: int
    var backend: Backend
    var cache: map<Key, Entry>
    var pending: map<nat, Pending>

    ghost function Abs(): World
      reads this
    {
      World(now, backend, cache, pending)
    }

    constructor (backend: Backend, calendar: Calendar)
      ensures Abs() == Start(backend).world && this.calendar == calendar
    {
      this.calendar := calendar;
      now := 0;
      this.backend := backend;
      cache := map[];
      pending := map[];
    }

    /** Up to the scan: a live entry answers at once. */
    method Begin(turn: nat, b: Binding) returns (replies: seq<Reply>)
      requires Enabled(Abs(), Ask(turn, b))
      modifies this
      ensures Abs() == Next(old(Abs()), Ask(turn, b), calendar) && replies == Told(old(Abs()), Ask(turn, b))
    {
      var key := KeyOf(b);
      if key in cache && now - cache[key].stamp < TTL {
        return [Reply(b, now, now, Refs(cache[key].refs))];
      }
      pending := pending[turn := Pending(b, now, Nothing, now)];
      replies := [];
    }

    /** The moment the scan sees the backend. */
    method ReadBackend(turn: nat)
      requires Enabled(Abs(), Read(turn))
      modifies this
      ensures Abs() == Next(old(Abs()), Read(turn), calendar)
    {
      var p := pending[turn];
      pending := pending[turn := p.(read := Refs(Scan(backend, p.binding, calendar)), readAt := now)];
    }

    /** After the scan: the entry carries the clock the turn read before it. */
    method Complete(turn: nat) returns (replies: seq<Reply>)
      requires Enabled(Abs(), Finish(turn))
      modifies this
      ensures Abs() == Next(old(Abs()), Finish(turn), calendar) && replies == Told(old(Abs()), Finish(turn))
    {
      var p := pending[turn];
      cache := cache[KeyOf(p.binding) := Entry(p.asked, p.read.refs)];
      pending := pending - {turn};
      replies := [Reply(p.binding, p.asked, now, p.read)];
    }

    method Abandon(turn: nat) returns (replies: seq<Reply>)
      requires Enabled(Abs(), Fail(turn))
      modifies this
      ensures Abs() == Next(old(Abs()), Fail(turn), calendar) && replies == Told(old(Abs()), Fail(turn))
    {
      var p := pending[turn];
      pending := pending - {turn};
      replies := [Reply(p.binding, p.asked, now, Nothing)];
    }
  }
}
