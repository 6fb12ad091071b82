/** The sends of a page, one after the other: what each one meets, and in which order the channels fire. */
module PagerWeather {
  import opened Roster
  import opened Paging
  import opened PagerFactory

  /** The n-th send of the list succeeded exactly when the weather let the n-th send from `at` on through. */
  predicate Follows(events: seq<Event>, w: Weather, at: nat) {
    events == []
    || (var n := |events| - 1;
        Follows(events[..n], w, at) && (events[n].Sent? ==> events[n].ok == w(at + Sends(events[..n]))))
  }

  lemma FollowsOne(e: Event, w: Weather, at: nat)
    ensures Follows([e], w, at) <==> (e.Sent? ==> e.ok == w(at))
  {
    assert [e][..0] == [];
    assert Follows([], w, at) && Sends([]) == 0;
  }

  lemma {:induction false} FollowsConcat(a: seq<Event>, b: seq<Event>, w: Weather, at: nat)
    requires Follows(a, w, at) && Follows(b, w, at + Sends(a))
    ensures Follows(a + b, w, at)
  {
    hide Sends;
    if b == [] {
      assert a + b == a;
    } else {
      var n := |b| - 1;
      FollowsConcat(a, b[..n], w, at);
      SendsAdd(a, b[..n]);
      assert (a + b)[..|a + b| - 1] == a + b[..n];
    }
  }

  lemma SendsAdd(a: seq<Event>, b: seq<Event>)
    ensures Sends(a + b) == Sends(a) + Sends(b)
  {
    hide Count;
    CountAdds(a, b);
  }

  lemma {:induction false} FanOutFollows(channel: Channel, to: seq<string>, w: Weather, at: nat)
    ensures Follows(FanOut(channel, to, w, at), w, at)
  {
    hide Sends;
    if to != [] {
      var n := |to| - 1;
      var sent := FanOut(channel, to[..n], w, at);
      FanOutFollows(channel, to[..n], w, at);
      FanOutCount(channel, to[..n], w, at);
      var e := Sent(channel, to[n], w(at + n));
      assert (sent + [e])[..|sent|] == sent;
    }
  }

  lemma FallFollows(channel: Channel, to: seq<string>, keeps: bool, f: Pager, w: Weather, at: nat, q: Request, c: Contacts)
    requires Follows(Run(f, w, at + |to|, q, c, false).events, w, at + |to|)
    ensures Follows(FanOrFall(channel, to, keeps, f, w, at, q, c).events, w, at)
  {
    hide Sends, Run, FanOut, Follows, AnyOk;
    FanOutFollows(channel, to, w, at);
    FanOutCount(channel, to, w, at);
    FollowsConcat(FanOut(channel, to, w, at), Run(f, w, at + |to|, q, c, false).events, w, at);
  }

  /** For every pager tree: each send of a page meets the next piece of weather, none is skipped and none is met twice. */
  lemma {:induction false} EverySendMeetsTheWeather(p: Pager, w: Weather, at: nat, q: Request, c: Contacts, escalated: bool)
    ensures Follows(Run(p, w, at, q, c, escalated).events, w, at)
    decreases p, 1, 0
  {
    hide Run, Follows;
    match p
    case LogPager => LogFollows(w, at, q, c, escalated);
    case Webhook(ready, f) => PostFollows(ready, f, w, at, q, c, escalated);
    case Hermes(ready, f) =>
      FanFollows(Bridge, true, f, w, at, q, c);
      FanRuns(p, w, at, q, c, escalated);
    case Telnyx(ready, f) =>
      FanFollows(Sms, false, f, w, at, q, c);
      FanRuns(p, w, at, q, c, escalated);
    case Email(ready, f) =>
      FanFollows(Mail, false, f, w, at, q, c);
      FanRuns(p, w, at, q, c, escalated);
    case Multi(_, _, _, _, _, f) =>
      var k := Resolved(p, q, c, escalated);
      EverySendMeetsTheWeather(f, w, at, q, k, false);
      PartsFollow(p, 0, w, at, q, k);
      MultiRuns(p, w, at, q, c, escalated);
    case Drill(markers, inner, f) =>
      EverySendMeetsTheWeather(inner, w, at, q, c, escalated && inner.Multi?);
      EverySendMeetsTheWeather(f, w, at, q, c, false);
      MarkFollows(Run(f, w, at, q, c, false).events, w, at);
      DrillRuns(p, w, at, q, c, escalated);
  }

  lemma LogFollows(w: Weather, at: nat, q: Request, c: Contacts, escalated: bool)
    ensures Follows(Run(LogPager, w, at, q, c, escalated).events, w, at)
  {
    hide Follows;
    FollowsOne(LogLine, w, at);
  }

  lemma {:induction false} PostFollows(ready: bool, f: Pager, w: Weather, at: nat, q: Request, c: Contacts, escalated: bool)
    ensures Follows(Run(Webhook(ready, f), w, at, q, c, escalated).events, w, at)
    decreases f, 2, 0
  {
    hide Follows, Sends;
    EverySendMeetsTheWeather(f, w, at, q, c, false);
    EverySendMeetsTheWeather(f, w, at + 1, q, c, false);
    var post := Sent(WebhookPost, "", w(at));
    FollowsOne(post, w, at);
    OneSend(post);
    FollowsConcat([post], Run(f, w, at + 1, q, c, false).events, w, at);
  }

  lemma OneSend(e: Event)
    ensures Sends([e]) == if e.Sent? then 1 else 0
  {
    hide Count;
    CountOne(e);
  }

  lemma {:induction false} FanFollows(channel: Channel, keeps: bool, f: Pager, w: Weather, at: nat, q: Request, c: Contacts)
    ensures Follows(Run(f, w, at, q, c, false).events, w, at)
    ensures Follows(FanOrFall(channel, Addresses(channel, ListOf(c)), keeps, f, w, at, q, c).events, w, at)
    decreases f, 1, 2
  {
    hide Follows, Run, FanOrFall;
    var to := Addresses(channel, ListOf(c));
    EverySendMeetsTheWeather(f, w, at, q, c, false);
    EverySendMeetsTheWeather(f, w, at + |to|, q, c, false);
    FallFollows(channel, to, keeps, f, w, at, q, c);
  }

  /** A fan-out pager either hands over at once or fans out. */
  lemma FanRuns(p: Pager, w: Weather, at: nat, q: Request, c: Contacts, escalated: bool)
    requires p.Hermes? || p.Telnyx? || p.Email?
    ensures var ch := Kind(p); var o := Run(p, w, at, q, c, escalated);
            o == Run(p.fallback, w, at, q, c, false)
            || o == FanOrFall(ch, Addresses(ch, ListOf(c)), p.Hermes?, p.fallback, w, at, q, c)
  {
    hide Addresses, FanOrFall;
  }

  lemma MultiRuns(p: Pager, w: Weather, at: nat, q: Request, c: Contacts, escalated: bool)
    requires p.Multi?
    ensures var k := Resolved(p, q, c, escalated); var o := Run(p, w, at, q, c, escalated);
            o == Run(p.fallback, w, at, q, k, false) || o == RunFrom(p, 0, w, at, q, k)
  {
    hide Resolved, RunFrom;
  }

  lemma DrillRuns(p: Pager, w: Weather, at: nat, q: Request, c: Contacts, escalated: bool)
    requires p.Drill?
    ensures var o := Run(p, w, at, q, c, escalated);
            o.events == [Suppressed] + Run(p.fallback, w, at, q, c, false).events
            || o == Run(p.inner, w, at, q, c, escalated && p.inner.Multi?)
  {
    hide IsDrill;
  }

  lemma MarkFollows(events: seq<Event>, w: Weather, at: nat)
    requires Follows(events, w, at)
    ensures Follows([Suppressed] + events, w, at)
  {
    hide Follows, Sends;
    FollowsOne(Suppressed, w, at);
    OneSend(Suppressed);
    FollowsConcat([Suppressed], events, w, at);
  }

  lemma {:induction false} PartsFollow(p: Pager, i: nat, w: Weather, at: nat, q: Request, c: Contacts)
    requires p.Multi? && i <= 4
    ensures Follows(RunFrom(p, i, w, at, q, c).events, w, at)
    decreases p, 0, 4 - i
  {
    hide Run, Follows, Sends;
    if i == 4 {
      assert Follows([], w, at) by {
        NoneFollow(w, at);
      }
    } else if PartAt(p, i).Absent? {
      PartsFollow(p, i + 1, w, at, q, c);
    } else {
      var part := PartAt(p, i).pager;
      var o := Run(part, w, at, q, c, false);
      EverySendMeetsTheWeather(part, w, at, q, c, false);
      PartsFollow(p, i + 1, w, at + Sends(o.events), q, c);
      FollowsConcat(o.events, RunFrom(p, i + 1, w, at + Sends(o.events), q, c).events, w, at);
    }
  }

  lemma NoneFollow(w: Weather, at: nat)
    ensures Follows([], w, at)
  {
  }

  // ---- the order of the channels ----------------------------------------------------------------------

  function Turn(channel: Channel): nat {
    match channel case WebhookPost => 0 case Bridge => 1 case Sms => 2 case Mail => 3
  }

  predicate InTurn(events: seq<Event>) {
    forall i, j :: 0 <= i < j < |events| && events[i].Sent? && events[j].Sent? ==> Turn(events[i].channel) <= Turn(events[j].channel)
  }

  predicate Only(events: seq<Event>, from: nat, upTo: nat) {
    forall i :: 0 <= i < |events| && events[i].Sent? ==> from <= Turn(events[i].channel) < upTo
  }

  lemma {:induction false} FanOutOnly(channel: Channel, to: seq<string>, w: Weather, at: nat)
    ensures Only(FanOut(channel, to, w, at), Turn(channel), Turn(channel) + 1)
  {
    if to != [] {
      FanOutOnly(channel, to[..|to| - 1], w, at);
    }
  }

  lemma InTurnConcat(a: seq<Event>, b: seq<Event>, from: nat, mid: nat, upTo: nat)
    requires InTurn(a) && InTurn(b) && Only(a, from, mid) && Only(b, mid, upTo) && from <= mid <= upTo
    ensures InTurn(a + b) && Only(a + b, from, upTo)
  {
  }

  lemma OneKind(events: seq<Event>, t: nat)
    requires Only(events, t, t + 1)
    ensures InTurn(events)
  {
  }

  lemma LogRun(w: Weather, at: nat, q: Request, c: Contacts)
    ensures Run(LogPager, w, at, q, c, false).events == [LogLine]
  {
  }

  lemma PostOnly(w: Weather, at: nat, q: Request, c: Contacts)
    ensures Only(Run(Webhook(true, LogPager), w, at, q, c, false).events, 0, 1)
  {
    if !w(at) {
      PostDownThenLog(w, at, q, c);
    }
  }

  lemma FallOnly(channel: Channel, to: seq<string>, keeps: bool, w: Weather, at: nat, q: Request, c: Contacts)
    ensures Only(FanOrFall(channel, to, keeps, LogPager, w, at, q, c).events, Turn(channel), Turn(channel) + 1)
  {
    hide FanOut, Run, AnyOk, Failed, Only;
    FanOutOnly(channel, to, w, at);
    LogRun(w, at + |to|, q, c);
    OnlyLogged(FanOut(channel, to, w, at), Turn(channel), Turn(channel) + 1);
  }

  lemma PartOnly(p: Pager, w: Weather, at: nat, q: Request, c: Contacts)
    requires FactoryPart(p)
    ensures Only(Run(p, w, at, q, c, false).events, Turn(Kind(p)), Turn(Kind(p)) + 1)
  {
    hide Run, FanOrFall;
    if p.Webhook? {
      PostOnly(w, at, q, c);
    } else {
      FanRuns(p, w, at, q, c, false);
      FallOnly(Kind(p), Addresses(Kind(p), ListOf(c)), p.Hermes?, w, at, q, c);
      LogRun(w, at, q, c);
    }
  }

  lemma OnlyLogged(events: seq<Event>, from: nat, upTo: nat)
    requires Only(events, from, upTo)
    ensures Only(events + [LogLine], from, upTo)
  {
  }

  lemma {:induction false} PartsInTurn(roster: OnCall, k: Credentials, i: nat, w: Weather, at: nat, q: Request, c: Contacts)
    requires i <= 4
    ensures var o := RunFrom(Channels(roster, k), i, w, at, q, c); InTurn(o.events) && Only(o.events, i, 4)
    decreases 4 - i
  {
    hide Run, Sends, InTurn, Only;
    var p := Channels(roster, k);
    if i == 4 {
      NothingInTurn();
    } else if PartAt(p, i).Absent? {
      PartsInTurn(roster, k, i + 1, w, at, q, c);
      OnlyMore(RunFrom(p, i + 1, w, at, q, c).events, i);
    } else {
      var part := PartAt(p, i).pager;
      var o := Run(part, w, at, q, c, false);
      PartKind(roster, k, i);
      PartOnly(part, w, at, q, c);
      OneKind(o.events, i);
      PartsInTurn(roster, k, i + 1, w, at + Sends(o.events), q, c);
      InTurnConcat(o.events, RunFrom(p, i + 1, w, at + Sends(o.events), q, c).events, i, i + 1, 4);
    }
  }

  lemma NothingInTurn()
    ensures InTurn([]) && Only([], 4, 4)
  {
  }

  lemma OnlyMore(events: seq<Event>, i: nat)
    requires Only(events, i + 1, 4)
    ensures Only(events, i, 4)
  {
  }

  lemma PartKind(roster: OnCall, k: Credentials, i: nat)
    requires i < 4 && PartAt(Channels(roster, k), i).Present?
    ensures var part := PartAt(Channels(roster, k), i).pager; FactoryPart(part) && Turn(Kind(part)) == i
  {
    assert i == 0 || i == 1 || i == 2 || i == 3;
  }

  /** The pager the settings build fires its channels in turn: the webhook, the bridge, then messages, then mails. */
  lemma ChannelsFireInTurn(roster: OnCall, k: Credentials, markers: string, w: Weather, q: Request, c: Contacts, escalated: bool)
    ensures InTurn(Run(BuildPager(roster, k, markers), w, 0, q, c, escalated).events)
  {
    hide ParseMarkers, RunFrom, IsDrill;
    if NoChannelFrom(Channels(roster, k), 0) {
      assert Run(LogPager, w, 0, q, c, escalated).events == [LogLine];
    } else {
      DrillSuppression(roster, k, markers, w, q, c, escalated);
      UnmarkedPager(roster, k);
      PartsInTurn(roster, k, 0, w, 0, q, Resolved(Channels(roster, k), q, c, escalated));
    }
  }
}
