/** The page methods as they run: one send at a time over the channels, counting failures on the way. */
module PageTransport {
  import opened Roster
  import opened Paging

  class Transport {
    const weather: Weather
    var events: seq<Event>

    constructor (weather: Weather)
      ensures this.weather == weather && events == []
    {
      this.weather := weather;
      events := [];
    }

    method Send(channel: Channel, to: string) returns (ok: bool)
      modifies this
      ensures ok == weather(Sends(old(events))) && events == old(events) + [Sent(channel, to, ok)]
    {
      ok := weather(Sends(events));
      events := events + [Sent(channel, to, ok)];
    }

    /** One loop over the contacts: skip those without an address, count failures, note any success. */
    method SendToAll(channel: Channel, list: seq<Contact>) returns (failures: nat, anySent: bool)
      modifies this
      ensures var sent := FanOut(channel, Addresses(channel, list), weather, Sends(old(events)));
              events == old(events) + sent && failures == Failed(sent) && anySent == AnyOk(sent)
    {
      hide Count, FanOut, Addresses, Failed, AnyOk;
      ghost var at := Sends(events);
      failures, anySent := 0, false;
      SentNothing(channel, list, weather, at, events);
      for i := 0 to |list|
        invariant SentSo(old(events), events, channel, list[..i], weather, at, failures, anySent)
      {
        var address := Address(channel, list[i]);
        if address == "" {
          SkippedOne(old(events), events, channel, list, i, weather, at, failures, anySent);
        } else {
          ghost var before := events;
          var ok := Send(channel, address);
          SentOne(old(events), before, channel, list, i, weather, at, failures, anySent);
          failures := if ok then failures else failures + 1;
          anySent := anySent || ok;
        }
      }
      assert list[..|list|] == list;
    }

    /** A fan-out pager once it has decided to send. */
    method PageAll(channel: Channel, list: seq<Contact>, keeps: bool, f: Pager, q: Request, c: Contacts)
      returns (failures: nat)
      requires list == ListOf(c)
      modifies this
      ensures var o := FanOrFall(channel, Addresses(channel, list), keeps, f, weather, Sends(old(events)), q, c);
              events == old(events) + o.events && failures == o.failures
      decreases f, 2
    {
      hide Count, Run, Addresses, FanOut;
      ghost var sent := FanOut(channel, Addresses(channel, list), weather, Sends(events));
      FanOutCount(channel, Addresses(channel, list), weather, Sends(events));
      CountAdds(events, sent);
      var anySent;
      failures, anySent := SendToAll(channel, list);
      if !anySent {
        var more := Page(f, q, c, false);
        if keeps {
          failures := failures + more;
        }
      }
    }

    method PageWebhook(f: Pager, q: Request, c: Contacts) returns (failures: nat)
      modifies this
      ensures var o := Run(Webhook(true, f), weather, Sends(old(events)), q, c, false);
              events == old(events) + o.events && failures == o.failures
      decreases f, 2
    {
      hide Count;
      CountAdds(events, [Sent(WebhookPost, "", false)]);
      CountOne(Sent(WebhookPost, "", false));
      var ok := Send(WebhookPost, "");
      if ok {
        failures := 0;
      } else {
        failures := Page(f, q, c, false);
        failures := 1 + failures;
      }
    }

    /** The channels of a multi-channel pager in turn, summing their failures. */
    method PageParts(p: Pager, i: nat, q: Request, c: Contacts) returns (failures: nat)
      requires p.Multi? && i <= 4
      modifies this
      ensures var o := RunFrom(p, i, weather, Sends(old(events)), q, c);
              events == old(events) + o.events && failures == o.failures
      decreases p, 0, 4 - i
    {
      hide Count, Run;
      failures := 0;
      if i < 4 {
        if PartAt(p, i).Present? {
          ghost var o := Run(PartAt(p, i).pager, weather, Sends(events), q, c, false);
          CountAdds(events, o.events);
          failures := Page(PartAt(p, i).pager, q, c, false);
        }
        var more := PageParts(p, i + 1, q, c);
        failures := failures + more;
      }
    }

    method Page(p: Pager, q: Request, c: Contacts, escalated: bool) returns (failures: nat)
      modifies this
      ensures var o := Run(p, weather, Sends(old(events)), q, c, escalated);
              events == old(events) + o.events && failures == o.failures
      decreases p, 1
    {
      hide Count, FanOrFall, RunFrom, Addresses, FanOut, IsDrill;
      match p
      case LogPager =>
        events := events + [LogLine];
        failures := 0;
      case Webhook(ready, f) =>
        if !ready {
          failures := Page(f, q, c, false);
        } else {
          failures := PageWebhook(f, q, c);
        }
      case Hermes(ready, f) =>
        if Addresses(Bridge, ListOf(c)) == [] || !ready {
          failures := Page(f, q, c, false);
        } else {
          failures := PageAll(Bridge, ListOf(c), true, f, q, c);
        }
      case Telnyx(ready, f) =>
        if !ready || ListOf(c) == [] {
          failures := Page(f, q, c, false);
        } else {
          failures := PageAll(Sms, ListOf(c), false, f, q, c);
        }
      case Email(ready, f) =>
        if !ready || ListOf(c) == [] {
          failures := Page(f, q, c, false);
        } else {
          failures := PageAll(Mail, ListOf(c), false, f, q, c);
        }
      case Multi(_, _, _, _, _, f) =>
        var k := Resolved(p, q, c, escalated);
        if NoChannelFrom(p, 0) {
          failures := Page(f, q, k, false);
        } else {
          failures := PageParts(p, 0, q, k);
        }
      case Drill(markers, inner, f) =>
        if IsDrill(q.ticket, markers) {
          CountAdds(events, [Suppressed]);
          CountOne(Suppressed);
          events := events + [Suppressed];
          failures := Page(f, q, c, false);
        } else {
          failures := Page(inner, q, c, escalated && inner.Multi?);
        }
    }
  }

  /** The loop state after the contacts in `done`. */
  predicate SentSo(before: seq<Event>, now: seq<Event>, channel: Channel, done: seq<Contact>, w: Weather, at: nat,
                   failures: nat, anySent: bool)
  {
    var sent := FanOut(channel, Addresses(channel, done), w, at);
    now == before + sent && failures == Failed(sent) && anySent == AnyOk(sent)
  }

  lemma SentNothing(channel: Channel, list: seq<Contact>, w: Weather, at: nat, now: seq<Event>)
    ensures SentSo(now, now, channel, list[..0], w, at, 0, false)
  {
    assert now + [] == now;
  }

  lemma AddressesStep(channel: Channel, list: seq<Contact>, i: nat)
    requires i < |list|
    ensures var a := Address(channel, list[i]); var front := Addresses(channel, list[..i]);
            Addresses(channel, list[..i + 1]) == if a == "" then front else front + [a]
  {
    assert list[..i + 1][..i] == list[..i];
    assert Addresses(channel, list[..i]) + [] == Addresses(channel, list[..i]);
  }

  lemma SkippedOne(before: seq<Event>, now: seq<Event>, channel: Channel, list: seq<Contact>, i: nat, w: Weather, at: nat,
                   failures: nat, anySent: bool)
    requires i < |list| && Address(channel, list[i]) == ""
    requires SentSo(before, now, channel, list[..i], w, at, failures, anySent)
    ensures SentSo(before, now, channel, list[..i + 1], w, at, failures, anySent)
  {
    hide Count, FanOut;
    AddressesStep(channel, list, i);
  }

  lemma SentOne(before: seq<Event>, now: seq<Event>, channel: Channel, list: seq<Contact>, i: nat, w: Weather, at: nat,
                failures: nat, anySent: bool)
    requires i < |list| && Address(channel, list[i]) != ""
    requires at == Sends(before) && SentSo(before, now, channel, list[..i], w, at, failures, anySent)
    ensures var ok := w(Sends(now));
            SentSo(before, now + [Sent(channel, Address(channel, list[i]), ok)], channel, list[..i + 1], w, at,
                   if ok then failures else failures + 1, anySent || ok)
  {
    hide Count, FanOut, Addresses;
    var to := Addresses(channel, list[..i]);
    var sent := FanOut(channel, to, w, at);
    AddressesStep(channel, list, i);
    FanOutStep(channel, to, Address(channel, list[i]), w, at);
    FanOutCount(channel, to, w, at);
    CountAdds(before, sent);
    assert Sends(now) == at + |to|;
    var e := Sent(channel, Address(channel, list[i]), w(at + |to|));
    assert now + [e] == before + (sent + [e]);
  }
}
