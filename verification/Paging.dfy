/** The pagers as a tree over unreliable channels: what a page sends, what it logs, and what it reports. */
module Paging {
  import opened Text
  import opened Roster

  datatype Ticket = Ticket(id: string, conversation: string, persona: string)
  datatype Severity = CrisisPage | Sev1

  /** An explicit contact list, or none: then a multi-channel pager asks its roster. */
  datatype Contacts = NotGiven | Given(list: seq<Contact>)
  datatype Request = Request(ticket: Ticket, severity: Severity, now: int)

  datatype Channel = WebhookPost | Bridge | Sms | Mail
  datatype Event = Sent(channel: Channel, to: string, ok: bool) | LogLine | Suppressed

  /** `ready` is whether the channel has the credentials its constructor was given. */
  datatype Pager =
    | LogPager
    | Webhook(ready: bool, fallback: Pager)
    | Hermes(ready: bool, fallback: Pager)
    | Telnyx(ready: bool, fallback: Pager)
    | Email(ready: bool, fallback: Pager)
    | Multi(rota: Rota, webhook: Part, hermes: Part, telnyx: Part, email: Part, fallback: Pager)
    | Drill(markers: seq<string>, inner: Pager, fallback: Pager)
  datatype Rota = NoRota | Rota(roster: OnCall)
  datatype Part = Absent | Present(pager: Pager)

  // ---- drill markers ------------------------------------------------------------------------

  predicate IsDrill(t: Ticket, markers: seq<string>) {
    exists m | m in markers ::
      Contains(Lower(t.id), m) || Contains(Lower(t.conversation), m) || Contains(Lower(t.persona), m)
  }

  // ---- what a page does ----------------------------------------------------------------------

  /** Whether the n-th send of the page succeeds: any pattern of channel failures. */
  type Weather = nat -> bool

  /** The events of a page, the failure count it returns, and the failures whose count some pager threw away. */
  datatype Outcome = Outcome(events: seq<Event>, failures: nat, discarded: nat)

  function Address(channel: Channel, c: Contact): string {
    match channel
    case Bridge => c.whatsapp
    case Sms => c.phone
    case Mail => c.email
    case WebhookPost => ""
  }

  function Addresses(channel: Channel, list: seq<Contact>): seq<string> {
    if list == [] then []
    else
      var n := |list| - 1;
      var a := Address(channel, list[n]);
      Addresses(channel, list[..n]) + (if a == "" then [] else [a])
  }

  function FanOut(channel: Channel, to: seq<string>, w: Weather, at: nat): (events: seq<Event>)
    ensures |events| == |to|
  {
    if to == [] then []
    else
      var n := |to| - 1;
      FanOut(channel, to[..n], w, at) + [Sent(channel, to[n], w(at + n))]
  }

  /** What a list of events amounts to. */
  datatype Tally = Tally(failed: nat, delivered: nat, logged: nat)

  function One(e: Event): Tally {
    match e
    case Sent(_, _, ok) => if ok then Tally(0, 1, 0) else Tally(1, 0, 0)
    case LogLine => Tally(0, 0, 1)
    case Suppressed => Tally(0, 0, 0)
  }

  function Sum(a: Tally, b: Tally): Tally {
    Tally(a.failed + b.failed, a.delivered + b.delivered, a.logged + b.logged)
  }

  function Count(events: seq<Event>): Tally {
    if events == [] then Tally(0, 0, 0) else Sum(Count(events[..|events| - 1]), One(events[|events| - 1]))
  }

  function Failed(events: seq<Event>): nat {
    Count(events).failed
  }

  function Sends(events: seq<Event>): nat {
    Count(events).failed + Count(events).delivered
  }

  predicate AnyOk(events: seq<Event>) {
    Count(events).delivered > 0
  }

  function ListOf(c: Contacts): seq<Contact> {
    if c.Given? then c.list else []
  }

  /** A fan-out that landed nowhere hands over to the fallback, with or without keeping its count. */
  function FanOrFall(channel: Channel, to: seq<string>, keeps: bool, f: Pager, w: Weather, at: nat, q: Request, c: Contacts): Outcome
    decreases f, 3, 0
  {
    var sent := FanOut(channel, to, w, at);
    if AnyOk(sent) then Outcome(sent, Failed(sent), 0) else HandedOver(sent, Run(f, w, at + |to|, q, c, false), keeps)
  }

  function HandedOver(sent: seq<Event>, o: Outcome, keeps: bool): Outcome {
    if keeps then Outcome(sent + o.events, Failed(sent) + o.failures, o.discarded)
    else Outcome(sent + o.events, Failed(sent), o.failures + o.discarded)
  }

  function Resolved(p: Pager, q: Request, c: Contacts, escalated: bool): Contacts
    requires p.Multi?
  {
    if c.Given? || p.rota.NoRota? then c
    else Given(TargetsAt(p.rota.roster, escalated, q.now, q.severity.CrisisPage? || escalated))
  }

  /** The channels of a multi-channel pager in the order it fires them. */
  function PartAt(p: Pager, i: nat): (part: Part)
    requires p.Multi? && i < 4
    ensures part.Present? ==> part.pager < p
  {
    if i == 0 then p.webhook else if i == 1 then p.hermes else if i == 2 then p.telnyx else p.email
  }

  predicate NoChannelFrom(p: Pager, i: nat)
    requires p.Multi? && i <= 4
    decreases 4 - i
  {
    i == 4 || (PartAt(p, i).Absent? && NoChannelFrom(p, i + 1))
  }

  /** Channel i and the ones after it, each on the same contacts. */
  function RunFrom(p: Pager, i: nat, w: Weather, at: nat, q: Request, c: Contacts): Outcome
    requires p.Multi? && i <= 4
    decreases p, 1, 4 - i
  {
    if i == 4 then Outcome([], 0, 0)
    else if PartAt(p, i).Absent? then RunFrom(p, i + 1, w, at, q, c)
    else
      var o := Run(PartAt(p, i).pager, w, at, q, c, false);
      Then(o, RunFrom(p, i + 1, w, at + Sends(o.events), q, c))
  }

  function Then(a: Outcome, b: Outcome): Outcome {
    Outcome(a.events + b.events, a.failures + b.failures, a.discarded + b.discarded)
  }

  function Run(p: Pager, w: Weather, at: nat, q: Request, c: Contacts, escalated: bool): Outcome
    decreases p, 2, 0
  {
    match p
    case LogPager => Outcome([LogLine], 0, 0)
    case Webhook(ready, f) =>
      if !ready then Run(f, w, at, q, c, false)
      else if w(at) then Outcome([Sent(WebhookPost, "", true)], 0, 0)
      else Then(Outcome([Sent(WebhookPost, "", false)], 1, 0), Run(f, w, at + 1, q, c, false))
    case Hermes(ready, f) =>
      var to := Addresses(Bridge, ListOf(c));
      if to == [] || !ready then Run(f, w, at, q, c, false) else FanOrFall(Bridge, to, true, f, w, at, q, c)
    case Telnyx(ready, f) =>
      if !ready || ListOf(c) == [] then Run(f, w, at, q, c, false)
      else FanOrFall(Sms, Addresses(Sms, ListOf(c)), false, f, w, at, q, c)
    case Email(ready, f) =>
      if !ready || ListOf(c) == [] then Run(f, w, at, q, c, false)
      else FanOrFall(Mail, Addresses(Mail, ListOf(c)), false, f, w, at, q, c)
    case Multi(_, _, _, _, _, f) =>
      var k := Resolved(p, q, c, escalated);
      if NoChannelFrom(p, 0) then Run(f, w, at, q, k, false) else RunFrom(p, 0, w, at, q, k)
    case Drill(markers, inner, f) =>
      if IsDrill(q.ticket, markers) then Then(Outcome([Suppressed], 0, 0), Run(f, w, at, q, c, false))
      else Run(inner, w, at, q, c, escalated && inner.Multi?)
  }

  // ---- what every page guarantees ---------------------------------------------------------------

  lemma {:induction false} CountAdds(a: seq<Event>, b: seq<Event>)
    ensures Count(a + b) == Sum(Count(a), Count(b))
  {
    if b == [] {
      assert a + b == a;
    } else {
      assert (a + b)[..|a + b| - 1] == a + b[..|b| - 1];
      CountAdds(a, b[..|b| - 1]);
    }
  }

  lemma CountOne(e: Event)
    ensures Count([e]) == One(e)
  {
    assert [e][..0] == [];
  }

  lemma {:induction false} FanOutCount(channel: Channel, to: seq<string>, w: Weather, at: nat)
    ensures Sends(FanOut(channel, to, w, at)) == |to|
  {
    hide Count;
    if to == [] {
      CountNone();
    } else {
      hide FanOut;
      var n := |to| - 1;
      FanOutCount(channel, to[..n], w, at);
      FanOutStep(channel, to[..n], to[n], w, at);
      assert to[..n] + [to[n]] == to;
    }
  }

  lemma FanOutStep(channel: Channel, to: seq<string>, a: string, w: Weather, at: nat)
    ensures var sent := FanOut(channel, to, w, at); var e := Sent(channel, a, w(at + |to|));
            FanOut(channel, to + [a], w, at) == sent + [e] && Count(sent + [e]) == Sum(Count(sent), One(e))
  {
    var sent := FanOut(channel, to, w, at);
    assert (to + [a])[..|to|] == to;
    CountSnoc(sent, Sent(channel, a, w(at + |to|)));
  }

  lemma CountNone()
    ensures Count([]) == Tally(0, 0, 0)
  {
  }

  lemma CountSnoc(events: seq<Event>, e: Event)
    ensures Count(events + [e]) == Sum(Count(events), One(e))
  {
    assert (events + [e])[..|events|] == events;
  }

  predicate Lands(o: Outcome) {
    Count(o.events).delivered + Count(o.events).logged > 0
  }

  predicate Balances(o: Outcome) {
    o.failures + o.discarded == Failed(o.events)
  }

  predicate Good(o: Outcome) {
    Lands(o) && Balances(o)
  }

  lemma ThenKeeps(a: Outcome, b: Outcome)
    ensures Balances(a) && Balances(b) ==> Balances(Then(a, b))
    ensures Balances(a) && Balances(b) && (Good(a) || Good(b)) ==> Good(Then(a, b))
  {
    hide Count;
    CountAdds(a.events, b.events);
  }

  lemma HandingOverKeeps(sent: seq<Event>, o: Outcome, keeps: bool)
    ensures AnyOk(sent) ==> Good(Outcome(sent, Failed(sent), 0))
    ensures Good(o) ==> Good(HandedOver(sent, o, keeps))
  {
    hide Count;
    CountAdds(sent, o.events);
  }

  lemma FallKeeps(channel: Channel, to: seq<string>, keeps: bool, f: Pager, w: Weather, at: nat, q: Request, c: Contacts)
    requires Good(Run(f, w, at + |to|, q, c, false))
    ensures Good(FanOrFall(channel, to, keeps, f, w, at, q, c))
  {
    hide Good, Run, Failed, HandedOver;
    HandingOverKeeps(FanOut(channel, to, w, at), Run(f, w, at + |to|, q, c, false), keeps);
  }

  lemma Posted(ok: bool)
    ensures var post := Outcome([Sent(WebhookPost, "", ok)], if ok then 0 else 1, 0); Balances(post) && (ok ==> Good(post))
  {
    hide Count;
    CountOne(Sent(WebhookPost, "", ok));
  }

  lemma Unsent()
    ensures Balances(Outcome([], 0, 0))
  {
  }

  lemma Marked()
    ensures Good(Outcome([LogLine], 0, 0)) && Balances(Outcome([Suppressed], 0, 0))
  {
    hide Count;
    CountOne(LogLine);
    CountOne(Suppressed);
  }

  /** For every pager tree and every pattern of channel failures: the page ends in a delivered send or a log line,
      and the count it returns plus the counts its pagers threw away is the number of sends that failed. */
  lemma {:induction false} EveryPageLands(p: Pager, w: Weather, at: nat, q: Request, c: Contacts, escalated: bool)
    ensures Good(Run(p, w, at, q, c, escalated))
    decreases p, 1, 0
  {
    hide Good, Run;
    match p
    case LogPager => LogLands(w, at, q, c, escalated);
    case Webhook(ready, f) => WebhookLands(ready, f, w, at, q, c, escalated);
    case Hermes(ready, f) => HermesLands(ready, f, w, at, q, c, escalated);
    case Telnyx(ready, f) => TelnyxLands(ready, f, w, at, q, c, escalated);
    case Email(ready, f) => EmailLands(ready, f, w, at, q, c, escalated);
    case Multi(_, _, _, _, _, _) => MultiLands(p, w, at, q, c, escalated);
    case Drill(markers, inner, f) => DrillLands(markers, inner, f, w, at, q, c, escalated);
  }

  lemma LogLands(w: Weather, at: nat, q: Request, c: Contacts, escalated: bool)
    ensures Good(Run(LogPager, w, at, q, c, escalated))
  {
    hide Good;
    Marked();
  }

  lemma {:induction false} WebhookLands(ready: bool, f: Pager, w: Weather, at: nat, q: Request, c: Contacts, escalated: bool)
    ensures Good(Run(Webhook(ready, f), w, at, q, c, escalated))
    decreases f, 2, 0
  {
    hide Good, Balances;
    GoodRun(f, w, at, q, c);
    GoodRun(f, w, at + 1, q, c);
    Posted(w(at));
    ThenKeeps(Outcome([Sent(WebhookPost, "", false)], 1, 0), Run(f, w, at + 1, q, c, false));
  }

  lemma {:induction false} GoodRun(f: Pager, w: Weather, at: nat, q: Request, c: Contacts)
    ensures var o := Run(f, w, at, q, c, false); Good(o) && Balances(o)
    decreases f, 1, 1
  {
    hide Run, Balances, Lands;
    EveryPageLands(f, w, at, q, c, false);
  }

  lemma {:induction false} HermesLands(ready: bool, f: Pager, w: Weather, at: nat, q: Request, c: Contacts, escalated: bool)
    ensures Good(Run(Hermes(ready, f), w, at, q, c, escalated))
    decreases f, 2, 0
  {
    hide Good, Addresses, FanOrFall;
    FanLands(Bridge, true, f, w, at, q, c);
  }

  lemma {:induction false} TelnyxLands(ready: bool, f: Pager, w: Weather, at: nat, q: Request, c: Contacts, escalated: bool)
    ensures Good(Run(Telnyx(ready, f), w, at, q, c, escalated))
    decreases f, 2, 0
  {
    hide Good, Addresses, FanOrFall;
    FanLands(Sms, false, f, w, at, q, c);
  }

  lemma {:induction false} EmailLands(ready: bool, f: Pager, w: Weather, at: nat, q: Request, c: Contacts, escalated: bool)
    ensures Good(Run(Email(ready, f), w, at, q, c, escalated))
    decreases f, 2, 0
  {
    hide Good, Addresses, FanOrFall;
    FanLands(Mail, false, f, w, at, q, c);
  }

  /** The fan-out pagers: straight to the fallback, or through the fan-out. */
  lemma {:induction false} FanLands(channel: Channel, keeps: bool, f: Pager, w: Weather, at: nat, q: Request, c: Contacts)
    ensures Good(Run(f, w, at, q, c, false))
    ensures Good(FanOrFall(channel, Addresses(channel, ListOf(c)), keeps, f, w, at, q, c))
    decreases f, 1, 2
  {
    hide Good, Balances, Run, FanOrFall;
    var to := Addresses(channel, ListOf(c));
    GoodRun(f, w, at, q, c);
    GoodRun(f, w, at + |to|, q, c);
    FallKeeps(channel, to, keeps, f, w, at, q, c);
  }

  lemma {:induction false} MultiLands(p: Pager, w: Weather, at: nat, q: Request, c: Contacts, escalated: bool)
    requires p.Multi?
    ensures Good(Run(p, w, at, q, c, escalated))
    decreases p, 0, 5
  {
    hide Good, Balances, RunFrom, Resolved;
    var k := Resolved(p, q, c, escalated);
    GoodRun(p.fallback, w, at, q, k);
    PartsLand(p, 0, w, at, q, k);
  }

  lemma {:induction false} PartsLand(p: Pager, i: nat, w: Weather, at: nat, q: Request, c: Contacts)
    requires p.Multi? && i <= 4
    ensures var o := RunFrom(p, i, w, at, q, c); Balances(o) && (!NoChannelFrom(p, i) ==> Good(o))
    decreases p, 0, 4 - i
  {
    hide Good, Balances, Run, Then, Count;
    if i == 4 {
      Unsent();
    } else if PartAt(p, i).Absent? {
      PartsLand(p, i + 1, w, at, q, c);
    } else {
      var part := PartAt(p, i).pager;
      var o := Run(part, w, at, q, c, false);
      GoodRun(part, w, at, q, c);
      PartsLand(p, i + 1, w, at + Sends(o.events), q, c);
      ThenKeeps(o, RunFrom(p, i + 1, w, at + Sends(o.events), q, c));
    }
  }

  lemma {:induction false} DrillLands(markers: seq<string>, inner: Pager, f: Pager, w: Weather, at: nat, q: Request, c: Contacts, escalated: bool)
    ensures Good(Run(Drill(markers, inner, f), w, at, q, c, escalated))
    decreases Drill(markers, inner, f), 0, 0
  {
    hide Good, Balances, IsDrill, Then;
    EveryPageLands(inner, w, at, q, c, escalated && inner.Multi?);
    GoodRun(f, w, at, q, c);
    Marked();
    ThenKeeps(Outcome([Suppressed], 0, 0), Run(f, w, at, q, c, false));
  }
}
