/** The pager the settings build, and what its pages do. */
module PagerFactory {
  import opened Text
  import opened Roster
  import opened Paging
  import opened PagerCounts

  function SplitCommas(raw: string): seq<string> {
    if raw == "" then [""]
    else
      var rest := SplitCommas(raw[1..]);
      if raw[0] == ',' then [""] + rest else [[raw[0]] + rest[0]] + rest[1..]
  }

  function NonBlank(parts: seq<string>): seq<string> {
    if parts == [] then []
    else (if Strip(parts[0]) == "" then [] else [Lower(Strip(parts[0]))]) + NonBlank(parts[1..])
  }

  function ParseMarkers(raw: string): seq<string> {
    NonBlank(SplitCommas(raw))
  }

  /** A part of the setting between commas, or between a comma and an end. */
  predicate Field(raw: string, i: int, j: int) {
    && 0 <= i <= j <= |raw| && (i == 0 || raw[i - 1] == ',') && (j == |raw| || raw[j] == ',')
    && forall n :: i <= n < j ==> raw[n] != ','
  }

  lemma {:induction false} SplitAre(raw: string)
    ensures exists j :: Field(raw, 0, j) && SplitCommas(raw)[0] == raw[..j]
    ensures forall f :: f in SplitCommas(raw)[1..] <==> LaterField(raw, f)
  {
    if raw == "" {
      assert Field(raw, 0, 0);
    } else {
      var parts := SplitCommas(raw[1..]);
      SplitAre(raw[1..]);
      var h :| Field(raw[1..], 0, h) && parts[0] == raw[1..][..h];
      forall f
        ensures LaterField(raw, f) <==> f in (if raw[0] == ',' then parts else parts[1..])
      {
        LaterFields(raw, parts, h, f);
      }
      FirstField(raw, h);
      hide LaterField;
      assert SplitCommas(raw)[1..] == if raw[0] == ',' then parts else parts[1..];
    }
  }

  lemma FirstField(raw: string, h: int)
    requires raw != "" && Field(raw[1..], 0, h)
    ensures if raw[0] == ',' then Field(raw, 0, 0) else Field(raw, 0, h + 1) && [raw[0]] + raw[1..][..h] == raw[..h + 1]
  {
    assert forall n :: 1 <= n < |raw| ==> raw[n] == raw[1..][n - 1];
  }

  lemma FieldShifts(raw: string, i: int, j: int)
    requires raw != "" && i > 0
    ensures i > 1 || raw[0] == ',' ==> (Field(raw, i, j) <==> Field(raw[1..], i - 1, j - 1))
    ensures Field(raw, i, j) ==> raw[i..j] == raw[1..][i - 1..j - 1]
    ensures i == 1 && raw[0] != ',' ==> !Field(raw, i, j)
  {
    var t := raw[1..];
    assert forall n :: 1 <= n < |raw| ==> raw[n] == t[n - 1];
    if Field(t, i - 1, j - 1) && (i > 1 || raw[0] == ',') {
      forall n | i <= n < j
        ensures raw[n] != ','
      {
        assert t[n - 1] != ',';
      }
    }
    if Field(raw, i, j) {
      forall n | i - 1 <= n < j - 1
        ensures t[n] != ','
      {
        assert raw[n + 1] != ',';
      }
    }
  }

  ghost predicate LaterField(raw: string, f: string) {
    exists i, j :: i > 0 && Field(raw, i, j) && raw[i..j] == f
  }

  lemma LaterFields(raw: string, parts: seq<string>, h: int, f: string)
    requires raw != "" && parts == SplitCommas(raw[1..]) && parts != [] && Field(raw[1..], 0, h) && parts[0] == raw[1..][..h]
    requires forall g :: g in parts[1..] <==> LaterField(raw[1..], g)
    ensures LaterField(raw, f) <==> f in (if raw[0] == ',' then parts else parts[1..])
  {
    hide SplitCommas;
    assert f in parts <==> f == parts[0] || f in parts[1..];
    if LaterField(raw, f) {
      FieldOfRest(raw, f, h);
    }
    hide Field;
    if f in parts[1..] {
      FieldOfWhole(raw, f);
    }
    if raw[0] == ',' && f == parts[0] {
      FirstOfRest(raw, h);
    }
  }

  lemma FieldOfRest(raw: string, f: string, h: int)
    requires raw != "" && LaterField(raw, f) && Field(raw[1..], 0, h)
    ensures LaterField(raw[1..], f) || (raw[0] == ',' && f == raw[1..][..h])
  {
    var i, j :| i > 0 && Field(raw, i, j) && raw[i..j] == f;
    FieldShifts(raw, i, j);
    if i == 1 {
      OneFieldFrom(raw[1..], 0, j - 1, h);
    }
  }

  lemma FieldOfWhole(raw: string, f: string)
    requires raw != "" && LaterField(raw[1..], f)
    ensures LaterField(raw, f)
  {
    var i, j :| i > 0 && Field(raw[1..], i, j) && raw[1..][i..j] == f;
    FieldShifts(raw, i + 1, j + 1);
    assert Field(raw, i + 1, j + 1) && raw[i + 1..j + 1] == f;
  }

  lemma FirstOfRest(raw: string, h: int)
    requires raw != "" && raw[0] == ',' && Field(raw[1..], 0, h)
    ensures LaterField(raw, raw[1..][..h])
  {
    FieldShifts(raw, 1, h + 1);
    assert Field(raw, 1, h + 1) && raw[1..h + 1] == raw[1..][..h];
  }

  lemma OneFieldFrom(t: string, i: int, j: int, h: int)
    requires Field(t, i, j) && Field(t, i, h)
    ensures j == h
  {
  }

  lemma {:induction false} NonBlankAre(parts: seq<string>, m: string)
    ensures m in NonBlank(parts) <==> exists f :: f in parts && Strip(f) != "" && m == Lower(Strip(f))
  {
    hide Strip, Lower;
    if parts != [] {
      NonBlankAre(parts[1..], m);
      assert forall f :: f in parts <==> f == parts[0] || f in parts[1..];
    }
  }

  /** The drill markers are the comma-separated parts of the setting, trimmed and lower-cased, but for the blank ones. */
  lemma MarkersAreTheParts(raw: string, m: string)
    ensures m in ParseMarkers(raw) <==> exists i, j :: Field(raw, i, j) && Strip(raw[i..j]) != "" && m == Lower(Strip(raw[i..j]))
  {
    hide Strip, Lower;
    SplitAre(raw);
    var parts := SplitCommas(raw);
    NonBlankAre(parts, m);
    var h :| Field(raw, 0, h) && parts[0] == raw[..h];
    assert raw[..h] == raw[0..h];
    assert forall f :: f in parts <==> f == parts[0] || f in parts[1..];
    if i, j :| Field(raw, i, j) && Strip(raw[i..j]) != "" && m == Lower(Strip(raw[i..j])) {
      if i == 0 {
        OneFieldFrom(raw, 0, j, h);
      }
      assert raw[i..j] in parts;
    }
  }

  /** Some marker occurs in the text, case aside. */
  ghost predicate Marked(markers: string, text: string) {
    exists i, j :: Field(markers, i, j) && Strip(markers[i..j]) != "" && Occurs(Lower(Strip(markers[i..j])), Lower(text))
  }

  ghost predicate Occurs(part: string, text: string) {
    exists before: string, after: string :: text == before + part + after
  }

  lemma ContainsIsOccurs(text: string, part: string)
    ensures Contains(text, part) <==> Occurs(part, text)
  {
    if before: string, after: string :| text == before + part + after {
      assert OccursAt(text, part, |before|);
    }
    if k :| 0 <= k <= |text| && OccursAt(text, part, k) {
      assert text == text[..k] + part + text[k + |part|..];
    }
  }

  /** A ticket is a drill exactly when a marker occurs in its id, its conversation or its persona. */
  lemma DrillExactly(t: Ticket, markers: string)
    ensures IsDrill(t, ParseMarkers(markers)) <==> Marked(markers, t.id) || Marked(markers, t.conversation) || Marked(markers, t.persona)
  {
    hide ParseMarkers, Strip, Lower, Contains, Occurs, Marked;
    forall m
      ensures m in ParseMarkers(markers)
              <==> exists i, j :: Field(markers, i, j) && Strip(markers[i..j]) != "" && m == Lower(Strip(markers[i..j]))
    {
      MarkersAreTheParts(markers, m);
    }
    forall m
      ensures Contains(Lower(t.id), m) <==> Occurs(m, Lower(t.id))
      ensures Contains(Lower(t.conversation), m) <==> Occurs(m, Lower(t.conversation))
      ensures Contains(Lower(t.persona), m) <==> Occurs(m, Lower(t.persona))
    {
      ContainsIsOccurs(Lower(t.id), m);
      ContainsIsOccurs(Lower(t.conversation), m);
      ContainsIsOccurs(Lower(t.persona), m);
    }
    MarkedMeans(markers, t.id);
    MarkedMeans(markers, t.conversation);
    MarkedMeans(markers, t.persona);
  }

  lemma MarkedMeans(markers: string, text: string)
    ensures Marked(markers, text) <==> exists m :: m in ParseMarkers(markers) && Occurs(m, Lower(text))
  {
    hide ParseMarkers, Strip, Lower, Occurs;
    if m :| m in ParseMarkers(markers) && Occurs(m, Lower(text)) {
      MarkersAreTheParts(markers, m);
    }
    if i, j :| Field(markers, i, j) && Strip(markers[i..j]) != "" && Occurs(Lower(Strip(markers[i..j])), Lower(text)) {
      MarkersAreTheParts(markers, Lower(Strip(markers[i..j])));
    }
  }

  datatype Provider = LogProvider | WebhookProvider | HermesProvider
  /** Which credentials are present. */
  datatype Credentials = Credentials(provider: Provider, url: bool, telnyxKey: bool, telnyxFrom: bool, smtpHost: bool)

  function When(present: bool, p: Pager): Part {
    if present then Present(p) else Absent
  }

  function Channels(roster: OnCall, k: Credentials): Pager {
    Multi(Rota(roster),
          When(k.provider.WebhookProvider? && k.url, Webhook(true, LogPager)),
          When(k.provider.HermesProvider? && k.url, Hermes(true, LogPager)),
          When(k.telnyxKey && k.telnyxFrom, Telnyx(true, LogPager)),
          When(k.smtpHost, Email(true, LogPager)),
          LogPager)
  }

  function BuildPager(roster: OnCall, k: Credentials, markers: string): Pager {
    var multi := Channels(roster, k);
    if NoChannelFrom(multi, 0) then LogPager
    else if ParseMarkers(markers) == [] then multi
    else Drill(ParseMarkers(markers), multi, LogPager)
  }

  /** Every channel falls back to the log line. */
  predicate LogFallbacks(p: Pager) {
    match p
    case LogPager => true
    case Webhook(_, f) => f == LogPager
    case Hermes(_, f) => f == LogPager
    case Telnyx(_, f) => f == LogPager
    case Email(_, f) => f == LogPager
    case Multi(_, w, h, t, e, f) =>
      (w.Present? ==> LogFallbacks(w.pager)) && (h.Present? ==> LogFallbacks(h.pager))
      && (t.Present? ==> LogFallbacks(t.pager)) && (e.Present? ==> LogFallbacks(e.pager)) && f == LogPager
    case Drill(_, i, f) => LogFallbacks(i) && f == LogPager
  }

  lemma {:induction false} LogFallbacksKeepCounts(p: Pager, q: Request, c: Contacts, escalated: bool)
    requires LogFallbacks(p)
    ensures KeepsCounts(p, q, c, escalated)
    decreases p, 1, 0
  {
    hide Resolved, IsDrill;
    assert KeepsCounts(LogPager, q, c, false) && !CanSend(LogPager, q, c, false);
    match p
    case Multi(_, _, _, _, _, _) =>
      var k := Resolved(p, q, c, escalated);
      assert KeepsCounts(LogPager, q, k, false);
      PartsKeepCounts(p, 0, q, k);
    case Drill(_, inner, _) => LogFallbacksKeepCounts(inner, q, c, escalated && inner.Multi?);
    case _ =>
  }

  lemma {:induction false} PartsKeepCounts(p: Pager, i: nat, q: Request, c: Contacts)
    requires p.Multi? && LogFallbacks(p) && i <= 4
    ensures AllPartsKeepCounts(p, i, q, c)
    decreases p, 0, 4 - i
  {
    hide KeepsCounts;
    if i < 4 {
      if PartAt(p, i).Present? {
        LogFallbacksKeepCounts(PartAt(p, i).pager, q, c, false);
      }
      PartsKeepCounts(p, i + 1, q, c);
    }
  }

  /** No count is dropped in a tree whose fallbacks are all the log line. */
  lemma NothingDiscarded(p: Pager, w: Weather, at: nat, q: Request, c: Contacts, escalated: bool)
    requires LogFallbacks(p)
    ensures Run(p, w, at, q, c, escalated).discarded == 0
  {
    hide Run, KeepsCounts, LogFallbacks;
    LogFallbacksKeepCounts(p, q, c, escalated);
    CountsAreKeptExactly(p, q, c, escalated);
  }

  lemma ChannelsFallToLog(roster: OnCall, k: Credentials)
    ensures LogFallbacks(Channels(roster, k))
  {
    var p := Channels(roster, k);
    assert p.webhook.Present? ==> LogFallbacks(p.webhook.pager);
    assert p.hermes.Present? ==> LogFallbacks(p.hermes.pager);
    assert p.telnyx.Present? ==> LogFallbacks(p.telnyx.pager);
    assert p.email.Present? ==> LogFallbacks(p.email.pager);
  }

  /** A factory-built pager reports exactly the number of real sends that failed. */
  lemma FactoryCountsFailures(roster: OnCall, k: Credentials, markers: string,
                              w: Weather, q: Request, c: Contacts, escalated: bool)
    ensures var o := Run(BuildPager(roster, k, markers), w, 0, q, c, escalated); o.failures == Failed(o.events)
  {
    hide Run, Failed, ParseMarkers;
    var p := BuildPager(roster, k, markers);
    ChannelsFallToLog(roster, k);
    NothingDiscarded(p, w, 0, q, c, escalated);
    EveryPageLands(p, w, 0, q, c, escalated);
  }

  lemma PostDownThenLog(w: Weather, at: nat, q: Request, c: Contacts)
    requires !w(at)
    ensures Run(Webhook(true, LogPager), w, at, q, c, false) == Outcome([Sent(WebhookPost, "", false)] + [LogLine], 1, 0)
  {
    assert Run(LogPager, w, at + 1, q, c, false) == Outcome([LogLine], 0, 0);
  }

  lemma PostDownCount()
    ensures Count([Sent(WebhookPost, "", false)] + [LogLine]) == Tally(1, 0, 1)
  {
    hide Count;
    CountOne(LogLine);
    CountOne(Sent(WebhookPost, "", false));
    CountAdds([Sent(WebhookPost, "", false)], [LogLine]);
  }

  /** Behind another real channel an SMS pager under-reports: with every channel down it returns only its own
      failures and drops the fallback's. */
  lemma UnderReport(q: Request, list: seq<Contact>, w: Weather)
    requires list != [] && forall n :: !w(n)
    ensures var o := Run(Telnyx(true, Webhook(true, LogPager)), w, 0, q, Given(list), false);
            Failed(o.events) == |Addresses(Sms, list)| + 1 && o.failures == |Addresses(Sms, list)|
  {
    hide Count, Addresses, FanOut;
    var to := Addresses(Sms, list);
    AllFail(Sms, to, w, 0);
    PostDownThenLog(w, |to|, q, Given(list));
    PostDownCount();
    CountAdds(FanOut(Sms, to, w, 0), [Sent(WebhookPost, "", false)] + [LogLine]);
  }

  /** A drill-marked ticket attempts no real send and leaves one suppression mark and one log line; any other
      ticket is paged exactly as if drill suppression were off. */
  lemma DrillSuppression(roster: OnCall, k: Credentials, markers: string, w: Weather, q: Request, c: Contacts, escalated: bool)
    requires !NoChannelFrom(Channels(roster, k), 0)
    ensures var drill := IsDrill(q.ticket, ParseMarkers(markers));
            var o := Run(BuildPager(roster, k, markers), w, 0, q, c, escalated);
            && (drill ==> o == Outcome([Suppressed, LogLine], 0, 0))
            && (!drill ==> o == Run(BuildPager(roster, k, ""), w, 0, q, c, escalated))
  {
    assert SplitCommas("") == [""] && Strip("") == "";
    assert [""][1..] == [];
    assert NonBlank([]) == [];
    assert ParseMarkers("") == [];
  }

  // ---- exactly when anything real is sent ---------------------------------------------------------------

  lemma LoggedSends(sent: seq<Event>)
    ensures Sends(sent + [LogLine]) == Sends(sent)
  {
    hide Count;
    CountAdds(sent, [LogLine]);
    CountOne(LogLine);
  }

  lemma PostSends(w: Weather, at: nat, q: Request, c: Contacts, escalated: bool)
    ensures Sends(Run(Webhook(true, LogPager), w, at, q, c, escalated).events) == 1
  {
    hide Count;
    CountOne(Sent(WebhookPost, "", w(at)));
    if !w(at) {
      PostDownThenLog(w, at, q, c);
      LoggedSends([Sent(WebhookPost, "", false)]);
    }
  }

  lemma FanSends(channel: Channel, to: seq<string>, keeps: bool, w: Weather, at: nat, q: Request, c: Contacts)
    ensures Sends(FanOrFall(channel, to, keeps, LogPager, w, at, q, c).events) == |to|
  {
    hide Count, FanOut;
    FanOutCount(channel, to, w, at);
    LoggedSends(FanOut(channel, to, w, at));
    assert Run(LogPager, w, at + |to|, q, c, false) == Outcome([LogLine], 0, 0);
  }

  lemma LogSends(w: Weather, at: nat, q: Request, c: Contacts, escalated: bool)
    ensures Sends(Run(LogPager, w, at, q, c, escalated).events) == 0 && !CanSend(LogPager, q, c, escalated)
  {
    hide Count;
    CountOne(LogLine);
  }

  /** A channel of the factory sends something exactly when it can, whatever the weather. */
  lemma PartSends(p: Pager, w: Weather, at: nat, q: Request, c: Contacts)
    requires FactoryPart(p)
    ensures Sends(Run(p, w, at, q, c, false).events) > 0 <==> CanSend(p, q, c, false)
  {
    hide Sends, FanOrFall, Addresses;
    LogSends(w, at, q, c, false);
    if p.Webhook? {
      PostSends(w, at, q, c, false);
    } else {
      var to := Addresses(Kind(p), ListOf(c));
      FanSends(Kind(p), to, p.Hermes?, w, at, q, c);
      NobodyNoAddress(Kind(p), c);
    }
  }

  lemma ThenSends(a: Outcome, b: Outcome)
    ensures Sends(Then(a, b).events) == Sends(a.events) + Sends(b.events)
  {
    hide Count;
    CountAdds(a.events, b.events);
  }

  lemma {:induction false} PartsSend(p: Pager, i: nat, w: Weather, at: nat, q: Request, c: Contacts)
    requires FactoryMulti(p) && i <= 4
    ensures Sends(RunFrom(p, i, w, at, q, c).events) > 0 <==> SomePartCanSend(p, i, q, c)
    decreases 4 - i
  {
    hide Run, Then, CanSend;
    if i == 4 {
    } else if PartAt(p, i).Absent? {
      PartsSend(p, i + 1, w, at, q, c);
    } else {
      hide Sends;
      var part := PartAt(p, i).pager;
      var o := Run(part, w, at, q, c, false);
      PartIsFactory(p, i);
      PartSends(part, w, at, q, c);
      PartsSend(p, i + 1, w, at + Sends(o.events), q, c);
      ThenSends(o, RunFrom(p, i + 1, w, at + Sends(o.events), q, c));
    }
  }

  /** Some armed channel has somewhere to send: the webhook, or one with an address among those to page. */
  predicate Reaches(roster: OnCall, k: Credentials, q: Request, c: Contacts, escalated: bool) {
    var list := match c
                case Given(list) => list
                case NotGiven => TargetsAt(roster, escalated, q.now, q.severity == CrisisPage || escalated);
    || (k.provider.WebhookProvider? && k.url)
    || (k.provider.HermesProvider? && k.url && exists x | x in list :: x.whatsapp != "")
    || (k.telnyxKey && k.telnyxFrom && exists x | x in list :: x.phone != "")
    || (k.smtpHost && exists x | x in list :: x.email != "")
  }

  lemma SomeAddress(channel: Channel, list: seq<Contact>)
    ensures Addresses(channel, list) != [] <==> exists x | x in list :: Address(channel, x) != ""
  {
    if Addresses(channel, list) != [] {
      AddressesAre(channel, list, Addresses(channel, list)[0]);
      assert Addresses(channel, list)[0] in Addresses(channel, list);
    }
    if x :| x in list && Address(channel, x) != "" {
      AddressesAre(channel, list, Address(channel, x));
    }
  }

  lemma ReachesByAddresses(roster: OnCall, k: Credentials, q: Request, c: Contacts, escalated: bool)
    ensures var list := ListOf(Resolved(Channels(roster, k), q, c, escalated));
            Reaches(roster, k, q, c, escalated)
            <==> || (k.provider.WebhookProvider? && k.url)
                 || (Ready(k, Bridge) && Addresses(Bridge, list) != [])
                 || (Ready(k, Sms) && Addresses(Sms, list) != [])
                 || (Ready(k, Mail) && Addresses(Mail, list) != [])
  {
    hide Addresses, TargetsAt;
    var list := ListOf(Resolved(Channels(roster, k), q, c, escalated));
    SomeAddress(Bridge, list);
    SomeAddress(Sms, list);
    SomeAddress(Mail, list);
  }

  lemma ChannelsCanSend(roster: OnCall, k: Credentials, q: Request, c: Contacts, escalated: bool)
    ensures FactoryMulti(Channels(roster, k))
    ensures Reaches(roster, k, q, c, escalated)
            <==> SomePartCanSend(Channels(roster, k), 0, q, Resolved(Channels(roster, k), q, c, escalated))
    ensures NoChannelFrom(Channels(roster, k), 0) ==> !Reaches(roster, k, q, c, escalated)
  {
    hide Addresses, Resolved, Reaches;
    ReachesByAddresses(roster, k, q, c, escalated);
    var p := Channels(roster, k);
    var l := Resolved(p, q, c, escalated);
    assert PartAt(p, 0) == p.webhook && PartAt(p, 1) == p.hermes && PartAt(p, 2) == p.telnyx && PartAt(p, 3) == p.email;
    assert !CanSend(LogPager, q, l, false);
    assert !SomePartCanSend(p, 4, q, l);
    assert SomePartCanSend(p, 3, q, l) <==> Ready(k, Mail) && Addresses(Mail, ListOf(l)) != [];
    assert SomePartCanSend(p, 2, q, l) <==> (Ready(k, Sms) && Addresses(Sms, ListOf(l)) != []) || SomePartCanSend(p, 3, q, l);
    assert SomePartCanSend(p, 1, q, l) <==> (Ready(k, Bridge) && Addresses(Bridge, ListOf(l)) != []) || SomePartCanSend(p, 2, q, l);
    assert NoChannelFrom(p, 0) <==> p.webhook.Absent? && NoChannelFrom(p, 1);
    assert NoChannelFrom(p, 1) <==> p.hermes.Absent? && NoChannelFrom(p, 2);
    assert NoChannelFrom(p, 2) <==> p.telnyx.Absent? && NoChannelFrom(p, 3);
  }

  lemma ChannelsSend(roster: OnCall, k: Credentials, w: Weather, at: nat, q: Request, c: Contacts, escalated: bool)
    requires !NoChannelFrom(Channels(roster, k), 0)
    ensures Sends(Run(Channels(roster, k), w, at, q, c, escalated).events) > 0 <==> Reaches(roster, k, q, c, escalated)
  {
    hide RunFrom, Sends, Reaches, Resolved, SomePartCanSend;
    ChannelsCanSend(roster, k, q, c, escalated);
    PartsSend(Channels(roster, k), 0, w, at, q, Resolved(Channels(roster, k), q, c, escalated));
  }

  lemma SuppressedSends()
    ensures Sends([Suppressed, LogLine]) == 0
  {
    hide Count;
    assert [Suppressed, LogLine] == [Suppressed] + [LogLine];
    CountOne(Suppressed);
    LoggedSends([Suppressed]);
  }

  /** In every weather the factory's pager attempts a real send exactly when no id of the ticket holds a drill marker
      and some armed channel has somewhere to send. */
  lemma FactorySendsExactly(roster: OnCall, k: Credentials, markers: string, w: Weather, q: Request, c: Contacts, escalated: bool)
    ensures Sends(Run(BuildPager(roster, k, markers), w, 0, q, c, escalated).events) > 0
            <==> !IsDrill(q.ticket, ParseMarkers(markers)) && Reaches(roster, k, q, c, escalated)
  {
    hide Run, Reaches, Sends, IsDrill, ParseMarkers;
    ChannelsCanSend(roster, k, q, c, escalated);
    if NoChannelFrom(Channels(roster, k), 0) {
      LogSends(w, 0, q, c, escalated);
    } else {
      DrillSuppression(roster, k, markers, w, q, c, escalated);
      UnmarkedPager(roster, k);
      ChannelsSend(roster, k, w, 0, q, c, escalated);
      SuppressedSends();
    }
  }

  lemma UnmarkedPager(roster: OnCall, k: Credentials)
    requires !NoChannelFrom(Channels(roster, k), 0)
    ensures BuildPager(roster, k, "") == Channels(roster, k)
  {
    assert SplitCommas("") == [""] && Strip("") == "";
    assert [""][1..] == [];
    assert NonBlank([]) == [];
    assert ParseMarkers("") == [];
  }

  // ---- exactly who is attempted -------------------------------------------------------------------

  predicate Attempts(events: seq<Event>, channel: Channel, to: string) {
    Sent(channel, to, true) in events || Sent(channel, to, false) in events
  }

  lemma {:induction false} FanOutAttempts(channel: Channel, to: seq<string>, w: Weather, at: nat, ch: Channel, a: string)
    ensures Attempts(FanOut(channel, to, w, at), ch, a) <==> ch == channel && a in to
  {
    if to != [] {
      FanOutAttempts(channel, to[..|to| - 1], w, at, ch, a);
    }
  }

  lemma {:induction false} AddressesAre(channel: Channel, list: seq<Contact>, a: string)
    ensures a in Addresses(channel, list) <==> a != "" && exists c :: c in list && Address(channel, c) == a
  {
    if list != [] {
      var n := |list| - 1;
      AddressesAre(channel, list[..n], a);
      assert forall c :: c in list <==> c in list[..n] || c == list[n];
    }
  }

  /** A fan-out over the log line attempts exactly the addresses on its own channel. */
  lemma FallAttempts(channel: Channel, to: seq<string>, keeps: bool, w: Weather, at: nat, q: Request, c: Contacts,
                     ch: Channel, a: string)
    ensures Attempts(FanOrFall(channel, to, keeps, LogPager, w, at, q, c).events, ch, a) <==> ch == channel && a in to
  {
    hide Count, FanOut, Failed, Attempts, AnyOk;
    var sent := FanOut(channel, to, w, at);
    FanOutAttempts(channel, to, w, at, ch, a);
    LoggedAttempts(sent, ch, a);
    assert Run(LogPager, w, at + |to|, q, c, false).events == [LogLine];
  }

  lemma LoggedAttempts(sent: seq<Event>, ch: Channel, a: string)
    ensures Attempts(sent + [LogLine], ch, a) <==> Attempts(sent, ch, a)
  {
  }

  /** The one channel kind a factory part serves; a webhook has no roster addresses. */
  function Kind(p: Pager): Channel {
    match p
    case Hermes(_, _) => Bridge
    case Telnyx(_, _) => Sms
    case Email(_, _) => Mail
    case _ => WebhookPost
  }

  predicate FactoryPart(p: Pager) {
    p == Webhook(true, LogPager) || p == Hermes(true, LogPager) || p == Telnyx(true, LogPager) || p == Email(true, LogPager)
  }

  lemma PostAttempts(w: Weather, at: nat, q: Request, c: Contacts, ch: Channel, a: string)
    requires ch != WebhookPost
    ensures !Attempts(Run(Webhook(true, LogPager), w, at, q, c, false).events, ch, a)
  {
    hide Count, Attempts;
    PostsOnly(ch, a);
    var o := Run(Webhook(true, LogPager), w, at, q, c, false);
    if w(at) {
      assert o.events == [Sent(WebhookPost, "", true)];
    } else {
      PostDownThenLog(w, at, q, c);
    }
  }

  lemma PostsOnly(ch: Channel, a: string)
    requires ch != WebhookPost
    ensures !Attempts([Sent(WebhookPost, "", true)], ch, a)
    ensures !Attempts([Sent(WebhookPost, "", false)] + [LogLine], ch, a)
  {
  }

  /** A fan-out channel over the log line: nothing to send to, or a fan-out. */
  lemma FanAttempts(p: Pager, w: Weather, at: nat, q: Request, c: Contacts, ch: Channel, a: string)
    requires FactoryPart(p) && !p.Webhook?
    ensures Attempts(Run(p, w, at, q, c, false).events, ch, a) <==> a in Addresses(ch, ListOf(c)) && Kind(p) == ch
  {
    hide Count, Attempts, FanOrFall, FanOut;
    var to := Addresses(Kind(p), ListOf(c));
    assert !Attempts([LogLine], ch, a) by {
      LoggedAttempts([], ch, a);
      NoAttempts(ch, a);
    }
    assert Run(LogPager, w, at, q, c, false).events == [LogLine];
    FallAttempts(Kind(p), to, p.Hermes?, w, at, q, c, ch, a);
    assert ListOf(c) == [] ==> to == [];
  }

  lemma NoAttempts(ch: Channel, a: string)
    ensures !Attempts([], ch, a) && [] + [LogLine] == [LogLine]
  {
  }

  lemma ChannelAttempts(p: Pager, w: Weather, at: nat, q: Request, c: Contacts, ch: Channel, a: string)
    requires FactoryPart(p) && ch != WebhookPost
    ensures Attempts(Run(p, w, at, q, c, false).events, ch, a) <==> a in Addresses(ch, ListOf(c)) && Kind(p) == ch
  {
    hide Count, Attempts, Run, Addresses;
    if p.Webhook? {
      PostAttempts(w, at, q, c, ch, a);
    } else {
      FanAttempts(p, w, at, q, c, ch, a);
    }
  }

  predicate FactoryOrAbsent(part: Part) {
    part.Present? ==> FactoryPart(part.pager)
  }

  predicate FactoryMulti(p: Pager) {
    p.Multi? && FactoryOrAbsent(PartAt(p, 0)) && FactoryOrAbsent(PartAt(p, 1)) && FactoryOrAbsent(PartAt(p, 2))
    && FactoryOrAbsent(PartAt(p, 3))
  }

  /** Whether the channel is among the parts from i on. */
  predicate Serves(p: Pager, i: nat, ch: Channel)
    requires p.Multi? && i <= 4
    decreases 4 - i
  {
    i < 4 && ((PartAt(p, i).Present? && Kind(PartAt(p, i).pager) == ch) || Serves(p, i + 1, ch))
  }

  lemma ThenAttempts(a: Outcome, b: Outcome, ch: Channel, to: string)
    ensures Attempts(Then(a, b).events, ch, to) <==> Attempts(a.events, ch, to) || Attempts(b.events, ch, to)
  {
  }

  lemma {:induction false} PartsAttempt(p: Pager, i: nat, w: Weather, at: nat, q: Request, c: Contacts, ch: Channel, a: string)
    requires FactoryMulti(p) && i <= 4 && ch != WebhookPost
    ensures Attempts(RunFrom(p, i, w, at, q, c).events, ch, a) <==> a in Addresses(ch, ListOf(c)) && Serves(p, i, ch)
    decreases 4 - i
  {
    hide Run, Count, Then, Addresses;
    if i == 4 {
    } else if PartAt(p, i).Absent? {
      PartsAttempt(p, i + 1, w, at, q, c, ch, a);
    } else {
      hide Attempts;
      var part := PartAt(p, i).pager;
      var o := Run(part, w, at, q, c, false);
      PartIsFactory(p, i);
      ChannelAttempts(part, w, at, q, c, ch, a);
      PartsAttempt(p, i + 1, w, at + Sends(o.events), q, c, ch, a);
      ThenAttempts(o, RunFrom(p, i + 1, w, at + Sends(o.events), q, c), ch, a);
    }
  }

  lemma PartIsFactory(p: Pager, i: nat)
    requires FactoryMulti(p) && i < 4
    ensures FactoryOrAbsent(PartAt(p, i))
  {
  }

  /** Which channels the credentials arm. */
  predicate Ready(k: Credentials, ch: Channel) {
    (ch == Bridge && k.provider.HermesProvider? && k.url) || (ch == Sms && k.telnyxKey && k.telnyxFrom) || (ch == Mail && k.smtpHost)
  }

  lemma ChannelsServe(roster: OnCall, k: Credentials, ch: Channel)
    requires ch != WebhookPost
    ensures FactoryMulti(Channels(roster, k)) && (Serves(Channels(roster, k), 0, ch) <==> Ready(k, ch))
  {
    var p := Channels(roster, k);
    assert PartAt(p, 0) == p.webhook && PartAt(p, 1) == p.hermes && PartAt(p, 2) == p.telnyx && PartAt(p, 3) == p.email;
    assert !Serves(p, 4, ch);
    assert Serves(p, 3, ch) <==> p.email.Present? && ch == Mail;
    assert Serves(p, 2, ch) <==> (p.telnyx.Present? && ch == Sms) || Serves(p, 3, ch);
    assert Serves(p, 1, ch) <==> (p.hermes.Present? && ch == Bridge) || Serves(p, 2, ch);
  }

  /** A roster page on configured channels attempts an address exactly when its channel has credentials and the
      address is, for that channel, one of a contact who is to be paged. So a bridge address alone is never attempted, and
      the clinical seat's own addresses are attempted on every crisis page whatever the clock says. */
  lemma FactoryAttempts(roster: OnCall, k: Credentials, w: Weather, q: Request, escalated: bool, ch: Channel, a: string)
    requires roster.Keyed() && !NoChannelFrom(Channels(roster, k), 0) && ch != WebhookPost
    ensures
      var clinicalAlways := q.severity.CrisisPage? || escalated;
      var events := Run(Channels(roster, k), w, 0, q, NotGiven, escalated).events;
      && (Attempts(events, ch, a) <==> Ready(k, ch) && ReachedAt(TargetsAt(roster, escalated, q.now, clinicalAlways), ch, a))
      && ((Ready(k, ch) && clinicalAlways && Pageable(roster, "clinical-advisor")
           && ReachedAt([roster.contacts["clinical-advisor"]], ch, a)) ==> Attempts(events, ch, a))
  {
    hide RunFrom, TargetsAt, Addresses, Attempts, ReachedAt;
    var p := Channels(roster, k);
    var clinicalAlways := q.severity.CrisisPage? || escalated;
    var targets := TargetsAt(roster, escalated, q.now, clinicalAlways);
    ChannelsServe(roster, k, ch);
    PartsAttempt(p, 0, w, 0, q, Given(targets), ch, a);
    assert Run(p, w, 0, q, NotGiven, escalated) == RunFrom(p, 0, w, 0, q, Given(targets));
    TargetAddresses(targets, ch, a);
    if clinicalAlways && Pageable(roster, "clinical-advisor") {
      ClinicalIsTargeted(roster, escalated, q.now);
      ReachedAmong(roster.contacts["clinical-advisor"], targets, ch, a);
    }
  }

  /** On this channel the address reaches one of the contacts: the bridge by its own number, a message by phone, a mail by
      email. */
  predicate ReachedAt(list: seq<Contact>, ch: Channel, a: string) {
    a != "" && exists c | c in list ::
      (ch == Bridge && c.whatsapp == a) || (ch == Sms && c.phone == a) || (ch == Mail && c.email == a)
  }

  lemma ReachedAmong(c: Contact, list: seq<Contact>, ch: Channel, a: string)
    requires c in list
    ensures ReachedAt([c], ch, a) ==> ReachedAt(list, ch, a)
  {
  }

  lemma TargetAddresses(list: seq<Contact>, ch: Channel, a: string)
    requires ch != WebhookPost
    ensures a in Addresses(ch, list) <==> ReachedAt(list, ch, a)
  {
    AddressesAre(ch, list, a);
    assert ch == Bridge || ch == Sms || ch == Mail;
  }

  lemma ClinicalIsTargeted(roster: OnCall, escalated: bool, now: int)
    requires roster.Keyed() && Pageable(roster, "clinical-advisor")
    ensures roster.contacts["clinical-advisor"] in TargetsAt(roster, escalated, now, true)
  {
    var slots := Slots(roster, escalated, now, true);
    assert slots[|slots| - 1] == Lookup(roster, "clinical-advisor");
    assert Lookup(roster, "clinical-advisor") in slots;
    TargetsAreTheReachableSlots(slots);
  }
}
