/** Which pager trees report every failed send: the exact condition, read off the tree. */
module PagerCounts {
  import opened Paging

  /** For this ticket, contact list and escalation, the page may attempt a real send. */
  predicate CanSend(p: Pager, q: Request, c: Contacts, escalated: bool)
    decreases p, 1, 0
  {
    match p
    case LogPager => false
    case Webhook(ready, f) => ready || CanSend(f, q, c, false)
    case Hermes(ready, f) => (ready && Addresses(Bridge, ListOf(c)) != []) || CanSend(f, q, c, false)
    case Telnyx(ready, f) => (ready && Addresses(Sms, ListOf(c)) != []) || CanSend(f, q, c, false)
    case Email(ready, f) => (ready && Addresses(Mail, ListOf(c)) != []) || CanSend(f, q, c, false)
    case Multi(_, _, _, _, _, f) =>
      var k := Resolved(p, q, c, escalated);
      if NoChannelFrom(p, 0) then CanSend(f, q, k, false) else SomePartCanSend(p, 0, q, k)
    case Drill(markers, inner, f) =>
      if IsDrill(q.ticket, markers) then CanSend(f, q, c, false) else CanSend(inner, q, c, escalated && inner.Multi?)
  }

  predicate SomePartCanSend(p: Pager, i: nat, q: Request, c: Contacts)
    requires p.Multi? && i <= 4
    decreases p, 0, 4 - i
  {
    i < 4 && ((PartAt(p, i).Present? && CanSend(PartAt(p, i).pager, q, c, false)) || SomePartCanSend(p, i + 1, q, c))
  }

  /** Every armed SMS or email pager that is reached with someone to page has a fallback that can send nothing. */
  predicate KeepsCounts(p: Pager, q: Request, c: Contacts, escalated: bool)
    decreases p, 1, 0
  {
    match p
    case LogPager => true
    case Webhook(_, f) => KeepsCounts(f, q, c, false)
    case Hermes(_, f) => KeepsCounts(f, q, c, false)
    case Telnyx(ready, f) => if ready && ListOf(c) != [] then !CanSend(f, q, c, false) else KeepsCounts(f, q, c, false)
    case Email(ready, f) => if ready && ListOf(c) != [] then !CanSend(f, q, c, false) else KeepsCounts(f, q, c, false)
    case Multi(_, _, _, _, _, f) =>
      var k := Resolved(p, q, c, escalated);
      if NoChannelFrom(p, 0) then KeepsCounts(f, q, k, false) else AllPartsKeepCounts(p, 0, q, k)
    case Drill(markers, inner, f) =>
      if IsDrill(q.ticket, markers) then KeepsCounts(f, q, c, false) else KeepsCounts(inner, q, c, escalated && inner.Multi?)
  }

  predicate AllPartsKeepCounts(p: Pager, i: nat, q: Request, c: Contacts)
    requires p.Multi? && i <= 4
    decreases p, 0, 4 - i
  {
    i == 4 || ((PartAt(p, i).Present? ==> KeepsCounts(PartAt(p, i).pager, q, c, false)) && AllPartsKeepCounts(p, i + 1, q, c))
  }

  // ---- what the two conditions mean for an outcome ----------------------------------------------------

  ghost predicate AllDown(w: Weather) {
    forall n :: !w(n)
  }

  /** A page that can send nothing fails at nothing, and one that keeps its counts drops none; with every channel down
      the converses hold too. */
  predicate Counted(o: Outcome, can: bool, keeps: bool, down: bool) {
    && (!can ==> o.failures == 0 && o.discarded == 0)
    && (keeps ==> o.discarded == 0)
    && (down && can ==> o.failures + o.discarded > 0)
    && (down && !keeps ==> o.discarded > 0)
  }

  lemma ThenCounted(a: Outcome, b: Outcome, canA: bool, keepsA: bool, canB: bool, keepsB: bool, down: bool)
    requires Counted(a, canA, keepsA, down) && Counted(b, canB, keepsB, down)
    ensures Counted(Then(a, b), canA || canB, keepsA && keepsB, down)
  {
  }

  lemma {:induction false} AllFail(channel: Channel, to: seq<string>, w: Weather, at: nat)
    requires AllDown(w)
    ensures Count(FanOut(channel, to, w, at)) == Tally(|to|, 0, 0)
  {
    if to != [] {
      var n := |to| - 1;
      var sent := FanOut(channel, to[..n], w, at);
      var e := Sent(channel, to[n], w(at + n));
      AllFail(channel, to[..n], w, at);
      assert FanOut(channel, to, w, at) == sent + [e];
      assert (sent + [e])[..n] == sent;
    }
  }

  lemma NoneSent(channel: Channel, w: Weather, at: nat)
    ensures Count(FanOut(channel, [], w, at)) == Tally(0, 0, 0)
  {
  }

  /** A fan-out and its fallback: the fan-out can send when it has addresses, and drops the fallback's count or not. */
  lemma FanCounted(channel: Channel, to: seq<string>, keeps: bool, f: Pager, w: Weather, at: nat, q: Request, c: Contacts, can: bool, kept: bool, down: bool)
    requires down ==> AllDown(w)
    requires Counted(Run(f, w, at + |to|, q, c, false), can, kept, down)
    ensures Counted(FanOrFall(channel, to, keeps, f, w, at, q, c), to != [] || can, if keeps then kept else !can, down)
  {
    hide Count, FanOut, Run;
    if to == [] {
      NoneSent(channel, w, at);
    }
    if down {
      AllFail(channel, to, w, at);
    }
  }

  // ---- along the tree -----------------------------------------------------------------------------------

  lemma {:induction false} RunCounted(p: Pager, w: Weather, at: nat, q: Request, c: Contacts, escalated: bool, down: bool)
    requires down ==> AllDown(w)
    ensures Counted(Run(p, w, at, q, c, escalated), CanSend(p, q, c, escalated), KeepsCounts(p, q, c, escalated), down)
    decreases p, 1, 0
  {
    hide Run, Counted, CanSend, KeepsCounts;
    match p
    case LogPager => LogCounted(w, at, q, c, escalated, down);
    case Webhook(ready, f) => WebhookCounted(ready, f, w, at, q, c, escalated, down);
    case Hermes(ready, f) => HermesCounted(ready, f, w, at, q, c, escalated, down);
    case Telnyx(ready, f) => TelnyxCounted(ready, f, w, at, q, c, escalated, down);
    case Email(ready, f) => EmailCounted(ready, f, w, at, q, c, escalated, down);
    case Multi(_, _, _, _, _, _) => MultiCounted(p, w, at, q, c, escalated, down);
    case Drill(markers, inner, f) => DrillCounted(markers, inner, f, w, at, q, c, escalated, down);
  }

  lemma LogCounted(w: Weather, at: nat, q: Request, c: Contacts, escalated: bool, down: bool)
    ensures Counted(Run(LogPager, w, at, q, c, escalated), CanSend(LogPager, q, c, escalated), KeepsCounts(LogPager, q, c, escalated), down)
  {
  }

  lemma {:induction false} WebhookCounted(ready: bool, f: Pager, w: Weather, at: nat, q: Request, c: Contacts, escalated: bool, down: bool)
    requires down ==> AllDown(w)
    ensures var p := Webhook(ready, f);
            Counted(Run(p, w, at, q, c, escalated), CanSend(p, q, c, escalated), KeepsCounts(p, q, c, escalated), down)
    decreases f, 2, 0
  {
    hide Counted, Then;
    RunCounted(f, w, at, q, c, false, down);
    RunCounted(f, w, at + 1, q, c, false, down);
    PostCounted(w(at), Run(f, w, at + 1, q, c, false), CanSend(f, q, c, false), KeepsCounts(f, q, c, false), down);
  }

  lemma PostCounted(ok: bool, o: Outcome, can: bool, keeps: bool, down: bool)
    requires (down ==> !ok) && Counted(o, can, keeps, down)
    ensures Counted(if ok then Outcome([Sent(WebhookPost, "", true)], 0, 0) else Then(Outcome([Sent(WebhookPost, "", false)], 1, 0), o),
                    true, keeps, down)
  {
  }

  lemma NobodyNoAddress(channel: Channel, c: Contacts)
    ensures ListOf(c) == [] ==> Addresses(channel, ListOf(c)) == []
  {
  }

  lemma {:induction false} HermesCounted(ready: bool, f: Pager, w: Weather, at: nat, q: Request, c: Contacts, escalated: bool, down: bool)
    requires down ==> AllDown(w)
    ensures var p := Hermes(ready, f);
            Counted(Run(p, w, at, q, c, escalated), CanSend(p, q, c, escalated), KeepsCounts(p, q, c, escalated), down)
    decreases f, 2, 0
  {
    hide Counted, FanOrFall, Addresses;
    var to := Addresses(Bridge, ListOf(c));
    NobodyNoAddress(Bridge, c);
    RunCounted(f, w, at, q, c, false, down);
    RunCounted(f, w, at + |to|, q, c, false, down);
    FanCounted(Bridge, to, true, f, w, at, q, c, CanSend(f, q, c, false), KeepsCounts(f, q, c, false), down);
  }

  lemma {:induction false} TelnyxCounted(ready: bool, f: Pager, w: Weather, at: nat, q: Request, c: Contacts, escalated: bool, down: bool)
    requires down ==> AllDown(w)
    ensures var p := Telnyx(ready, f);
            Counted(Run(p, w, at, q, c, escalated), CanSend(p, q, c, escalated), KeepsCounts(p, q, c, escalated), down)
    decreases f, 2, 0
  {
    hide Counted, FanOrFall, Addresses;
    var to := Addresses(Sms, ListOf(c));
    NobodyNoAddress(Sms, c);
    RunCounted(f, w, at, q, c, false, down);
    RunCounted(f, w, at + |to|, q, c, false, down);
    FanCounted(Sms, to, false, f, w, at, q, c, CanSend(f, q, c, false), KeepsCounts(f, q, c, false), down);
  }

  lemma {:induction false} EmailCounted(ready: bool, f: Pager, w: Weather, at: nat, q: Request, c: Contacts, escalated: bool, down: bool)
    requires down ==> AllDown(w)
    ensures var p := Email(ready, f);
            Counted(Run(p, w, at, q, c, escalated), CanSend(p, q, c, escalated), KeepsCounts(p, q, c, escalated), down)
    decreases f, 2, 0
  {
    hide Counted, FanOrFall, Addresses;
    var to := Addresses(Mail, ListOf(c));
    NobodyNoAddress(Mail, c);
    RunCounted(f, w, at, q, c, false, down);
    RunCounted(f, w, at + |to|, q, c, false, down);
    FanCounted(Mail, to, false, f, w, at, q, c, CanSend(f, q, c, false), KeepsCounts(f, q, c, false), down);
  }

  lemma {:induction false} MultiCounted(p: Pager, w: Weather, at: nat, q: Request, c: Contacts, escalated: bool, down: bool)
    requires p.Multi? && (down ==> AllDown(w))
    ensures Counted(Run(p, w, at, q, c, escalated), CanSend(p, q, c, escalated), KeepsCounts(p, q, c, escalated), down)
    decreases p, 0, 5
  {
    hide Counted, RunFrom, SomePartCanSend, AllPartsKeepCounts, Resolved;
    var k := Resolved(p, q, c, escalated);
    RunCounted(p.fallback, w, at, q, k, false, down);
    PartsCounted(p, 0, w, at, q, k, down);
  }

  lemma {:induction false} PartsCounted(p: Pager, i: nat, w: Weather, at: nat, q: Request, c: Contacts, down: bool)
    requires p.Multi? && i <= 4 && (down ==> AllDown(w))
    ensures Counted(RunFrom(p, i, w, at, q, c), SomePartCanSend(p, i, q, c), AllPartsKeepCounts(p, i, q, c), down)
    decreases p, 0, 4 - i
  {
    hide Run, CanSend, KeepsCounts, Then, Count;
    if i == 4 {
    } else if PartAt(p, i).Absent? {
      PartsCounted(p, i + 1, w, at, q, c, down);
    } else {
      hide Counted;
      var part := PartAt(p, i).pager;
      var o := Run(part, w, at, q, c, false);
      RunCounted(part, w, at, q, c, false, down);
      PartsCounted(p, i + 1, w, at + Sends(o.events), q, c, down);
      ThenCounted(o, RunFrom(p, i + 1, w, at + Sends(o.events), q, c), CanSend(part, q, c, false), KeepsCounts(part, q, c, false),
                  SomePartCanSend(p, i + 1, q, c), AllPartsKeepCounts(p, i + 1, q, c), down);
    }
  }

  lemma MarkCounted(o: Outcome, can: bool, keeps: bool, down: bool)
    requires Counted(o, can, keeps, down)
    ensures Counted(Then(Outcome([Suppressed], 0, 0), o), can, keeps, down)
  {
  }

  lemma {:induction false} DrillCounted(markers: seq<string>, inner: Pager, f: Pager, w: Weather, at: nat, q: Request, c: Contacts, escalated: bool, down: bool)
    requires down ==> AllDown(w)
    ensures var p := Drill(markers, inner, f);
            Counted(Run(p, w, at, q, c, escalated), CanSend(p, q, c, escalated), KeepsCounts(p, q, c, escalated), down)
    decreases Drill(markers, inner, f), 0, 0
  {
    hide IsDrill, Counted, Then;
    RunCounted(inner, w, at, q, c, escalated && inner.Multi?, down);
    RunCounted(f, w, at, q, c, false, down);
    MarkCounted(Run(f, w, at, q, c, false), CanSend(f, q, c, false), KeepsCounts(f, q, c, false), down);
  }

  // ---- the exact condition --------------------------------------------------------------------------------

  ghost predicate NeverDiscards(p: Pager, q: Request, c: Contacts, escalated: bool) {
    forall w: Weather, at: nat :: Run(p, w, at, q, c, escalated).discarded == 0
  }

  function Storm(n: nat): bool {
    false
  }

  /** A tree drops no failure count, whatever the weather, if and only if it keeps its counts; and then what it returns
      is exactly the number of failed sends. */
  lemma CountsAreKeptExactly(p: Pager, q: Request, c: Contacts, escalated: bool)
    ensures NeverDiscards(p, q, c, escalated) <==> KeepsCounts(p, q, c, escalated)
    ensures NeverDiscards(p, q, c, escalated) <==>
              forall w: Weather, at: nat :: Run(p, w, at, q, c, escalated).failures == Failed(Run(p, w, at, q, c, escalated).events)
  {
    hide Run, KeepsCounts, CanSend, Failed;
    forall w: Weather, at: nat
      ensures KeepsCounts(p, q, c, escalated) ==> Run(p, w, at, q, c, escalated).discarded == 0
      ensures Run(p, w, at, q, c, escalated).discarded == 0
              <==> Run(p, w, at, q, c, escalated).failures == Failed(Run(p, w, at, q, c, escalated).events)
    {
      RunCounted(p, w, at, q, c, escalated, false);
      EveryPageLands(p, w, at, q, c, escalated);
    }
    RunCounted(p, Storm, 0, q, c, escalated, true);
    if NeverDiscards(p, q, c, escalated) {
      assert Run(p, Storm, 0, q, c, escalated).discarded == 0;
    }
  }
}
