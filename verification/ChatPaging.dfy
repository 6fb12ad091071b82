/** The pages of the chat surface on the wire: each of them, through any pager tree, in any weather. */
module ChatPaging {
  import Chat = ChatModel
  import Audit = ChatAudit
  import Pager = Paging
  import Factory = PagerFactory
  import opened Roster

  /** What a page carries to the pager: the ids of its ticket, or those of a synthetic one. */
  function TicketOf(tickets: seq<Chat.Ticket>, ids: nat -> string, unlogged: Pager.Ticket, page: Chat.Page): Pager.Ticket {
    match page.subject
    case Logged(i) =>
      if i < |tickets| then Pager.Ticket(ids(i), tickets[i].conversation, tickets[i].persona) else unlogged
    case Unlogged => unlogged
    case Synthetic(persona) => Pager.Ticket("sev1", "", persona)
  }

  /** A fresh escalation with someone on duty is a crisis page; every other page is a first-severity one. */
  function SeverityOf(page: Chat.Page): Pager.Severity {
    if page.trigger == Chat.CrisisEnqueue then Pager.CrisisPage else Pager.Sev1
  }

  /** Only the re-page of a breached ticket escalates, and only to pagers that know how. */
  predicate EscalatedBy(p: Pager.Pager, page: Chat.Page) {
    page.trigger == Chat.SlaBreach && (p.Multi? || p.Drill?)
  }

  /** One page of the surface, sent. */
  function SendPage(p: Pager.Pager, w: Pager.Weather, at: nat, now: int, t: Pager.Ticket, page: Chat.Page): Pager.Outcome {
    Pager.Run(p, w, at, Pager.Request(t, SeverityOf(page), now), Pager.NotGiven, EscalatedBy(p, page))
  }

  lemma {:induction false} FilingPageAt(tickets: seq<Chat.Ticket>, i: nat)
    requires i < |tickets|
    ensures Chat.Page(Chat.EnqueueTrigger(tickets[i]), Chat.Logged(i)) in Audit.FilingPages(tickets)
  {
    if i < |tickets| - 1 {
      FilingPageAt(tickets[..|tickets| - 1], i);
    }
  }

  lemma {:induction false} KindIsAmong(pages: seq<Chat.Page>, k: Audit.Kind, p: Chat.Page)
    requires p in Audit.OfKind(pages, k)
    ensures p in pages
  {
    var n := |pages| - 1;
    if p in Audit.OfKind(pages[..n], k) {
      KindIsAmong(pages[..n], k, p);
    }
  }

  /** In every run and every weather, and whatever pager is wired: each logged ticket has its page, of crisis severity
      exactly when it was not degraded, and sending it ends in a delivered send or a log line, with every failed send
      accounted for. */
  lemma EveryTicketIsHeard(cfg: Chat.Config, steps: seq<Chat.Step>, i: nat, p: Pager.Pager, w: Pager.Weather, at: nat, now: int,
                           ids: nat -> string, unlogged: Pager.Ticket)
    requires i < |Chat.Exec(cfg, steps).desk.tickets|
    ensures var desk := Chat.Exec(cfg, steps).desk;
            var page := Chat.Page(Chat.EnqueueTrigger(desk.tickets[i]), Chat.Logged(i));
            && page in desk.pages
            && (SeverityOf(page) == Pager.CrisisPage <==> desk.tickets[i].degrade == Chat.NotDegraded)
            && Pager.Good(SendPage(p, w, at, now, TicketOf(desk.tickets, ids, unlogged, page), page))
  {
    hide Chat.Exec, Pager.Run, Pager.Good, Audit.OfKind, Audit.FilingPages;
    var desk := Chat.Exec(cfg, steps).desk;
    var page := Chat.Page(Chat.EnqueueTrigger(desk.tickets[i]), Chat.Logged(i));
    Audit.AuditConservation(cfg, steps);
    FilingPageAt(desk.tickets, i);
    KindIsAmong(desk.pages, Audit.Filed, page);
    var t := TicketOf(desk.tickets, ids, unlogged, page);
    Pager.EveryPageLands(p, w, at, Pager.Request(t, SeverityOf(page), now), Pager.NotGiven, EscalatedBy(p, page));
  }

  /** Tickets a failing queue lost are heard too: there are as many pages for them as there are lost tickets, and
      sending each of these lands. */
  lemma LostTicketsAreHeard(cfg: Chat.Config, steps: seq<Chat.Step>, page: Chat.Page, p: Pager.Pager, w: Pager.Weather, at: nat,
                            now: int, lost: Pager.Ticket)
    ensures var desk := Chat.Exec(cfg, steps).desk;
            && |Audit.OfKind(desk.pages, Audit.LostTicket)| == desk.queueErrors
            && (page in Audit.OfKind(desk.pages, Audit.LostTicket) ==> page in desk.pages)
            && Pager.Good(SendPage(p, w, at, now, lost, page))
  {
    hide Chat.Exec, Pager.Run, Pager.Good, Audit.OfKind, Audit.FilingPages;
    var desk := Chat.Exec(cfg, steps).desk;
    Audit.AuditConservation(cfg, steps);
    if page in Audit.OfKind(desk.pages, Audit.LostTicket) {
      KindIsAmong(desk.pages, Audit.LostTicket, page);
    }
    Pager.EveryPageLands(p, w, at, Pager.Request(lost, SeverityOf(page), now), Pager.NotGiven, EscalatedBy(p, page));
  }

  // ---- with the pager the settings build ----------------------------------------------------------------

  /** A drill marker occurs in the ticket's id, its conversation or its persona. */
  ghost predicate DrillMarked(markers: string, t: Pager.Ticket) {
    Factory.Marked(markers, t.id) || Factory.Marked(markers, t.conversation) || Factory.Marked(markers, t.persona)
  }

  /** Something real is sent for a logged ticket exactly when an armed channel has somewhere to send and no drill marker
      occurs in its id, its conversation or its persona. */
  lemma RealSendsExactly(cfg: Chat.Config, steps: seq<Chat.Step>, i: nat, roster: OnCall, k: Factory.Credentials, markers: string,
                         w: Pager.Weather, now: int, ids: nat -> string, unlogged: Pager.Ticket)
    requires i < |Chat.Exec(cfg, steps).desk.tickets|
    ensures var desk := Chat.Exec(cfg, steps).desk;
            var page := Chat.Page(Chat.EnqueueTrigger(desk.tickets[i]), Chat.Logged(i));
            var t := Pager.Ticket(ids(i), desk.tickets[i].conversation, desk.tickets[i].persona);
            var q := Pager.Request(t, SeverityOf(page), now);
            var o := SendPage(Factory.BuildPager(roster, k, markers), w, 0, now, TicketOf(desk.tickets, ids, unlogged, page), page);
            && page in desk.pages
            && (Pager.Sends(o.events) > 0 <==> Factory.Reaches(roster, k, q, Pager.NotGiven, false) && !DrillMarked(markers, t))
  {
    hide Chat.Exec, Pager.Run, Pager.Good, Pager.Sends, Pager.IsDrill, Factory.Reaches, Factory.BuildPager, Factory.ParseMarkers;
    hide Factory.Marked;
    var desk := Chat.Exec(cfg, steps).desk;
    var page := Chat.Page(Chat.EnqueueTrigger(desk.tickets[i]), Chat.Logged(i));
    EveryTicketIsHeard(cfg, steps, i, Pager.LogPager, w, 0, now, ids, unlogged);
    var t := Pager.Ticket(ids(i), desk.tickets[i].conversation, desk.tickets[i].persona);
    Factory.FactorySendsExactly(roster, k, markers, w, Pager.Request(t, SeverityOf(page), now), Pager.NotGiven, false);
    Factory.DrillExactly(t, markers);
  }

  /** The conversation is named by the client, so a request whose conversation holds a marker gets no real page for its
      own crisis, however the channels stand. */
  lemma MarkedConversationIsNotSent(cfg: Chat.Config, steps: seq<Chat.Step>, i: nat, roster: OnCall, k: Factory.Credentials,
                                    markers: string, w: Pager.Weather, now: int, ids: nat -> string, unlogged: Pager.Ticket)
    requires i < |Chat.Exec(cfg, steps).desk.tickets|
    requires Factory.Marked(markers, Chat.Exec(cfg, steps).desk.tickets[i].conversation)
    ensures var desk := Chat.Exec(cfg, steps).desk;
            var page := Chat.Page(Chat.EnqueueTrigger(desk.tickets[i]), Chat.Logged(i));
            Pager.Sends(SendPage(Factory.BuildPager(roster, k, markers), w, 0, now,
                                 TicketOf(desk.tickets, ids, unlogged, page), page).events) == 0
  {
    hide Chat.Exec, Pager.Run, Pager.Sends, Factory.Reaches, Factory.BuildPager, Factory.ParseMarkers, Factory.Marked;
    RealSendsExactly(cfg, steps, i, roster, k, markers, w, now, ids, unlogged);
  }

  /** Who is tried for a page that is no drill: on each armed channel exactly the contacts of those to be paged then. A
      re-page escalates, so the ceiling is among them; the clinical seat is for fresh crises and re-pages, not for the other
      first-severity pages. */
  lemma PagesTryExactly(page: Chat.Page, t: Pager.Ticket, roster: OnCall, k: Factory.Credentials, markers: string, w: Pager.Weather,
                        now: int, ch: Pager.Channel, a: string)
    requires roster.Keyed() && ch != Pager.WebhookPost && !DrillMarked(markers, t)
    ensures var escalated := page.trigger == Chat.SlaBreach;
            var clinical := page.trigger in {Chat.CrisisEnqueue, Chat.SlaBreach};
            Factory.Attempts(SendPage(Factory.BuildPager(roster, k, markers), w, 0, now, t, page).events, ch, a)
            <==> Factory.Ready(k, ch) && Factory.ReachedAt(TargetsAt(roster, escalated, now, clinical), ch, a)
  {
    hide Pager.Run, Pager.IsDrill, Factory.ParseMarkers, Factory.Marked, Factory.Attempts, Factory.ReachedAt, TargetsAt;
    var p := Factory.BuildPager(roster, k, markers);
    var q := Pager.Request(t, SeverityOf(page), now);
    Factory.DrillExactly(t, markers);
    if Pager.NoChannelFrom(Factory.Channels(roster, k), 0) {
      NothingArmed(roster, k, ch);
      LogAttempts(w, q, EscalatedBy(p, page), ch, a);
    } else {
      var escalated := page.trigger == Chat.SlaBreach;
      assert EscalatedBy(p, page) == escalated;
      Factory.DrillSuppression(roster, k, markers, w, q, Pager.NotGiven, escalated);
      Factory.UnmarkedPager(roster, k);
      Factory.FactoryAttempts(roster, k, w, q, escalated, ch, a);
    }
  }

  lemma NothingArmed(roster: OnCall, k: Factory.Credentials, ch: Pager.Channel)
    requires Pager.NoChannelFrom(Factory.Channels(roster, k), 0) && ch != Pager.WebhookPost
    ensures !Factory.Ready(k, ch) && Factory.BuildPager(roster, k, "") == Pager.LogPager
  {
    var p := Factory.Channels(roster, k);
    assert Pager.NoChannelFrom(p, 1) && Pager.NoChannelFrom(p, 2) && Pager.NoChannelFrom(p, 3);
    assert Pager.PartAt(p, 1) == p.hermes && Pager.PartAt(p, 2) == p.telnyx && Pager.PartAt(p, 3) == p.email;
  }

  lemma LogAttempts(w: Pager.Weather, q: Pager.Request, escalated: bool, ch: Pager.Channel, a: string)
    ensures !Factory.Attempts(Pager.Run(Pager.LogPager, w, 0, q, Pager.NotGiven, escalated).events, ch, a)
  {
    assert Pager.Run(Pager.LogPager, w, 0, q, Pager.NotGiven, escalated).events == [Pager.LogLine];
  }
}
