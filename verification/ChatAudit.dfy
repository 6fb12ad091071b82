/** Conservation over every interleaved run of the chat surface: what was counted, logged, paged and metered agree. */
module ChatAudit {
  import opened ChatModel
  import Risk
  import Align = Alignment

  // ---- pages by reason ------------------------------------------------------------------

  datatype Kind = Filed | LostTicket | Leak | Bypass | Repage

  function KindOf(p: Page): Kind {
    match p.trigger
    case SlaBreach => Repage
    case UngroundedLeak => Leak
    case ConsentBypass => Bypass
    case _ => if p.subject.Logged? then Filed else LostTicket
  }

  function OfKind(pages: seq<Page>, k: Kind): seq<Page> {
    if pages == [] then []
    else
      var n := |pages| - 1;
      OfKind(pages[..n], k) + (if KindOf(pages[n]) == k then [pages[n]] else [])
  }

  lemma OfKindAppend(pages: seq<Page>, p: Page, k: Kind)
    ensures OfKind(pages + [p], k) == if KindOf(p) == k then OfKind(pages, k) + [p] else OfKind(pages, k)
  {
    assert (pages + [p])[..|pages|] == pages;
  }

  lemma {:induction false} OfKindConcat(a: seq<Page>, b: seq<Page>, k: Kind)
    ensures OfKind(a + b, k) == OfKind(a, k) + OfKind(b, k)
  {
    if b == [] {
      assert a + b == a;
    } else {
      var n := |b| - 1;
      OfKindConcat(a, b[..n], k);
      assert a + b == (a + b[..n]) + [b[n]];
      OfKindAppend(a + b[..n], b[n], k);
    }
  }

  /** Every page is counted under exactly one reason. */
  lemma {:induction false} KindsPartitionPages(pages: seq<Page>)
    ensures |pages| == |OfKind(pages, Filed)| + |OfKind(pages, LostTicket)| + |OfKind(pages, Leak)|
                       + |OfKind(pages, Bypass)| + |OfKind(pages, Repage)|
  {
    if pages != [] {
      KindsPartitionPages(pages[..|pages| - 1]);
    }
  }

  /** The one page each logged ticket earns when it is filed, in ticket order. */
  function FilingPages(tickets: seq<Ticket>): seq<Page> {
    if tickets == [] then []
    else
      var n := |tickets| - 1;
      FilingPages(tickets[..n]) + [Page(EnqueueTrigger(tickets[n]), Logged(n))]
  }

  lemma FilingPagesAppend(tickets: seq<Ticket>, t: Ticket)
    ensures FilingPages(tickets + [t]) == FilingPages(tickets) + [Page(EnqueueTrigger(t), Logged(|tickets|))]
  {
    assert (tickets + [t])[..|tickets|] == tickets;
  }

  /** Resolving a ticket does not change which page it earned. */
  lemma {:induction false} FilingPagesAfterResolve(tickets: seq<Ticket>, i: nat, o: TicketOutcome)
    requires i < |tickets|
    ensures FilingPages(tickets[i := tickets[i].(outcome := o)]) == FilingPages(tickets)
  {
    var n := |tickets| - 1;
    var after := tickets[i := tickets[i].(outcome := o)];
    if i < n {
      FilingPagesAfterResolve(tickets[..n], i, o);
      assert after[..n] == tickets[..n][i := tickets[i].(outcome := o)];
    } else {
      assert after[..n] == tickets[..n];
    }
  }

  lemma {:induction false} RepagesAreRepages(cfg: Config, tickets: seq<Ticket>, now: int, k: Kind)
    ensures OfKind(Repages(cfg, tickets, now), k) == if k == Repage then Repages(cfg, tickets, now) else []
  {
    if tickets != [] {
      var n := |tickets| - 1;
      var front := Repages(cfg, tickets[..n], now);
      RepagesAreRepages(cfg, tickets[..n], now, k);
      if Breached(cfg, tickets[n], now) {
        assert Repages(cfg, tickets, now) == front + [Page(SlaBreach, Logged(n))];
        OfKindAppend(front, Page(SlaBreach, Logged(n)), k);
      } else {
        assert Repages(cfg, tickets, now) == front + [] == front;
      }
    }
  }

  // ---- the ledger -------------------------------------------------------------------------

  function MeteredIds(inflight: map<nat, InFlight>): set<nat> {
    set id | id in inflight && inflight[id].phase.Metered?
  }

  /** Each logged ticket earned its own page, in order and with the right trigger; each lost ticket one; each
      confirmed suppression one; and the consent-bypass page is never sent. */
  predicate DeskLedger(d: Desk, leaks: int) {
    && OfKind(d.pages, Filed) == FilingPages(d.tickets)
    && |OfKind(d.pages, LostTicket)| == d.queueErrors
    && |OfKind(d.pages, Leak)| == leaks
    && OfKind(d.pages, Bypass) == []
  }

  function Confirmed(m: Meters): int {
    m.dispositions[Align.Suppressed] - m.unconfirmed
  }

  /** Tickets against escalation outcomes; usage rows against persona turns, counted or still in flight; and every
      request against an outcome, an abort, or a turn in flight. */
  predicate MeterLedger(m: Meters, filed: nat, metered: nat, open: nat) {
    && filed == m.turns[Crisis] + m.turns[RiskHandoff]
    && |m.usage| == m.turns[PersonaTurn] + m.turns[BudgetFallbackTurn] + metered
    && |m.dispositions| == m.turns[PersonaTurn] + m.turns[BudgetFallbackTurn]
    && m.received == |m.turns| + m.aborted + open
  }

  function FiledCount(d: Desk): nat {
    |d.tickets| + d.queueErrors
  }

  /** A turn in flight belongs to a session that acknowledged consent for that persona. */
  predicate FlightOk(p: Profile, received: nat, inflight: map<nat, InFlight>) {
    forall id :: id in inflight ==> id < received && (inflight[id].session, inflight[id].persona) in p.consent
  }

  predicate Ledger(st: State) {
    && DeskLedger(st.desk, Confirmed(st.meters))
    && MeterLedger(st.meters, FiledCount(st.desk), |MeteredIds(st.inflight)|, |st.inflight|)
    && FlightOk(st.profile, st.meters.received, st.inflight)
  }

  // ---- each step keeps it -------------------------------------------------------------------

  lemma AppendToPages(pages: seq<Page>, p: Page)
    ensures forall k :: OfKind(pages + [p], k) == if KindOf(p) == k then OfKind(pages, k) + [p] else OfKind(pages, k)
  {
    forall k
      ensures OfKind(pages + [p], k) == if KindOf(p) == k then OfKind(pages, k) + [p] else OfKind(pages, k)
    {
      OfKindAppend(pages, p, k);
    }
  }

  /** Filing adds one ticket or one lost ticket, with its page. */
  lemma EscalatedLedger(cfg: Config, d: Desk, r: Request, trigger: TicketTrigger, flags: set<Risk.Flag>, leaks: int)
    requires DeskLedger(d, leaks)
    ensures var e := Escalated(cfg, d, r, trigger, flags);
            DeskLedger(e, leaks) && FiledCount(e) == FiledCount(d) + 1
  {
    if r.queueFails {
      AppendToPages(d.pages, Page(DegradedNet, Unlogged));
    } else {
      var t := NewTicket(cfg, r, trigger, flags);
      FilingPagesAppend(d.tickets, t);
      AppendToPages(d.pages, Page(EnqueueTrigger(t), Logged(|d.tickets|)));
    }
  }

  predicate Files(exit: Exit) {
    IsCrisisExit(exit) || exit == HandoffExit
  }

  lemma DeskAfterLedger(cfg: Config, p: Profile, d: Desk, r: Request, exit: Exit, leaks: int)
    requires DeskLedger(d, leaks)
    ensures var e := DeskAfter(cfg, p, d, r, exit);
            DeskLedger(e, leaks) && FiledCount(e) == FiledCount(d) + if Files(exit) then 1 else 0
  {
    if Files(exit) {
      var flags := if exit.KillSwitchCrisis? || exit.CoverageCrisis? then {} else Flags(p, SessionOf(r), r.persona);
      var trigger := if exit.HandoffExit? then DistressTrend else CrisisSignal;
      assert DeskAfter(cfg, p, d, r, exit) == Escalated(cfg, d, r, trigger, flags);
      EscalatedLedger(cfg, d, r, trigger, flags, leaks);
    }
  }

  lemma CountedLedger(m: Meters, o: Outcome, filed: nat, metered: nat, open: nat)
    requires MeterLedger(m, filed, metered, open) && o != PersonaTurn && o != BudgetFallbackTurn
    ensures MeterLedger(Counted(Arrived(m), o), filed + (if o == Crisis || o == RiskHandoff then 1 else 0), metered, open)
  {
  }

  /** An exit is counted once, as an escalation exactly when it filed; a start is left open. */
  lemma CountedExitLedger(m: Meters, exit: Exit, filed: nat, metered: nat, open: nat)
    requires MeterLedger(m, filed, metered, open)
    ensures var after := CountedExit(Arrived(m), exit);
            && MeterLedger(after, filed + (if Files(exit) then 1 else 0), metered, open + (if exit == Generate then 1 else 0))
            && Confirmed(after) == Confirmed(m) && after.received == m.received + 1
  {
    if exit != Generate {
      var o := LabelOf(exit).outcome;
      assert o != PersonaTurn && o != BudgetFallbackTurn;
      assert (o == Crisis || o == RiskHandoff) <==> Files(exit);
      CountedLedger(m, o, filed, metered, open);
    }
  }

  lemma ApplyKeeps(cfg: Config, st: State, r: Request, exit: Exit)
    requires Ledger(st)
    requires exit == Generate ==> (SessionOf(r), r.persona) in st.profile.consent
    ensures Ledger(Apply(cfg, st, r, exit))
  {
    hide Gentle, DeskAfter, DeskLedger, CountedExit, MeterLedger, LogAfter, Confirmed;
    DeskAfterLedger(cfg, st.profile, st.desk, r, exit, Confirmed(st.meters));
    CountedExitLedger(st.meters, exit, FiledCount(st.desk), |MeteredIds(st.inflight)|, |st.inflight|);
    var after := InflightAfter(st.inflight, st.meters.received, r, exit, Gentle(cfg, st.profile, st.log, r));
    assert MeteredIds(after) == MeteredIds(st.inflight);
    assert |after| == |st.inflight| + if exit == Generate then 1 else 0;
  }

  lemma FlightSize(inflight: map<nat, InFlight>, id: nat)
    requires id in inflight
    ensures |inflight - {id}| == |inflight| - 1
  {
    assert (inflight - {id}).Keys == inflight.Keys - {id};
  }

  lemma AbortedKeeps(st: State, id: nat)
    requires Ledger(st) && AwaitsGenerator(st, id)
    ensures Ledger(st.(inflight := st.inflight - {id}, meters := st.meters.(aborted := st.meters.aborted + 1)))
  {
    hide DeskLedger, FiledCount;
    FlightSize(st.inflight, id);
    assert MeteredIds(st.inflight - {id}) == MeteredIds(st.inflight);
  }

  lemma MeteredKeeps(st: State, id: nat, reply: string, row: UsageRow)
    requires Ledger(st) && AwaitsGenerator(st, id)
    ensures Ledger(st.(inflight := st.inflight[id := st.inflight[id].(phase := Metered(reply, row.budget))],
                       meters := st.meters.(usage := st.meters.usage + [row])))
  {
    hide DeskLedger, FiledCount;
    var after := st.inflight[id := st.inflight[id].(phase := Metered(reply, row.budget))];
    assert MeteredIds(after) == MeteredIds(st.inflight) + {id};
    assert after.Keys == st.inflight.Keys;
  }

  lemma GeneratedKeeps(cfg: Config, st: State, id: nat, g: Generation)
    requires Ledger(st)
    ensures Ledger(Generated(cfg, st, id, g))
  {
    hide Ledger, Softened;
    if AwaitsGenerator(st, id) {
      var f := st.inflight[id];
      if g.OtherError? {
        AbortedKeeps(st, id);
      } else {
        MeteredKeeps(st, id, Softened(cfg, f.gentle, if g.Reply? then g.text else g.fakeText),
                     UsageRow(f.persona, f.conversation, g.BudgetExceeded?));
      }
    }
  }

  lemma DeliveredKeeps(st: State, id: nat, text: string, disposition: Align.Disposition, leak: bool, overturned: bool)
    requires Ledger(st) && AwaitsDelivery(st, id)
    requires leak ==> disposition == Align.Suppressed
    ensures Ledger(Delivered(st, id, st.inflight[id], text, disposition, leak, overturned))
  {
    var f := st.inflight[id];
    var after := Delivered(st, id, f, text, disposition, leak, overturned);
    assert MeteredIds(after.inflight) == MeteredIds(st.inflight) - {id};
    assert after.inflight.Keys == st.inflight.Keys - {id};
    assert id in MeteredIds(st.inflight);
    LeakLedger(st.desk, Confirmed(st.meters), f, leak);
    assert after.desk == st.desk.(pages := LeakPaged(st.desk.pages, f, leak));
    DeliveredMeters(st.meters, FiledCount(st.desk), |MeteredIds(st.inflight)|, |st.inflight|,
                    f.phase.budget, disposition, leak, overturned);
  }

  lemma LeakLedger(d: Desk, leaks: int, f: InFlight, leak: bool)
    requires DeskLedger(d, leaks)
    ensures DeskLedger(d.(pages := LeakPaged(d.pages, f, leak)), leaks + if leak then 1 else 0)
  {
    AppendToPages(d.pages, Page(UngroundedLeak, Synthetic(f.persona)));
  }

  lemma DeliveredMeters(m: Meters, filed: nat, metered: nat, open: nat,
                        budget: bool, disposition: Align.Disposition, leak: bool, overturned: bool)
    requires MeterLedger(m, filed, metered, open) && metered > 0 && open > 0
    requires leak ==> disposition == Align.Suppressed
    ensures var after := MetersDelivered(Judged(m, disposition, leak, overturned), budget, disposition);
            MeterLedger(after, filed, metered - 1, open - 1) && Confirmed(after) == Confirmed(m) + if leak then 1 else 0
  {
  }

  lemma FinishedKeeps(st: State, id: nat, x: Findings)
    requires Ledger(st)
    ensures Ledger(Finished(st, id, x))
  {
    if AwaitsDelivery(st, id) {
      var (report, adj) := ReportOf(st.inflight[id], x);
      DeliveredKeeps(st, id, report.text, report.disposition, Align.Pages(report, adj), adj == Align.Ran(Align.Supported));
    }
  }

  lemma GenerateNeedsConsent(cfg: Config, p: Profile, log: Log, r: Request)
    requires Decide(cfg, p, log, r) == Generate
    ensures (SessionOf(r), r.persona) in p.consent
  {
  }

  lemma ReadQueueKeeps(cfg: Config, d: Desk, now: int, leaks: int)
    requires DeskLedger(d, leaks)
    ensures DeskLedger(d.(pages := d.pages + Repages(cfg, d.tickets, now)), leaks)
  {
    forall k
      ensures OfKind(d.pages + Repages(cfg, d.tickets, now), k)
              == OfKind(d.pages, k) + (if k == Repage then Repages(cfg, d.tickets, now) else [])
    {
      OfKindConcat(d.pages, Repages(cfg, d.tickets, now), k);
      RepagesAreRepages(cfg, d.tickets, now, k);
    }
  }

  lemma NextKeeps(cfg: Config, st: State, step: Step)
    requires Ledger(st)
    ensures Ledger(Next(cfg, st, step))
  {
    match step
    case Chat(r) =>
      var exit := Decide(cfg, st.profile, st.log, r);
      if exit == Generate {
        GenerateNeedsConsent(cfg, st.profile, st.log, r);
      }
      ApplyKeeps(cfg, st, r, exit);
    case GeneratorReturns(id, g) => GeneratedKeeps(cfg, st, id, g);
    case TurnFinishes(id, x) => FinishedKeeps(st, id, x);
    case AcknowledgeConsent(_, _, _) =>
    case RecordIntake(_, _, _, _, _) =>
    case ReadQueue(now) => ReadQueueKeeps(cfg, st.desk, now, Confirmed(st.meters));
    case ResolveTicket(i, o) =>
      if i < |st.desk.tickets| {
        FilingPagesAfterResolve(st.desk.tickets, i, o);
      }
  }

  /** Audit conservation, for every configuration and every interleaving of steps. */
  lemma {:induction false} AuditConservation(cfg: Config, steps: seq<Step>)
    ensures Ledger(Exec(cfg, steps))
  {
    if steps != [] {
      var n := |steps| - 1;
      AuditConservation(cfg, steps[..n]);
      NextKeeps(cfg, Exec(cfg, steps[..n]), steps[n]);
    }
  }

  /** The totals a reader can check on the dashboard, after any run. */
  lemma PageTotals(cfg: Config, steps: seq<Step>)
    ensures var st := Exec(cfg, steps); var m := st.meters;
            && |st.desk.tickets| + st.desk.queueErrors == m.turns[Crisis] + m.turns[RiskHandoff]
            && |st.desk.pages| == m.turns[Crisis] + m.turns[RiskHandoff] + Confirmed(m) + |OfKind(st.desk.pages, Repage)|
            && m.received == |m.turns| + m.aborted + |st.inflight|
            && (st.inflight == map[] ==> |m.usage| == m.turns[PersonaTurn] + m.turns[BudgetFallbackTurn])
  {
    AuditConservation(cfg, steps);
    var st := Exec(cfg, steps);
    KindsPartitionPages(st.desk.pages);
    FilingPagesLength(st.desk.tickets);
    if st.inflight == map[] {
      assert MeteredIds(st.inflight) == {};
    }
  }

  lemma {:induction false} FilingPagesLength(tickets: seq<Ticket>)
    ensures |FilingPages(tickets)| == |tickets|
  {
    if tickets != [] {
      FilingPagesLength(tickets[..|tickets| - 1]);
    }
  }
}
