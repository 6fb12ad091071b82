/** The handoff queue over every interleaved run: what a queue read re-pages, and what becomes of a ticket. */
module ChatQueue {
  import opened ChatModel

  /** Waiting for a person for longer than the target; a clock behind the ticket's counts as no time at all. */
  predicate Overdue(cfg: Config, t: Ticket, now: int) {
    t.outcome == Enqueued && (now - t.createdAt > cfg.slaTarget || 0 > cfg.slaTarget)
  }

  /** Re-pages only, of logged tickets below `bound`, in strictly increasing ticket order. */
  predicate InTicketOrder(pages: seq<Page>, bound: nat) {
    && (forall a :: 0 <= a < |pages| ==> pages[a].trigger == SlaBreach && pages[a].subject.Logged? && pages[a].subject.index < bound)
    && (forall a, b :: 0 <= a < b < |pages| ==> pages[a].subject.index < pages[b].subject.index)
  }

  /** A queue read re-pages exactly the pending tickets past their target, each once and in order; a degraded,
      answered or abandoned ticket is never re-paged. */
  lemma {:induction false} RepagesExactlyTheBreached(cfg: Config, tickets: seq<Ticket>, now: int)
    ensures forall i: nat :: Page(SlaBreach, Logged(i)) in Repages(cfg, tickets, now) <==>
                             i < |tickets| && Overdue(cfg, tickets[i], now)
    ensures InTicketOrder(Repages(cfg, tickets, now), |tickets|)
  {
    if tickets != [] {
      var n := |tickets| - 1;
      RepagesExactlyTheBreached(cfg, tickets[..n], now);
      var rest := Repages(cfg, tickets[..n], now);
      forall i: nat
        ensures Page(SlaBreach, Logged(i)) in Repages(cfg, tickets, now) <==>
                Page(SlaBreach, Logged(i)) in rest || (i == n && Overdue(cfg, tickets[n], now))
      {
      }
    }
  }

  predicate Final(o: TicketOutcome) {
    o in {Answered, Abandoned}
  }

  /** A step leaves a ticket as it is, or resolves it, which changes its outcome and nothing else. */
  lemma TicketStep(cfg: Config, st: State, step: Step, n: nat)
    requires n < |st.desk.tickets|
    ensures var after := Next(cfg, st, step).desk.tickets;
            && n < |after|
            && after[n] == st.desk.tickets[n].(outcome :=
                 if step.ResolveTicket? && step.index == n && Final(step.outcome) then step.outcome else st.desk.tickets[n].outcome)
  {
    hide Decide, LogAfter, Gentle, ReportOf;
  }

  /** In every run a ticket keeps everything but its outcome, and a final outcome stays final. */
  lemma {:induction false} TicketsKeepTheirFacts(cfg: Config, steps: seq<Step>, i: nat, k: nat, n: nat)
    requires i <= k <= |steps| && n < |Exec(cfg, steps[..i]).desk.tickets|
    ensures var was, now := Exec(cfg, steps[..i]).desk.tickets, Exec(cfg, steps[..k]).desk.tickets;
            && n < |now| && now[n] == was[n].(outcome := now[n].outcome)
            && (now[n].outcome == was[n].outcome || Final(now[n].outcome))
  {
    hide Exec, Next;
    if i < k {
      TicketsKeepTheirFacts(cfg, steps, i, k - 1, n);
      TicketStep(cfg, Exec(cfg, steps[..k - 1]), steps[k - 1], n);
      ExecAt(cfg, steps, k - 1);
    }
  }

  /** In every run: a queue read sends a re-page for each overdue ticket and nothing else, and a ticket that an earlier
      step answered or abandoned is not among them. */
  lemma QueueReadsRepageTheOverdue(cfg: Config, steps: seq<Step>, k: nat, n: nat)
    requires k < |steps| && steps[k].ReadQueue?
    ensures var before, after := Exec(cfg, steps[..k]).desk, Exec(cfg, steps[..k + 1]).desk;
            && after.tickets == before.tickets && before.pages <= after.pages
            && var again := after.pages[|before.pages|..];
               && InTicketOrder(again, |before.tickets|)
               && (Page(SlaBreach, Logged(n)) in again <==> n < |before.tickets| && Overdue(cfg, before.tickets[n], steps[k].now))
               && (Page(SlaBreach, Logged(n)) in again ==>
                     forall i | 0 <= i < k && n < |Exec(cfg, steps[..i]).desk.tickets| :: !ResolvedAt(steps, i, n))
  {
    hide Exec, InTicketOrder, Repages;
    ExecAt(cfg, steps, k);
    var before := Exec(cfg, steps[..k]).desk;
    RepagesExactlyTheBreached(cfg, before.tickets, steps[k].now);
    assert (before.pages + Repages(cfg, before.tickets, steps[k].now))[|before.pages|..] == Repages(cfg, before.tickets, steps[k].now);
    if n < |before.tickets| && Overdue(cfg, before.tickets[n], steps[k].now) {
      forall i | 0 <= i < k && n < |Exec(cfg, steps[..i]).desk.tickets|
        ensures !ResolvedAt(steps, i, n)
      {
        ExecAt(cfg, steps, i);
        TicketStep(cfg, Exec(cfg, steps[..i]), steps[i], n);
        TicketsKeepTheirFacts(cfg, steps, i + 1, k, n);
      }
    }
  }

  predicate ResolvedAt(steps: seq<Step>, i: nat, n: nat)
    requires i < |steps|
  {
    steps[i].ResolveTicket? && steps[i].index == n && Final(steps[i].outcome)
  }
}
