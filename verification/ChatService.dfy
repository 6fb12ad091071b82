/** The chat handler and its sibling endpoints, in the handler's own order of early exits and writes.
    Every method is proved to compute the corresponding step of ChatModel. */
module ChatService {
  import Coverage
  import Risk
  import Align = Alignment
  import opened ChatModel

  class Service {
    const cfg: Config

    var profile: Profile              // the consent gate and the risk profile
    var log: Log                      // the conversation store
    var desk: Desk                    // the handoff queue and the pager
    var meters: Meters                // the usage recorder and the counters
    var inflight: map<nat, InFlight>  // turns suspended at an await

    function Abs(): State
      reads this
    {
      State(profile, log, desk, meters, inflight)
    }

    constructor (cfg: Config)
      ensures this.cfg == cfg && Abs() == INITIAL
    {
      this.cfg := cfg;
      profile, log := Profile({}, map[], map[]), Log(map[], {});
      desk, meters := Desk([], 0, []), Meters([], multiset{}, multiset{}, 0, 0, 0, 0);
      inflight := map[];
    }

    // ---- helpers the handler calls ---------------------------------------------------------

    method EmitTurn(o: Outcome)
      modifies this`meters
      ensures meters == Counted(old(meters), o)
    {
      meters := meters.(turns := meters.turns + multiset{o});
    }

    method MarkCrisis(conversation: Session)
      modifies this`log
      ensures log == Marked(old(log), conversation)
    {
      if conversation != "" {
        log := log.(crisisMarks := log.crisisMarks + {conversation});
      }
    }

    method AppendTurn(conversation: Session, turn: Turn)
      modifies this`log
      ensures log == if conversation == "" then old(log)
                         else old(log).(history := old(log.history)[conversation := History(old(log), conversation) + [turn]])
    {
      if conversation != "" {
        log := log.(history := log.history[conversation := History(log, conversation) + [turn]]);
      }
    }

    method RecordTurn(conversation: Session, message: string, reply: Reply)
      modifies this`log
      ensures log == Recorded(old(log), conversation, message, reply)
    {
      AppendTurn(conversation, FromUser(message));
      AppendTurn(conversation, FromPersona(reply));
      if conversation != "" {
        var h := History(old(log), conversation);
        assert h + [FromUser(message)] + [FromPersona(reply)] == h + [FromUser(message), FromPersona(reply)];
        assert log.history == old(log.history)[conversation := h + [FromUser(message), FromPersona(reply)]];
      }
    }

    /** Enqueue with the fail-safe, then the page for the ticket's outcome. */
    method Escalate(r: Request, trigger: TicketTrigger, flags: set<Risk.Flag>)
      modifies this`desk
      ensures desk == Escalated(cfg, old(desk), r, trigger, flags)
    {
      var ticket := Ticket(r.persona, r.conversation, trigger, flags, r.now, Enqueued, NotDegraded);
      if cfg.responders <= 0 {
        ticket := ticket.(outcome := Degraded, degrade := NoResponder);
      } else if !Coverage.IsOpen(cfg.queueWindow, r.queueTime) {
        ticket := ticket.(outcome := Degraded, degrade := OutsideCoverageHours);
      }
      var subject := Logged(|desk.tickets|);
      if r.queueFails {
        ticket := ticket.(outcome := Degraded, degrade := QueueError);
        desk := desk.(queueErrors := desk.queueErrors + 1);
        subject := Unlogged;
      } else {
        desk := desk.(tickets := desk.tickets + [ticket]);
      }
      if ticket.outcome == Enqueued {
        desk := desk.(pages := desk.pages + [Page(CrisisEnqueue, subject)]);
      } else if ticket.outcome == Degraded {
        desk := desk.(pages := desk.pages + [Page(DegradedNet, subject)]);
      }
    }

    /** At least two distress grades among the last two user messages and the current one. */
    method DistressTrendRising(message: string, conversation: Session) returns (rising: bool)
      requires "" !in log.history
      ensures rising == TrendRising(cfg, History(log, conversation), message)
    {
      var recent := [message];
      if conversation != "" {
        var prior := UserMessages(History(log, conversation));
        recent := LastTwo(prior) + [message];
      } else {
        assert LastTwo(UserMessages(History(log, ""))) + [message] == [message];
      }
      var count := 0;
      for i := 0 to |recent|
        invariant count == CountDistress(cfg, recent[..i])
      {
        assert recent[..i + 1][..i] == recent[..i];
        if cfg.isDistress(recent[i]) {
          count := count + 1;
        }
      }
      assert recent[..|recent|] == recent;
      rising := count >= 2;
    }

    // ---- POST /chat/{persona}: up to the generator call --------------------------------------

    /** A crisis turn: mark the session, file and page the ticket, log the acknowledgement, and count it. */
    method CrisisExit(r: Request, flags: set<Risk.Flag>, recorded: bool)
      modifies this`log, this`desk, this`meters
      ensures log == var m := Marked(old(log), r.conversation);
                         if recorded then Recorded(m, r.conversation, r.message, HandoffNotice) else m
      ensures desk == Escalated(cfg, old(desk), r, CrisisSignal, flags)
      ensures meters == Counted(old(meters), Crisis)
    {
      MarkCrisis(r.conversation);
      Escalate(r, CrisisSignal, flags);
      if recorded {
        RecordTurn(r.conversation, r.message, HandoffNotice);
      }
      EmitTurn(Crisis);
    }

    /** A turn answered with a notice that goes into the session log. */
    method NoticeExit(r: Request, notice: Reply, o: Outcome)
      modifies this`log, this`meters
      ensures log == Recorded(old(log), r.conversation, r.message, notice)
      ensures meters == Counted(old(meters), o)
    {
      RecordTurn(r.conversation, r.message, notice);
      EmitTurn(o);
    }

    method Chat(r: Request) returns (exit: Exit)
      requires "" !in log.history
      modifies this
      ensures exit == old(Decide(cfg, profile, log, r))
      ensures Abs() == Apply(cfg, old(Abs()), r, exit)
    {
      hide Decide, Gentle, LogAfter, DeskAfter, CountedExit, InflightAfter;
      meters := meters.(received := meters.received + 1);
      exit := PassGates(r, meters.received - 1);
    }

    /** The kill switch and the coverage gate both run the classifier before they refuse: a crisis is ticketed
        first, and only the coverage refusal leaves a notice in the log. */
    method RefuseUnlessCrisis(r: Request, crisisExit: Exit, refusal: Exit, ghost id: nat) returns (exit: Exit)
      requires (crisisExit, refusal) == (KillSwitchCrisis, KillSwitchRefused)
               || (crisisExit, refusal) == (CoverageCrisis, CoverageClosed)
      modifies this`log, this`desk, this`meters
      ensures exit == if cfg.isCrisis(r.message) then crisisExit else refusal
      ensures Abs() == Act(cfg, old(Abs()), r, exit, id)
    {
      if cfg.isCrisis(r.message) {
        CrisisExit(r, {}, false);
        return crisisExit;
      }
      if refusal.KillSwitchRefused? {
        EmitTurn(TrafficDisabled);
      } else {
        NoticeExit(r, ModeOffNotice, CoverageRefused);
      }
      return refusal;
    }

    /** The traffic gates in order, each with its own refusal. */
    method PassGates(r: Request, id: nat) returns (exit: Exit)
      requires "" !in log.history
      modifies this`log, this`desk, this`meters, this`inflight
      ensures exit == old(Decide(cfg, profile, log, r))
      ensures Abs() == Act(cfg, old(Abs()), r, exit, id)
    {
      if r.persona != r.keyPersona {
        EmitTurn(Forbidden);
        return NotAllowed;
      }
      if KillSwitched(cfg, r) {
        exit := RefuseUnlessCrisis(r, KillSwitchCrisis, KillSwitchRefused, id);
        return;
      }
      if RampBlocked(cfg, r) {
        NoticeExit(r, ModeOffNotice, RealUserRefused);
        return RampRefused;
      }
      if CoverageBlocked(cfg, r) {
        exit := RefuseUnlessCrisis(r, CoverageCrisis, CoverageClosed, id);
        return;
      }
      if !ValidRelationship(r.relationship) {
        EmitTurn(ValidationError);
        return BadRelationship;
      }
      if r.persona !in cfg.registered {
        EmitTurn(PersonaNotFound);
        return UnknownPersona;
      }
      exit := Converse(r, id);
    }

    /** Past the traffic gates: the crisis check, the consent gate, and risk enforcement. */
    method Converse(r: Request, id: nat) returns (exit: Exit)
      requires "" !in log.history
      modifies this`log, this`desk, this`meters, this`inflight
      ensures exit == old(DecideConversation(cfg, profile, log, r))
      ensures Abs() == Act(cfg, old(Abs()), r, exit, id)
    {
      var flags := Flags(profile, SessionOf(r), r.persona);
      if cfg.isCrisis(r.message) {
        CrisisExit(r, flags, true);
        return MainCrisis;
      }
      if (SessionOf(r), r.persona) !in profile.consent {
        EmitTurn(ConsentRequired);
        return NeedsConsent;
      }
      var gentle;
      exit, gentle := EnforceRisk(r, flags);
      ActOnEnforcement(r, flags, exit, gentle, id);
    }

    /** The session signals, read off the history and the crisis marks, through the enforcement matrix. */
    method EnforceRisk(r: Request, flags: set<Risk.Flag>) returns (exit: Exit, gentle: bool)
      requires "" !in log.history && flags == Flags(profile, SessionOf(r), r.persona)
      ensures exit == DecideRisk(cfg, profile, log, r) && gentle == Gentle(cfg, profile, log, r)
      ensures exit.PauseExit? || exit.HandoffExit? || exit.RefuseTopicExit? || exit.Generate?
    {
      var rising := DistressTrendRising(r.message, r.conversation);
      var completed := TurnCount(History(log, r.conversation));
      var cap := if cfg.dosageCap > 0 then Risk.CapAt(cfg.dosageCap) else Risk.NoCap;
      var signals := Risk.Signals(completed + 1, cap, rising, r.conversation in log.crisisMarks);
      var topic := cfg.ageTopic(r.message);
      exit := ExitFor(Risk.Binding(flags, signals, topic), flags);
      gentle := cfg.isDistress(r.message) || Risk.Tighten in Risk.Required(flags, signals, topic);
    }

    /** A consented turn: pause, hand off, refuse the topic, or start the generator. */
    method ActOnEnforcement(r: Request, flags: set<Risk.Flag>, exit: Exit, gentle: bool, id: nat)
      requires flags == Flags(profile, SessionOf(r), r.persona) && gentle == Gentle(cfg, profile, log, r)
      requires exit.PauseExit? || exit.HandoffExit? || exit.RefuseTopicExit? || exit.Generate?
      modifies this`log, this`desk, this`meters, this`inflight
      ensures Abs() == Act(cfg, old(Abs()), r, exit, id)
    {
      hide Gentle, Escalated, Flags, Recorded, Counted;
      if exit.PauseExit? {
        NoticeExit(r, if exit.proxy then ProxyPauseNotice else PauseNotice, RiskPause);
      } else if exit == HandoffExit {
        Escalate(r, DistressTrend, flags);
        NoticeExit(r, HandoffNotice, RiskHandoff);
      } else if exit == RefuseTopicExit {
        NoticeExit(r, RefuseTopicNotice, RiskRefuse);
      } else {
        inflight := inflight[id := InFlight(r.persona, SessionOf(r), r.conversation, r.message, gentle, Generating)];
      }
    }

    // ---- ... from the generator's return to the response ---------------------------------------

    method GeneratorReturns(id: nat, g: Generation)
      modifies this`inflight, this`meters
      ensures Abs() == Generated(cfg, old(Abs()), id, g)
    {
      if id !in inflight || !inflight[id].phase.Generating? {
        return;
      }
      var f := inflight[id];
      if g.OtherError? {
        inflight := inflight - {id};
        meters := meters.(aborted := meters.aborted + 1);
        return;
      }
      var budget := g.BudgetExceeded?;
      var reply := if budget then g.fakeText else g.text;
      if f.gentle && reply != "" && cfg.isDismissive(reply) {
        reply := cfg.consolation;
      }
      meters := meters.(usage := meters.usage + [UsageRow(f.persona, f.conversation, budget)]);
      inflight := inflight[id := f.(phase := Metered(reply, budget))];
    }

    /** The claim guard, then the judge backstop on its report. */
    method AlignReply(f: InFlight, x: Findings) returns (report: Align.Report, adjudication: Align.Adjudication)
      requires f.phase.Metered?
      ensures (report, adjudication) == ReportOf(f, x)
    {
      var alignment := new Align.AlignmentReport(Align.Guard(f.phase.reply, x.ungrounded, x.fallback));
      var overturned;
      adjudication, overturned := alignment.Adjudicate(f.phase.reply, f.phase.budget, x.eligible, x.answer);
      report := alignment.Value();
    }

    method TurnFinishes(id: nat, x: Findings)
      modifies this
      ensures Abs() == Finished(old(Abs()), id, x)
    {
      if id !in inflight || !inflight[id].phase.Metered? {
        return;
      }
      var f := inflight[id];
      var report, adjudication := AlignReply(f, x);
      Deliver(id, f, report, adjudication);
    }

    /** A confirmed suppression pages, an unconfirmed one is counted, and so is a judge overturn. */
    method SettleSuppression(f: InFlight, report: Align.Report, adjudication: Align.Adjudication)
      modifies this`desk, this`meters
      ensures var leak := Align.Pages(report, adjudication);
              desk == old(desk).(pages := LeakPaged(old(desk.pages), f, leak))
              && meters == Judged(old(meters), report.disposition, leak, adjudication == Align.Ran(Align.Supported))
    {
      if adjudication == Align.Ran(Align.Supported) {
        meters := meters.(overturned := meters.overturned + 1);
      }
      if report.disposition == Align.Suppressed {
        var policyOnly := Align.PolicyOnly(report.ungrounded);
        if policyOnly || adjudication == Align.Ran(Align.Fabricated) {
          desk := desk.(pages := desk.pages + [Page(UngroundedLeak, Synthetic(f.persona))]);
        } else {
          meters := meters.(unconfirmed := meters.unconfirmed + 1);
        }
      }
    }

    method Deliver(id: nat, f: InFlight, report: Align.Report, adjudication: Align.Adjudication)
      requires f.phase.Metered?
      modifies this
      ensures Abs() == Delivered(old(Abs()), id, f, report.text, report.disposition,
                                 Align.Pages(report, adjudication), adjudication == Align.Ran(Align.Supported))
    {
      SettleSuppression(f, report, adjudication);
      RecordTurn(f.conversation, f.message, Voice(report.text));
      EmitTurn(if f.phase.budget then BudgetFallbackTurn else PersonaTurn);
      meters := meters.(dispositions := meters.dispositions + multiset{report.disposition});
      if (f.session, f.persona) !in profile.consent {
        desk := desk.(pages := desk.pages + [Page(ConsentBypass, Synthetic(f.persona))]);
      }
      inflight := inflight - {id};
    }

    // ---- the other endpoints --------------------------------------------------------------------

    method AcknowledgeConsent(keyPersona: Persona, persona: Persona, session: Session)
      modifies this`profile
      ensures profile == Acknowledged(cfg, old(profile), keyPersona, persona, session)
    {
      if persona != keyPersona {
        return;
      }
      if persona !in cfg.registered {
        return;
      }
      if session != "" {
        profile := profile.(consent := profile.consent + {(session, persona)});
      }
    }

    method RecordIntake(keyPersona: Persona, persona: Persona, session: Session, derived: set<Risk.Flag>, a: Assessment)
      modifies this`profile
      ensures profile == TakenIn(cfg, old(profile), keyPersona, persona, session, derived, a)
    {
      if persona != keyPersona || persona !in cfg.registered {
        return;
      }
      if (session, persona) !in profile.consent {
        return;
      }
      var flags := derived + (if a.lossOfChild then {Risk.LossOfChild} else {})
                           + (if a.nonAcceptance then {Risk.NonAcceptance} else {});
      profile := profile.(personaFlags := profile.personaFlags[persona := flags]);
      if a.proxyUser {
        profile := profile.(sessionFlags := profile.sessionFlags[(session, persona) := {Risk.ProxyUser}]);
      }
    }

    /** The queue read re-pages every breached pending ticket; the returned count is what it paged. */
    method ReadQueue(now: int) returns (count: nat)
      modifies this`desk
      ensures desk == old(desk).(pages := old(desk.pages) + Repages(cfg, old(desk.tickets), now))
      ensures count == |Repages(cfg, old(desk.tickets), now)|
    {
      count := 0;
      var tickets := desk.tickets;
      for i := 0 to |tickets|
        invariant desk == old(desk).(pages := old(desk.pages) + Repages(cfg, tickets[..i], now))
        invariant count == |Repages(cfg, tickets[..i], now)|
      {
        assert tickets[..i + 1][..i] == tickets[..i];
        if Breached(cfg, tickets[i], now) {
          desk := desk.(pages := desk.pages + [Page(SlaBreach, Logged(i))]);
          count := count + 1;
        }
      }
      assert tickets[..|tickets|] == tickets;
    }

    method ResolveTicket(index: nat, outcome: TicketOutcome) returns (found: bool)
      modifies this`desk
      ensures desk == Resolved(old(desk), index, outcome)
      ensures found == (outcome in {Answered, Abandoned} && index < |old(desk.tickets)|)
    {
      if outcome !in {Answered, Abandoned} || index >= |desk.tickets| {
        return false;
      }
      desk := desk.(tickets := desk.tickets[index := desk.tickets[index].(outcome := outcome)]);
      found := true;
    }
  }
}
