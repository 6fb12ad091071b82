/** What a request and a turn write, spelled out: who hears what, who is paged, and what is counted. */
module ChatTurns {
  import opened ChatModel
  import Safety = ChatSafety
  import Risk
  import Coverage
  import Align = Alignment

  // ---- what an exit writes ----------------------------------------------------------------------

  function Extended(log: Log, conversation: Session, message: string, reply: Reply): map<Session, seq<Turn>> {
    if conversation == "" then log.history
    else
      var before := if conversation in log.history then log.history[conversation] else [];
      log.history[conversation := before + [FromUser(message), FromPersona(reply)]]
  }

  /** The log a request leaves: nothing on an error or on a start, else its message with the notice it is answered by.
      A conversation is marked exactly when its message was taken for a crisis. */
  lemma ExitsLog(cfg: Config, st: State, r: Request)
    ensures var exit := Decide(cfg, st.profile, st.log, r); var after := Next(cfg, st, Chat(r)).log;
            && (exit in {RampRefused, CoverageClosed} ==> after.history == Extended(st.log, r.conversation, r.message, ModeOffNotice))
            && (exit in {MainCrisis, HandoffExit} ==> after.history == Extended(st.log, r.conversation, r.message, HandoffNotice))
            && (exit == PauseExit(true) ==> after.history == Extended(st.log, r.conversation, r.message, ProxyPauseNotice))
            && (exit == PauseExit(false) ==> after.history == Extended(st.log, r.conversation, r.message, PauseNotice))
            && (exit == RefuseTopicExit ==> after.history == Extended(st.log, r.conversation, r.message, RefuseTopicNotice))
            && (exit !in {RampRefused, CoverageClosed, MainCrisis, HandoffExit, RefuseTopicExit} && !exit.PauseExit? ==>
                  after.history == st.log.history)
            && after.crisisMarks == (if exit in {KillSwitchCrisis, CoverageCrisis, MainCrisis} && r.conversation != ""
                                     then st.log.crisisMarks + {r.conversation} else st.log.crisisMarks)
  {
    hide Decide, DeskAfter, Gentle;
  }

  /** The desk a request leaves: one ticket for a crisis or a handoff, and nothing for any other exit. Only past the
      gates does a ticket carry the risk flags. */
  lemma ExitsFile(cfg: Config, st: State, r: Request)
    ensures var exit := Decide(cfg, st.profile, st.log, r); var after := Next(cfg, st, Chat(r)).desk;
            var flags := Flags(st.profile, if r.conversation != "" then r.conversation else r.minted, r.persona);
            && (exit in {KillSwitchCrisis, CoverageCrisis} ==> Safety.Filed(cfg, r, CrisisSignal, {}, st.desk, after))
            && (exit == MainCrisis ==> Safety.Filed(cfg, r, CrisisSignal, flags, st.desk, after))
            && (exit == HandoffExit ==> Safety.Filed(cfg, r, DistressTrend, flags, st.desk, after))
            && (exit !in {KillSwitchCrisis, CoverageCrisis, MainCrisis, HandoffExit} ==> after == st.desk)
  {
    hide Decide, LogAfter, Gentle, Flags, Coverage.IsOpen;
  }

  /** Every request is received once and counted under its own outcome, but for a start, which is counted when it ends. */
  lemma ExitsCount(cfg: Config, st: State, r: Request)
    ensures var exit := Decide(cfg, st.profile, st.log, r); var after := Next(cfg, st, Chat(r)).meters;
            var counted := after.turns;
            && after == st.meters.(received := st.meters.received + 1, turns := counted)
            && (exit == NotAllowed ==> counted == st.meters.turns + multiset{Forbidden})
            && (exit in {KillSwitchCrisis, CoverageCrisis, MainCrisis} ==> counted == st.meters.turns + multiset{Crisis})
            && (exit == KillSwitchRefused ==> counted == st.meters.turns + multiset{TrafficDisabled})
            && (exit == RampRefused ==> counted == st.meters.turns + multiset{RealUserRefused})
            && (exit == CoverageClosed ==> counted == st.meters.turns + multiset{CoverageRefused})
            && (exit == BadRelationship ==> counted == st.meters.turns + multiset{ValidationError})
            && (exit == UnknownPersona ==> counted == st.meters.turns + multiset{PersonaNotFound})
            && (exit == NeedsConsent ==> counted == st.meters.turns + multiset{ConsentRequired})
            && (exit.PauseExit? ==> counted == st.meters.turns + multiset{RiskPause})
            && (exit == HandoffExit ==> counted == st.meters.turns + multiset{RiskHandoff})
            && (exit == RefuseTopicExit ==> counted == st.meters.turns + multiset{RiskRefuse})
            && (exit == Generate ==> counted == st.meters.turns)
  {
    hide Decide, LogAfter, DeskAfter, Gentle;
  }

  // ---- the reply of a turn ----------------------------------------------------------------------

  /** A biographical or relationship claim: one the judge can rule on. */
  predicate Factual(c: Align.Claim) {
    c.category in {Align.Biographical, Align.Relationship}
  }

  /** The judge is asked only about a generator's own reply, and only when there is something to rule on. */
  predicate JudgeRuns(g: Generation, x: Findings) {
    g.Reply? && x.eligible && exists c :: c in x.ungrounded && Factual(c)
  }

  /** The judge supported the factual claims, and this claim has the text of one of them. */
  predicate Cleared(g: Generation, x: Findings, c: Align.Claim) {
    JudgeRuns(g, x) && x.answer == Align.Supported && exists d :: d in x.ungrounded && Factual(d) && d.text == c.text
  }

  predicate Passes(g: Generation, x: Findings) {
    forall c :: c in x.ungrounded ==> Cleared(g, x, c)
  }

  /** The generated text, or the consolation in place of a dismissive one where care is called for. */
  function Spoken(cfg: Config, care: bool, g: Generation): string
    requires !g.OtherError?
  {
    var text := match g case Reply(text) => text case BudgetExceeded(fake) => fake;
    if care && text != "" && cfg.isDismissive(text) then cfg.consolation else text
  }

  /** What the user hears: the spoken text when every un-grounded claim was cleared, else the guard's fallback. */
  function Heard(cfg: Config, care: bool, g: Generation, x: Findings): string
    requires !g.OtherError?
  {
    if Passes(g, x) then Spoken(cfg, care, g) else x.fallback
  }

  /** A withheld reply pages when only policy claims are left over, or when the judge confirmed a fabrication. */
  predicate Leaks(g: Generation, x: Findings) {
    && !Passes(g, x)
    && ((forall c :: c in x.ungrounded && !Cleared(g, x, c) ==> !Factual(c)) || (JudgeRuns(g, x) && x.answer == Align.Fabricated))
  }

  lemma FactualIsNoPolicy(c: Align.Claim)
    ensures Factual(c) <==> !c.Policy()
  {
    assert c.category.Identity? || c.category.Advice? || c.category.Biographical? || c.category.Relationship?;
  }

  /** The two readings of what the judge is asked and clears. */
  lemma JudgedAlike(f: InFlight, g: Generation, x: Findings)
    requires !g.OtherError? && f.phase.Metered? && f.phase.budget == g.BudgetExceeded?
    ensures JudgeRuns(g, x) <==> Align.AsksJudge(Align.Guard(f.phase.reply, x.ungrounded, x.fallback), f.phase.budget, x.eligible)
    ensures forall c :: Cleared(g, x, c) <==> JudgeRuns(g, x) && x.answer == Align.Supported && Align.SharesText(x.ungrounded, c)
  {
    hide Align.Guard, Align.AsksJudge, Factual, Align.Claim.Policy;
    forall c: Align.Claim
      ensures Factual(c) <==> !c.Policy()
    {
      FactualIsNoPolicy(c);
    }
    Align.AskedExactly(f.phase.reply, x.ungrounded, x.fallback, f.phase.budget, x.eligible);
  }

  lemma ReportIs(f: InFlight, g: Generation, x: Findings)
    requires !g.OtherError? && f.phase.Metered? && f.phase.budget == g.BudgetExceeded?
    ensures var (report, adj) := ReportOf(f, x);
            && report.text == (if Passes(g, x) then f.phase.reply else x.fallback)
            && report.disposition == (if Passes(g, x) then Align.Passed else Align.Suppressed)
            && Align.Pages(report, adj) == Leaks(g, x)
            && (adj == Align.Ran(Align.Supported) <==> JudgeRuns(g, x) && x.answer == Align.Supported)
  {
    hide Align.Guard, Align.AsksJudge, Align.AfterJudge, Align.Pages, JudgeRuns, Cleared, Align.SharesText, Factual, Align.Claim.Policy;
    JudgedAlike(f, g, x);
    Align.AdjudicationOutcome(f.phase.reply, x.ungrounded, x.fallback, f.phase.budget, x.eligible, x.answer);
    forall c: Align.Claim
      ensures Factual(c) <==> !c.Policy()
    {
      FactualIsNoPolicy(c);
    }
    assert x.ungrounded != [] ==> x.ungrounded[0] in x.ungrounded;
    assert x.ungrounded != [] && Passes(g, x) ==> Cleared(g, x, x.ungrounded[0]);
  }

  /** From the generator's return to the response, for every state, text and finding: the whole state that is left.
      The log of a named conversation grows by the request's message and what is heard; one usage row is kept; a leak
      and a missing consent page; and the turn is counted once. */
  lemma TurnDelivers(cfg: Config, st: State, id: nat, g: Generation, x: Findings)
    requires id in st.inflight && st.inflight[id].phase.Generating? && !g.OtherError?
    ensures var f := st.inflight[id];
            var after := Next(cfg, Next(cfg, st, GeneratorReturns(id, g)), TurnFinishes(id, x));
            && after.profile == st.profile
            && after.log == Log(Extended(st.log, f.conversation, f.message, Voice(Heard(cfg, f.gentle, g, x))), st.log.crisisMarks)
            && after.desk.tickets == st.desk.tickets && after.desk.queueErrors == st.desk.queueErrors
            && after.desk.pages == st.desk.pages + (if Leaks(g, x) then [Page(UngroundedLeak, Synthetic(f.persona))] else [])
                                   + (if (f.session, f.persona) in st.profile.consent then []
                                      else [Page(ConsentBypass, Synthetic(f.persona))])
            && after.meters == TurnCounted(st.meters, f, g, x)
            && after.inflight == st.inflight - {id}
  {
    hide ReportOf, Passes, Leaks, JudgeRuns, Align.Pages;
    var mid := Next(cfg, st, GeneratorReturns(id, g));
    var f := mid.inflight[id];
    assert f.phase == Metered(Spoken(cfg, f.gentle, g), g.BudgetExceeded?);
    ReportIs(f, g, x);
    var (report, adj) := ReportOf(f, x);
    assert mid.inflight - {id} == st.inflight - {id};
    assert Next(cfg, mid, TurnFinishes(id, x))
        == Delivered(mid, id, f, report.text, report.disposition, Leaks(g, x), adj == Align.Ran(Align.Supported));
  }

  /** A usage row with its budget mark, the outcome and the guard's disposition, a suppression nobody confirmed, and a
      suppression the judge overturned. */
  function TurnCounted(m: Meters, f: InFlight, g: Generation, x: Findings): Meters {
    Meters(m.usage + [UsageRow(f.persona, f.conversation, g.BudgetExceeded?)],
           m.turns + multiset{if g.BudgetExceeded? then BudgetFallbackTurn else PersonaTurn},
           m.dispositions + multiset{if Passes(g, x) then Align.Passed else Align.Suppressed},
           m.unconfirmed + (if !Passes(g, x) && !Leaks(g, x) then 1 else 0),
           m.overturned + (if JudgeRuns(g, x) && x.answer == Align.Supported then 1 else 0),
           m.received, m.aborted)
  }

  /** Any other generator error ends the turn and leaves only the count of it. */
  lemma AbortWritesNothing(cfg: Config, st: State, id: nat)
    requires id in st.inflight && st.inflight[id].phase.Generating?
    ensures Next(cfg, st, GeneratorReturns(id, OtherError))
            == State(st.profile, st.log, st.desk, st.meters.(aborted := st.meters.aborted + 1), st.inflight - {id})
  {
  }

  // ---- a whole turn of a run --------------------------------------------------------------------------

  /** What calls for care: a distressed message, a crisis earlier in the conversation, or a flag of the persona. */
  predicate CallsForCare(cfg: Config, p: Profile, log: Log, r: Request) {
    var flags := Flags(p, if r.conversation != "" then r.conversation else r.minted, r.persona);
    || cfg.isDistress(r.message) || r.conversation in log.crisisMarks
    || Risk.LossOfChild in flags || Risk.MinorDecedent in flags || Risk.RecentLoss in flags
  }

  lemma StartedTurn(cfg: Config, st: State, r: Request)
    requires Decide(cfg, st.profile, st.log, r) == Generate
    ensures var id := st.meters.received; var after := Next(cfg, st, Chat(r));
            && id in after.inflight && id < after.meters.received
            && after.inflight[id] == InFlight(r.persona, if r.conversation != "" then r.conversation else r.minted, r.conversation,
                                              r.message, CallsForCare(cfg, st.profile, st.log, r), Generating)
  {
    hide TrendRising, Flags, Decide, Risk.Required, Safety.LetIn, Safety.PastCap, Safety.KnownRelationship;
    Safety.GenerateExactlyWhen(cfg, st.profile, st.log, r);
    Risk.TightenExactly(Flags(st.profile, SessionOf(r), r.persona), SignalsFor(cfg, st.log, r), cfg.ageTopic(r.message));
  }

  /** The step that moves a turn on: the generator's return while it is generating, and its delivery afterwards. */
  predicate Moves(step: Step, id: nat, f: InFlight) {
    if f.phase.Generating? then step.GeneratorReturns? && step.id == id else step.TurnFinishes? && step.id == id
  }

  lemma StaysInFlight(cfg: Config, st: State, step: Step, id: nat)
    requires id in st.inflight && id < st.meters.received && !Moves(step, id, st.inflight[id])
    ensures var after := Next(cfg, st, step);
            id in after.inflight && id < after.meters.received && after.inflight[id] == st.inflight[id]
  {
    hide Decide, Gentle, LogAfter, DeskAfter, ReportOf, Recorded;
  }

  lemma {:induction false} CarriesOver(cfg: Config, steps: seq<Step>, from: nat, upTo: nat, id: nat)
    requires from <= upTo <= |steps|
    requires var st := Exec(cfg, steps[..from]); id in st.inflight && id < st.meters.received
    requires forall n | from <= n < upTo :: !Moves(steps[n], id, Exec(cfg, steps[..from]).inflight[id])
    ensures var st := Exec(cfg, steps[..upTo]);
            id in st.inflight && id < st.meters.received && st.inflight[id] == Exec(cfg, steps[..from]).inflight[id]
  {
    hide Exec, Next, Moves;
    if from < upTo {
      CarriesOver(cfg, steps, from, upTo - 1, id);
      StaysInFlight(cfg, Exec(cfg, steps[..upTo - 1]), steps[upTo - 1], id);
      ExecAt(cfg, steps, upTo - 1);
    }
  }

  /** Steps i, j and k are the request, the generator's return and the delivery of one turn, whatever runs in between. */
  ghost predicate OneTurn(cfg: Config, steps: seq<Step>, i: nat, j: nat, k: nat)
    requires i < j < k < |steps|
  {
    var id := Exec(cfg, steps[..i]).meters.received;
    && steps[i].Chat? && Safety.Generates(cfg, steps, i)
    && steps[j].GeneratorReturns? && steps[j].id == id && !steps[j].generation.OtherError?
    && steps[k].TurnFinishes? && steps[k].id == id
    && (forall n | i < n < j :: !(steps[n].GeneratorReturns? && steps[n].id == id))
    && (forall n | j < n < k :: !(steps[n].TurnFinishes? && steps[n].id == id))
  }

  /** In every run, however its turns interleave: the delivery of a turn appends to the conversation of its request the
      request's own message and what is to be heard of its own generation, and touches no other conversation; and its
      usage row names its persona, its conversation and whether the budget was exceeded. */
  lemma WhatIsHeard(cfg: Config, steps: seq<Step>, i: nat, j: nat, k: nat)
    requires i < j < k < |steps| && OneTurn(cfg, steps, i, j, k)
    ensures var r := steps[i].request; var asked := Exec(cfg, steps[..i]);
            var before, after := Exec(cfg, steps[..k]), Exec(cfg, steps[..k + 1]);
            var care := CallsForCare(cfg, asked.profile, asked.log, r);
            && after.log.history
               == Extended(before.log, r.conversation, r.message, Voice(Heard(cfg, care, steps[j].generation, steps[k].findings)))
            && Exec(cfg, steps[..j + 1]).meters.usage
               == Exec(cfg, steps[..j]).meters.usage + [UsageRow(r.persona, r.conversation, steps[j].generation.BudgetExceeded?)]
  {
    hide Exec, Heard, Spoken, CallsForCare, Safety.Generates, OneTurn, Next, Moves, Extended;
    var id := Exec(cfg, steps[..i]).meters.received;
    TurnIsMetered(cfg, steps, i, j, k);
    TurnWaits(cfg, steps, i, j, k);
    CarriesOver(cfg, steps, j + 1, k, id);
    ExecAt(cfg, steps, k);
    DeliveredTurn(cfg, Exec(cfg, steps[..k]), id, steps[j].generation, steps[k].findings);
  }

  /** Up to the generator's return: the turn holds the request and what was generated for it. */
  lemma TurnIsMetered(cfg: Config, steps: seq<Step>, i: nat, j: nat, k: nat)
    requires i < j < k < |steps| && OneTurn(cfg, steps, i, j, k)
    ensures var r := steps[i].request; var g := steps[j].generation;
            var st := Exec(cfg, steps[..i]); var id := st.meters.received;
            var care := CallsForCare(cfg, st.profile, st.log, r);
            var before, after := Exec(cfg, steps[..j]), Exec(cfg, steps[..j + 1]);
            && id in after.inflight && id < after.meters.received
            && after.inflight[id] == InFlight(r.persona, if r.conversation != "" then r.conversation else r.minted, r.conversation,
                                              r.message, care, Metered(Spoken(cfg, care, g), g.BudgetExceeded?))
            && after.meters.usage == before.meters.usage + [UsageRow(r.persona, r.conversation, g.BudgetExceeded?)]
  {
    hide Exec, Spoken, CallsForCare, Safety.Generates, Next;
    var st := Exec(cfg, steps[..i]);
    var id := st.meters.received;
    GeneratesMeans(cfg, steps, i);
    ExecAt(cfg, steps, i);
    StartedTurn(cfg, st, steps[i].request);
    CarriesOver(cfg, steps, i + 1, j, id);
    ExecAt(cfg, steps, j);
    MeteredTurn(cfg, Exec(cfg, steps[..j]), id, steps[j].generation);
  }

  lemma TurnWaits(cfg: Config, steps: seq<Step>, i: nat, j: nat, k: nat)
    requires i < j < k < |steps| && OneTurn(cfg, steps, i, j, k)
    ensures var id := Exec(cfg, steps[..i]).meters.received;
            && steps[i].Chat? && steps[j].GeneratorReturns? && !steps[j].generation.OtherError?
            && steps[k] == TurnFinishes(id, steps[k].findings)
            && (forall f: InFlight, n | j + 1 <= n < k && f.phase.Metered? :: !Moves(steps[n], id, f))
  {
    hide Exec, Safety.Generates;
  }

  lemma GeneratesMeans(cfg: Config, steps: seq<Step>, i: nat)
    requires i < |steps| && Safety.Generates(cfg, steps, i)
    ensures steps[i].Chat?
    ensures var st := Exec(cfg, steps[..i]); Decide(cfg, st.profile, st.log, steps[i].request) == Generate
  {
    hide Decide, Exec;
  }

  lemma MeteredTurn(cfg: Config, st: State, id: nat, g: Generation)
    requires id in st.inflight && id < st.meters.received && st.inflight[id].phase.Generating? && !g.OtherError?
    ensures var f := st.inflight[id]; var after := Next(cfg, st, GeneratorReturns(id, g));
            && id in after.inflight && id < after.meters.received
            && after.inflight[id] == f.(phase := Metered(Spoken(cfg, f.gentle, g), g.BudgetExceeded?))
            && after.meters.usage == st.meters.usage + [UsageRow(f.persona, f.conversation, g.BudgetExceeded?)]
  {
  }

  lemma DeliveredTurn(cfg: Config, st: State, id: nat, g: Generation, x: Findings)
    requires id in st.inflight && !g.OtherError?
    requires var f := st.inflight[id]; f.phase == Metered(Spoken(cfg, f.gentle, g), g.BudgetExceeded?)
    ensures var f := st.inflight[id];
            Next(cfg, st, TurnFinishes(id, x)).log.history
            == Extended(st.log, f.conversation, f.message, Voice(Heard(cfg, f.gentle, g, x)))
  {
    hide ReportOf, Passes, Leaks, JudgeRuns, Align.Pages, Spoken;
    ReportIs(st.inflight[id], g, x);
  }

  /** So nobody in distress, no conversation after a crisis, and no bereaved parent hears a dismissive generation, in any
      run: what is heard is not dismissive, or it is one of the two fixed texts. */
  lemma NoDismissiveReply(cfg: Config, steps: seq<Step>, i: nat, j: nat, k: nat)
    requires i < j < k < |steps| && OneTurn(cfg, steps, i, j, k)
    requires var asked := Exec(cfg, steps[..i]); CallsForCare(cfg, asked.profile, asked.log, steps[i].request)
    ensures exists u :: Exec(cfg, steps[..k + 1]).log.history
                        == Extended(Exec(cfg, steps[..k]).log, steps[i].request.conversation, steps[i].request.message, Voice(u))
                        && (u == "" || !cfg.isDismissive(u) || u == cfg.consolation || u == steps[k].findings.fallback)
  {
    hide Exec, Passes, CallsForCare;
    WhatIsHeard(cfg, steps, i, j, k);
    var u := Heard(cfg, true, steps[j].generation, steps[k].findings);
  }
}
