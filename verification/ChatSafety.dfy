/** Safety over every interleaved run: consent before voice, crisis before everything, dosage and distress. */
module ChatSafety {
  import opened ChatModel
  import Audit = ChatAudit
  import Risk
  import Coverage
  import opened Text

  // ---- the gates, by what the settings and the header say -------------------------------------

  const SWITCHED_ON := {"on", "true", "1", "yes"}

  /** The caller says it is synthetic traffic; without a header, or with any other text, it is a real user. */
  predicate SaysInternal(r: Request) {
    r.traffic.Value? && Lower(Strip(r.traffic.text)) == "internal"
  }

  predicate Live(cfg: Config) {
    Lower(Strip(cfg.trafficSwitch)) in SWITCHED_ON
  }

  /** The ramp is open to everybody, or to a list this persona is on; an unset or unknown mode admits nobody. */
  predicate RampAdmits(cfg: Config, persona: Persona) {
    Lower(Strip(cfg.mode)) == "open" || (Lower(Strip(cfg.mode)) == "canary" && persona in cfg.canary)
  }

  predicate Unstaffed(cfg: Config, r: Request) {
    Lower(Strip(cfg.coverageSwitch)) in SWITCHED_ON && !Coverage.IsOpen(cfg.chatWindow, r.chatTime)
  }

  predicate KnownRelationship(raw: string) {
    raw == "" || Lower(Strip(raw)) in {"intimate", "family", "close_friend", "acquaintance"}
  }

  /** The request is let in: by its own key, and past the kill switch, the ramp and the coverage gate. */
  predicate LetIn(cfg: Config, r: Request) {
    r.persona == r.keyPersona && (SaysInternal(r) || (Live(cfg) && RampAdmits(cfg, r.persona) && !Unstaffed(cfg, r)))
  }

  /** Each gate refuses exactly when it is the first to object, for every setting, header and request. */
  lemma GatesDecideExactly(cfg: Config, p: Profile, log: Log, r: Request)
    ensures var exit := Decide(cfg, p, log, r);
            var own := r.persona == r.keyPersona;
            var outsider := own && !SaysInternal(r);
            var crisis := cfg.isCrisis(r.message);
            && (exit == NotAllowed <==> !own)
            && (exit == KillSwitchCrisis <==> outsider && !Live(cfg) && crisis)
            && (exit == KillSwitchRefused <==> outsider && !Live(cfg) && !crisis)
            && (exit == RampRefused <==> outsider && Live(cfg) && !RampAdmits(cfg, r.persona))
            && (exit == CoverageCrisis <==> outsider && Live(cfg) && RampAdmits(cfg, r.persona) && Unstaffed(cfg, r) && crisis)
            && (exit == CoverageClosed <==> outsider && Live(cfg) && RampAdmits(cfg, r.persona) && Unstaffed(cfg, r) && !crisis)
            && (exit == BadRelationship <==> LetIn(cfg, r) && !KnownRelationship(r.relationship))
            && (exit == UnknownPersona <==> LetIn(cfg, r) && KnownRelationship(r.relationship) && r.persona !in cfg.registered)
  {
    BlankReadsBlank();
    hide Strip, Lower;
    if LetIn(cfg, r) && KnownRelationship(r.relationship) && r.persona in cfg.registered {
      assert Decide(cfg, p, log, r) == DecideConversation(cfg, p, log, r);
    }
  }

  lemma BlankReadsBlank()
    ensures Lower(Strip("")) == ""
  {
  }

  /** What enforcement looks at besides the flags: whether this turn is past the cap, and whether distress is rising. */
  predicate PastCap(cfg: Config, log: Log, r: Request) {
    var pairs := if r.conversation in log.history then (|log.history[r.conversation]| + 1) / 2 else 0;
    cfg.dosageCap > 0 && (if pairs > 1 then pairs else 1) + 1 > cfg.dosageCap
  }

  /** Past the gates and the look-ups: a crisis comes before consent, consent before enforcement, and of the reasons to
      stop a turn identity and dosage come before distress, and distress before an unsuitable topic. */
  lemma ConversationDecidesExactly(cfg: Config, p: Profile, log: Log, r: Request)
    requires LetIn(cfg, r) && KnownRelationship(r.relationship) && r.persona in cfg.registered
    ensures var exit := Decide(cfg, p, log, r);
            var session := if r.conversation != "" then r.conversation else r.minted;
            var flags := Flags(p, session, r.persona);
            var heard := !cfg.isCrisis(r.message) && (session, r.persona) in p.consent;
            var paused := Risk.ProxyUser in flags || PastCap(cfg, log, r);
            var rising := TrendRising(cfg, History(log, r.conversation), r.message);
            var unsuitable := Risk.MinorDecedent in flags && cfg.ageTopic(r.message);
            && (exit == MainCrisis <==> cfg.isCrisis(r.message))
            && (exit == NeedsConsent <==> !cfg.isCrisis(r.message) && (session, r.persona) !in p.consent)
            && (exit == PauseExit(Risk.ProxyUser in flags) <==> heard && paused)
            && (exit == HandoffExit <==> heard && !paused && rising)
            && (exit == RefuseTopicExit <==> heard && !paused && !rising && unsuitable)
            && (exit == Generate <==> heard && !paused && !rising && !unsuitable)
  {
    hide TrendRising, Risk.Binding, Flags, LetIn;
    GatesDecideExactly(cfg, p, log, r);
    PastTheGates(cfg, p, log, r);
    Risk.BindingDecides(Flags(p, SessionOf(r), r.persona), SignalsFor(cfg, log, r), cfg.ageTopic(r.message));
  }

  lemma PastTheGates(cfg: Config, p: Profile, log: Log, r: Request)
    requires LetIn(cfg, r) && KnownRelationship(r.relationship) && r.persona in cfg.registered
    ensures Decide(cfg, p, log, r) == DecideConversation(cfg, p, log, r)
  {
    BlankReadsBlank();
    hide Strip, Lower, DecideConversation;
  }

  // ---- consent ------------------------------------------------------------------------------

  predicate Acknowledges(cfg: Config, step: Step, session: Session, persona: Persona) {
    step == AcknowledgeConsent(persona, persona, session) && persona in cfg.registered && session != ""
  }

  lemma ConsentStep(cfg: Config, st: State, step: Step, session: Session, persona: Persona)
    ensures (session, persona) in Next(cfg, st, step).profile.consent <==>
            (session, persona) in st.profile.consent || Acknowledges(cfg, step, session, persona)
  {
    match step
    case Chat(r) =>
    case GeneratorReturns(id, g) =>
    case TurnFinishes(id, x) => FinishKeepsProfile(st, id, x);
    case AcknowledgeConsent(_, _, _) =>
    case RecordIntake(_, _, _, _, _) =>
    case ReadQueue(_) =>
    case ResolveTicket(_, _) =>
  }

  lemma FinishKeepsProfile(st: State, id: nat, x: Findings)
    ensures Finished(st, id, x).profile == st.profile
  {
  }

  /** The consent set holds exactly the pairs some earlier step acknowledged: nothing else adds one, nothing removes one. */
  lemma {:induction false} ConsentIsExactlyWhatWasAcknowledged(cfg: Config, steps: seq<Step>, session: Session, persona: Persona)
    ensures (session, persona) in Exec(cfg, steps).profile.consent <==>
            exists j :: 0 <= j < |steps| && Acknowledges(cfg, steps[j], session, persona)
  {
    hide Next;
    if steps != [] {
      var n := |steps| - 1;
      ConsentIsExactlyWhatWasAcknowledged(cfg, steps[..n], session, persona);
      ConsentStep(cfg, Exec(cfg, steps[..n]), steps[n], session, persona);
      if exists j :: 0 <= j < n && Acknowledges(cfg, steps[..n][j], session, persona) {
        var j :| 0 <= j < n && Acknowledges(cfg, steps[..n][j], session, persona);
        assert steps[j] == steps[..n][j];
      }
      if exists j :: 0 <= j < n && Acknowledges(cfg, steps[j], session, persona) {
        var j :| 0 <= j < n && Acknowledges(cfg, steps[j], session, persona);
        assert steps[j] == steps[..n][j];
      }
    }
  }

  /** Exactly when a request reaches the generator, in terms of what the settings, the header and the request say. */
  lemma GenerateExactlyWhen(cfg: Config, p: Profile, log: Log, r: Request)
    ensures Decide(cfg, p, log, r) == Generate <==>
            && LetIn(cfg, r) && KnownRelationship(r.relationship) && r.persona in cfg.registered
            && !cfg.isCrisis(r.message)
            && var session := if r.conversation != "" then r.conversation else r.minted;
               var flags := Flags(p, session, r.persona);
               && (session, r.persona) in p.consent
               && Risk.ProxyUser !in flags && !PastCap(cfg, log, r)
               && !TrendRising(cfg, History(log, r.conversation), r.message)
               && !(Risk.MinorDecedent in flags && cfg.ageTopic(r.message))
  {
    hide Decide, TrendRising, Flags, LetIn, KnownRelationship, PastCap;
    if Decide(cfg, p, log, r) == Generate {
      GatesOrConversation(cfg, p, log, r);
    }
    if LetIn(cfg, r) && KnownRelationship(r.relationship) && r.persona in cfg.registered {
      ConversationDecidesExactly(cfg, p, log, r);
    }
  }

  lemma GatesOrConversation(cfg: Config, p: Profile, log: Log, r: Request)
    requires Decide(cfg, p, log, r) == Generate
    ensures LetIn(cfg, r) && KnownRelationship(r.relationship) && r.persona in cfg.registered
  {
    hide Decide;
    GatesDecideExactly(cfg, p, log, r);
  }

  /** Step i of the run is a request that reaches the generator. */
  predicate Generates(cfg: Config, steps: seq<Step>, i: nat)
    requires i < |steps|
  {
    steps[i].Chat? && var st := Exec(cfg, steps[..i]); Decide(cfg, st.profile, st.log, steps[i].request) == Generate
  }

  /** The id the server would mint for step i is one no client acknowledged before. */
  predicate MintsFresh(steps: seq<Step>, i: nat)
    requires i < |steps| && steps[i].Chat?
  {
    forall j :: 0 <= j < i && steps[j].AcknowledgeConsent? ==> steps[j].session != steps[i].request.minted
  }

  /** In every run a generator call serves a non-crisis message on a client-supplied session that an earlier
      step acknowledged, provided minted ids are fresh. */
  lemma GenerationIsAlwaysConsented(cfg: Config, steps: seq<Step>, i: nat)
    requires i < |steps|
    ensures Generates(cfg, steps, i) && MintsFresh(steps, i) ==>
              var r := steps[i].request;
              && r.conversation != "" && !cfg.isCrisis(r.message)
              && LetIn(cfg, r)
              && exists j :: 0 <= j < i && Acknowledges(cfg, steps[j], r.conversation, r.persona)
  {
    if Generates(cfg, steps, i) && MintsFresh(steps, i) {
      var r := steps[i].request;
      GenerateExactlyWhen(cfg, Exec(cfg, steps[..i]).profile, Exec(cfg, steps[..i]).log, r);
      ConsentIsExactlyWhatWasAcknowledged(cfg, steps[..i], SessionOf(r), r.persona);
      var j :| 0 <= j < |steps[..i]| && Acknowledges(cfg, steps[..i][j], SessionOf(r), r.persona);
      assert steps[j] == steps[..i][j];
    }
  }

  /** The defence-in-depth consent page is never sent in any run. */
  lemma ConsentBypassPageUnreachable(cfg: Config, steps: seq<Step>)
    ensures forall p :: p in Exec(cfg, steps).desk.pages ==> p.trigger != ConsentBypass
  {
    Audit.AuditConservation(cfg, steps);
    var pages := Exec(cfg, steps).desk.pages;
    forall p | p in pages
      ensures p.trigger != ConsentBypass
    {
      KindMember(pages, p);
    }
  }

  lemma {:induction false} KindMember(pages: seq<Page>, p: Page)
    requires p in pages
    ensures p in Audit.OfKind(pages, Audit.KindOf(p))
  {
    var n := |pages| - 1;
    if p != pages[n] {
      assert p in pages[..n];
      KindMember(pages[..n], p);
    }
  }

  // ---- crisis ---------------------------------------------------------------------------------

  /** Only past the gates has the handler loaded the flags a ticket carries. */
  function CarriedFlags(cfg: Config, p: Profile, r: Request): set<Risk.Flag> {
    if LetIn(cfg, r) then Flags(p, if r.conversation != "" then r.conversation else r.minted, r.persona) else {}
  }

  /** Where a crisis message is looked at by the classifier. */
  predicate ClassifierRuns(cfg: Config, r: Request) {
    r.persona == r.keyPersona
    && (if SaysInternal(r) then KnownRelationship(r.relationship) && r.persona in cfg.registered
        else !Live(cfg)
             || (RampAdmits(cfg, r.persona)
                 && (Unstaffed(cfg, r) || (KnownRelationship(r.relationship) && r.persona in cfg.registered))))
  }

  /** A crisis message files exactly one ticket and one page, and marks the session, exactly where the classifier
      runs; a lost ticket stands in for a logged one exactly when the queue fails. Elsewhere, the ramp refusal
      included, nothing is filed, nobody is paged and no mark is made. No crisis message reaches the generator. */
  lemma CrisisFilesExactlyOneTicket(cfg: Config, st: State, r: Request)
    requires cfg.isCrisis(r.message)
    ensures var after := Next(cfg, st, Chat(r));
            && after.inflight == st.inflight
            && if ClassifierRuns(cfg, r) then
                 && (r.conversation != "" ==> r.conversation in after.log.crisisMarks)
                 && Filed(cfg, r, CrisisSignal, CarriedFlags(cfg, st.profile, r), st.desk, after.desk)
               else
                 after.desk == st.desk && after.log.crisisMarks == st.log.crisisMarks
  {
    var exit := Decide(cfg, st.profile, st.log, r);
    GatesDecideExactly(cfg, st.profile, st.log, r);
    if LetIn(cfg, r) && KnownRelationship(r.relationship) && r.persona in cfg.registered {
      ConversationDecidesExactly(cfg, st.profile, st.log, r);
    }
    hide Decide, Strip, Lower, Coverage.IsOpen;
    assert ClassifierRuns(cfg, r) <==> IsCrisisExit(exit);
    if !IsCrisisExit(exit) {
      assert exit in {NotAllowed, RampRefused, BadRelationship, UnknownPersona};
    }
  }

  /** One more ticket, degraded for the first reason there is, with its own page; or, from a failing queue, one more
      lost ticket with the degraded page. */
  predicate Filed(cfg: Config, r: Request, trigger: TicketTrigger, flags: set<Risk.Flag>, before: Desk, after: Desk) {
    var open := Coverage.IsOpen(cfg.queueWindow, r.queueTime);
    var onDuty := cfg.responders > 0 && open;
    var reason := if cfg.responders <= 0 then NoResponder else if !open then OutsideCoverageHours else NotDegraded;
    var t := Ticket(r.persona, r.conversation, trigger, flags, r.now, if onDuty then Enqueued else Degraded, reason);
    if r.queueFails then
      after == Desk(before.tickets, before.queueErrors + 1, before.pages + [Page(DegradedNet, Unlogged)])
    else
      after == Desk(before.tickets + [t], before.queueErrors,
                    before.pages + [Page(if onDuty then CrisisEnqueue else DegradedNet, Logged(|before.tickets|))])
  }
}
