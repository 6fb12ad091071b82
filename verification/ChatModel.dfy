/** The chat surface as a state and its steps: which exit a request takes, and what each exit writes.
    A turn is split where the handler awaits, so runs interleave concurrent turns. */
module ChatModel {
  import Gate = RealUserGate
  import Coverage
  import Risk
  import Align = Alignment

  type Persona = string

  /** A conversation id; the empty string stands for an absent id, which the handler treats the same way. */
  type Session = string

  datatype Reply = ModeOffNotice | HandoffNotice | PauseNotice | ProxyPauseNotice | RefuseTopicNotice | Voice(text: string)
  datatype Turn = FromUser(content: string) | FromPersona(reply: Reply)

  datatype TicketTrigger = CrisisSignal | DistressTrend
  datatype TicketOutcome = Enqueued | Degraded | Answered | Abandoned
  datatype DegradeReason = NotDegraded | NoResponder | OutsideCoverageHours | QueueError
  datatype Ticket = Ticket(persona: Persona, conversation: Session, trigger: TicketTrigger, flags: set<Risk.Flag>,
                           createdAt: int, outcome: TicketOutcome, degrade: DegradeReason)

  datatype PageTrigger = CrisisEnqueue | DegradedNet | SlaBreach | UngroundedLeak | ConsentBypass
  /** What a page is about: a logged ticket, a ticket the failing queue never stored, or a synthetic one. */
  datatype Subject = Logged(index: nat) | Unlogged | Synthetic(persona: Persona)
  datatype Page = Page(trigger: PageTrigger, subject: Subject)

  /** The labels of the turn counter. */
  datatype Outcome = Forbidden | Crisis | TrafficDisabled | RealUserRefused | CoverageRefused | ValidationError
                   | PersonaNotFound | ConsentRequired | RiskPause | RiskHandoff | RiskRefuse
                   | PersonaTurn | BudgetFallbackTurn

  datatype Config = Config(
    trafficSwitch: string, mode: string, canary: set<Persona>,
    coverageSwitch: string, chatWindow: Coverage.Window,
    responders: nat, queueWindow: Coverage.Window, slaTarget: int,
    dosageCap: int, registered: set<Persona>,
    isCrisis: string -> bool, isDistress: string -> bool, ageTopic: string -> bool,
    isDismissive: string -> bool, consolation: string)

  /** A request together with what the handler reads from its surroundings: the clock in both windows' zones,
      the id it would mint, and whether the ticket queue fails. */
  datatype Request = Request(
    keyPersona: Persona, persona: Persona, traffic: Gate.Header, message: string,
    conversation: Session, relationship: string, minted: Session,
    chatTime: Coverage.LocalTime, queueTime: Coverage.LocalTime, now: int, queueFails: bool)

  datatype Phase = Generating | Metered(reply: string, budget: bool)
  /** A turn past the gates; `gentle` is whether its reply must not be dismissive. */
  datatype InFlight = InFlight(persona: Persona, session: Session, conversation: Session, message: string, gentle: bool, phase: Phase)
  datatype UsageRow = UsageRow(persona: Persona, conversation: Session, budget: bool)

  /** Who consented to what, and the risk flags gathered at intake. */
  datatype Profile = Profile(
    consent: set<(Session, Persona)>,
    personaFlags: map<Persona, set<Risk.Flag>>,
    sessionFlags: map<(Session, Persona), set<Risk.Flag>>)

  /** The conversation store. */
  datatype Log = Log(history: map<Session, seq<Turn>>, crisisMarks: set<Session>)

  /** The handoff queue's audit log, the errors it raised, and every page sent. */
  datatype Desk = Desk(tickets: seq<Ticket>, queueErrors: nat, pages: seq<Page>)

  /** Usage rows and counters. */
  datatype Meters = Meters(
    usage: seq<UsageRow>,
    turns: multiset<Outcome>,
    dispositions: multiset<Align.Disposition>,
    unconfirmed: nat,
    overturned: nat,
    received: nat,
    aborted: nat)

  datatype State = State(profile: Profile, log: Log, desk: Desk, meters: Meters, inflight: map<nat, InFlight>)

  const INITIAL: State :=
    State(Profile({}, map[], map[]), Log(map[], {}), Desk([], 0, []), Meters([], multiset{}, multiset{}, 0, 0, 0, 0), map[])

  // ---- what the handler reads -----------------------------------------------------------

  function History(log: Log, conversation: Session): seq<Turn> {
    if conversation in log.history then log.history[conversation] else []
  }

  function SessionOf(r: Request): Session {
    if r.conversation != "" then r.conversation else r.minted
  }

  function Flags(p: Profile, session: Session, persona: Persona): set<Risk.Flag> {
    (if persona in p.personaFlags then p.personaFlags[persona] else {})
    + (if (session, persona) in p.sessionFlags then p.sessionFlags[(session, persona)] else {})
  }

  function UserMessages(h: seq<Turn>): seq<string> {
    if h == [] then []
    else UserMessages(h[..|h| - 1]) + (if h[|h| - 1].FromUser? then [h[|h| - 1].content] else [])
  }

  function LastTwo(s: seq<string>): seq<string> {
    if |s| <= 2 then s else s[|s| - 2..]
  }

  function CountDistress(cfg: Config, messages: seq<string>): nat {
    if messages == [] then 0
    else CountDistress(cfg, messages[..|messages| - 1]) + (if cfg.isDistress(messages[|messages| - 1]) then 1 else 0)
  }

  predicate TrendRising(cfg: Config, h: seq<Turn>, message: string) {
    CountDistress(cfg, LastTwo(UserMessages(h)) + [message]) >= 2
  }

  function TurnCount(h: seq<Turn>): int {
    var pairs := (|h| + 1) / 2;
    if pairs < 1 then 1 else pairs
  }

  function SignalsFor(cfg: Config, log: Log, r: Request): Risk.Signals {
    var h := History(log, r.conversation);
    Risk.Signals(TurnCount(h) + 1,
                 if cfg.dosageCap > 0 then Risk.CapAt(cfg.dosageCap) else Risk.NoCap,
                 TrendRising(cfg, h, r.message),
                 r.conversation in log.crisisMarks)
  }

  predicate ValidRelationship(raw: string) {
    raw == "" || Gate.Canonical(raw) in {"intimate", "family", "close_friend", "acquaintance"}
  }

  // ---- which exit a request takes ---------------------------------------------------------

  datatype Exit = NotAllowed | KillSwitchCrisis | KillSwitchRefused | RampRefused | CoverageCrisis | CoverageClosed
                | BadRelationship | UnknownPersona | MainCrisis | NeedsConsent
                | PauseExit(proxy: bool) | HandoffExit | RefuseTopicExit | Generate

  function Traffic(r: Request): Gate.TrafficClass { Gate.ParseTrafficClass(r.traffic) }

  predicate KillSwitched(cfg: Config, r: Request) {
    !Gate.ParseTrafficSwitch(cfg.trafficSwitch) && Traffic(r).Real?
  }

  predicate RampBlocked(cfg: Config, r: Request) {
    Gate.IsRefused(Gate.ParseMode(cfg.mode), Traffic(r), r.persona, cfg.canary)
  }

  predicate CoverageBlocked(cfg: Config, r: Request) {
    Gate.ParseTrafficSwitch(cfg.coverageSwitch) && Traffic(r).Real? && !Coverage.IsOpen(cfg.chatWindow, r.chatTime)
  }

  function Decide(cfg: Config, p: Profile, log: Log, r: Request): Exit {
    var crisis := cfg.isCrisis(r.message);
    if r.persona != r.keyPersona then NotAllowed
    else if KillSwitched(cfg, r) then (if crisis then KillSwitchCrisis else KillSwitchRefused)
    else if RampBlocked(cfg, r) then RampRefused
    else if CoverageBlocked(cfg, r) then (if crisis then CoverageCrisis else CoverageClosed)
    else if !ValidRelationship(r.relationship) then BadRelationship
    else if r.persona !in cfg.registered then UnknownPersona
    else DecideConversation(cfg, p, log, r)
  }

  function DecideConversation(cfg: Config, p: Profile, log: Log, r: Request): Exit {
    if cfg.isCrisis(r.message) then MainCrisis
    else if (SessionOf(r), r.persona) !in p.consent then NeedsConsent
    else DecideRisk(cfg, p, log, r)
  }

  function DecideRisk(cfg: Config, p: Profile, log: Log, r: Request): Exit {
    var flags := Flags(p, SessionOf(r), r.persona);
    ExitFor(Risk.Binding(flags, SignalsFor(cfg, log, r), cfg.ageTopic(r.message)), flags)
  }

  function ExitFor(action: Risk.Action, flags: set<Risk.Flag>): Exit {
    match action
    case PauseSession => PauseExit(Risk.ProxyUser in flags)
    case Handoff => HandoffExit
    case RefuseTopic => RefuseTopicExit
    case _ => Generate
  }

  // ---- what each exit writes --------------------------------------------------------------

  function Recorded(log: Log, conversation: Session, message: string, reply: Reply): Log {
    if conversation == "" then log
    else log.(history := log.history[conversation := History(log, conversation) + [FromUser(message), FromPersona(reply)]])
  }

  function Marked(log: Log, conversation: Session): Log {
    if conversation == "" then log else log.(crisisMarks := log.crisisMarks + {conversation})
  }

  function Counted(m: Meters, o: Outcome): Meters {
    m.(turns := m.turns + multiset{o})
  }

  function DegradeOf(cfg: Config, r: Request): DegradeReason {
    if cfg.responders <= 0 then NoResponder
    else if !Coverage.IsOpen(cfg.queueWindow, r.queueTime) then OutsideCoverageHours
    else NotDegraded
  }

  function NewTicket(cfg: Config, r: Request, trigger: TicketTrigger, flags: set<Risk.Flag>): Ticket {
    var degrade := DegradeOf(cfg, r);
    Ticket(r.persona, r.conversation, trigger, flags, r.now, if degrade == NotDegraded then Enqueued else Degraded, degrade)
  }

  function EnqueueTrigger(t: Ticket): PageTrigger {
    if t.degrade == NotDegraded then CrisisEnqueue else DegradedNet
  }

  /** A failing queue loses the row but the degraded page still goes out. */
  function Escalated(cfg: Config, d: Desk, r: Request, trigger: TicketTrigger, flags: set<Risk.Flag>): Desk {
    if r.queueFails then
      Desk(d.tickets, d.queueErrors + 1, d.pages + [Page(DegradedNet, Unlogged)])
    else
      var t := NewTicket(cfg, r, trigger, flags);
      Desk(d.tickets + [t], d.queueErrors, d.pages + [Page(EnqueueTrigger(t), Logged(|d.tickets|))])
  }

  /** The outcome each exit is counted under; a started turn is counted when it finishes. */
  datatype Label = NoLabel | Label(outcome: Outcome)

  function LabelOf(exit: Exit): Label {
    match exit
    case NotAllowed => Label(Forbidden)
    case KillSwitchCrisis => Label(Crisis)
    case KillSwitchRefused => Label(TrafficDisabled)
    case RampRefused => Label(RealUserRefused)
    case CoverageCrisis => Label(Crisis)
    case CoverageClosed => Label(CoverageRefused)
    case BadRelationship => Label(ValidationError)
    case UnknownPersona => Label(PersonaNotFound)
    case MainCrisis => Label(Crisis)
    case NeedsConsent => Label(ConsentRequired)
    case PauseExit(_) => Label(RiskPause)
    case HandoffExit => Label(RiskHandoff)
    case RefuseTopicExit => Label(RiskRefuse)
    case Generate => NoLabel
  }

  predicate IsCrisisExit(exit: Exit) {
    exit in {KillSwitchCrisis, CoverageCrisis, MainCrisis}
  }

  /** The notice an exit leaves in the session log. The gates' own crisis exits leave none. */
  datatype Notice = NoNotice | Notice(reply: Reply)

  function NoticeOf(exit: Exit): Notice {
    match exit
    case RampRefused => Notice(ModeOffNotice)
    case CoverageClosed => Notice(ModeOffNotice)
    case MainCrisis => Notice(HandoffNotice)
    case PauseExit(proxy) => Notice(if proxy then ProxyPauseNotice else PauseNotice)
    case HandoffExit => Notice(HandoffNotice)
    case RefuseTopicExit => Notice(RefuseTopicNotice)
    case _ => NoNotice
  }

  function LogAfter(log: Log, r: Request, exit: Exit): Log {
    var marked := if IsCrisisExit(exit) then Marked(log, r.conversation) else log;
    match NoticeOf(exit)
    case NoNotice => marked
    case Notice(reply) => Recorded(marked, r.conversation, r.message, reply)
  }

  /** Which exits file a ticket, and with which risk flags: only the main handler has loaded the profile. */
  function DeskAfter(cfg: Config, p: Profile, d: Desk, r: Request, exit: Exit): Desk {
    match exit
    case KillSwitchCrisis => Escalated(cfg, d, r, CrisisSignal, {})
    case CoverageCrisis => Escalated(cfg, d, r, CrisisSignal, {})
    case MainCrisis => Escalated(cfg, d, r, CrisisSignal, Flags(p, SessionOf(r), r.persona))
    case HandoffExit => Escalated(cfg, d, r, DistressTrend, Flags(p, SessionOf(r), r.persona))
    case _ => d
  }

  function Arrived(m: Meters): Meters {
    m.(received := m.received + 1)
  }

  function CountedExit(m: Meters, exit: Exit): Meters {
    match LabelOf(exit)
    case NoLabel => m
    case Label(o) => Counted(m, o)
  }

  /** A distressed message, or enforcement that tightens the turn, calls for a gentle reply. */
  predicate Gentle(cfg: Config, p: Profile, log: Log, r: Request) {
    cfg.isDistress(r.message)
    || Risk.Tighten in Risk.Required(Flags(p, SessionOf(r), r.persona), SignalsFor(cfg, log, r), cfg.ageTopic(r.message))
  }

  function InflightAfter(inflight: map<nat, InFlight>, id: nat, r: Request, exit: Exit, gentle: bool): map<nat, InFlight> {
    if exit != Generate then inflight
    else inflight[id := InFlight(r.persona, SessionOf(r), r.conversation, r.message, gentle, Generating)]
  }

  /** What taking an exit writes. */
  function Act(cfg: Config, st: State, r: Request, exit: Exit, id: nat): State {
    State(st.profile, LogAfter(st.log, r, exit), DeskAfter(cfg, st.profile, st.desk, r, exit),
          CountedExit(st.meters, exit), InflightAfter(st.inflight, id, r, exit, Gentle(cfg, st.profile, st.log, r)))
  }

  /** A request arrives, under the number of its arrival, and takes an exit. */
  function Apply(cfg: Config, st: State, r: Request, exit: Exit): State {
    Act(cfg, st.(meters := Arrived(st.meters)), r, exit, st.meters.received)
  }

  // ---- the later halves of a persona turn ---------------------------------------------------

  datatype Generation = Reply(text: string) | BudgetExceeded(fakeText: string) | OtherError

  predicate AwaitsGenerator(st: State, id: nat) {
    id in st.inflight && st.inflight[id].phase.Generating?
  }

  predicate AwaitsDelivery(st: State, id: nat) {
    id in st.inflight && st.inflight[id].phase.Metered?
  }

  /** The affect guard: a dismissive text on a gentle turn is replaced. */
  function Softened(cfg: Config, gentle: bool, text: string): string {
    if gentle && text != "" && cfg.isDismissive(text) then cfg.consolation else text
  }

  /** Only the budget error is caught; any other generator error aborts the turn and nothing more is written. */
  function Generated(cfg: Config, st: State, id: nat, g: Generation): State {
    if !AwaitsGenerator(st, id) then st
    else if g.OtherError? then
      st.(inflight := st.inflight - {id}, meters := st.meters.(aborted := st.meters.aborted + 1))
    else
      var f := st.inflight[id];
      var reply := Softened(cfg, f.gentle, if g.Reply? then g.text else g.fakeText);
      st.(inflight := st.inflight[id := f.(phase := Metered(reply, g.BudgetExceeded?))],
          meters := st.meters.(usage := st.meters.usage + [UsageRow(f.persona, f.conversation, g.BudgetExceeded?)]))
  }

  /** What the guard, the judge and the model found in the meantime. */
  datatype Findings = Findings(ungrounded: seq<Align.Claim>, fallback: string, eligible: bool, answer: Align.Verdict)

  function ReportOf(f: InFlight, x: Findings): (Align.Report, Align.Adjudication)
    requires f.phase.Metered?
  {
    var r := Align.Guard(f.phase.reply, x.ungrounded, x.fallback);
    var asked := Align.AsksJudge(r, f.phase.budget, x.eligible);
    (Align.AfterJudge(r, f.phase.reply, asked, x.answer), if asked then Align.Ran(x.answer) else Align.NotRun)
  }

  /** The pages a delivered reply sends: a confirmed suppression, and the post-hoc consent check. */
  function LeakPaged(pages: seq<Page>, f: InFlight, leak: bool): seq<Page> {
    if leak then pages + [Page(UngroundedLeak, Synthetic(f.persona))] else pages
  }

  function BypassPaged(pages: seq<Page>, p: Profile, f: InFlight): seq<Page> {
    if (f.session, f.persona) in p.consent then pages else pages + [Page(ConsentBypass, Synthetic(f.persona))]
  }

  function Judged(m: Meters, disposition: Align.Disposition, leak: bool, overturned: bool): Meters {
    m.(unconfirmed := m.unconfirmed + if disposition == Align.Suppressed && !leak then 1 else 0,
       overturned := m.overturned + if overturned then 1 else 0)
  }

  function MetersDelivered(m: Meters, budget: bool, disposition: Align.Disposition): Meters {
    m.(turns := m.turns + multiset{if budget then BudgetFallbackTurn else PersonaTurn},
       dispositions := m.dispositions + multiset{disposition})
  }

  /** The reply leaves: it is logged and counted, a confirmed suppression pages, and consent is checked once more. */
  function Delivered(st: State, id: nat, f: InFlight, text: string, disposition: Align.Disposition,
                     leak: bool, overturned: bool): State
    requires f.phase.Metered?
  {
    State(st.profile,
          Recorded(st.log, f.conversation, f.message, Voice(text)),
          st.desk.(pages := BypassPaged(LeakPaged(st.desk.pages, f, leak), st.profile, f)),
          MetersDelivered(Judged(st.meters, disposition, leak, overturned), f.phase.budget, disposition),
          st.inflight - {id})
  }

  function Finished(st: State, id: nat, x: Findings): State {
    if !AwaitsDelivery(st, id) then st
    else
      var f := st.inflight[id];
      var (report, adj) := ReportOf(f, x);
      Delivered(st, id, f, report.text, report.disposition, Align.Pages(report, adj), adj == Align.Ran(Align.Supported))
  }

  // ---- the other surfaces ---------------------------------------------------------------------

  function Acknowledged(cfg: Config, p: Profile, keyPersona: Persona, persona: Persona, session: Session): Profile {
    if persona != keyPersona || persona !in cfg.registered || session == "" then p
    else p.(consent := p.consent + {(session, persona)})
  }

  datatype Assessment = Assessment(lossOfChild: bool, nonAcceptance: bool, proxyUser: bool)

  function TakenIn(cfg: Config, p: Profile, keyPersona: Persona, persona: Persona, session: Session,
                   derived: set<Risk.Flag>, a: Assessment): Profile {
    if persona != keyPersona || persona !in cfg.registered || (session, persona) !in p.consent then p
    else
      var flags := derived + (if a.lossOfChild then {Risk.LossOfChild} else {})
                           + (if a.nonAcceptance then {Risk.NonAcceptance} else {});
      Profile(p.consent, p.personaFlags[persona := flags],
              if a.proxyUser then p.sessionFlags[(session, persona) := {Risk.ProxyUser}] else p.sessionFlags)
  }

  predicate Breached(cfg: Config, t: Ticket, now: int) {
    t.outcome == Enqueued && (if now - t.createdAt > 0 then now - t.createdAt else 0) > cfg.slaTarget
  }

  /** The Sev-1 re-pages of one queue read, one per pending ticket past its target, in ticket order. */
  function Repages(cfg: Config, tickets: seq<Ticket>, now: int): seq<Page> {
    if tickets == [] then []
    else
      var n := |tickets| - 1;
      Repages(cfg, tickets[..n], now) + (if Breached(cfg, tickets[n], now) then [Page(SlaBreach, Logged(n))] else [])
  }

  function Resolved(d: Desk, index: nat, outcome: TicketOutcome): Desk {
    if outcome !in {Answered, Abandoned} || index >= |d.tickets| then d
    else d.(tickets := d.tickets[index := d.tickets[index].(outcome := outcome)])
  }

  // ---- runs -------------------------------------------------------------------------------------

  datatype Step =
    | Chat(request: Request)
    | GeneratorReturns(id: nat, generation: Generation)
    | TurnFinishes(id: nat, findings: Findings)
    | AcknowledgeConsent(keyPersona: Persona, persona: Persona, session: Session)
    | RecordIntake(intakeKey: Persona, intakePersona: Persona, intakeSession: Session,
                   derived: set<Risk.Flag>, assessment: Assessment)
    | ReadQueue(now: int)
    | ResolveTicket(index: nat, outcome: TicketOutcome)

  function Next(cfg: Config, st: State, step: Step): State {
    match step
    case Chat(r) => Apply(cfg, st, r, Decide(cfg, st.profile, st.log, r))
    case GeneratorReturns(id, g) => Generated(cfg, st, id, g)
    case TurnFinishes(id, x) => Finished(st, id, x)
    case AcknowledgeConsent(k, p, s) => st.(profile := Acknowledged(cfg, st.profile, k, p, s))
    case RecordIntake(k, p, s, d, a) => st.(profile := TakenIn(cfg, st.profile, k, p, s, d, a))
    case ReadQueue(now) => st.(desk := st.desk.(pages := st.desk.pages + Repages(cfg, st.desk.tickets, now)))
    case ResolveTicket(i, o) => st.(desk := Resolved(st.desk, i, o))
  }

  /** The state after a run from a fresh start. */
  function Exec(cfg: Config, steps: seq<Step>): State {
    if steps == [] then INITIAL else Next(cfg, Exec(cfg, steps[..|steps| - 1]), steps[|steps| - 1])
  }

  /** A longer run takes one more step. */
  lemma ExecSnoc(cfg: Config, steps: seq<Step>, step: Step)
    ensures Exec(cfg, steps + [step]) == Next(cfg, Exec(cfg, steps), step)
  {
    hide Next;
    assert (steps + [step])[..|steps|] == steps;
  }

  lemma ExecAt(cfg: Config, steps: seq<Step>, n: nat)
    requires n < |steps|
    ensures Exec(cfg, steps[..n + 1]) == Next(cfg, Exec(cfg, steps[..n]), steps[n])
  {
    hide Exec, Next;
    assert steps[..n + 1] == steps[..n] + [steps[n]];
    ExecSnoc(cfg, steps[..n], steps[n]);
  }
}
