/** Session histories over every interleaved run: alternation, the dosage cap and the distress window. */
module ChatDosage {
  import opened ChatModel
  import Audit = ChatAudit
  import Safety = ChatSafety
  import Risk

  // ---- histories ------------------------------------------------------------------------------

  predicate Alternates(h: seq<Turn>) {
    |h| % 2 == 0 && forall i :: 0 <= i < |h| ==> (h[i].FromUser? <==> i % 2 == 0)
  }

  predicate HistoriesOk(log: Log) {
    "" !in log.history && forall s :: s in log.history ==> Alternates(log.history[s])
  }

  /** What one step may append to one session's log: nothing, or one user turn and its reply. */
  ghost predicate Appends(before: seq<Turn>, after: seq<Turn>, voiced: bool) {
    after == before || exists m: string, reply: Reply :: (reply.Voice? ==> voiced) && after == before + [FromUser(m), FromPersona(reply)]
  }

  lemma AppendKeepsAlternation(before: seq<Turn>, after: seq<Turn>)
    requires Alternates(before) && Appends(before, after, true)
    ensures Alternates(after) && before <= after
  {
  }

  lemma RecordedAppends(log: Log, conversation: Session, m: string, reply: Reply, s: Session)
    ensures Appends(History(log, s), History(Recorded(log, conversation, m, reply), s), reply.Voice?)
    ensures "" !in log.history ==> "" !in Recorded(log, conversation, m, reply).history
  {
  }

  /** The handler's own exits only ever log a notice, never the persona's voice. */
  lemma ExitAppends(log: Log, r: Request, exit: Exit, s: Session)
    ensures Appends(History(log, s), History(LogAfter(log, r, exit), s), false)
    ensures "" !in log.history ==> "" !in LogAfter(log, r, exit).history
  {
    var marked := if IsCrisisExit(exit) then Marked(log, r.conversation) else log;
    if NoticeOf(exit).Notice? {
      RecordedAppends(marked, r.conversation, r.message, NoticeOf(exit).reply, s);
    }
  }

  lemma FinishedAppends(st: State, id: nat, x: Findings, s: Session)
    ensures Appends(History(st.log, s), History(Finished(st, id, x).log, s), true)
    ensures "" !in st.log.history ==> "" !in Finished(st, id, x).log.history
  {
    if AwaitsDelivery(st, id) {
      var f := st.inflight[id];
      var (report, adj) := ReportOf(f, x);
      RecordedAppends(st.log, f.conversation, f.message, Voice(report.text), s);
    }
  }

  /** The steps that neither log a turn nor move one. */
  lemma QuietStep(cfg: Config, st: State, step: Step)
    requires !step.Chat? && !step.GeneratorReturns? && !step.TurnFinishes?
    ensures Next(cfg, st, step).log == st.log && Next(cfg, st, step).inflight == st.inflight
  {
  }

  /** Every step leaves a session's log alone or appends one user turn and its reply. */
  lemma NextAppends(cfg: Config, st: State, step: Step, s: Session)
    ensures Appends(History(st.log, s), History(Next(cfg, st, step).log, s), true)
    ensures "" !in st.log.history ==> "" !in Next(cfg, st, step).log.history
  {
    match step
    case Chat(r) => ExitAppends(st.log, r, Decide(cfg, st.profile, st.log, r), s);
    case GeneratorReturns(id, g) =>
    case TurnFinishes(id, x) => FinishedAppends(st, id, x, s);
    case _ => QuietStep(cfg, st, step);
  }

  lemma NextKeepsHistories(cfg: Config, st: State, step: Step)
    requires HistoriesOk(st.log)
    ensures HistoriesOk(Next(cfg, st, step).log)
  {
    var after := Next(cfg, st, step).log;
    NextAppends(cfg, st, step, "");
    forall s | s in after.history
      ensures Alternates(after.history[s])
    {
      NextAppends(cfg, st, step, s);
      AppendKeepsAlternation(History(st.log, s), History(after, s));
    }
  }

  /** In every run every session's log is an even-length alternation of user and persona turns. */
  lemma {:induction false} HistoriesAlternate(cfg: Config, steps: seq<Step>)
    ensures HistoriesOk(Exec(cfg, steps).log)
  {
    if steps != [] {
      var n := |steps| - 1;
      HistoriesAlternate(cfg, steps[..n]);
      NextKeepsHistories(cfg, Exec(cfg, steps[..n]), steps[n]);
    }
  }

  /** Logs only grow along a run. */
  lemma {:induction false} HistoryGrows(cfg: Config, steps: seq<Step>, i: nat, s: Session)
    requires i <= |steps|
    ensures History(Exec(cfg, steps[..i]).log, s) <= History(Exec(cfg, steps).log, s)
  {
    if i == |steps| {
      assert steps[..i] == steps;
    } else {
      var n := |steps| - 1;
      HistoryGrows(cfg, steps[..n], i, s);
      assert steps[..n][..i] == steps[..i];
      NextAppends(cfg, Exec(cfg, steps[..n]), steps[n], s);
    }
  }

  // ---- the dosage cap ---------------------------------------------------------------------------

  predicate CapReached(cfg: Config, log: Log, s: Session) {
    cfg.dosageCap > 0 && TurnCount(History(log, s)) + 1 > cfg.dosageCap
  }

  /** Once a session reached its cap, no later request on it generates, hands off or refuses a topic: past the
      gates, the crisis check and consent it is always paused. */
  lemma DosagePauseIsAbsorbing(cfg: Config, steps: seq<Step>, i: nat, j: nat)
    requires i <= j < |steps| && steps[j].Chat?
    requires CapReached(cfg, Exec(cfg, steps[..i]).log, steps[j].request.conversation)
    ensures var st := Exec(cfg, steps[..j]);
            var exit := Decide(cfg, st.profile, st.log, steps[j].request);
            exit.PauseExit? || exit in {NotAllowed, KillSwitchCrisis, KillSwitchRefused, RampRefused, CoverageCrisis,
                                        CoverageClosed, BadRelationship, UnknownPersona, MainCrisis, NeedsConsent}
  {
    hide KillSwitched, RampBlocked, CoverageBlocked, ValidRelationship, TrendRising, Flags, Risk.Binding;
    var r := steps[j].request;
    var st := Exec(cfg, steps[..j]);
    HistoryGrows(cfg, steps[..j], i, r.conversation);
    assert steps[..j][..i] == steps[..i];
    assert CapReached(cfg, st.log, r.conversation);
    Risk.BindingDecides(Flags(st.profile, SessionOf(r), r.persona), SignalsFor(cfg, st.log, r), cfg.ageTopic(r.message));
  }

  /** Persona-voiced replies in a log. */
  function Voices(h: seq<Turn>): nat {
    if h == [] then 0
    else
      var last := h[|h| - 1];
      Voices(h[..|h| - 1]) + (if last.FromPersona? && last.reply.Voice? then 1 else 0)
  }

  /** Turns of a session that are past the gates and not yet answered. */
  function Active(inflight: map<nat, InFlight>, s: Session): set<nat> {
    set id | id in inflight && inflight[id].conversation == s
  }

  lemma VoicesOfPair(h: seq<Turn>, m: string, reply: Reply)
    ensures Voices(h + [FromUser(m), FromPersona(reply)]) == Voices(h) + if reply.Voice? then 1 else 0
  {
    var one := h + [FromUser(m)];
    assert one[..|h|] == h;
    assert h + [FromUser(m), FromPersona(reply)] == one + [FromPersona(reply)];
    assert (one + [FromPersona(reply)])[..|one|] == one;
  }

  lemma {:induction false} VoicesAtMostPairs(h: seq<Turn>)
    requires Alternates(h)
    ensures 2 * Voices(h) <= |h|
  {
    if h != [] {
      var n := |h| - 2;
      VoicesAtMostPairs(h[..n]);
      assert h == h[..n] + [FromUser(h[n].content), FromPersona(h[n + 1].reply)];
      VoicesOfPair(h[..n], h[n].content, h[n + 1].reply);
    }
  }

  lemma NoticesAreNotVoices(before: seq<Turn>, after: seq<Turn>)
    requires Appends(before, after, false)
    ensures Voices(after) == Voices(before)
  {
    if after != before {
      var m: string, reply: Reply :| !reply.Voice? && after == before + [FromUser(m), FromPersona(reply)];
      VoicesOfPair(before, m, reply);
    }
  }

  lemma InflightActive(inflight: map<nat, InFlight>, id: nat, r: Request, exit: Exit, gentle: bool, s: Session)
    requires id !in inflight
    ensures Active(InflightAfter(inflight, id, r, exit, gentle), s)
            == if exit == Generate && r.conversation == s then Active(inflight, s) + {id} else Active(inflight, s)
  {
  }

  /** Voiced replies already logged on a session, plus those still to come. */
  function Spent(st: State, s: Session): nat {
    Voices(History(st.log, s)) + |Active(st.inflight, s)|
  }

  lemma FinishedSpends(st: State, id: nat, x: Findings, s: Session)
    requires s != ""
    ensures Spent(Finished(st, id, x), s) == Spent(st, s)
  {
    if AwaitsDelivery(st, id) {
      var f := st.inflight[id];
      var (report, adj) := ReportOf(f, x);
      var after := Finished(st, id, x);
      if f.conversation == s {
        assert Active(after.inflight, s) == Active(st.inflight, s) - {id};
        VoicesOfPair(History(st.log, s), f.message, Voice(report.text));
      } else {
        assert Active(after.inflight, s) == Active(st.inflight, s);
      }
    }
  }

  lemma GeneratedSpends(cfg: Config, st: State, id: nat, g: Generation, s: Session)
    ensures Spent(Generated(cfg, st, id, g), s) <= Spent(st, s)
  {
    SubsetCard(Active(Generated(cfg, st, id, g).inflight, s), Active(st.inflight, s));
  }

  lemma SubsetCard<T>(a: set<T>, b: set<T>)
    requires a <= b
    ensures |a| <= |b|
  {
    assert b == a + (b - a);
  }

  /** With at most `k` turns of the session in flight at once, replies and pending replies together stay within
      the cap plus the overlap; a cap of one admits none. */
  predicate WithinCap(cfg: Config, st: State, s: Session, k: nat) {
    cfg.dosageCap > 0 ==> Spent(st, s) <= cfg.dosageCap - 1 + k && (cfg.dosageCap == 1 ==> Spent(st, s) == 0)
  }

  lemma ChatWithinCap(cfg: Config, st: State, r: Request, s: Session, k: nat)
    requires s != "" && HistoriesOk(st.log) && Audit.Ledger(st) && WithinCap(cfg, st, s, k)
    requires |Active(Next(cfg, st, Chat(r)).inflight, s)| <= k
    ensures WithinCap(cfg, Next(cfg, st, Chat(r)), s, k)
  {
    var exit := Decide(cfg, st.profile, st.log, r);
    var after := Next(cfg, st, Chat(r));
    InflightActive(st.inflight, st.meters.received, r, exit, Gentle(cfg, st.profile, st.log, r), s);
    ExitAppends(st.log, r, exit, s);
    NoticesAreNotVoices(History(st.log, s), History(after.log, s));
    if exit == Generate && r.conversation == s && cfg.dosageCap > 0 {
      GenerationLeavesRoom(cfg, st, r);
    }
  }

  /** A session that may still generate has logged fewer pairs than its cap, so fewer voiced replies. */
  lemma GenerationLeavesRoom(cfg: Config, st: State, r: Request)
    requires HistoriesOk(st.log) && cfg.dosageCap > 0 && Decide(cfg, st.profile, st.log, r) == Generate
    ensures Voices(History(st.log, r.conversation)) <= cfg.dosageCap - 1 && cfg.dosageCap > 1
  {
    Safety.GenerateExactlyWhen(cfg, st.profile, st.log, r);
    VoicesAtMostPairs(History(st.log, r.conversation));
  }

  lemma NextWithinCap(cfg: Config, st: State, step: Step, s: Session, k: nat)
    requires s != "" && HistoriesOk(st.log) && Audit.Ledger(st) && WithinCap(cfg, st, s, k)
    requires |Active(Next(cfg, st, step).inflight, s)| <= k
    ensures WithinCap(cfg, Next(cfg, st, step), s, k)
  {
    match step
    case Chat(r) => ChatWithinCap(cfg, st, r, s, k);
    case GeneratorReturns(id, g) => GeneratedSpends(cfg, st, id, g, s);
    case TurnFinishes(id, x) => FinishedSpends(st, id, x, s);
    case _ => QuietStep(cfg, st, step);
  }

  /** In every run with at most `k` overlapping turns on a session, its persona-voiced replies number at most the
      cap plus `k - 1`: with no overlap, at most the cap. */
  lemma {:induction false} RepliesPerSessionBounded(cfg: Config, steps: seq<Step>, s: Session, k: nat)
    requires s != "" && cfg.dosageCap > 0
    requires forall i :: 0 <= i <= |steps| ==> |Active(Exec(cfg, steps[..i]).inflight, s)| <= k
    ensures WithinCap(cfg, Exec(cfg, steps), s, k)
    ensures Voices(History(Exec(cfg, steps).log, s)) <= cfg.dosageCap - 1 + k
    ensures cfg.dosageCap == 1 ==> Voices(History(Exec(cfg, steps).log, s)) == 0
  {
    if steps == [] {
      assert Active(INITIAL.inflight, s) == {};
    } else {
      var n := |steps| - 1;
      forall i | 0 <= i <= n
        ensures |Active(Exec(cfg, steps[..n][..i]).inflight, s)| <= k
      {
        assert steps[..n][..i] == steps[..i];
      }
      RepliesPerSessionBounded(cfg, steps[..n], s, k);
      HistoriesAlternate(cfg, steps[..n]);
      Audit.AuditConservation(cfg, steps[..n]);
      assert steps[..|steps|] == steps;
      NextWithinCap(cfg, Exec(cfg, steps[..n]), steps[n], s, k);
    }
  }

  /** Why overlap matters: starting a turn changes nothing the gates look at, so every request that arrives while
      it is still being generated takes the exit it would have taken before. */
  lemma OverlappingRequestsSeeTheSameGates(cfg: Config, st: State, first: Request, second: Request)
    requires Decide(cfg, st.profile, st.log, first) == Generate
    ensures var after := Next(cfg, st, Chat(first));
            Decide(cfg, after.profile, after.log, second) == Decide(cfg, st.profile, st.log, second)
  {
  }

  // ---- the distress window ------------------------------------------------------------------------

  lemma UserMessagesAppend(h: seq<Turn>, t: Turn)
    ensures UserMessages(h + [t]) == if t.FromUser? then UserMessages(h) + [t.content] else UserMessages(h)
  {
    assert (h + [t])[..|h|] == h;
  }

  lemma LastPairShape(h: seq<Turn>)
    requires Alternates(h) && h != []
    ensures |h| >= 2 && h[|h| - 2].FromUser? && h[|h| - 1].FromPersona? && Alternates(h[..|h| - 2])
  {
  }

  /** A pair of turns contributes its first entry. */
  lemma UserMessagesOfPair(h: seq<Turn>)
    requires |h| >= 2 && h[|h| - 2].FromUser? && h[|h| - 1].FromPersona?
    ensures UserMessages(h) == UserMessages(h[..|h| - 2]) + [h[|h| - 2].content]
  {
    var n := |h| - 2;
    var front := h[..n];
    UserMessagesAppend(front, h[n]);
    UserMessagesAppend(front + [h[n]], h[n + 1]);
    assert h == (front + [h[n]]) + [h[n + 1]];
  }

  function Bit(b: bool): nat { if b then 1 else 0 }

  /** The trend fires exactly when at least two of the last three user messages, the current one included,
      grade as distress. */
  lemma TrendIsTwoOfTheLastThree(cfg: Config, h: seq<Turn>, message: string)
    requires Alternates(h)
    ensures var n := |h|;
            TrendRising(cfg, h, message) <==>
              Bit(cfg.isDistress(message))
              + (if n >= 2 then Bit(cfg.isDistress(h[n - 2].content)) else 0)
              + (if n >= 4 then Bit(cfg.isDistress(h[n - 4].content)) else 0) >= 2
  {
    var u := UserMessages(h);
    CountAppend(cfg, LastTwo(u), message);
    assert CountDistress(cfg, []) == 0;
    if |h| >= 2 {
      LastPairShape(h);
      UserMessagesOfPair(h);
      var k := |h| - 2;
      if k == 0 {
        assert LastTwo(u) == [] + [h[0].content];
        CountAppend(cfg, [], h[0].content);
      } else {
        LastPairShape(h[..k]);
        UserMessagesOfPair(h[..k]);
        assert h[..k][..k - 2] == h[..k - 2];
        var a, b := h[k - 2].content, h[k].content;
        assert LastTwo(u) == ([] + [a]) + [b];
        CountAppend(cfg, [] + [a], b);
        CountAppend(cfg, [], a);
      }
    }
  }

  lemma CountAppend(cfg: Config, w: seq<string>, m: string)
    ensures CountDistress(cfg, w + [m]) == CountDistress(cfg, w) + Bit(cfg.isDistress(m))
  {
    assert (w + [m])[..|w|] == w;
  }
}
