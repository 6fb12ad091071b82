/** The dosage bound is reached: runs in which the overlapping turns of one session go past the cap. */
module ChatOverlap {
  import opened ChatModel
  import opened ChatDosage
  import Safety = ChatSafety
  import Gate = RealUserGate
  import Coverage
  import Align = Alignment
  import opened Text

  /** A request every gate lets through, on a named session, that neither is in crisis nor in distress. */
  predicate Admitted(cfg: Config, r: Request) {
    && r.conversation != "" && Safety.LetIn(cfg, r) && Safety.KnownRelationship(r.relationship) && r.persona in cfg.registered
    && !cfg.isCrisis(r.message) && !cfg.isDistress(r.message)
  }

  const GROUNDED := Findings([], "", false, Align.Unavailable)

  // ---- the run --------------------------------------------------------------------------------------

  /** Acknowledge consent, then so many turns one after the other. */
  function Sequential(r: Request, n: nat): seq<Step> {
    if n == 0 then [AcknowledgeConsent(r.persona, r.persona, r.conversation)]
    else ((Sequential(r, n - 1) + [Chat(r)]) + [GeneratorReturns(n - 1, Reply(""))]) + [TurnFinishes(n - 1, GROUNDED)]
  }

  /** Then so many requests before any of them is answered. */
  function Started(r: Request, n: nat, j: nat): seq<Step> {
    if j == 0 then Sequential(r, n) else Started(r, n, j - 1) + [Chat(r)]
  }

  /** Then the answers, of the k started, to the first j. */
  function Answered(r: Request, n: nat, k: nat, j: nat): seq<Step> {
    if j == 0 then Started(r, n, k)
    else (Answered(r, n, k, j - 1) + [GeneratorReturns(n + j - 1, Reply(""))]) + [TurnFinishes(n + j - 1, GROUNDED)]
  }

  // ---- the state along it -----------------------------------------------------------------------------

  function Pairs(r: Request, n: nat): seq<Turn> {
    if n == 0 then [] else Pairs(r, n - 1) + [FromUser(r.message), FromPersona(Voice(""))]
  }

  /** The turn in flight under any id. */
  function Waiting(r: Request, id: nat): InFlight {
    InFlight(r.persona, r.conversation, r.conversation, r.message, false, Generating)
  }

  function Open(r: Request, lo: nat, hi: nat): map<nat, InFlight> {
    map id: nat | lo <= id < hi :: Waiting(r, id)
  }

  /** So many turns answered, the ones from `lo` up to `hi` waiting for the generator, `received` in all. */
  predicate Stands(st: State, r: Request, pairs: nat, lo: nat, hi: nat, received: nat) {
    && st.profile == Profile({(r.conversation, r.persona)}, map[], map[])
    && History(st.log, r.conversation) == Pairs(r, pairs) && st.log.crisisMarks == {}
    && st.inflight == Open(r, lo, hi)
    && st.meters.received == received
  }

  lemma {:induction false} PairsAre(r: Request, n: nat)
    ensures |Pairs(r, n)| == 2 * n && Alternates(Pairs(r, n)) && Voices(Pairs(r, n)) == n
    ensures forall i :: 0 <= i < |Pairs(r, n)| && Pairs(r, n)[i].FromUser? ==> Pairs(r, n)[i].content == r.message
  {
    if n > 0 {
      PairsAre(r, n - 1);
      VoicesOfPair(Pairs(r, n - 1), r.message, Voice(""));
    }
  }

  lemma NoTrend(cfg: Config, r: Request, n: nat)
    requires !cfg.isDistress(r.message)
    ensures !TrendRising(cfg, Pairs(r, n), r.message)
  {
    PairsAre(r, n);
    TrendIsTwoOfTheLastThree(cfg, Pairs(r, n), r.message);
  }

  /** Below the cap an admitted request reaches the generator. */
  lemma StillGenerates(cfg: Config, st: State, r: Request, pairs: nat, lo: nat, hi: nat, received: nat)
    requires Admitted(cfg, r) && Stands(st, r, pairs, lo, hi, received) && 2 <= cfg.dosageCap && pairs < cfg.dosageCap
    ensures Decide(cfg, st.profile, st.log, r) == Generate
  {
    hide Safety.LetIn, Safety.KnownRelationship, TrendRising, Pairs, Decide;
    PairsAre(r, pairs);
    NoTrend(cfg, r, pairs);
    assert Flags(st.profile, r.conversation, r.persona) == {};
    Safety.GenerateExactlyWhen(cfg, st.profile, st.log, r);
  }

  /** With no flags, no distress and no crisis on record nothing calls for a gentle reply. */
  lemma NothingTightens(cfg: Config, st: State, r: Request, pairs: nat, lo: nat, hi: nat, received: nat)
    requires Admitted(cfg, r) && Stands(st, r, pairs, lo, hi, received)
    ensures !Gentle(cfg, st.profile, st.log, r)
  {
    hide Safety.LetIn, Safety.KnownRelationship, TrendRising, Pairs;
    PairsAre(r, pairs);
    NoTrend(cfg, r, pairs);
    assert Flags(st.profile, r.conversation, r.persona) == {};
    assert !SignalsFor(cfg, st.log, r).crisisHistory;
  }

  lemma StartStands(cfg: Config, st: State, r: Request, pairs: nat, lo: nat, hi: nat)
    requires Admitted(cfg, r) && lo <= hi && Stands(st, r, pairs, lo, hi, hi) && 2 <= cfg.dosageCap && pairs < cfg.dosageCap
    ensures Stands(Next(cfg, st, Chat(r)), r, pairs, lo, hi + 1, hi + 1)
  {
    hide Decide, Pairs, Admitted, Gentle;
    StillGenerates(cfg, st, r, pairs, lo, hi, hi);
    NothingTightens(cfg, st, r, pairs, lo, hi, hi);
    assert r.conversation != "" by {
      NamedSession(cfg, r);
    }
    assert st.inflight[hi := Waiting(r, hi)] == Open(r, lo, hi + 1);
  }

  lemma NamedSession(cfg: Config, r: Request)
    requires Admitted(cfg, r)
    ensures r.conversation != ""
  {
  }

  /** The generator's return and the delivery of one turn. */
  function Turned(cfg: Config, st: State, id: nat): State {
    Next(cfg, Next(cfg, st, GeneratorReturns(id, Reply(""))), TurnFinishes(id, GROUNDED))
  }

  lemma AnswerStands(cfg: Config, st: State, r: Request, pairs: nat, lo: nat, hi: nat, received: nat)
    requires r.conversation != "" && lo < hi && Stands(st, r, pairs, lo, hi, received)
    ensures Stands(Turned(cfg, st, lo), r, pairs + 1, lo + 1, hi, received)
  {
    hide Pairs;
    var mid := Next(cfg, st, GeneratorReturns(lo, Reply("")));
    var f := InFlight(r.persona, r.conversation, r.conversation, r.message, false, Metered("", false));
    assert mid.inflight == st.inflight[lo := f] && AwaitsDelivery(mid, lo);
    assert ReportOf(f, GROUNDED).0 == Align.Report("", [], Align.Passed);
    var after := Next(cfg, mid, TurnFinishes(lo, GROUNDED));
    assert after.inflight == mid.inflight - {lo};
    assert after.inflight == Open(r, lo + 1, hi);
    assert after.log == Recorded(mid.log, r.conversation, r.message, Voice(""));
    PairsNext(r, pairs);
  }

  lemma PairsNext(r: Request, n: nat)
    ensures Pairs(r, n + 1) == Pairs(r, n) + [FromUser(r.message), FromPersona(Voice(""))]
  {
  }

  // ---- along the run ------------------------------------------------------------------------------------

  /** At no point of the run are more than k turns of the session in flight. */
  ghost predicate OverlapAtMost(cfg: Config, steps: seq<Step>, s: Session, k: nat) {
    forall i :: 0 <= i <= |steps| ==> |Active(Exec(cfg, steps[..i]).inflight, s)| <= k
  }

  lemma OverlapSnoc(cfg: Config, steps: seq<Step>, step: Step, s: Session, k: nat)
    requires OverlapAtMost(cfg, steps, s, k) && |Active(Exec(cfg, steps + [step]).inflight, s)| <= k
    ensures OverlapAtMost(cfg, steps + [step], s, k)
  {
    hide Exec, Active;
    var all := steps + [step];
    forall i | 0 <= i <= |all|
      ensures |Active(Exec(cfg, all[..i]).inflight, s)| <= k
    {
      if i <= |steps| {
        assert all[..i] == steps[..i];
      } else {
        assert all[..i] == all;
      }
    }
  }

  lemma OpenSize(r: Request, lo: nat, hi: nat)
    requires lo <= hi
    ensures |Active(Open(r, lo, hi), r.conversation)| == hi - lo
    decreases hi
  {
    if lo == hi {
      assert Active(Open(r, lo, hi), r.conversation) == {};
    } else {
      OpenSize(r, lo, hi - 1);
      assert Active(Open(r, lo, hi), r.conversation) == Active(Open(r, lo, hi - 1), r.conversation) + {hi - 1};
    }
  }

  /** Metering a reply keeps the turn in flight. */
  lemma MeteringKeepsActive(cfg: Config, st: State, id: nat, s: Session)
    ensures Active(Next(cfg, st, GeneratorReturns(id, Reply(""))).inflight, s) == Active(st.inflight, s)
  {
  }

  lemma StartAlong(cfg: Config, steps: seq<Step>, r: Request, pairs: nat, lo: nat, hi: nat, k: nat)
    requires Admitted(cfg, r) && lo <= hi < lo + k && 2 <= cfg.dosageCap && pairs < cfg.dosageCap
    requires Stands(Exec(cfg, steps), r, pairs, lo, hi, hi) && OverlapAtMost(cfg, steps, r.conversation, k)
    ensures Stands(Exec(cfg, steps + [Chat(r)]), r, pairs, lo, hi + 1, hi + 1)
    ensures OverlapAtMost(cfg, steps + [Chat(r)], r.conversation, k)
  {
    hide Admitted, Pairs, Exec, Next, OverlapAtMost, Open, Active;
    ExecSnoc(cfg, steps, Chat(r));
    StartStands(cfg, Exec(cfg, steps), r, pairs, lo, hi);
    OpenSize(r, lo, hi + 1);
    OverlapSnoc(cfg, steps, Chat(r), r.conversation, k);
  }

  lemma AnswerAlong(cfg: Config, steps: seq<Step>, r: Request, pairs: nat, lo: nat, hi: nat, received: nat, k: nat)
    requires r.conversation != "" && lo < hi <= lo + k
    requires Stands(Exec(cfg, steps), r, pairs, lo, hi, received) && OverlapAtMost(cfg, steps, r.conversation, k)
    ensures var all := (steps + [GeneratorReturns(lo, Reply(""))]) + [TurnFinishes(lo, GROUNDED)];
            Stands(Exec(cfg, all), r, pairs + 1, lo + 1, hi, received) && OverlapAtMost(cfg, all, r.conversation, k)
  {
    hide Pairs, Exec, Next, OverlapAtMost, Open, Active;
    var one := steps + [GeneratorReturns(lo, Reply(""))];
    ExecSnoc(cfg, steps, GeneratorReturns(lo, Reply("")));
    ExecSnoc(cfg, one, TurnFinishes(lo, GROUNDED));
    AnswerStands(cfg, Exec(cfg, steps), r, pairs, lo, hi, received);
    MeteringKeepsActive(cfg, Exec(cfg, steps), lo, r.conversation);
    OpenSize(r, lo, hi);
    OpenSize(r, lo + 1, hi);
    OverlapSnoc(cfg, steps, GeneratorReturns(lo, Reply("")), r.conversation, k);
    OverlapSnoc(cfg, one, TurnFinishes(lo, GROUNDED), r.conversation, k);
  }

  lemma AcknowledgedStands(cfg: Config, r: Request, k: nat)
    requires Admitted(cfg, r)
    ensures Stands(Exec(cfg, Sequential(r, 0)), r, 0, 0, 0, 0) && OverlapAtMost(cfg, Sequential(r, 0), r.conversation, k)
  {
    hide Safety.KnownRelationship, Active;
    var ack := AcknowledgeConsent(r.persona, r.persona, r.conversation);
    assert [ack] == [] + [ack];
    assert Exec(cfg, []) == INITIAL;
    ExecSnoc(cfg, [], ack);
    assert Open(r, 0, 0) == map[];
    OpenSize(r, 0, 0);
    OverlapSnoc(cfg, [], ack, r.conversation, k);
  }

  lemma {:induction false} SequentialStands(cfg: Config, r: Request, n: nat, k: nat)
    requires Admitted(cfg, r) && 2 <= cfg.dosageCap && n <= cfg.dosageCap && k >= 1
    ensures Stands(Exec(cfg, Sequential(r, n)), r, n, n, n, n) && OverlapAtMost(cfg, Sequential(r, n), r.conversation, k)
  {
    hide Admitted, Pairs, Exec, OverlapAtMost, Stands;
    if n == 0 {
      AcknowledgedStands(cfg, r, k);
    } else {
      SequentialStands(cfg, r, n - 1, k);
      NamedSession(cfg, r);
      StartAlong(cfg, Sequential(r, n - 1), r, n - 1, n - 1, n - 1, k);
      AnswerAlong(cfg, Sequential(r, n - 1) + [Chat(r)], r, n - 1, n - 1, n, n, k);
    }
  }

  lemma {:induction false} StartedStands(cfg: Config, r: Request, n: nat, j: nat, k: nat)
    requires Admitted(cfg, r) && 2 <= cfg.dosageCap && n < cfg.dosageCap && j <= k && k >= 1
    ensures Stands(Exec(cfg, Started(r, n, j)), r, n, n, n + j, n + j) && OverlapAtMost(cfg, Started(r, n, j), r.conversation, k)
  {
    hide Admitted, Pairs, Exec, OverlapAtMost, Stands, Sequential;
    if j == 0 {
      SequentialStands(cfg, r, n, k);
    } else {
      StartedStands(cfg, r, n, j - 1, k);
      StartAlong(cfg, Started(r, n, j - 1), r, n, n, n + j - 1, k);
    }
  }

  lemma {:induction false} AnsweredStands(cfg: Config, r: Request, n: nat, k: nat, j: nat)
    requires Admitted(cfg, r) && 2 <= cfg.dosageCap && n < cfg.dosageCap && j <= k && k >= 1
    ensures Stands(Exec(cfg, Answered(r, n, k, j)), r, n + j, n + j, n + k, n + k)
    ensures OverlapAtMost(cfg, Answered(r, n, k, j), r.conversation, k)
  {
    hide Admitted, Pairs, Exec, OverlapAtMost, Stands, Started;
    if j == 0 {
      StartedStands(cfg, r, n, k, k);
    } else {
      AnsweredStands(cfg, r, n, k, j - 1);
      NamedSession(cfg, r);
      AnswerAlong(cfg, Answered(r, n, k, j - 1), r, n + j - 1, n + j - 1, n + k, n + k, k);
    }
  }

  // ---- the bound is exact -----------------------------------------------------------------------------------

  function Replies(cfg: Config, steps: seq<Step>, s: Session): nat {
    Voices(History(Exec(cfg, steps).log, s))
  }

  /** For every cap of at least two and every overlap of at least one, some run with no more overlap than that gives
      exactly as many replies as the bound allows: cap - 1 turns in turn, then the rest all at once. */
  lemma OverlapReachesTheBound(cfg: Config, r: Request, k: nat)
    requires Admitted(cfg, r) && 2 <= cfg.dosageCap && k >= 1
    ensures exists steps :: OverlapAtMost(cfg, steps, r.conversation, k)
                            && Replies(cfg, steps, r.conversation) == cfg.dosageCap - 1 + k
  {
    hide Admitted, Exec, OverlapAtMost, Pairs;
    var n := cfg.dosageCap - 1;
    var steps := Answered(r, n, k, k);
    AnsweredStands(cfg, r, n, k, k);
    PairsAre(r, n + k);
    assert Replies(cfg, steps, r.conversation) == n + k;
  }

  /** A session stays within its cap in every run if and only if its turns do not overlap. */
  lemma CapHoldsExactlyWithoutOverlap(cfg: Config, r: Request, k: nat)
    requires Admitted(cfg, r) && 2 <= cfg.dosageCap
    ensures (forall steps | OverlapAtMost(cfg, steps, r.conversation, k) :: Replies(cfg, steps, r.conversation) <= cfg.dosageCap)
            <==> k <= 1
  {
    hide Exec, Admitted, Active;
    NamedSession(cfg, r);
    if k <= 1 {
      forall steps | OverlapAtMost(cfg, steps, r.conversation, k)
        ensures Replies(cfg, steps, r.conversation) <= cfg.dosageCap
      {
        RepliesPerSessionBounded(cfg, steps, r.conversation, k);
      }
    } else {
      OverlapReachesTheBound(cfg, r, k);
    }
  }

  // ---- one such service -----------------------------------------------------------------------------------

  function Never(message: string): bool {
    false
  }

  /** A service with a dosage cap that serves internal traffic of one persona. */
  function Capped(cap: int): Config {
    Config("", "", {}, "", Coverage.Always, 1, Coverage.Always, 900, cap, {"p"}, Never, Never, Never, Never, "")
  }

  const INTERNAL := Request("p", "p", Gate.Value("internal"), "hello", "s", "", "", Coverage.LocalTime(1, 0), Coverage.LocalTime(1, 0), 0, false)

  lemma InternalSays()
    ensures Safety.SaysInternal(INTERNAL)
  {
    StripTrimmed("internal");
    assert Lower("internal") == "internal";
  }

  lemma InternalIsAdmitted(cap: int)
    ensures Admitted(Capped(cap), INTERNAL)
  {
    InternalSays();
  }

  /** Cap two: acknowledge, one whole turn, then two turns at once give three replies. */
  lemma ThreeRepliesUnderACapOfTwo()
    ensures Replies(Capped(2), Answered(INTERNAL, 1, 2, 2), "s") == 3
    ensures |Answered(INTERNAL, 1, 2, 2)| == 10
  {
    hide Exec, Admitted, Pairs, OverlapAtMost;
    InternalIsAdmitted(2);
    AnsweredStands(Capped(2), INTERNAL, 1, 2, 2);
    PairsAre(INTERNAL, 3);
  }
}
