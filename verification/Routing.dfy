/** Routing a quarantined memory by its most urgent flag. */
module Routing {
  import opened Text

  datatype Reviewer = SafetyAgent | ClinicalAdvisor | HumanFamily | SeniorAgent | BatchReviewer
  datatype Priority = Critical | High | Medium | Low
  datatype Rule = Rule(flag: string, to: Reviewer, priority: Priority)
  datatype Decision = Decision(reviewer: Reviewer, priority: Priority, reasons: seq<string>)

  /** A value looked up in the candidate's data: no such key, a null, or something written as text. */
  datatype Field = NoKey | NullValue | Value(text: string)

  /** What the router reads of the candidate. */
  datatype Candidate = Candidate(safetyReason: Field, disclosureConflict: bool, scoreBelowFloor: bool, tierPromotion: string)
  datatype Entry = Entry(gates: seq<string>, candidate: Candidate)

  const DEFAULT_TABLE := [
    Rule("safety", SafetyAgent, Critical),
    Rule("disclosure_sensitive", ClinicalAdvisor, Critical),
    Rule("tier_promotion", HumanFamily, High),
    Rule("potential_hallucination", SeniorAgent, High),
    Rule("immutability_conflict", SeniorAgent, High),
    Rule("low_pertinence", BatchReviewer, Low)
  ]

  function Rank(p: Priority): nat {
    match p
    case Critical => 0
    case High => 1
    case Medium => 2
    case Low => 3
  }

  /** Critical goes before all others, high before medium and low, medium before low. */
  predicate MoreUrgent(p: Priority, q: Priority) {
    (p == Critical && q != Critical) || (p == High && q in {Medium, Low}) || (p == Medium && q == Low)
  }

  // ---- flags ----------------------------------------------------------------------------------------

  type Flags = map<string, Field>

  /** One failed gate's flag. */
  function Raise(flags: Flags, gate: string, c: Candidate): Flags {
    if gate == "safety" then flags["safety" := if c.safetyReason.NoKey? then Value("ambiguous_safety") else c.safetyReason]
    else if gate == "immutability" then
      if c.disclosureConflict then flags["disclosure_sensitive" := Value("disclosure conflict detected")]
      else flags["immutability_conflict" := Value("canonical conflict detected")]
    else if gate == "novelty" then flags["potential_hallucination" := Value("novelty gate ambiguous")]
    else if gate == "pertinence" then
      if c.scoreBelowFloor then flags["low_pertinence" := Value("low pertinence score")]
      else flags["potential_hallucination" := Value("pertinence gate ambiguous")]
    else flags
  }

  function RaiseAll(gates: seq<string>, c: Candidate): Flags {
    if gates == [] then map[] else Raise(RaiseAll(gates[..|gates| - 1], c), Lower(gates[|gates| - 1]), c)
  }

  function FlagMap(e: Entry): Flags {
    var flags := RaiseAll(e.gates, e.candidate);
    if e.candidate.tierPromotion == "" then flags else flags["tier_promotion" := Value(e.candidate.tierPromotion)]
  }

  /** A rule matches a flag that is raised with a value other than null. */
  predicate Matches(flags: Flags, r: Rule) {
    r.flag in flags && flags[r.flag].Value?
  }

  /** The same, read off the set of gate names: order, repeats and letter case play no part. */
  predicate FlagRaised(gates: set<string>, c: Candidate, flag: string) {
    || (flag == "safety" && "safety" in gates && c.safetyReason != NullValue)
    || (flag == "disclosure_sensitive" && "immutability" in gates && c.disclosureConflict)
    || (flag == "immutability_conflict" && "immutability" in gates && !c.disclosureConflict)
    || (flag == "potential_hallucination" && ("novelty" in gates || ("pertinence" in gates && !c.scoreBelowFloor)))
    || (flag == "low_pertinence" && "pertinence" in gates && c.scoreBelowFloor)
    || (flag == "tier_promotion" && c.tierPromotion != "")
  }

  function Gates(gates: seq<string>): set<string> {
    set i | 0 <= i < |gates| :: Lower(gates[i])
  }

  lemma GatesSnoc(gates: seq<string>, gate: string)
    ensures Gates(gates + [gate]) == Gates(gates) + {Lower(gate)}
  {
    var all := gates + [gate];
    forall g
      ensures g in Gates(all) <==> g in Gates(gates) || g == Lower(gate)
    {
      if g in Gates(gates) {
        var i :| 0 <= i < |gates| && Lower(gates[i]) == g;
        assert all[i] == gates[i];
      }
      assert all[|gates|] == gate;
    }
  }

  predicate GateRaised(gates: set<string>, c: Candidate, flag: string) {
    flag != "tier_promotion" && FlagRaised(gates, c, flag)
  }

  lemma {:induction false} RaisedByGates(gates: seq<string>, c: Candidate, flag: string)
    ensures flag in RaiseAll(gates, c) && RaiseAll(gates, c)[flag].Value? <==> GateRaised(Gates(gates), c, flag)
    ensures flag in RaiseAll(gates, c) && !RaiseAll(gates, c)[flag].Value? ==> flag == "safety"
  {
    if gates != [] {
      var n := |gates| - 1;
      RaisedByGates(gates[..n], c, flag);
      assert gates == gates[..n] + [gates[n]];
      GatesSnoc(gates[..n], gates[n]);
      OneGate(RaiseAll(gates[..n], c), Gates(gates[..n]), Lower(gates[n]), c, flag);
    }
  }

  lemma OneGate(flags: Flags, gates: set<string>, gate: string, c: Candidate, flag: string)
    requires flag in flags && flags[flag].Value? <==> GateRaised(gates, c, flag)
    requires flag in flags && !flags[flag].Value? ==> flag == "safety"
    ensures var next := Raise(flags, gate, c);
            && (flag in next && next[flag].Value? <==> GateRaised(gates + {gate}, c, flag))
            && (flag in next && !next[flag].Value? ==> flag == "safety")
  {
    if gate == "safety" {
      SafetyGate(flags, gates, gate, c, flag);
    } else if gate == "pertinence" {
      PertinenceGate(flags, gates, gate, c, flag);
    } else {
      OtherGate(flags, gates, gate, c, flag);
    }
  }

  lemma SafetyGate(flags: Flags, gates: set<string>, gate: string, c: Candidate, flag: string)
    requires gate == "safety"
    requires flag in flags && flags[flag].Value? <==> GateRaised(gates, c, flag)
    requires flag in flags && !flags[flag].Value? ==> flag == "safety"
    ensures var next := Raise(flags, gate, c);
            && (flag in next && next[flag].Value? <==> GateRaised(gates + {gate}, c, flag))
            && (flag in next && !next[flag].Value? ==> flag == "safety")
  {
    assert forall g :: g in gates + {gate} <==> g in gates || g == gate;
  }

  lemma PertinenceGate(flags: Flags, gates: set<string>, gate: string, c: Candidate, flag: string)
    requires gate == "pertinence"
    requires flag in flags && flags[flag].Value? <==> GateRaised(gates, c, flag)
    requires flag in flags && !flags[flag].Value? ==> flag == "safety"
    ensures var next := Raise(flags, gate, c);
            && (flag in next && next[flag].Value? <==> GateRaised(gates + {gate}, c, flag))
            && (flag in next && !next[flag].Value? ==> flag == "safety")
  {
    assert forall g :: g in gates + {gate} <==> g in gates || g == gate;
  }

  lemma OtherGate(flags: Flags, gates: set<string>, gate: string, c: Candidate, flag: string)
    requires gate != "safety" && gate != "pertinence"
    requires flag in flags && flags[flag].Value? <==> GateRaised(gates, c, flag)
    requires flag in flags && !flags[flag].Value? ==> flag == "safety"
    ensures var next := Raise(flags, gate, c);
            && (flag in next && next[flag].Value? <==> GateRaised(gates + {gate}, c, flag))
            && (flag in next && !next[flag].Value? ==> flag == "safety")
  {
    assert forall g :: g in gates + {gate} <==> g in gates || g == gate;
  }

  lemma MatchesByGates(e: Entry, r: Rule)
    ensures Matches(FlagMap(e), r) <==> FlagRaised(Gates(e.gates), e.candidate, r.flag)
  {
    hide RaiseAll, Gates;
    RaisedByGates(e.gates, e.candidate, r.flag);
  }

  // ---- decisions --------------------------------------------------------------------------------------

  function DecisionOf(r: Rule, flags: Flags): Decision
    requires Matches(flags, r)
  {
    Decision(r.to, r.priority, [flags[r.flag].text])
  }

  function Evaluate(table: seq<Rule>, flags: Flags): seq<Decision> {
    if table == [] then []
    else
      var last := table[|table| - 1];
      var front := Evaluate(table[..|table| - 1], flags);
      if Matches(flags, last) then front + [DecisionOf(last, flags)] else front
  }

  function WithFallback(decisions: seq<Decision>, e: Entry): seq<Decision> {
    if decisions == [] && e.gates != [] then [Decision(BatchReviewer, Medium, e.gates)] else decisions
  }

  function Best(decisions: seq<Decision>): Decision
    requires decisions != []
  {
    var last := decisions[|decisions| - 1];
    if |decisions| == 1 then last
    else
      var best := Best(decisions[..|decisions| - 1]);
      if Rank(last.priority) < Rank(best.priority) || (last.priority == best.priority && |last.reasons| > |best.reasons|)
      then last else best
  }

  function Pick(decisions: seq<Decision>): Decision {
    if decisions == [] then Decision(BatchReviewer, Low, ["no matching rule — default to batch"]) else Best(decisions)
  }

  function RouteBy(table: seq<Rule>, e: Entry): Decision {
    Pick(WithFallback(Evaluate(table, FlagMap(e)), e))
  }

  class ReviewerRouter {
    var table: seq<Rule>

    /** No table, or an empty one, means the default table. */
    constructor (table: seq<Rule>)
      ensures this.table == if table == [] then DEFAULT_TABLE else table
    {
      this.table := if table == [] then DEFAULT_TABLE else table;
    }

    method AddRule(rule: Rule)
      modifies this
      ensures table == old(table) + [rule]
    {
      table := table + [rule];
    }

    method BuildFlagMap(e: Entry) returns (flags: Flags)
      ensures flags == FlagMap(e)
    {
      flags := map[];
      for i := 0 to |e.gates|
        invariant flags == RaiseAll(e.gates[..i], e.candidate)
      {
        assert e.gates[..i + 1][..i] == e.gates[..i];
        var gate := Lower(e.gates[i]);
        var c := e.candidate;
        if gate == "safety" {
          flags := flags["safety" := if c.safetyReason.NoKey? then Value("ambiguous_safety") else c.safetyReason];
        } else if gate == "immutability" {
          if c.disclosureConflict {
            flags := flags["disclosure_sensitive" := Value("disclosure conflict detected")];
          } else {
            flags := flags["immutability_conflict" := Value("canonical conflict detected")];
          }
        } else if gate == "novelty" {
          flags := flags["potential_hallucination" := Value("novelty gate ambiguous")];
        } else if gate == "pertinence" {
          if c.scoreBelowFloor {
            flags := flags["low_pertinence" := Value("low pertinence score")];
          } else {
            flags := flags["potential_hallucination" := Value("pertinence gate ambiguous")];
          }
        }
      }
      assert e.gates[..|e.gates|] == e.gates;
      if e.candidate.tierPromotion != "" {
        flags := flags["tier_promotion" := Value(e.candidate.tierPromotion)];
      }
    }

    method EvaluateRules(e: Entry, flags: Flags) returns (decisions: seq<Decision>)
      ensures decisions == WithFallback(Evaluate(table, flags), e)
    {
      decisions := [];
      for i := 0 to |table|
        invariant decisions == Evaluate(table[..i], flags)
      {
        assert table[..i + 1][..i] == table[..i];
        var rule := table[i];
        if rule.flag in flags && flags[rule.flag].Value? {
          decisions := decisions + [Decision(rule.to, rule.priority, [flags[rule.flag].text])];
        }
      }
      assert table[..|table|] == table;
      if decisions == [] && e.gates != [] {
        decisions := [Decision(BatchReviewer, Medium, e.gates)];
      }
    }

    method PickHighestPriority(decisions: seq<Decision>) returns (best: Decision)
      ensures best == Pick(decisions)
    {
      if decisions == [] {
        return Decision(BatchReviewer, Low, ["no matching rule — default to batch"]);
      }
      best := decisions[0];
      for i := 1 to |decisions|
        invariant best == Best(decisions[..i])
      {
        assert decisions[..i + 1][..i] == decisions[..i];
        var d := decisions[i];
        if Rank(d.priority) < Rank(best.priority) || (d.priority == best.priority && |d.reasons| > |best.reasons|) {
          best := d;
        }
      }
      assert decisions[..|decisions|] == decisions;
    }

    method Route(e: Entry) returns (d: Decision)
      ensures d == RouteBy(table, e)
    {
      var flags := BuildFlagMap(e);
      var decisions := EvaluateRules(e, flags);
      d := PickHighestPriority(decisions);
    }
  }

  /** Ahead of another: more urgent, or as urgent with more reasons. */
  predicate Ahead(a: Decision, b: Decision) {
    MoreUrgent(a.priority, b.priority) || (a.priority == b.priority && |a.reasons| > |b.reasons|)
  }

  /** Of any decisions the one picked has none ahead of it, and is ahead of every one before it. */
  lemma {:induction false} BestIsTheFirstBest(decisions: seq<Decision>) returns (i: nat)
    requires decisions != []
    ensures i < |decisions| && Best(decisions) == decisions[i]
    ensures forall j | 0 <= j < |decisions| :: !Ahead(decisions[j], decisions[i])
    ensures forall j | 0 <= j < i :: Ahead(decisions[i], decisions[j])
  {
    var n := |decisions| - 1;
    if n == 0 {
      i := 0;
    } else {
      var k := BestIsTheFirstBest(decisions[..n]);
      i := if Ahead(decisions[n], decisions[k]) then n else k;
    }
  }

  // ---- what a routing means -----------------------------------------------------------------------------

  /** The rule a decision was made by: it matches, no matching rule is more urgent, and of equally urgent ones it is
      the earliest. */
  predicate Decides(table: seq<Rule>, flags: Flags, i: nat) {
    && i < |table| && Matches(flags, table[i])
    && (forall j | 0 <= j < |table| && Matches(flags, table[j]) ::
          !MoreUrgent(table[j].priority, table[i].priority) && (j < i ==> MoreUrgent(table[i].priority, table[j].priority)))
  }

  /** By this rule: its addressee, its priority, and for its reason the flag's text. */
  predicate MadeBy(d: Decision, r: Rule, flags: Flags) {
    Matches(flags, r) && d.reviewer == r.to && d.priority == r.priority && d.reasons == [flags[r.flag].text]
  }

  lemma {:induction false} EvaluateEmpty(table: seq<Rule>, flags: Flags)
    ensures Evaluate(table, flags) == [] <==> forall j | 0 <= j < |table| :: !Matches(flags, table[j])
  {
    hide Matches;
    if table != [] {
      var n := |table| - 1;
      EvaluateEmpty(table[..n], flags);
      assert Evaluate(table, flags) == [] <==> Evaluate(table[..n], flags) == [] && !Matches(flags, table[n]);
    }
  }

  lemma {:induction false} EachHasOneReason(table: seq<Rule>, flags: Flags)
    ensures forall i :: 0 <= i < |Evaluate(table, flags)| ==> |Evaluate(table, flags)[i].reasons| == 1
  {
    hide Matches;
    if table != [] {
      EachHasOneReason(table[..|table| - 1], flags);
    }
  }

  lemma {:induction false} BestIsOneOf(decisions: seq<Decision>)
    requires decisions != []
    ensures Best(decisions) in decisions
  {
    if |decisions| > 1 {
      BestIsOneOf(decisions[..|decisions| - 1]);
    }
  }

  /** Some rule matching, the entry goes to the most urgent matching rule, the earliest on ties. */
  lemma {:induction false} MostUrgentRuleDecides(table: seq<Rule>, flags: Flags) returns (i: nat)
    requires Evaluate(table, flags) != []
    ensures Decides(table, flags, i) && MadeBy(Best(Evaluate(table, flags)), table[i], flags)
  {
    hide Matches, Decides, MadeBy, Evaluate, Best;
    var n := |table| - 1;
    NotEmpty(table, flags);
    assert table == table[..n] + [table[n]];
    if Evaluate(table[..n], flags) == [] {
      i := n;
      FirstMatch(table[..n], table[n], flags);
    } else {
      var k := MostUrgentRuleDecides(table[..n], flags);
      i := OneMoreRule(table[..n], table[n], flags, k);
    }
  }

  lemma NotEmpty(table: seq<Rule>, flags: Flags)
    requires Evaluate(table, flags) != []
    ensures table != []
  {
  }

  lemma FirstMatch(front: seq<Rule>, r: Rule, flags: Flags)
    requires Evaluate(front, flags) == [] && Evaluate(front + [r], flags) != []
    ensures Decides(front + [r], flags, |front|) && MadeBy(Best(Evaluate(front + [r], flags)), r, flags)
  {
    hide Matches, Evaluate;
    EvaluateEmpty(front, flags);
    EvaluateSnoc(front, r, flags);
    assert Matches(flags, r);
    assert [] + [DecisionOf(r, flags)] == [DecisionOf(r, flags)];
    assert forall j | 0 <= j < |front| :: (front + [r])[j] == front[j];
  }

  lemma OneMoreRule(front: seq<Rule>, r: Rule, flags: Flags, k: nat) returns (i: nat)
    requires Evaluate(front, flags) != []
    requires Decides(front, flags, k) && MadeBy(Best(Evaluate(front, flags)), front[k], flags)
    ensures Decides(front + [r], flags, i) && MadeBy(Best(Evaluate(front + [r], flags)), (front + [r])[i], flags)
  {
    hide Matches, Evaluate, Best;
    var was := Evaluate(front, flags);
    EvaluateSnoc(front, r, flags);
    i := k;
    if Matches(flags, r) {
      EachHasOneReason(front, flags);
      BestIsOneOf(was);
      BestSnoc(was, DecisionOf(r, flags));
      if Rank(r.priority) < Rank(Best(was).priority) {
        i := |front|;
      }
    }
    assert forall j | 0 <= j < |front| :: (front + [r])[j] == front[j];
  }

  lemma BestSnoc(was: seq<Decision>, d: Decision)
    requires was != [] && |d.reasons| == 1 && |Best(was).reasons| == 1
    ensures Best(was + [d]) == if Rank(d.priority) < Rank(Best(was).priority) then d else Best(was)
  {
    assert (was + [d])[..|was|] == was;
  }

  /** Every routing: by the most urgent matching rule; when none matches, to batch review, at medium priority if
      some gate failed and at low priority otherwise. */
  lemma RoutingMeans(table: seq<Rule>, e: Entry)
    ensures var flags := FlagMap(e); var d := RouteBy(table, e);
            if exists i: nat :: Decides(table, flags, i) then exists i: nat :: Decides(table, flags, i) && MadeBy(d, table[i], flags)
            else d == if e.gates != [] then Decision(BatchReviewer, Medium, e.gates)
                      else Decision(BatchReviewer, Low, ["no matching rule — default to batch"])
  {
    hide Matches, FlagMap;
    var flags := FlagMap(e);
    EvaluateEmpty(table, flags);
    if Evaluate(table, flags) != [] {
      var i := MostUrgentRuleDecides(table, flags);
    } else if e.gates != [] {
      assert WithFallback([], e) == [Decision(BatchReviewer, Medium, e.gates)];
    }
  }

  /** Some failed gate has this name, case aside. */
  predicate Fails(e: Entry, gate: string) {
    exists i | 0 <= i < |e.gates| :: Lower(e.gates[i]) == gate
  }

  lemma FailsIsGates(e: Entry, gate: string)
    ensures Fails(e, gate) <==> gate in Gates(e.gates)
  {
  }

  /** Reviewer and priority are unchanged by permuting, repeating or re-casing the failed gates. */
  lemma OnlyTheSetOfGatesMatters(table: seq<Rule>, a: Entry, b: Entry)
    requires a.candidate == b.candidate && forall g :: Fails(a, g) <==> Fails(b, g)
    ensures RouteBy(table, a).reviewer == RouteBy(table, b).reviewer && RouteBy(table, a).priority == RouteBy(table, b).priority
  {
    forall g
      ensures g in Gates(a.gates) <==> g in Gates(b.gates)
    {
      FailsIsGates(a, g);
      FailsIsGates(b, g);
    }
    assert Gates(a.gates) == Gates(b.gates);
    hide Matches, FlagMap, FlagRaised, Gates;
    forall r
      ensures Matches(FlagMap(a), r) <==> Matches(FlagMap(b), r)
    {
      MatchesByGates(a, r);
      MatchesByGates(b, r);
    }
    NoGates(a.gates);
    NoGates(b.gates);
    EvaluateEmpty(table, FlagMap(a));
    EvaluateEmpty(table, FlagMap(b));
    if Evaluate(table, FlagMap(a)) != [] {
      var i := MostUrgentRuleDecides(table, FlagMap(a));
      var j := MostUrgentRuleDecides(table, FlagMap(b));
      assert i == j;
    }
  }

  lemma NoGates(gates: seq<string>)
    ensures Gates(gates) == {} <==> gates == []
  {
    if gates != [] {
      assert Lower(gates[0]) in Gates(gates);
    }
  }

  lemma EvaluateSnoc(table: seq<Rule>, r: Rule, flags: Flags)
    ensures Evaluate(table + [r], flags)
            == if Matches(flags, r) then Evaluate(table, flags) + [DecisionOf(r, flags)] else Evaluate(table, flags)
  {
    assert (table + [r])[..|table|] == table;
  }

  /** Appending a rule to a table that already matched the entry never makes its routing less urgent; it changes only
      if the new rule matches and is strictly more urgent. */
  lemma AppendingNeverLowersAMatch(table: seq<Rule>, r: Rule, e: Entry)
    requires Evaluate(table, FlagMap(e)) != []
    ensures var was, now := RouteBy(table, e), RouteBy(table + [r], e);
            && !MoreUrgent(was.priority, now.priority)
            && (now != was ==> Matches(FlagMap(e), r) && MoreUrgent(r.priority, was.priority))
  {
    hide Matches, FlagMap, Evaluate;
    var flags := FlagMap(e);
    var old1 := Evaluate(table, flags);
    EvaluateSnoc(table, r, flags);
    if Matches(flags, r) {
      var all := Evaluate(table + [r], flags);
      assert all[..|all| - 1] == old1;
      EachHasOneReason(table, flags);
      BestIsOneOf(old1);
    }
  }

  /** An entry no rule matched is on the fallback, and there an appended rule can demote it: exactly when it matches
      and its own priority is low. */
  lemma AppendingCanDemoteAFallback(table: seq<Rule>, r: Rule, e: Entry)
    requires Evaluate(table, FlagMap(e)) == [] && e.gates != []
    ensures MoreUrgent(RouteBy(table, e).priority, RouteBy(table + [r], e).priority)
            <==> Matches(FlagMap(e), r) && r.priority == Low
  {
    hide Matches, FlagMap, Evaluate;
    var flags := FlagMap(e);
    EvaluateSnoc(table, r, flags);
    assert RouteBy(table, e) == Best([Decision(BatchReviewer, Medium, e.gates)]);
    if Matches(flags, r) {
      assert RouteBy(table + [r], e) == Best([DecisionOf(r, flags)]);
    }
  }

  /** On the default table no appended rule ever demotes: it has a rule for every flag, so an entry that none of its
      rules matches raises no flag at all. */
  lemma DefaultTableIsComplete(e: Entry, r: Rule)
    requires Evaluate(DEFAULT_TABLE, FlagMap(e)) == []
    ensures !Matches(FlagMap(e), r) && RouteBy(DEFAULT_TABLE + [r], e) == RouteBy(DEFAULT_TABLE, e)
  {
    hide Evaluate, FlagMap, Gates;
    EvaluateEmpty(DEFAULT_TABLE, FlagMap(e));
    EvaluateSnoc(DEFAULT_TABLE, r, FlagMap(e));
    MatchesByGates(e, r);
    if FlagRaised(Gates(e.gates), e.candidate, r.flag) {
      var i := DefaultRuleFor(r.flag);
      MatchesByGates(e, DEFAULT_TABLE[i]);
      assert false;
    }
  }

  /** What a flag says that a failed gate raised. */
  predicate Says(flags: Flags, c: Candidate, flag: string) {
    flag in flags ==>
      && (flag == "safety" ==> flags[flag] == if c.safetyReason == NoKey then Value("ambiguous_safety") else c.safetyReason)
      && (flag == "disclosure_sensitive" ==> flags[flag] == Value("disclosure conflict detected"))
      && (flag == "immutability_conflict" ==> flags[flag] == Value("canonical conflict detected"))
      && (flag == "low_pertinence" ==> flags[flag] == Value("low pertinence score"))
      && (flag == "potential_hallucination" ==> flags[flag] in {Value("novelty gate ambiguous"), Value("pertinence gate ambiguous")})
  }

  lemma {:induction false} TextOfGates(gates: seq<string>, c: Candidate, flag: string)
    ensures Says(RaiseAll(gates, c), c, flag)
  {
    hide Says, Raise;
    if gates == [] {
      NothingSaid(c, flag);
    } else {
      TextOfGates(gates[..|gates| - 1], c, flag);
      TextOfOne(RaiseAll(gates[..|gates| - 1], c), Lower(gates[|gates| - 1]), c, flag);
    }
  }

  lemma NothingSaid(c: Candidate, flag: string)
    ensures Says(map[], c, flag)
  {
  }

  lemma TextOfOne(flags: Flags, gate: string, c: Candidate, flag: string)
    requires Says(flags, c, flag)
    ensures Says(Raise(flags, gate, c), c, flag)
  {
    hide Raise;
    if gate == "immutability" {
      TextOfImmutability(flags, c, flag);
    } else if gate == "pertinence" {
      TextOfPertinence(flags, c, flag);
    } else {
      TextOfOther(flags, gate, c, flag);
    }
  }

  lemma TextOfImmutability(flags: Flags, c: Candidate, flag: string)
    requires Says(flags, c, flag)
    ensures Says(Raise(flags, "immutability", c), c, flag)
  {
  }

  lemma TextOfPertinence(flags: Flags, c: Candidate, flag: string)
    requires Says(flags, c, flag)
    ensures Says(Raise(flags, "pertinence", c), c, flag)
  {
  }

  lemma TextOfOther(flags: Flags, gate: string, c: Candidate, flag: string)
    requires Says(flags, c, flag) && gate != "immutability" && gate != "pertinence"
    ensures Says(Raise(flags, gate, c), c, flag)
  {
  }

  /** Which of the default table's rules match an entry. */
  predicate Safety(e: Entry) { Fails(e, "safety") && e.candidate.safetyReason != NullValue }
  predicate Disclosure(e: Entry) { Fails(e, "immutability") && e.candidate.disclosureConflict }
  predicate Promotion(e: Entry) { e.candidate.tierPromotion != "" }
  predicate Doubt(e: Entry) { Fails(e, "novelty") || (Fails(e, "pertinence") && !e.candidate.scoreBelowFloor) }
  predicate Conflict(e: Entry) { Fails(e, "immutability") && !e.candidate.disclosureConflict }
  predicate Trifle(e: Entry) { Fails(e, "pertinence") && e.candidate.scoreBelowFloor }

  lemma DefaultMatches(e: Entry)
    ensures var flags := FlagMap(e);
            && (Matches(flags, DEFAULT_TABLE[0]) <==> Safety(e)) && (Matches(flags, DEFAULT_TABLE[1]) <==> Disclosure(e))
            && (Matches(flags, DEFAULT_TABLE[2]) <==> Promotion(e)) && (Matches(flags, DEFAULT_TABLE[3]) <==> Doubt(e))
            && (Matches(flags, DEFAULT_TABLE[4]) <==> Conflict(e)) && (Matches(flags, DEFAULT_TABLE[5]) <==> Trifle(e))
  {
    hide FlagMap, Matches, Gates, Fails;
    forall g
      ensures Fails(e, g) <==> g in Gates(e.gates)
    {
      FailsIsGates(e, g);
    }
    MatchesByGates(e, DEFAULT_TABLE[0]);
    MatchesByGates(e, DEFAULT_TABLE[1]);
    MatchesByGates(e, DEFAULT_TABLE[2]);
    MatchesByGates(e, DEFAULT_TABLE[3]);
    MatchesByGates(e, DEFAULT_TABLE[4]);
    MatchesByGates(e, DEFAULT_TABLE[5]);
  }

  lemma DefaultTexts(e: Entry)
    ensures var c := e.candidate; var flags := FlagMap(e);
            && Says(flags, c, "safety") && Says(flags, c, "disclosure_sensitive") && Says(flags, c, "immutability_conflict")
            && Says(flags, c, "low_pertinence") && Says(flags, c, "potential_hallucination")
    ensures Promotion(e) ==> "tier_promotion" in FlagMap(e) && FlagMap(e)["tier_promotion"] == Value(e.candidate.tierPromotion)
  {
    hide RaiseAll;
    TextOfGates(e.gates, e.candidate, "safety");
    TextOfGates(e.gates, e.candidate, "disclosure_sensitive");
    TextOfGates(e.gates, e.candidate, "immutability_conflict");
    TextOfGates(e.gates, e.candidate, "low_pertinence");
    TextOfGates(e.gates, e.candidate, "potential_hallucination");
  }

  /** Where every entry goes on the default table: to the safety agent, the clinical advisor or the family, in this order;
      then doubts and conflicts to a senior agent; and only what is left to batch review, where a low score waits longest. */
  lemma DefaultRouting(e: Entry)
    ensures var d := RouteBy(DEFAULT_TABLE, e); var c := e.candidate;
            if Safety(e) then
              d == Decision(SafetyAgent, Critical, [match c.safetyReason case Value(text) => text case _ => "ambiguous_safety"])
            else if Disclosure(e) then d == Decision(ClinicalAdvisor, Critical, ["disclosure conflict detected"])
            else if Promotion(e) then d == Decision(HumanFamily, High, [c.tierPromotion])
            else if Doubt(e) then
              d == Decision(SeniorAgent, High, ["novelty gate ambiguous"]) || d == Decision(SeniorAgent, High, ["pertinence gate ambiguous"])
            else if Conflict(e) then d == Decision(SeniorAgent, High, ["canonical conflict detected"])
            else if Trifle(e) then d == Decision(BatchReviewer, Low, ["low pertinence score"])
            else if e.gates != [] then d == Decision(BatchReviewer, Medium, e.gates)
            else d == Decision(BatchReviewer, Low, ["no matching rule — default to batch"])
  {
    hide FlagMap, Evaluate, Fails, Best;
    var flags := FlagMap(e);
    DefaultMatches(e);
    DefaultTexts(e);
    EvaluateEmpty(DEFAULT_TABLE, flags);
    if Evaluate(DEFAULT_TABLE, flags) != [] {
      var i := MostUrgentRuleDecides(DEFAULT_TABLE, flags);
      hide Safety, Disclosure, Promotion, Doubt, Conflict, Trifle;
      DefaultDecides(e, i);
    } else {
      OneFallback(e);
    }
  }

  lemma OneFallback(e: Entry)
    ensures Best([Decision(BatchReviewer, Medium, e.gates)]) == Decision(BatchReviewer, Medium, e.gates)
  {
  }

  /** Of the rules that match, the first in the table is always among the most urgent. */
  lemma DefaultDecides(e: Entry, i: nat)
    requires Decides(DEFAULT_TABLE, FlagMap(e), i)
    ensures forall j | 0 <= j < i :: !Matches(FlagMap(e), DEFAULT_TABLE[j])
  {
    hide Matches, FlagMap;
  }

  lemma DefaultRuleFor(flag: string) returns (i: nat)
    requires flag in {"safety", "disclosure_sensitive", "tier_promotion", "potential_hallucination", "immutability_conflict", "low_pertinence"}
    ensures i < |DEFAULT_TABLE| && DEFAULT_TABLE[i].flag == flag
  {
    i := if flag == "safety" then 0 else if flag == "disclosure_sensitive" then 1 else if flag == "tier_promotion" then 2
         else if flag == "potential_hallucination" then 3 else if flag == "immutability_conflict" then 4 else 5;
  }

  /** On a table of one's own it can: a failed pertinence gate with a low score goes to batch review at medium priority,
      and at low priority once a rule for it is appended. */
  lemma DemotedEntry()
    ensures var table := [Rule("safety", SafetyAgent, Critical)];
            var e := Entry(["pertinence"], Candidate(NoKey, false, true, ""));
            && RouteBy(table, e).priority == Medium
            && RouteBy(table + [Rule("low_pertinence", BatchReviewer, Low)], e).priority == Low
  {
    hide Evaluate, FlagMap, Gates;
    var table := [Rule("safety", SafetyAgent, Critical)];
    var rule := Rule("low_pertinence", BatchReviewer, Low);
    var e := Entry(["pertinence"], Candidate(NoKey, false, true, ""));
    PertinenceAlone(e.gates);
    MatchesByGates(e, table[0]);
    MatchesByGates(e, rule);
    EvaluateEmpty(table, FlagMap(e));
    EvaluateSnoc(table, rule, FlagMap(e));
    assert RouteBy(table, e) == Best([Decision(BatchReviewer, Medium, e.gates)]);
    assert [] + [DecisionOf(rule, FlagMap(e))] == [DecisionOf(rule, FlagMap(e))];
    assert RouteBy(table + [rule], e) == Best([DecisionOf(rule, FlagMap(e))]);
  }

  lemma PertinenceAlone(gates: seq<string>)
    requires gates == ["pertinence"]
    ensures Gates(gates) == {"pertinence"}
  {
    assert Lower("pertinence") == "pertinence";
    assert forall g :: g in Gates(gates) <==> g == Lower(gates[0]);
  }
}
