/** The enforcement matrix: risk flags and session signals to one binding action. */
module Risk {

  datatype Flag = LossOfChild | MinorDecedent | RecentLoss | NonAcceptance | ProxyUser
  datatype Action = Continue | Tighten | Reframe | RefuseTopic | Handoff | PauseSession

  /** turnCount already includes the turn about to be served; cap is None when the setting is not positive. */
  datatype Cap = NoCap | CapAt(turns: int)
  datatype Signals = Signals(turnCount: int, cap: Cap, distressRising: bool, crisisHistory: bool)

  function FlagActions(flag: Flag, ageTopic: bool): set<Action> {
    match flag
    case LossOfChild => {Tighten, Reframe}
    case MinorDecedent => if ageTopic then {Tighten, RefuseTopic} else {Tighten}
    case RecentLoss => {Tighten}
    case NonAcceptance => {Reframe}
    case ProxyUser => {PauseSession}
  }

  predicate OverCap(s: Signals) {
    s.cap.CapAt? && s.turnCount > s.cap.turns
  }

  function SignalActions(s: Signals): set<Action> {
    (if OverCap(s) then {PauseSession} else {})
    + (if s.distressRising then {Tighten, Handoff} else {})
    + (if s.crisisHistory then {Tighten} else {})
  }

  function Required(flags: set<Flag>, s: Signals, ageTopic: bool): set<Action> {
    var fromFlags := set f, a | f in flags && a in FlagActions(f, ageTopic) :: a;
    var all := fromFlags + SignalActions(s);
    if all == {} then {Continue} else all
  }

  const PRECEDENCE: seq<Action> := [PauseSession, Handoff, RefuseTopic, Reframe, Tighten, Continue]

  function BindingFrom(actions: set<Action>, i: nat): Action
    requires i <= |PRECEDENCE|
    decreases |PRECEDENCE| - i
  {
    if i == |PRECEDENCE| then Continue
    else if PRECEDENCE[i] in actions then PRECEDENCE[i]
    else BindingFrom(actions, i + 1)
  }

  function Binding(flags: set<Flag>, s: Signals, ageTopic: bool): Action {
    BindingFrom(Required(flags, s, ageTopic), 0)
  }

  /** Which clinical fact binds the turn: identity or dosage pauses first, rising distress hands off next,
      an age-inappropriate topic on a minor is refused last, and nothing else stops generation. */
  lemma BindingDecides(flags: set<Flag>, s: Signals, ageTopic: bool)
    ensures var b := Binding(flags, s, ageTopic);
            && (b == PauseSession <==> ProxyUser in flags || (s.cap.CapAt? && s.turnCount > s.cap.turns))
            && (b == Handoff <==> b != PauseSession && s.distressRising)
            && (b == RefuseTopic <==> b !in {PauseSession, Handoff} && MinorDecedent in flags && ageTopic)
            && (b == Reframe <==> b !in {PauseSession, Handoff, RefuseTopic} && (LossOfChild in flags || NonAcceptance in flags))
            && (b == Continue <==> flags == {} && !(s.cap.CapAt? && s.turnCount > s.cap.turns) && !s.distressRising && !s.crisisHistory)
  {
    TightenExactly(flags, s, ageTopic);
    var r := Required(flags, s, ageTopic);
    var fromFlags := set f, a | f in flags && a in FlagActions(f, ageTopic) :: a;
    RequiredFlags(flags, ageTopic, fromFlags);
    BindingIsMostRestrictive(r);
    if flags != {} {
      var f :| f in flags;
      var a :| a in FlagActions(f, ageTopic);
      assert a in fromFlags;
    }
  }

  lemma RequiredFlags(flags: set<Flag>, ageTopic: bool, fromFlags: set<Action>)
    requires fromFlags == set f, a | f in flags && a in FlagActions(f, ageTopic) :: a
    ensures PauseSession in fromFlags <==> ProxyUser in flags
    ensures Handoff !in fromFlags && Continue !in fromFlags
    ensures RefuseTopic in fromFlags <==> MinorDecedent in flags && ageTopic
    ensures Reframe in fromFlags <==> LossOfChild in flags || NonAcceptance in flags
  {
    if LossOfChild in flags {
      assert Reframe in FlagActions(LossOfChild, ageTopic);
    }
    if NonAcceptance in flags {
      assert Reframe in FlagActions(NonAcceptance, ageTopic);
    }
    if ProxyUser in flags {
      assert PauseSession in FlagActions(ProxyUser, ageTopic);
    }
    if MinorDecedent in flags && ageTopic {
      assert RefuseTopic in FlagActions(MinorDecedent, ageTopic);
    }
  }

  /** A turn is tightened exactly for a loss of a child, a recent loss, a minor, rising distress or an earlier crisis. */
  lemma TightenExactly(flags: set<Flag>, s: Signals, ageTopic: bool)
    ensures Tighten in Required(flags, s, ageTopic)
            <==> LossOfChild in flags || MinorDecedent in flags || RecentLoss in flags || s.distressRising || s.crisisHistory
  {
    if LossOfChild in flags {
      assert Tighten in FlagActions(LossOfChild, ageTopic);
    }
    if MinorDecedent in flags {
      assert Tighten in FlagActions(MinorDecedent, ageTopic);
    }
    if RecentLoss in flags {
      assert Tighten in FlagActions(RecentLoss, ageTopic);
    }
  }

  /** The binding action is required, and every action before it in the precedence list is not. */
  lemma {:induction false} BindingIsMostRestrictive(actions: set<Action>)
    requires actions != {}
    ensures BindingFrom(actions, 0) in actions
    ensures forall i, j :: 0 <= i < j < |PRECEDENCE| && PRECEDENCE[j] == BindingFrom(actions, 0) ==> PRECEDENCE[i] !in actions
  {
    var a :| a in actions;
    assert exists k :: 0 <= k < |PRECEDENCE| && PRECEDENCE[k] == a by {
      assert PRECEDENCE[0] == PauseSession && PRECEDENCE[1] == Handoff && PRECEDENCE[2] == RefuseTopic
             && PRECEDENCE[3] == Reframe && PRECEDENCE[4] == Tighten && PRECEDENCE[5] == Continue;
    }
    BindingScan(actions, 0);
  }

  lemma {:induction false} BindingScan(actions: set<Action>, from: nat)
    requires from <= |PRECEDENCE|
    ensures (exists k :: from <= k < |PRECEDENCE| && PRECEDENCE[k] in actions) ==>
              exists j :: from <= j < |PRECEDENCE| && PRECEDENCE[j] == BindingFrom(actions, from) && PRECEDENCE[j] in actions
                          && forall i :: from <= i < j ==> PRECEDENCE[i] !in actions
    decreases |PRECEDENCE| - from
  {
    if from < |PRECEDENCE| && PRECEDENCE[from] !in actions {
      BindingScan(actions, from + 1);
    }
  }
}
