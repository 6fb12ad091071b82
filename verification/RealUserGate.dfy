/** The ramp gate and the hard kill switch for real-user traffic. */
module RealUserGate {
  import opened Text

  datatype Mode = Off | Canary | Open
  datatype TrafficClass = Real | Internal

  /** Both parsers work on the trimmed, lower-cased text; None stands for an absent value. */
  function Canonical(raw: string): string {
    Lower(Strip(raw))
  }

  function ParseMode(raw: string): Mode {
    if raw == "" then Off
    else match Canonical(raw)
         case "canary" => Canary
         case "open" => Open
         case _ => Off
  }

  datatype Header = Absent | Value(text: string)

  function ParseTrafficClass(header: Header): TrafficClass {
    if header.Value? && header.text != "" && Canonical(header.text) == "internal" then Internal else Real
  }

  function ParseTrafficSwitch(raw: string): bool {
    raw != "" && Canonical(raw) in {"on", "true", "1", "yes"}
  }

  predicate IsRefused<Id(==)>(mode: Mode, traffic: TrafficClass, persona: Id, allowlist: set<Id>) {
    if traffic == Internal then false
    else if mode == Open then false
    else if mode == Canary then persona !in allowlist
    else true
  }

  /** How far a mode has opened the ramp. */
  function Stage(mode: Mode): nat {
    match mode case Off => 0 case Canary => 1 case Open => 2
  }

  /** Opening the ramp further, or widening the allowlist, never refuses a turn it admitted before. */
  lemma RefusalIsMonotone<Id(!new)>(m1: Mode, m2: Mode, a1: set<Id>, a2: set<Id>)
    ensures (Stage(m1) <= Stage(m2) && a1 <= a2) ==>
              forall t: TrafficClass, p: Id :: IsRefused(m2, t, p, a2) ==> IsRefused(m1, t, p, a1)
  {
  }

  /** Every setting reads the same however it is padded or cased, so only the letters matter. */
  lemma ParsingIgnoresPaddingAndCase(left: string, s: string, right: string, t: string)
    requires AllSpace(left) && AllSpace(right) && CaseAside(s, t)
    ensures ParseMode(left + s + right) == ParseMode(t)
    ensures ParseTrafficClass(Value(left + s + right)) == ParseTrafficClass(Value(t))
    ensures ParseTrafficSwitch(left + s + right) == ParseTrafficSwitch(t)
  {
    StripIgnoresPadding(left, s, right);
    LowerForgetsCase(s, t);
    LowerStripCommute(s);
    LowerStripCommute(t);
    assert Canonical(left + s + right) == Canonical(t);
    assert Canonical("") == "";
  }
}
