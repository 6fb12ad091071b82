/** The risk flags a run ends with: what the last intake of a persona found, and which sessions a proxy user paused. */
module ChatIntake {
  import opened ChatModel
  import Safety = ChatSafety
  import Risk

  /** Step i is an intake that is let through: the caller's own registered persona, on a session that acknowledged. */
  predicate Accepted(cfg: Config, steps: seq<Step>, i: nat)
    requires i < |steps|
  {
    && steps[i].RecordIntake? && steps[i].intakePersona == steps[i].intakeKey && steps[i].intakePersona in cfg.registered
    && (steps[i].intakeSession, steps[i].intakePersona) in Exec(cfg, steps[..i]).profile.consent
  }

  /** What an intake finds about the persona itself: the derived flags, and the two the user reports. */
  function Found(step: Step): set<Risk.Flag>
    requires step.RecordIntake?
  {
    step.derived + (if step.assessment.lossOfChild then {Risk.LossOfChild} else {})
    + (if step.assessment.nonAcceptance then {Risk.NonAcceptance} else {})
  }

  /** The last accepted intake of the persona is step i. */
  predicate LastIntake(cfg: Config, steps: seq<Step>, persona: Persona, i: nat)
    requires i < |steps|
  {
    && Accepted(cfg, steps, i) && steps[i].intakePersona == persona
    && forall j | i < j < |steps| :: !(Accepted(cfg, steps, j) && steps[j].intakePersona == persona)
  }

  predicate NoIntake(cfg: Config, steps: seq<Step>, persona: Persona) {
    forall j | 0 <= j < |steps| :: !(Accepted(cfg, steps, j) && steps[j].intakePersona == persona)
  }

  /** Some accepted intake on exactly this session and persona reported a proxy user. */
  predicate ProxyReported(cfg: Config, steps: seq<Step>, session: Session, persona: Persona) {
    exists j | 0 <= j < |steps| ::
      Accepted(cfg, steps, j) && steps[j].intakeSession == session && steps[j].intakePersona == persona
      && steps[j].assessment.proxyUser
  }

  // ---- one step ---------------------------------------------------------------------------------------

  function PersonaFlags(p: Profile, persona: Persona): set<Risk.Flag> {
    if persona in p.personaFlags then p.personaFlags[persona] else {}
  }

  function SessionFlags(p: Profile, session: Session, persona: Persona): set<Risk.Flag> {
    if (session, persona) in p.sessionFlags then p.sessionFlags[(session, persona)] else {}
  }

  lemma OtherStepsKeepFlags(cfg: Config, st: State, step: Step)
    requires !step.RecordIntake?
    ensures Next(cfg, st, step).profile.personaFlags == st.profile.personaFlags
    ensures Next(cfg, st, step).profile.sessionFlags == st.profile.sessionFlags
  {
    if step.TurnFinishes? {
      Safety.FinishKeepsProfile(st, step.id, step.findings);
    }
  }

  lemma FlagStep(cfg: Config, steps: seq<Step>, step: Step, session: Session, persona: Persona)
    ensures var all := steps + [step];
            var was, now := Exec(cfg, steps).profile, Exec(cfg, all).profile;
            var hit := Accepted(cfg, all, |steps|) && step.intakePersona == persona;
            && PersonaFlags(now, persona) == (if hit then Found(step) else PersonaFlags(was, persona))
            && SessionFlags(now, session, persona)
               == if hit && step.intakeSession == session && step.assessment.proxyUser then {Risk.ProxyUser}
                  else SessionFlags(was, session, persona)
  {
    hide Exec;
    var all := steps + [step];
    ExecSnoc(cfg, steps, step);
    assert all[..|steps|] == steps && all[|steps|] == step;
    if !step.RecordIntake? {
      OtherStepsKeepFlags(cfg, Exec(cfg, steps), step);
    }
  }

  lemma AcceptedEarlier(cfg: Config, steps: seq<Step>, step: Step, i: nat)
    requires i < |steps|
    ensures Accepted(cfg, steps + [step], i) <==> Accepted(cfg, steps, i)
  {
    hide Exec;
    assert (steps + [step])[..i] == steps[..i];
  }

  // ---- whole runs ---------------------------------------------------------------------------------------

  lemma LastIntakeStep(cfg: Config, steps: seq<Step>, step: Step, persona: Persona, i: nat)
    requires i < |steps| && LastIntake(cfg, steps + [step], persona, i)
    ensures LastIntake(cfg, steps, persona, i)
    ensures !(Accepted(cfg, steps + [step], |steps|) && step.intakePersona == persona)
  {
    hide Accepted;
    var all := steps + [step];
    forall j | i <= j < |steps|
      ensures (Accepted(cfg, all, j) <==> Accepted(cfg, steps, j)) && all[j] == steps[j]
    {
      AcceptedEarlier(cfg, steps, step, j);
    }
    assert all[|steps|] == step;
  }

  /** After the last accepted intake of a persona, its flags are what that intake found, in every session. */
  lemma {:induction false} LastIntakeDecides(cfg: Config, steps: seq<Step>, persona: Persona, i: nat)
    requires i < |steps| && LastIntake(cfg, steps, persona, i)
    ensures PersonaFlags(Exec(cfg, steps).profile, persona) == Found(steps[i])
  {
    hide Accepted, LastIntake, Exec, Found, PersonaFlags;
    var n := |steps| - 1;
    assert steps == steps[..n] + [steps[n]];
    FlagStep(cfg, steps[..n], steps[n], "", persona);
    if i < n {
      LastIntakeStep(cfg, steps[..n], steps[n], persona, i);
      LastIntakeDecides(cfg, steps[..n], persona, i);
    } else {
      LastIsAccepted(cfg, steps, persona, i);
    }
  }

  lemma LastIsAccepted(cfg: Config, steps: seq<Step>, persona: Persona, i: nat)
    requires i < |steps| && LastIntake(cfg, steps, persona, i)
    ensures Accepted(cfg, steps, i) && steps[i].RecordIntake? && steps[i].intakePersona == persona
  {
  }

  lemma {:induction false} NoIntakeNoFlags(cfg: Config, steps: seq<Step>, persona: Persona)
    requires NoIntake(cfg, steps, persona)
    ensures PersonaFlags(Exec(cfg, steps).profile, persona) == {}
  {
    hide Accepted, Found;
    if steps != [] {
      var n := |steps| - 1;
      assert steps == steps[..n] + [steps[n]];
      forall j | 0 <= j < n
        ensures Accepted(cfg, steps[..n], j) <==> Accepted(cfg, steps, j)
      {
        AcceptedEarlier(cfg, steps[..n], steps[n], j);
      }
      NoIntakeNoFlags(cfg, steps[..n], persona);
      FlagStep(cfg, steps[..n], steps[n], "", persona);
    }
  }

  lemma ProxyStep(cfg: Config, steps: seq<Step>, step: Step, session: Session, persona: Persona)
    ensures ProxyReported(cfg, steps + [step], session, persona) <==>
              ProxyReported(cfg, steps, session, persona)
              || (Accepted(cfg, steps + [step], |steps|) && step.intakeSession == session && step.intakePersona == persona
                  && step.assessment.proxyUser)
  {
    hide Exec;
    var all := steps + [step];
    assert all[|steps|] == step;
    forall j | 0 <= j < |steps|
      ensures (Accepted(cfg, all, j) <==> Accepted(cfg, steps, j)) && all[j] == steps[j]
    {
      AcceptedEarlier(cfg, steps, step, j);
    }
  }

  /** A session carries the proxy flag exactly when an accepted intake on it reported one: no later intake clears it,
      and no other session sets it. */
  lemma {:induction false} ProxyStays(cfg: Config, steps: seq<Step>, session: Session, persona: Persona)
    ensures SessionFlags(Exec(cfg, steps).profile, session, persona)
            == if ProxyReported(cfg, steps, session, persona) then {Risk.ProxyUser} else {}
  {
    hide Accepted, Exec, ProxyReported;
    if steps == [] {
      NothingReported(cfg, session, persona);
    } else {
      var n := |steps| - 1;
      assert steps == steps[..n] + [steps[n]];
      ProxyStays(cfg, steps[..n], session, persona);
      FlagStep(cfg, steps[..n], steps[n], session, persona);
      ProxyStep(cfg, steps[..n], steps[n], session, persona);
    }
  }

  lemma NothingReported(cfg: Config, session: Session, persona: Persona)
    ensures !ProxyReported(cfg, [], session, persona) && Exec(cfg, []) == INITIAL
  {
  }

  /** In every run the flags a turn is judged by are what the persona's last accepted intake found, and the proxy flag
      exactly when some accepted intake on this very session reported it. */
  lemma FlagsOfARun(cfg: Config, steps: seq<Step>, session: Session, persona: Persona)
    ensures var flags := Flags(Exec(cfg, steps).profile, session, persona);
            var proxy := if ProxyReported(cfg, steps, session, persona) then {Risk.ProxyUser} else {};
            && (NoIntake(cfg, steps, persona) ==> flags == proxy)
            && (forall i: nat | i < |steps| && LastIntake(cfg, steps, persona, i) :: flags == Found(steps[i]) + proxy)
            && (NoIntake(cfg, steps, persona) || exists i: nat :: i < |steps| && LastIntake(cfg, steps, persona, i))
  {
    hide Accepted, Exec, ProxyReported, LastIntake, NoIntake, Found;
    ProxyStays(cfg, steps, session, persona);
    if NoIntake(cfg, steps, persona) {
      NoIntakeNoFlags(cfg, steps, persona);
    } else if forall i: nat | i < |steps| :: !LastIntake(cfg, steps, persona, i) {
      NoLastNoIntake(cfg, steps, persona, |steps|);
    }
    forall i: nat | i < |steps| && LastIntake(cfg, steps, persona, i)
      ensures steps[i].RecordIntake? && PersonaFlags(Exec(cfg, steps).profile, persona) == Found(steps[i])
    {
      LastIsAccepted(cfg, steps, persona, i);
      LastIntakeDecides(cfg, steps, persona, i);
    }
  }

  /** Searching back from a place after which there is no intake: where no step is the last one, there is none at all. */
  lemma {:induction false} NoLastNoIntake(cfg: Config, steps: seq<Step>, persona: Persona, n: nat)
    requires n <= |steps| && forall i: nat | i < |steps| :: !LastIntake(cfg, steps, persona, i)
    requires forall j | n <= j < |steps| :: !(Accepted(cfg, steps, j) && steps[j].intakePersona == persona)
    ensures NoIntake(cfg, steps, persona)
  {
    hide Exec;
    if n > 0 {
      assert !LastIntake(cfg, steps, persona, n - 1);
      NoLastNoIntake(cfg, steps, persona, n - 1);
    }
  }

  /** So a proxy pause lasts: once an accepted intake reported a proxy, every later request on that session that is past
      the gates, the crisis check and consent is paused. */
  lemma ProxyPauseLasts(cfg: Config, steps: seq<Step>, r: Request)
    requires ProxyReported(cfg, steps, SessionOf(r), r.persona)
    ensures var st := Exec(cfg, steps); var exit := Decide(cfg, st.profile, st.log, r);
            exit == PauseExit(true)
            || exit in {NotAllowed, KillSwitchCrisis, KillSwitchRefused, RampRefused, CoverageCrisis, CoverageClosed,
                        BadRelationship, UnknownPersona, MainCrisis, NeedsConsent}
  {
    hide Exec, ProxyReported, Risk.Binding;
    var st := Exec(cfg, steps);
    ProxyStays(cfg, steps, SessionOf(r), r.persona);
    Risk.BindingDecides(Flags(st.profile, SessionOf(r), r.persona), SignalsFor(cfg, st.log, r), cfg.ageTopic(r.message));
  }
}
