/**
  How an enrollment ends (enroll in src/enroll/enroll.service.ts), in every run and whatever everybody else does
  meanwhile: with success if its calls are confirmed, and otherwise without a trace if its cleanup is.
 */
module EnrollmentOutcomes {
  import opened Wrappers
  import opened ControlPlane
  import opened Reservations
  import SB = ServiceBindings
  import EP = EnrollmentProtocol
  import EI = EnrollmentInvariant

  /** The action is one of enrollment r's own, or its death. */
  predicate Own(a: Action, r: Id) {
    a.Enroll? && (EI.EnrollStep(a.e) || a.e.PersistCleanup? || a.e.Die?) && a.e.r == r
  }

  // ---------------------------------------------------------------- the claim

  /** A claim that reaches the database takes the code exactly if the code exists, is unused and has not expired,
      and it takes over the organization and the owner the code was issued for. */
  lemma ClaimOutcome(s: EP.State, r: Id, outcome: Outcome)
    requires EI.Inv(s) && EP.Enabled(s, EP.ClaimCode(r, outcome)) && !outcome.Refused?
    ensures var s', e := EP.Apply(s, EP.ClaimCode(r, outcome)), s.enrolls[r];
            var e' := s'.enrolls[r];
            if e.code in s.codes && s.codes[e.code].usedAt.None? && e.now <= s.codes[e.code].expiresAt then
              && e'.holds && e'.org == s.codes[e.code].org && e'.owner == s.codes[e.code].owner
              && s'.codes == s.codes[e.code := s.codes[e.code].(usedAt := Some(e.now), holder := Some(r))]
              && (e'.pc.CreatingDevice? <==> outcome.Confirmed?)
            else
              !e'.holds && e'.pc.Failed? && s'.codes == s.codes
  {
    assert EI.EnrollOk(s, r);
  }

  // ---------------------------------------------------------------- success

  predicate Forward(pc: EP.EnrollPc) {
    || pc.Validating? || pc.CreatingDevice? || pc.IssuingKey? || pc.StoringToken? || pc.Reserving?
    || pc.ReadingSecret? || pc.Registering? || pc.MarkingProvisioned? || pc.Returning?
  }

  /** The call is confirmed. */
  predicate Succeeds(e: EP.Action) {
    match e
    case ClaimCode(_, outcome) => outcome.Confirmed?
    case CreateDevice(_, outcome) => outcome.Confirmed?
    case IssueKey(_, ok) => ok
    case StoreToken(_, outcome) => outcome.Confirmed?
    case Reserve(_, outcome, _) => outcome.Confirmed?
    case ReadSecret(_, ok) => ok
    case Register(_, outcome) => outcome.Confirmed?
    case MarkProvisioned(_, outcome) => outcome.Confirmed?
    case Return(_, ok) => ok
    case _ => false
  }

  predicate OwnCallsSucceed(a: Action, r: Id) {
    Own(a, r) ==> Succeeds(a.e)
  }

  /** The enrollment is under way, has succeeded, or did not get the code. */
  predicate OnPath(s: EP.State, r: Id) {
    r in s.enrolls ==>
      Forward(s.enrolls[r].pc) || s.enrolls[r].pc.Succeeded? || (s.enrolls[r].pc.Failed? && !s.enrolls[r].holds)
  }

  /** The request is as it was, or has just started. */
  predicate Undisturbed(s: EP.State, s': EP.State, r: Id) {
    if r in s.enrolls then r in s'.enrolls && s'.enrolls[r] == s.enrolls[r]
    else r in s'.enrolls ==> s'.enrolls[r].pc.Validating?
  }

  lemma UndisturbedOnPath(s: EP.State, s': EP.State, r: Id)
    requires Undisturbed(s, s', r) && OnPath(s, r)
    ensures OnPath(s', r)
  {
  }

  /** No action but its own moves a request. */
  lemma OthersLeaveRequest(s: State, a: Action, r: Id, lost: bool)
    requires Inv(s) && Enabled(s, a) && !Own(a, r)
    ensures Undisturbed(s.enroll, Apply(s, a).enroll, r)
    ensures r in s.enroll.enrolls && Traceless(s.enroll, r, lost) ==> Traceless(Apply(s, a).enroll, r, lost)
  {
    if a.Enroll? {
      if EI.EnrollStep(a.e) {
        EI.EnrollStepKeepsInv(s.enroll, a.e);
        TouchedElsewhere(s.enroll, EP.Apply(s.enroll, a.e), a.e.r, r, lost);
      } else if EI.RevokeStep(a.e) {
        EI.RevokeStepKeepsInv(s.enroll, a.e);
        RevokedElsewhere(s.enroll, EP.Apply(s.enroll, a.e), a.e.v, s.enroll.revokes[a.e.v].device, r, lost);
      } else if a.e.PersistCleanup? {
        EI.ReservationPrecedesRegistration(s.enroll, a.e.r);
        assert false;
      }
    }
  }

  lemma TouchedElsewhere(s: EP.State, s': EP.State, x: Id, r: Id, lost: bool)
    requires EI.Touches(s, s', x) && x != r
    ensures Undisturbed(s, s', r)
    ensures r in s.enrolls && Traceless(s, r, lost) ==> Traceless(s', r, lost)
  {
  }

  lemma RevokedElsewhere(s: EP.State, s': EP.State, v: Id, d: Id, r: Id, lost: bool)
    requires EI.RevokeTouches(s, s', v, d)
    ensures Undisturbed(s, s', r)
    ensures r in s.enrolls && Traceless(s, r, lost) ==> Traceless(s', r, lost)
  {
  }

  lemma SuccessKeepsPath(s: State, e: EP.Action)
    requires Inv(s) && Enabled(s, Enroll(e)) && EI.EnrollStep(e) && Succeeds(e) && OnPath(s.enroll, e.r)
    ensures OnPath(Apply(s, Enroll(e)).enroll, e.r)
  {
    if e.Reserve? {
      ReservationOutcome(s, e);
      var key := DeskKey(s.enroll.enrolls[e.r].org);
      if key in s.bind.rows && s.bind.rows[key].status.Active? {
        assert SB.RowOk(s.bind, key);
        assert SB.ProbeOk(s.bind, SB.Sighting(SB.At(s.bind.rows[key]), s.bind.rows[key].config));
      }
    } else if e.ClaimCode? {
      ClaimOutcome(s.enroll, e.r, e.outcome);
    } else if e.MarkProvisioned? {
      assert EI.EnrollOk(s.enroll, e.r);
    }
  }

  lemma StepKeepsPath(s: State, a: Action, r: Id)
    requires Inv(s) && Enabled(s, a) && OnPath(s.enroll, r) && OwnCallsSucceed(a, r)
    ensures OnPath(Apply(s, a).enroll, r)
  {
    if Own(a, r) {
      SuccessKeepsPath(s, a.e);
    } else {
      OthersLeaveRequest(s, a, r, false);
      UndisturbedOnPath(s.enroll, Apply(s, a).enroll, r);
    }
  }

  /** In every run: an enrollment all of whose own calls are confirmed never has to compensate, and it ends with
      success unless its code was not to be had. */
  lemma {:induction false} ConfirmedEnrollmentSucceeds(s: State, actions: seq<Action>, r: Id)
    requires Inv(s) && Legal(s, actions) && OnPath(s.enroll, r) && forall a <- actions :: OwnCallsSucceed(a, r)
    ensures OnPath(Run(s, actions).enroll, r)
    decreases |actions|
  {
    if actions != [] {
      assert actions[0] in actions && forall a <- actions[1..] :: a in actions;
      StepKeepsPath(s, actions[0], r);
      StepKeepsInv(s, actions[0]);
      ConfirmedEnrollmentSucceeds(Apply(s, actions[0]), actions[1..], r);
    }
  }

  // ---------------------------------------------------------------- failure

  /** A cleanup call is confirmed; the claim may be lost only if `lost` says so. */
  predicate CleansUp(e: EP.Action, lost: bool) {
    match e
    case ClaimCode(_, outcome) => outcome.Lost? ==> lost
    case CompensateRegistration(_, outcome) => outcome.Confirmed?
    case CleanDesk(_, outcome) => outcome.Confirmed?
    case CleanKey(_, outcome) => outcome.Confirmed?
    case CleanDevice(_, outcome) => outcome.Confirmed?
    case CleanCode(_, outcome) => outcome.Confirmed?
    case Die(_) => false
    case _ => true
  }

  predicate OwnCallsCleanUp(a: Action, r: Id, lost: bool) {
    Own(a, r) ==> CleansUp(a.e, lost)
  }

  /** Nothing of the request is left, apart from a device row or a code that it never learned of. */
  ghost predicate Traceless(s: EP.State, r: Id, lost: bool)
    requires r in s.enrolls
  {
    && (s.enrolls[r].holds ==> lost) && r !in s.keys && !EP.IsLive(s, r)
    && (r in s.devices <==> s.enrolls[r].unseen)
  }

  /** The cleanup, if it has begun, has succeeded so far. */
  predicate TidySoFar(pc: EP.EnrollPc) {
    && !pc.Failed? && !pc.Died?
    && (pc.CleaningKey? ==> pc == EP.CleaningKey(true))
    && (pc.CleaningDevice? ==> pc == EP.CleaningDevice(true, true))
    && (pc.CleaningCode? ==> pc == EP.CleaningCode(true, true, true))
  }

  ghost predicate Tidy(s: EP.State, r: Id, lost: bool) {
    r in s.enrolls ==> TidySoFar(s.enrolls[r].pc) || (s.enrolls[r].pc.Failed? && Traceless(s, r, lost))
  }

  lemma ReleaseIsTraceless(s: EP.State, r: Id, lost: bool)
    requires EI.Inv(s) && EP.Enabled(s, EP.CleanCode(r, Confirmed)) && Tidy(s, r, lost)
    ensures Tidy(EP.StepCleanCode(s, r, Confirmed), r, lost)
  {
    EI.OwnFacts(s, r);
  }

  lemma ClaimStaysTidy(s: EP.State, r: Id, outcome: Outcome, lost: bool)
    requires EI.Inv(s) && EP.Enabled(s, EP.ClaimCode(r, outcome)) && (outcome.Lost? ==> lost)
    ensures Tidy(EP.StepClaim(s, r, outcome), r, lost)
  {
    EI.OwnFacts(s, r);
  }

  predicate At(s: EP.State, r: Id) {
    r in s.enrolls && TidySoFar(s.enrolls[r].pc)
  }

  /** Wherever enrollment breaks off, the cleanup starts from the beginning. */
  lemma CreatingStaysTidy(s: EP.State, r: Id, outcome: Outcome, ok: bool)
    requires r in s.enrolls
    ensures At(EP.StepCreate(s, r, outcome), r) && At(EP.StepIssue(s, r, ok), r) && At(EP.StepStore(s, r, outcome), r)
  {
  }

  lemma ReservingStaysTidy(s: EP.State, r: Id, outcome: Outcome, ok: bool, route: EP.Route)
    requires r in s.enrolls
    ensures r in s.devices ==> At(EP.StepReserve(s, r, outcome, route), r)
    ensures s.enrolls[r].pc.ReadingSecret? ==> At(EP.StepReadSecret(s, r, ok), r)
    ensures s.enrolls[r].pc.ClearingReservation? ==> At(EP.StepClear(s, r, outcome), r)
  {
  }

  lemma RegisteringStaysTidy(s: EP.State, r: Id, outcome: Outcome, ok: bool)
    requires r in s.enrolls
    ensures s.enrolls[r].pc.Registering? ==> At(EP.StepRegister(s, r, outcome), r)
    ensures s.enrolls[r].pc.Returning? ==> At(EP.StepReturn(s, r, ok), r)
  {
  }

  lemma MarkingStaysTidy(s: EP.State, r: Id, outcome: Outcome)
    requires r in s.enrolls && s.enrolls[r].pc.MarkingProvisioned?
    ensures At(EP.StepMark(s, r, outcome), r)
  {
  }

  /** A confirmed cleanup call is ticked off. */
  lemma RemoteCleaningStaysTidy(s: EP.State, r: Id)
    requires At(s, r)
    ensures s.enrolls[r].pc.CompensatingRegistration? ==> At(EP.StepCompensate(s, r, Confirmed), r)
    ensures s.enrolls[r].pc.CleaningDesk? ==> At(EP.StepCleanDesk(s, r, Confirmed), r)
  {
  }

  lemma CleaningStaysTidy(s: EP.State, r: Id)
    requires At(s, r)
    ensures s.enrolls[r].pc.CleaningKey? ==> At(EP.StepCleanKey(s, r, Confirmed), r)
    ensures s.enrolls[r].pc.CleaningDevice? ==> At(EP.StepCleanDevice(s, r, Confirmed), r)
  {
  }

  lemma UndisturbedTidy(s: EP.State, s': EP.State, r: Id, lost: bool)
    requires Undisturbed(s, s', r) && Tidy(s, r, lost)
    requires r in s.enrolls && r in s'.enrolls && Traceless(s, r, lost) ==> Traceless(s', r, lost)
    ensures Tidy(s', r, lost)
  {
  }

  lemma OwnStepStaysTidy(s: EP.State, e: EP.Action, lost: bool)
    requires EI.Inv(s) && EP.Enabled(s, e) && (EI.EnrollStep(e) || e.PersistCleanup?)
    requires CleansUp(e, lost) && Tidy(s, e.r, lost)
    ensures Tidy(EP.Apply(s, e), e.r, lost)
  {
    match e
    case ClaimCode(r, outcome) => ClaimStaysTidy(s, r, outcome, lost);
    case CreateDevice(r, outcome) => CreatingStaysTidy(s, r, outcome, true);
    case IssueKey(r, ok) => CreatingStaysTidy(s, r, Confirmed, ok);
    case StoreToken(r, outcome) => CreatingStaysTidy(s, r, outcome, true);
    case Reserve(r, outcome, route) => ReservingStaysTidy(s, r, outcome, true, route);
    case ReadSecret(r, ok) => ReservingStaysTidy(s, r, Confirmed, ok, EP.NoDesk);
    case ClearReservation(r, outcome) => ReservingStaysTidy(s, r, outcome, true, EP.NoDesk);
    case Register(r, outcome) => RegisteringStaysTidy(s, r, outcome, true);
    case MarkProvisioned(r, outcome) => MarkingStaysTidy(s, r, outcome);
    case Return(r, ok) => RegisteringStaysTidy(s, r, Confirmed, ok);
    case CompensateRegistration(r, _) => RemoteCleaningStaysTidy(s, r);
    case CleanDesk(r, _) => RemoteCleaningStaysTidy(s, r);
    case CleanKey(r, _) => CleaningStaysTidy(s, r);
    case CleanDevice(r, _) => CleaningStaysTidy(s, r);
    case CleanCode(r, _) => ReleaseIsTraceless(s, r, lost);
    case PersistCleanup(r, _) =>
      EI.ReservationPrecedesRegistration(s, r);
      assert false;
  }

  lemma StepStaysTidy(s: State, a: Action, r: Id, lost: bool)
    requires Inv(s) && Enabled(s, a) && Tidy(s.enroll, r, lost) && OwnCallsCleanUp(a, r, lost)
    ensures Tidy(Apply(s, a).enroll, r, lost)
  {
    if Own(a, r) {
      OwnStepStaysTidy(s.enroll, a.e, lost);
    } else {
      OthersLeaveRequest(s, a, r, lost);
      UndisturbedTidy(s.enroll, Apply(s, a).enroll, r, lost);
    }
  }

  lemma {:induction false} RunStaysTidy(s: State, actions: seq<Action>, r: Id, lost: bool)
    requires Inv(s) && Legal(s, actions) && Tidy(s.enroll, r, lost)
    requires forall a <- actions :: OwnCallsCleanUp(a, r, lost)
    ensures Tidy(Run(s, actions).enroll, r, lost) && Inv(Run(s, actions))
    decreases |actions|
  {
    if actions != [] {
      assert actions[0] in actions && forall a <- actions[1..] :: a in actions;
      StepStaysTidy(s, actions[0], r, lost);
      StepKeepsInv(s, actions[0]);
      RunStaysTidy(Apply(s, actions[0]), actions[1..], r, lost);
    }
  }

  /** In every run: if an enrollment fails, wherever it fails, and its cleanup calls are confirmed, then its code is
      free again or taken by another request, unless the claim itself was not acknowledged, and no token, gateway key,
      installation or device row of it is left, except exactly a row whose creation was not acknowledged. */
  lemma {:induction false} FailureLeavesNothing(s: State, actions: seq<Action>, r: Id, t: Id)
    requires Inv(s) && Legal(s, actions) && r !in s.enroll.enrolls
    requires forall a <- actions :: OwnCallsCleanUp(a, r, true)
    requires r in Run(s, actions).enroll.enrolls && Run(s, actions).enroll.enrolls[r].pc.Failed?
    ensures var s' := Run(s, actions).enroll;
            && (s'.enrolls[r].code in s'.codes && s'.codes[s'.enrolls[r].code].holder == Some(r) ==>
                  Enroll(EP.ClaimCode(r, Lost)) in actions)
            && (t in s'.tokens ==> s'.tokens[t].device != r)
            && r !in s'.keys && !EP.IsLive(s', r)
            && (r in s'.devices <==> s'.enrolls[r].unseen)
  {
    var lost := Enroll(EP.ClaimCode(r, Lost)) in actions;
    forall a <- actions ensures OwnCallsCleanUp(a, r, lost) {
      assert a.Enroll? && a.e.ClaimCode? && a.e.r == r && a.e.outcome.Lost? ==> a == Enroll(EP.ClaimCode(r, Lost));
    }
    RunStaysTidy(s, actions, r, lost);
    var s' := Run(s, actions).enroll;
    var c := s'.enrolls[r].code;
    if c in s'.codes { assert EI.CodeOk(s', c); }
    if t in s'.tokens { assert EI.TokenOk(s', t); }
  }
}
