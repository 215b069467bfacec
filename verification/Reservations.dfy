/**
  How an enrollment reserves the Desk route of its organization (reserveDeskProvisioning in
  src/service-bindings/service-bindings.service.ts), said from the binding tables before the step.
 */
module Reservations {
  import opened Wrappers
  import opened ControlPlane
  import opened ControlPlaneTheorems
  import SB = ServiceBindings
  import EP = EnrollmentProtocol
  import EI = EnrollmentInvariant

  /** The organization has an ACTIVE managed binding with a credential. */
  predicate Offers(s: State, org: Org) {
    && DeskKey(org) in s.bind.rows && s.bind.rows[DeskKey(org)].status.Active?
    && s.bind.rows[DeskKey(org)].config.credential.Some?
  }

  /** The organization has no managed binding at all, but an entry in the environment. */
  predicate FallsBack(s: State, org: Org) {
    DeskKey(org) !in s.bind.rows && org in s.legacy
  }

  /** The row is reserved for its code's owner, on the route that its organization has in s: an ACTIVE binding that
      a probe has succeeded on exactly as it stands, or the environment. */
  ghost predicate ReservedHere(s: State, row: EP.Device) {
    && row.cleanupPending && !row.provisioned && row.provenance.Some?
    && row.code.Some? && row.code.value in s.enroll.codes
    && row.org == s.enroll.codes[row.code.value].org
    && row.provenance.value.owner == s.enroll.codes[row.code.value].owner
    && (Offers(s, row.org) ==>
          var b := s.bind.rows[DeskKey(row.org)];
          && row.provenance.value.origin == b.config.origin && row.reservedWith == b.config.credential
          && SB.Sighting(SB.At(b), b.config) in s.bind.probes)
    && (FallsBack(s, row.org) ==> row.provenance.value.origin == s.legacy[row.org] && row.reservedWith.None?)
    && (Offers(s, row.org) || FallsBack(s, row.org))
  }

  predicate Flagged(s: State, d: Id) {
    d in s.enroll.devices && EP.Flagged(s.enroll.devices[d])
  }

  /** Only its own reservation flags a row. */
  lemma OnlyReservationFlags(s: State, a: Action, d: Id)
    requires Inv(s) && Enabled(s, a) && !Flagged(s, d) && Flagged(Apply(s, a), d)
    ensures a.Enroll? && a.e.Reserve? && a.e.r == d
  {
    if a.Enroll? {
      var e := a.e;
      if EI.EnrollStep(e) {
        EI.EnrollStepKeepsInv(s.enroll, e);
        assert EI.EnrollOk(s.enroll, e.r);
        if e.r == d && !e.Reserve? { FlaggedRowKept(s.enroll, e); }
      } else if EI.RevokeStep(e) {
        EI.RevokeStepKeepsInv(s.enroll, e);
      } else if e.PersistCleanup? {
        EI.ReservationPrecedesRegistration(s.enroll, e.r);
        assert false;
      }
    }
  }

  /** A reservation that took effect, whether or not its caller learned of it, marks the row exactly if the
      organization has an ACTIVE binding with a credential, or no binding and an entry in the environment; an
      acknowledged one lets the enrollment go on there, gives up on an ACTIVE binding without a credential, and
      otherwise returns without a Desk. */
  lemma ReservationOutcome(s: State, e: EP.Action)
    requires Inv(s) && e.Reserve? && Enabled(s, Enroll(e))
    ensures var s' := Apply(s, Enroll(e));
            e.r in s'.enroll.devices && e.r in s'.enroll.enrolls
    ensures var s', org := Apply(s, Enroll(e)), s.enroll.enrolls[e.r].org;
            var row, pc := s'.enroll.devices[e.r], s'.enroll.enrolls[e.r].pc;
            && row.org == org
            && (if !e.outcome.Refused? && (Offers(s, org) || FallsBack(s, org)) then ReservedHere(s, row)
                else !EP.Flagged(row) && row.provenance.None?)
            && (e.outcome.Confirmed? ==>
                  if Offers(s, org) then pc == EP.ReadingSecret(row.provenance.value.origin, row.reservedWith.value)
                  else if FallsBack(s, org) then pc == EP.Registering(row.provenance.value.origin)
                  else if DeskKey(org) in s.bind.rows && s.bind.rows[DeskKey(org)].status.Active? then
                    pc.CleaningKey?
                  else pc == EP.Returning(None))
  {
    assert EI.EnrollOk(s.enroll, e.r) && EI.DeviceOk(s.enroll, e.r);
    var key := DeskKey(s.enroll.enrolls[e.r].org);
    if key in s.bind.rows { assert SB.RowOk(s.bind, key); }
  }

  /** In every reachable state, a step provisions for a device row only on the route in force at that moment: an
      ACTIVE binding whose origin and credential it records, or the environment if there is no binding. */
  lemma ReservedOnLiveRoute(s: State, a: Action, d: Id)
    requires Reachable(s) && Enabled(s, a) && !Flagged(s, d) && Flagged(Apply(s, a), d)
    ensures ReservedHere(s, Apply(s, a).enroll.devices[d])
  {
    ReachableInv(s);
    OnlyReservationFlags(s, a, d);
    ReservationOutcome(s, a.e);
  }

  /** A reservation whose credential cannot be read is not abandoned: its update is the next step, and unless that is
      refused it finds the row and clears it. */
  lemma ReservationIsTakenBack(s: State, r: Id, outcome: Outcome)
    requires Reachable(s) && Enabled(s, Enroll(EP.ReadSecret(r, false)))
    ensures var clear := Enroll(EP.ClearReservation(r, outcome));
            var s1 := Apply(s, Enroll(EP.ReadSecret(r, false)));
            && Enabled(s1, clear) && s1.enroll.devices == s.enroll.devices
            && r in s.enroll.devices && r in Apply(s1, clear).enroll.devices
            && var row, row' := s.enroll.devices[r], Apply(s1, clear).enroll.devices[r];
               && EP.Flagged(row) && (EP.Flagged(row') <==> outcome.Refused?)
               && (EP.Flagged(row') <==> row'.provenance.Some?)
  {
    ReachableInv(s);
    assert EI.EnrollOk(s.enroll, r) && EI.DeviceOk(s.enroll, r);
  }

  /** A revocation finds a target only at the origin it is looking for: with the stored credential of the managed
      binding, whatever the status of that, or in the environment if there is no managed binding. */
  lemma ResolutionOutcome(s: State, org: Org, origin: Origin)
    ensures var r, managed := Resolve(s, org, origin), DeskKey(org) in s.bind.rows;
            && (r.Target? ==> r.origin == origin)
            && (r.Target? <==>
                  if managed then
                    var c := s.bind.rows[DeskKey(org)].config;
                    c.origin == origin && c.credential.Some? && (org, c.credential.value) in s.bind.secrets
                  else org in s.legacy && s.legacy[org] == origin)
            && (r.Conflict? <==>
                  if managed then s.bind.rows[DeskKey(org)].config.origin != origin
                  else org in s.legacy && s.legacy[org] != origin)
            && (r.NoTarget? <==> !managed && org !in s.legacy)
  {
  }

  /** A row that came from a code belongs to the organization of that code, and any Desk provenance on it names
      the owner of that code. */
  lemma RowBelongsToItsCode(s: State, d: Id)
    requires Reachable(s) && d in s.enroll.devices
    ensures var row := s.enroll.devices[d];
            if row.code.None? then !EP.Flagged(row) && row.provenance.None?
            else
              && row.code.value in s.enroll.codes && row.org == s.enroll.codes[row.code.value].org
              && (EP.Flagged(row) <==> row.provenance.Some?)
              && (row.provenance.Some? ==> row.provenance.value.owner == s.enroll.codes[row.code.value].owner)
  {
    ReachableInv(s);
    assert EI.DeviceOk(s.enroll, d);
    if d in s.enroll.enrolls { assert EI.EnrollOk(s.enroll, d); }
  }
}
