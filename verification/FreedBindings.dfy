/**
  How the Desk binding of an organization becomes changeable again: revokeDevice in src/admin/admin.service.ts
  clears the Desk columns that hold up upsert and disable in src/service-bindings/service-bindings.service.ts.
 */
module FreedBindings {
  import opened Wrappers
  import opened ControlPlane
  import opened ControlPlaneTheorems
  import opened DeviceRevocation
  import opened LostAcknowledgements
  import opened BindingChanges
  import CredentialLock
  import SB = ServiceBindings
  import EP = EnrollmentProtocol
  import EI = EnrollmentInvariant

  /** The provisioned or pending devices of an organization. */
  function Held(s: State, org: Org): (ds: set<Id>) {
    set d | d in s.enroll.devices && s.enroll.devices[d].org == org && EP.Flagged(s.enroll.devices[d])
  }

  lemma BusyIsHeld(s: State, org: Org)
    ensures Busy(s, org) <==> Held(s, org) != {}
  {
    if Busy(s, org) {
      var d :| d in s.enroll.devices && s.enroll.devices[d].org == org && EP.Flagged(s.enroll.devices[d]);
      assert d in Held(s, org);
    }
  }

  /** Once the revocation of every provisioned or pending device of an organization is complete, an upsert of its
      Desk binding takes effect unless its own transaction fails, and so does disabling it. */
  lemma CompletedOrganizationIsFree(s: State, org: Org, b: SB.Action)
    requires Reachable(s) && forall d <- Held(s, org) :: Completed(s, d)
    requires Enabled(s, Bind(b))
    ensures b.CommitUpsert? && s.bind.upserts[b.u].key == DeskKey(org) ==>
              !b.busy && (b.outcome.Refused? || Takes(s.bind, b))
    ensures b.Disable? && b.key == DeskKey(org) && b.key in s.bind.rows ==>
              !b.busy && Apply(s, Bind(b)).bind.rows[b.key].status.Disabled?
  {
    ReachableInv(s);
    forall d | d in s.enroll.devices && s.enroll.devices[d].org == org ensures !EP.Flagged(s.enroll.devices[d]) {
      assert EI.DeviceOk(s.enroll, d);
      assert EP.Flagged(s.enroll.devices[d]) ==> d in Held(s, org);
    }
  }

  /** Of the rows of s, at most the flagged ones are still flagged, as they were. */
  ghost predicate Shrinks(s: State, s': State) {
    && s'.bind == s.bind && s'.legacy == s.legacy && s'.enroll.enrolls == s.enroll.enrolls
    && forall d | d in s'.enroll.devices && EP.Flagged(s'.enroll.devices[d]) ::
         && d in s.enroll.devices && EP.Flagged(s.enroll.devices[d])
         && s'.enroll.devices[d].org == s.enroll.devices[d].org
         && s'.enroll.devices[d].reservedWith == s.enroll.devices[d].reservedWith
  }

  lemma StepShrinks(s: State, a: Action, v: Id)
    requires Inv(s) && Enabled(s, a) && Cooperates(a, v)
    ensures Shrinks(s, Apply(s, a))
  {
    if EI.RevokeStep(a.e) { EI.RevokeStepKeepsInv(s.enroll, a.e); }
  }

  lemma {:induction false} RevocationShrinks(s: State, actions: seq<Action>, v: Id, s': State)
    requires Inv(s) && CooperativeRun(s, actions, v, s')
    ensures Inv(s') && Shrinks(s, s')
    decreases |actions|
  {
    if actions != [] {
      var a := actions[0];
      assert a in actions && forall b <- actions[1..] :: b in actions;
      StepShrinks(s, a, v);
      StepKeepsInv(s, a);
      RevocationShrinks(Apply(s, a), actions[1..], v, s');
    }
  }

  lemma {:induction false} Above(used: set<Id>) returns (v: Id)
    ensures forall u <- used :: u < v
    decreases |used|
  {
    if used == {} {
      v := 0;
    } else {
      var u :| u in used;
      var w := Above(used - {u});
      assert forall x <- used :: x == u || x in used - {u};
      v := if u < w then w else u + 1;
    }
  }

  lemma {:induction false} RunReaches(s: State, actions: seq<Action>)
    requires Reachable(s) && Legal(s, actions)
    ensures Reachable(Run(s, actions))
  {
    var s0, before :| Init(s0) && Legal(s0, before) && Run(s0, before) == s;
    RunAppend(s0, before, actions);
  }

  /** Every enrollment behind a provisioned or pending device of the organization has ended. */
  ghost predicate Settled(s: State, org: Org) {
    forall d <- Held(s, org) :: EP.EnrollmentEnded(s.enroll, d)
  }

  ghost predicate AllStored(s: State, org: Org) {
    forall d <- Held(s, org) :: Stored(s, s.enroll.devices[d])
  }

  lemma RevokeOne(s: State, org: Org, d: Id) returns (actions: seq<Action>, s': State)
    requires Reachable(s) && Settled(s, org) && AllStored(s, org) && d in Held(s, org)
    ensures Legal(s, actions) && Run(s, actions) == s' && Reachable(s')
    ensures Held(s', org) < Held(s, org) && Settled(s', org) && AllStored(s', org)
  {
    ReachableInv(s);
    assert EI.DeviceOk(s.enroll, d);
    var v := Above(s.enroll.revokes.Keys);
    actions, s' := RetryCompletes(s, v, d);
    RevocationShrinks(s, actions, v, s');
    RunReaches(s, actions);
    assert EI.DeviceOk(s'.enroll, d);
    assert d !in Held(s', org);
    assert forall x <- Held(s', org) :: x in Held(s, org);
  }

  lemma {:induction false} RevokeAll(s: State, org: Org) returns (actions: seq<Action>, s': State)
    requires Reachable(s) && Settled(s, org) && AllStored(s, org)
    ensures Legal(s, actions) && Run(s, actions) == s' && Held(s', org) == {}
    decreases Held(s, org)
  {
    if Held(s, org) == {} {
      actions, s' := [], s;
    } else {
      var d :| d in Held(s, org);
      var first, s1 := RevokeOne(s, org, d);
      var rest;
      rest, s' := RevokeAll(s1, org);
      RunAppend(s, first, rest);
      actions := first + rest;
    }
  }

  ghost predicate CanBeFreed(s: State, org: Org) {
    exists actions, s' :: Legal(s, actions) && Run(s, actions) == s' && !Busy(s', org)
  }

  /** No revocation of a device of the organization is about to call the Desk or to complete. */
  ghost predicate AllNotPastLookup(s: State, org: Org) {
    forall d <- Held(s, org) :: NotPastLookup(s.enroll, d)
  }

  lemma {:induction false} OrganizationStays(s: State, actions: seq<Action>, d: Id)
    requires Inv(s) && Legal(s, actions) && Stranded(s, d)
    ensures Stranded(Run(s, actions), d)
    ensures Run(s, actions).enroll.devices[d].org == s.enroll.devices[d].org
    decreases |actions|
  {
    if actions != [] {
      var s1 := Apply(s, actions[0]);
      StepKeepsStranded(s, actions[0], d, "");
      StepKeepsInv(s, actions[0]);
      if actions[0].Enroll? { CredentialLock.ReservationStays(s.enroll, actions[0].e, d); }
      OrganizationStays(s1, actions[1..], d);
    }
  }

  /** An organization whose enrollments have ended can get out of the way of its own Desk binding, in some run,
      exactly when the credential of each of its provisioned or pending devices is stored. */
  lemma FreedExactlyIfStored(s: State, org: Org)
    requires Reachable(s) && Settled(s, org) && AllNotPastLookup(s, org)
    ensures CanBeFreed(s, org) <==> AllStored(s, org)
  {
    ReachableInv(s);
    if AllStored(s, org) {
      var actions, s' := RevokeAll(s, org);
      BusyIsHeld(s', org);
    } else {
      var d :| d in Held(s, org) && !Stored(s, s.enroll.devices[d]);
      assert EI.DeviceOk(s.enroll, d) && Stranded(s, d);
      forall actions, s' | Legal(s, actions) && Run(s, actions) == s' ensures Busy(s', org) {
        OrganizationStays(s, actions, d);
      }
    }
  }
}
