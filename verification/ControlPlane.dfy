/**
  The control plane as one machine: binding mutations, enrollments and revocations interleave freely
  over shared tables. The two halves meet in three places, all read from the other half's tables:
  the "is any Desk device provisioned" check of a binding mutation, the binding a reservation captures,
  and the binding a revocation resolves.
 */
module ControlPlane {
  import opened Wrappers
  import SB = ServiceBindings
  import EP = EnrollmentProtocol
  import EI = EnrollmentInvariant

  type Id = nat
  type Org = nat
  type Origin = string

  /** `legacy` is HARA_DESK_PROVISIONING_JSON, fixed for the life of the process. */
  datatype State = State(bind: SB.State, enroll: EP.State, legacy: map<Org, Origin>)

  datatype Action = Bind(b: SB.Action) | Enroll(e: EP.Action)

  function DeskKey(org: Org): (k: SB.Key) {
    SB.Key(org, SB.DeskTasks)
  }

  /** hasProvisionedDeskDevices. */
  predicate Busy(s: State, org: Org) {
    exists d :: d in s.enroll.devices && s.enroll.devices[d].org == org && EP.Flagged(s.enroll.devices[d])
  }

  /** What reserveDeskProvisioning reads inside its transaction: any managed row, whatever its status,
      shadows the legacy environment mapping. */
  function RouteOf(s: State, org: Org): (route: EP.Route) {
    if DeskKey(org) in s.bind.rows then
      var b := s.bind.rows[DeskKey(org)];
      if !b.status.Active? then EP.NoDesk
      else if b.config.credential.None? then EP.NoCredential
      else EP.Managed(b.config.origin, b.config.credential.value)
    else if org in s.legacy then EP.Legacy(s.legacy[org])
    else EP.NoDesk
  }

  datatype Resolution = Conflict | CredentialMissing | NoTarget | Target(origin: Origin)

  /** deskRevocationResolution followed by the target checks of revokeInstallation. */
  function Resolve(s: State, org: Org, origin: Origin): (r: Resolution) {
    if DeskKey(org) in s.bind.rows then
      var config := s.bind.rows[DeskKey(org)].config;
      if config.origin != origin then Conflict
      else if config.credential.None? || (org, config.credential.value) !in s.bind.secrets then CredentialMissing
      else Target(config.origin)
    else if org !in s.legacy then NoTarget
    else if s.legacy[org] != origin then Conflict
    else Target(origin)
  }

  predicate Enabled(s: State, a: Action) {
    match a
    case Bind(b) =>
      && SB.Enabled(s.bind, b)
      && (b.CommitUpsert? ==> b.busy == Busy(s, s.bind.upserts[b.u].key.org))
      && (b.Disable? ==> b.busy == Busy(s, b.key.org))
    case Enroll(e) =>
      && EP.Enabled(s.enroll, e)
      && (e.Reserve? ==> e.route == RouteOf(s, s.enroll.enrolls[e.r].org))
      && (e.ReadSecret? && e.ok ==>
            (s.enroll.enrolls[e.r].org, s.enroll.enrolls[e.r].pc.secret) in s.bind.secrets)
      && (e.ResolveDesk? && e.resolved ==>
            var p, d := s.enroll.revokes[e.v].pc.provenance, s.enroll.revokes[e.v].device;
            s.enroll.revokes[e.v].pc.desk && p.Some? && d in s.enroll.devices ==>
              Resolve(s, s.enroll.devices[d].org, p.value.origin).Target?)
  }

  function Apply(s: State, a: Action): (s': State)
    requires Enabled(s, a)
  {
    match a
    case Bind(b) => s.(bind := SB.Apply(s.bind, b))
    case Enroll(e) => s.(enroll := EP.Apply(s.enroll, e))
  }

  ghost predicate Init(s: State) {
    SB.Init(s.bind) && EI.Init(s.enroll)
  }

  /** The actions can be taken one after the other, starting in s. */
  predicate Legal(s: State, actions: seq<Action>)
    decreases |actions|
  {
    actions == [] || (Enabled(s, actions[0]) && Legal(Apply(s, actions[0]), actions[1..]))
  }

  function Run(s: State, actions: seq<Action>): (s': State)
    requires Legal(s, actions)
    decreases |actions|
  {
    if actions == [] then s else Run(Apply(s, actions[0]), actions[1..])
  }

  lemma {:induction false} RunAppend(s: State, xs: seq<Action>, ys: seq<Action>)
    requires Legal(s, xs) && Legal(Run(s, xs), ys)
    ensures Legal(s, xs + ys) && Run(s, xs + ys) == Run(Run(s, xs), ys)
    decreases |xs|
  {
    if xs == [] {
      assert xs + ys == ys;
    } else {
      assert (xs + ys)[1..] == xs[1..] + ys;
      RunAppend(Apply(s, xs[0]), xs[1..], ys);
    }
  }

  ghost predicate Reachable(s: State) {
    exists s0, actions :: Init(s0) && Legal(s0, actions) && Run(s0, actions) == s
  }

  // ---------------------------------------------------------------- invariant

  /** The route a flagged row was reserved on is still in place: the managed row keeps the origin and
      the credential reference captured at reservation, or there is still no managed row. */
  ghost predicate Locked(s: State, row: EP.Device) {
    && row.provenance.Some?
    && if DeskKey(row.org) in s.bind.rows then
         && s.bind.rows[DeskKey(row.org)].config.origin == row.provenance.value.origin
         && row.reservedWith.Some? && s.bind.rows[DeskKey(row.org)].config.credential == row.reservedWith
       else
         row.org in s.legacy && s.legacy[row.org] == row.provenance.value.origin && row.reservedWith.None?
  }

  ghost predicate Lock(s: State) {
    forall d | d in s.enroll.devices && EP.Flagged(s.enroll.devices[d]) :: Locked(s, s.enroll.devices[d])
  }

  ghost predicate Inv(s: State) {
    SB.Inv(s.bind) && EI.Inv(s.enroll) && Lock(s)
  }

  /** A binding step leaves the Desk route of an organization alone while one of its devices is flagged. */
  lemma BusyRouteStays(s: SB.State, b: SB.Action, key: SB.Key)
    requires SB.Enabled(s, b) && key.service.DeskTasks?
    requires b.CommitUpsert? && s.upserts[b.u].key == key ==> b.busy
    requires b.Disable? && b.key == key ==> b.busy
    ensures key in SB.Apply(s, b).rows <==> key in s.rows
    ensures key in s.rows ==> SB.Apply(s, b).rows[key].config == s.rows[key].config
  {
  }

  /** A binding mutation moves the Desk route of an organization only while none of its devices is
      provisioned or pending; verification never moves it. */
  lemma BindKeepsLock(s: State, b: SB.Action)
    requires Inv(s) && Enabled(s, Bind(b))
    ensures Lock(Apply(s, Bind(b)))
  {
    var s' := Apply(s, Bind(b));
    forall d | d in s'.enroll.devices && EP.Flagged(s'.enroll.devices[d])
      ensures Locked(s', s'.enroll.devices[d])
    {
      var row := s.enroll.devices[d];
      assert Locked(s, row) && Busy(s, row.org);
      BusyRouteStays(s.bind, b, DeskKey(row.org));
    }
  }

  /** The row stays flagged as it was: same organization, same reservation, same origin. */
  ghost predicate StillFlagged(s: EP.State, s': EP.State, r: Id)
    requires r in s'.devices
  {
    && r in s.devices && EP.Flagged(s.devices[r])
    && (var row, row' := s.devices[r], s'.devices[r];
        && row'.org == row.org && row'.reservedWith == row.reservedWith
        && (row.provenance.Some? ==>
              row'.provenance.Some? && row'.provenance.value.origin == row.provenance.value.origin))
  }

  /** These steps do not touch any row. */
  lemma ForwardRowUntouched(s: EP.State, a: EP.Action)
    requires a.ClaimCode? || a.IssueKey? || a.StoreToken? || a.ReadSecret? || a.Register?
    requires EP.Enabled(s, a)
    ensures EP.Apply(s, a).devices == s.devices
  {
  }

  lemma ClosingRowUntouched(s: EP.State, a: EP.Action)
    requires a.CompensateRegistration? || a.Return? || a.CleanDesk? || a.CleanKey? || a.CleanCode?
    requires EP.Enabled(s, a)
    ensures EP.Apply(s, a).devices == s.devices
  {
  }

  lemma RowTouched(s: EP.State, a: EP.Action)
    requires a.CreateDevice? || a.ClearReservation? || a.MarkProvisioned? || a.CleanDevice?
    requires EP.Enabled(s, a) && EI.EnrollOk(s, a.r)
    requires a.r in EP.Apply(s, a).devices && EP.Flagged(EP.Apply(s, a).devices[a.r])
    ensures StillFlagged(s, EP.Apply(s, a), a.r)
  {
  }

  /** Apart from a reservation, no enrollment step turns an unflagged row into a flagged one or changes
      the provenance of a flagged one. */
  lemma FlaggedRowKept(s: EP.State, a: EP.Action)
    requires EI.EnrollStep(a) && !a.Reserve? && EP.Enabled(s, a) && EI.EnrollOk(s, a.r)
    requires a.r in EP.Apply(s, a).devices && EP.Flagged(EP.Apply(s, a).devices[a.r])
    ensures StillFlagged(s, EP.Apply(s, a), a.r)
  {
    if a.CreateDevice? || a.ClearReservation? || a.MarkProvisioned? || a.CleanDevice? {
      RowTouched(s, a);
    } else if EI.ForwardStep(a) {
      ForwardRowUntouched(s, a);
    } else {
      ClosingRowUntouched(s, a);
    }
  }

  lemma ReserveKeepsLock(s: State, e: EP.Action)
    requires Inv(s) && e.Reserve? && Enabled(s, Enroll(e))
    ensures var s' := Apply(s, Enroll(e));
            e.r in s'.enroll.devices && EP.Flagged(s'.enroll.devices[e.r]) ==> Locked(s', s'.enroll.devices[e.r])
  {
    assert EI.EnrollOk(s.enroll, e.r) && EI.DeviceOk(s.enroll, e.r);
  }

  lemma EnrollStepKeepsLock(s: State, e: EP.Action)
    requires Inv(s) && Enabled(s, Enroll(e)) && EI.EnrollStep(e)
    ensures Lock(Apply(s, Enroll(e)))
  {
    var s' := Apply(s, Enroll(e));
    EI.EnrollStepKeepsInv(s.enroll, e);
    forall d | d in s'.enroll.devices && EP.Flagged(s'.enroll.devices[d]) ensures Locked(s', s'.enroll.devices[d]) {
      if d != e.r {
        assert Locked(s, s.enroll.devices[d]);
      } else if e.Reserve? {
        ReserveKeepsLock(s, e);
      } else {
        assert EI.EnrollOk(s.enroll, e.r);
        FlaggedRowKept(s.enroll, e);
        assert Locked(s, s.enroll.devices[d]);
      }
    }
  }

  lemma RevokeStepKeepsLock(s: State, e: EP.Action)
    requires Inv(s) && Enabled(s, Enroll(e)) && EI.RevokeStep(e)
    ensures Lock(Apply(s, Enroll(e)))
  {
    var s' := Apply(s, Enroll(e));
    EI.RevokeStepKeepsInv(s.enroll, e);
    forall d | d in s'.enroll.devices && EP.Flagged(s'.enroll.devices[d]) ensures Locked(s', s'.enroll.devices[d]) {
      assert Locked(s, s.enroll.devices[d]);
    }
  }

  lemma EnrollKeepsLock(s: State, e: EP.Action)
    requires Inv(s) && Enabled(s, Enroll(e))
    ensures Lock(Apply(s, Enroll(e)))
  {
    var s' := Apply(s, Enroll(e));
    if EI.EnrollStep(e) {
      EnrollStepKeepsLock(s, e);
    } else if EI.RevokeStep(e) {
      RevokeStepKeepsLock(s, e);
    } else if e.PersistCleanup? {
      EI.ReservationPrecedesRegistration(s.enroll, e.r);
      assert false;
    } else {
      assert s'.enroll.devices == s.enroll.devices;
      forall d | d in s'.enroll.devices && EP.Flagged(s'.enroll.devices[d]) ensures Locked(s', s'.enroll.devices[d]) {
        assert Locked(s, s.enroll.devices[d]);
      }
    }
  }

  lemma StepKeepsInv(s: State, a: Action)
    requires Inv(s) && Enabled(s, a)
    ensures Inv(Apply(s, a))
  {
    match a
    case Bind(b) =>
      SB.StepKeepsInv(s.bind, b);
      BindKeepsLock(s, b);
    case Enroll(e) =>
      EI.StepKeepsInv(s.enroll, e);
      EnrollKeepsLock(s, e);
  }

  lemma {:induction false} RunKeepsInv(s: State, actions: seq<Action>)
    requires Inv(s) && Legal(s, actions)
    ensures Inv(Run(s, actions))
    decreases |actions|
  {
    if actions != [] {
      StepKeepsInv(s, actions[0]);
      RunKeepsInv(Apply(s, actions[0]), actions[1..]);
    }
  }

  lemma StepReaches(s: State, a: Action)
    requires Reachable(s) && Enabled(s, a)
    ensures Reachable(Apply(s, a))
  {
    var s0, actions :| Init(s0) && Legal(s0, actions) && Run(s0, actions) == s;
    assert [a][1..] == [] && Legal(Apply(s, a), []) && Run(Apply(s, a), []) == Apply(s, a);
    assert Legal(s, [a]) && Run(s, [a]) == Apply(s, a);
    RunAppend(s0, actions, [a]);
  }

  lemma ReachableInv(s: State)
    requires Reachable(s)
    ensures Inv(s)
  {
    var s0, actions :| Init(s0) && Legal(s0, actions) && Run(s0, actions) == s;
    SB.InitInv(s0.bind);
    EI.InitInv(s0.enroll);
    RunKeepsInv(s0, actions);
  }
}
