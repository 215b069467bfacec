/**
  An enrollment with a usable code can always go through (enroll in src/enroll/enroll.service.ts): from every
  reachable state its own calls alone, each of them confirmed, lead to success and to the Desk on offer.
 */
module EnrollmentProgress {
  import opened Wrappers
  import opened ControlPlane
  import opened Reservations
  import opened EnrollmentOutcomes
  import SB = ServiceBindings
  import EP = EnrollmentProtocol
  import EI = EnrollmentInvariant

  /** The Desk that the organization is offered: its ACTIVE binding, or the environment if it has no binding. */
  function Offer(s: State, org: Org): (origin: Option<Origin>) {
    if Offers(s, org) then Some(s.bind.rows[DeskKey(org)].config.origin)
    else if FallsBack(s, org) then Some(s.legacy[org])
    else None
  }

  /** The credential of the ACTIVE binding is in the secret store. */
  predicate OfferStored(s: State, org: Org) {
    Offers(s, org) ==> (org, s.bind.rows[DeskKey(org)].config.credential.value) in s.bind.secrets
  }

  predicate Usable(s: EP.State, c: Id, now: nat) {
    c in s.codes && s.codes[c].usedAt.None? && now <= s.codes[c].expiresAt
  }

  /** The next call of the request, confirmed. */
  function Next(s: State, r: Id): (e: EP.Action)
    requires r in s.enroll.enrolls && Forward(s.enroll.enrolls[r].pc)
  {
    match s.enroll.enrolls[r].pc
    case Validating => EP.ClaimCode(r, Confirmed)
    case CreatingDevice => EP.CreateDevice(r, Confirmed)
    case IssuingKey => EP.IssueKey(r, true)
    case StoringToken => EP.StoreToken(r, Confirmed)
    case Reserving => EP.Reserve(r, Confirmed, RouteOf(s, s.enroll.enrolls[r].org))
    case ReadingSecret(_, _) => EP.ReadSecret(r, true)
    case Registering(_) => EP.Register(r, Confirmed)
    case MarkingProvisioned(_) => EP.MarkProvisioned(r, Confirmed)
    case Returning(_) => EP.Return(r, true)
  }

  function Remaining(pc: EP.EnrollPc): (n: nat) {
    match pc
    case Validating => 9
    case CreatingDevice => 8
    case IssuingKey => 7
    case StoringToken => 6
    case Reserving => 5
    case ReadingSecret(_, _) => 4
    case Registering(_) => 3
    case MarkingProvisioned(_) => 2
    case Returning(_) => 1
    case _ => 0
  }

  /** The request is under way, nothing stands in the way of its next call, and it is bound for `desk`. */
  predicate Ready(s: State, r: Id, desk: Option<Origin>) {
    && r in s.enroll.enrolls && Forward(s.enroll.enrolls[r].pc)
    && var e := s.enroll.enrolls[r];
       match e.pc
       case Validating =>
         && Usable(s.enroll, e.code, e.now)
         && var org := s.enroll.codes[e.code].org; OfferStored(s, org) && desk == Offer(s, org)
       case ReadingSecret(o, secret) => (e.org, secret) in s.bind.secrets && desk == Some(o)
       case Registering(o) => desk == Some(o)
       case MarkingProvisioned(o) => desk == Some(o)
       case Returning(receipt) => desk == receipt
       case _ => OfferStored(s, e.org) && desk == Offer(s, e.org)
  }

  /** The request has succeeded with `desk`: there is a live installation there on the device's own row. */
  ghost predicate Delivered(s: State, r: Id, desk: Option<Origin>) {
    && r in s.enroll.enrolls && s.enroll.enrolls[r].pc.Succeeded? && r in s.enroll.devices
    && r in s.enroll.keys && r in s.enroll.tokens && !s.enroll.tokens[r].revoked
    && if desk.Some? then (r, desk.value) in s.enroll.live && s.enroll.devices[r].provisioned
       else !EP.Flagged(s.enroll.devices[r])
  }

  /** The next call can be made, and it brings the request closer to its end. */
  predicate Advances(s: State, r: Id, desk: Option<Origin>)
    requires Ready(s, r, desk)
  {
    && Enabled(s, Enroll(Next(s, r)))
    && var s' := Apply(s, Enroll(Next(s, r)));
       Ready(s', r, desk) && Remaining(s'.enroll.enrolls[r].pc) < Remaining(s.enroll.enrolls[r].pc)
  }

  lemma ClaimAdvances(s: State, r: Id, desk: Option<Origin>)
    requires Inv(s) && Ready(s, r, desk) && s.enroll.enrolls[r].pc.Validating?
    ensures Advances(s, r, desk)
  {
    ClaimOutcome(s.enroll, r, Confirmed);
  }

  lemma CreationAdvances(s: State, r: Id, desk: Option<Origin>)
    requires Inv(s) && Ready(s, r, desk) && s.enroll.enrolls[r].pc.CreatingDevice?
    ensures Advances(s, r, desk)
  {
  }

  lemma IssueAdvances(s: State, r: Id, desk: Option<Origin>)
    requires Inv(s) && Ready(s, r, desk) && s.enroll.enrolls[r].pc.IssuingKey?
    ensures Advances(s, r, desk)
  {
  }

  lemma StoreAdvances(s: State, r: Id, desk: Option<Origin>)
    requires Inv(s) && Ready(s, r, desk) && s.enroll.enrolls[r].pc.StoringToken?
    ensures Advances(s, r, desk)
  {
  }

  lemma ReservationAdvances(s: State, r: Id, desk: Option<Origin>)
    requires Inv(s) && Ready(s, r, desk) && s.enroll.enrolls[r].pc.Reserving?
    ensures Advances(s, r, desk)
  {
    var key := DeskKey(s.enroll.enrolls[r].org);
    assert EI.EnrollOk(s.enroll, r);
    ReservationOutcome(s, Next(s, r));
    if key in s.bind.rows && s.bind.rows[key].status.Active? {
      assert SB.RowOk(s.bind, key);
      assert SB.ProbeOk(s.bind, SB.Sighting(SB.At(s.bind.rows[key]), s.bind.rows[key].config));
    }
  }

  lemma ReadAdvances(s: State, r: Id, desk: Option<Origin>)
    requires Inv(s) && Ready(s, r, desk) && s.enroll.enrolls[r].pc.ReadingSecret?
    ensures Advances(s, r, desk)
  {
  }

  lemma RegistrationAdvances(s: State, r: Id, desk: Option<Origin>)
    requires Inv(s) && Ready(s, r, desk) && s.enroll.enrolls[r].pc.Registering?
    ensures Advances(s, r, desk)
  {
  }

  lemma MarkAdvances(s: State, r: Id, desk: Option<Origin>)
    requires Inv(s) && Ready(s, r, desk) && s.enroll.enrolls[r].pc.MarkingProvisioned?
    ensures Advances(s, r, desk)
  {
    assert EI.EnrollOk(s.enroll, r);
  }

  lemma NextAdvances(s: State, r: Id, desk: Option<Origin>)
    requires Inv(s) && Ready(s, r, desk) && !s.enroll.enrolls[r].pc.Returning?
    ensures Advances(s, r, desk)
  {
    match s.enroll.enrolls[r].pc
    case Validating => ClaimAdvances(s, r, desk);
    case CreatingDevice => CreationAdvances(s, r, desk);
    case IssuingKey => IssueAdvances(s, r, desk);
    case StoringToken => StoreAdvances(s, r, desk);
    case Reserving => ReservationAdvances(s, r, desk);
    case ReadingSecret(_, _) => ReadAdvances(s, r, desk);
    case Registering(_) => RegistrationAdvances(s, r, desk);
    case MarkingProvisioned(_) => MarkAdvances(s, r, desk);
  }

  lemma ReturnDelivers(s: State, r: Id, desk: Option<Origin>)
    requires Inv(s) && Ready(s, r, desk) && s.enroll.enrolls[r].pc.Returning?
    ensures Enabled(s, Enroll(Next(s, r))) && Delivered(Apply(s, Enroll(Next(s, r))), r, desk)
  {
    assert EI.EnrollOk(s.enroll, r);
  }

  /** All of the actions are calls of request r, and each is confirmed. */
  predicate OwnConfirmed(actions: seq<Action>, r: Id) {
    forall a <- actions :: Own(a, r) && Succeeds(a.e)
  }

  lemma NextIsOwn(s: State, r: Id)
    requires r in s.enroll.enrolls && Forward(s.enroll.enrolls[r].pc)
    ensures Own(Enroll(Next(s, r)), r) && Succeeds(Next(s, r))
  {
  }

  lemma StartIsReady(s: State, r: Id, c: Id, now: nat)
    requires EP.Fresh(s.enroll, r) && Usable(s.enroll, c, now) && OfferStored(s, s.enroll.codes[c].org)
    ensures Enabled(s, Enroll(EP.StartEnroll(r, c, now)))
    ensures Ready(Apply(s, Enroll(EP.StartEnroll(r, c, now))), r, Offer(s, s.enroll.codes[c].org))
  {
  }

  lemma {:induction false} Prefix(s: State, a: Action, rest: seq<Action>)
    requires Enabled(s, a) && Legal(Apply(s, a), rest)
    ensures Legal(s, [a] + rest) && Run(s, [a] + rest) == Run(Apply(s, a), rest)
  {
    assert ([a] + rest)[1..] == rest;
  }

  lemma {:induction false} Finishes(s: State, r: Id, desk: Option<Origin>) returns (actions: seq<Action>)
    requires Inv(s) && Ready(s, r, desk)
    ensures Legal(s, actions) && OwnConfirmed(actions, r) && Delivered(Run(s, actions), r, desk)
    decreases Remaining(s.enroll.enrolls[r].pc)
  {
    var a := Enroll(Next(s, r));
    var rest := [];
    if s.enroll.enrolls[r].pc.Returning? {
      ReturnDelivers(s, r, desk);
    } else {
      NextAdvances(s, r, desk);
      StepKeepsInv(s, a);
      rest := Finishes(Apply(s, a), r, desk);
    }
    NextIsOwn(s, r);
    Prefix(s, a, rest);
    actions := [a] + rest;
  }

  /** From every reachable state, a new request with a usable code can succeed without anybody else's help: with
      an installation on the Desk that its organization is offered, unless the credential for that is missing, and
      without one if nothing is offered. */
  lemma UsableCodeCanBeRedeemed(s: State, r: Id, c: Id, now: nat) returns (actions: seq<Action>)
    requires Reachable(s) && EP.Fresh(s.enroll, r) && Usable(s.enroll, c, now)
    requires OfferStored(s, s.enroll.codes[c].org)
    ensures Legal(s, [Enroll(EP.StartEnroll(r, c, now))] + actions) && OwnConfirmed(actions, r)
    ensures Delivered(Run(s, [Enroll(EP.StartEnroll(r, c, now))] + actions), r, Offer(s, s.enroll.codes[c].org))
  {
    ReachableInv(s);
    var a := Enroll(EP.StartEnroll(r, c, now));
    StartIsReady(s, r, c, now);
    StepKeepsInv(s, a);
    actions := Finishes(Apply(s, a), r, Offer(s, s.enroll.codes[c].org));
    Prefix(s, a, actions);
  }
}
