/**
  What a lost acknowledgement of the database can do that nothing else can: a statement or transaction that
  commits while its caller sees an error. Two statements matter, the creation of a device row
  (src/enroll/enroll.service.ts) and the transaction of an upsert that stores a credential
  (src/service-bindings/service-bindings.service.ts).
 */
module LostAcknowledgements {
  import opened Wrappers
  import opened ControlPlane
  import opened ControlPlaneTheorems
  import opened DeviceRevocation
  import SB = ServiceBindings
  import EP = EnrollmentProtocol
  import EI = EnrollmentInvariant

  const DESK := "d"
  const OWNER := "o"
  const CODE := EP.Code(7, OWNER, 100, None, None)
  const NO_BINDINGS := SB.State(map[], {}, map[], map[], map[], {})
  const ONE_CODE := EP.State(map[0 := CODE], map[], map[], {}, {}, {}, map[], map[])

  function Start(): (s: State)
    ensures Reachable(s)
  {
    var s := State(NO_BINDINGS, ONE_CODE, map[]);
    assert Init(s) && Legal(s, []) && Run(s, []) == s;
    s
  }

  lemma Step(s: State, e: EP.Action) returns (s': State)
    requires Reachable(s) && Enabled(s, Enroll(e))
    ensures Reachable(s') && s' == s.(enroll := EP.Apply(s.enroll, e))
  {
    StepReaches(s, Enroll(e));
    s' := Apply(s, Enroll(e));
  }

  lemma BindStep(s: State, b: SB.Action) returns (s': State)
    requires Reachable(s) && Enabled(s, Bind(b))
    ensures Reachable(s') && s' == s.(bind := SB.Apply(s.bind, b))
  {
    StepReaches(s, Bind(b));
    s' := Apply(s, Bind(b));
  }

  // ---------------------------------------------------------------- a row that outlives its code

  const STARTED := EP.Enroll(0, 0, 0, "", false, false, false, false, false, EP.Validating)
  const CLAIMED := EP.Enroll(0, 0, 7, OWNER, true, false, false, false, false, EP.CreatingDevice)
  const UNSEEN := CLAIMED.(unseen := true)
  const USED := CODE.(usedAt := Some(0), holder := Some(5))
  const ROW := EP.Device(7, Some(0), false, false, None, false, false, None)

  /** One code, at most one row and the enrollment of request 5, before anything remote has happened. */
  function Local(code: EP.Code, devices: map<Id, EP.Device>, e: EP.Enroll): (s: EP.State) {
    EP.State(map[0 := code], devices, map[], {}, {}, {}, map[5 := e], map[])
  }

  lemma Starts(s: State) returns (s': State)
    requires Reachable(s)
    requires s.enroll == ONE_CODE
    ensures Reachable(s')
    ensures s' == s.(enroll := Local(CODE, map[], STARTED))
  {
    s' := Step(s, EP.StartEnroll(5, 0, 0));
  }

  lemma Claims(s: State) returns (s': State)
    requires Reachable(s)
    requires s.enroll == Local(CODE, map[], STARTED)
    ensures Reachable(s')
    ensures s' == s.(enroll := Local(USED, map[], CLAIMED))
  {
    assert EP.StepClaim(s.enroll, 5, Confirmed) == Local(USED, map[], CLAIMED);
    s' := Step(s, EP.ClaimCode(5, Confirmed));
  }

  lemma CreatesUnseen(s: State) returns (s': State)
    requires Reachable(s)
    requires s.enroll == Local(USED, map[], CLAIMED)
    ensures Reachable(s')
    ensures s' == s.(enroll := Local(USED, map[5 := ROW], UNSEEN.(pc := EP.CleaningKey(true))))
  {
    assert EP.StepCreate(s.enroll, 5, Lost) == Local(USED, map[5 := ROW], UNSEEN.(pc := EP.CleaningKey(true)));
    s' := Step(s, EP.CreateDevice(5, Lost));
  }

  lemma CleansKey(s: State) returns (s': State)
    requires Reachable(s)
    requires s.enroll == Local(USED, map[5 := ROW], UNSEEN.(pc := EP.CleaningKey(true)))
    ensures Reachable(s')
    ensures s' == s.(enroll := Local(USED, map[5 := ROW], UNSEEN.(pc := EP.CleaningDevice(true, true))))
  {
    assert EP.StepCleanKey(s.enroll, 5, Refused) ==
           Local(USED, map[5 := ROW], UNSEEN.(pc := EP.CleaningDevice(true, true)));
    s' := Step(s, EP.CleanKey(5, Refused));
  }

  lemma CleansNoDevice(s: State) returns (s': State)
    requires Reachable(s)
    requires s.enroll == Local(USED, map[5 := ROW], UNSEEN.(pc := EP.CleaningDevice(true, true)))
    ensures Reachable(s')
    ensures s' == s.(enroll := Local(USED, map[5 := ROW], UNSEEN.(pc := EP.CleaningCode(true, true, true))))
  {
    assert EP.StepCleanDevice(s.enroll, 5, Refused) ==
           Local(USED, map[5 := ROW], UNSEEN.(pc := EP.CleaningCode(true, true, true)));
    s' := Step(s, EP.CleanDevice(5, Refused));
  }

  lemma ReleasesCode(s: State) returns (s': State)
    requires Reachable(s)
    requires s.enroll == Local(USED, map[5 := ROW], UNSEEN.(pc := EP.CleaningCode(true, true, true)))
    ensures Reachable(s') && s'.enroll.devices == map[5 := ROW] && s'.enroll.codes == map[0 := CODE]
    ensures 5 in s'.enroll.enrolls && s'.enroll.enrolls[5].unseen
  {
    assert EP.StepCleanCode(s.enroll, 5, Confirmed).codes == map[0 := CODE];
    s' := Step(s, EP.CleanCode(5, Confirmed));
  }

  /** The row of request 5 is created, but the enrollment does not learn of it: it releases the code. */
  lemma UnseenRowOutlivesCode() returns (s: State)
    ensures Reachable(s) && 5 in s.enroll.devices && s.enroll.devices[5].code == Some(0) && Unseen(s, 5)
    ensures 0 in s.enroll.codes && s.enroll.codes[0].usedAt.None?
  {
    s := Start();
    s := Starts(s);
    s := Claims(s);
    s := CreatesUnseen(s);
    s := CleansKey(s);
    s := CleansNoDevice(s);
    s := ReleasesCode(s);
  }

  // ---------------------------------------------------------------- a stranded installation

  const KEY := SB.Key(7, SB.DeskTasks)
  const SETTINGS := SB.Settings("", "", None, None, None, 1)
  const CONFIG := SB.Config(DESK, Some(1), SETTINGS)
  const UPSERT := SB.Upsert(KEY, DESK, SETTINGS, None, true, false, SB.Committing)
  const REGRETTED := UPSERT.(unseen := true, pc := SB.Dropping(1))
  const BINDING := SB.Binding(1, CONFIG, SB.PendingVerification, 1)
  const CONFIGS := map[SB.Version(1, 1) := CONFIG]
  const PROBED := SB.Sighting(SB.Version(1, 1), CONFIG)

  /** The binding after the lost upsert, with the verification of request 2. */
  function Bound(status: SB.Status, secrets: set<(Org, Id)>, verifies: map<Id, SB.Verify>, probes: set<SB.Sighting>)
    : (s: SB.State)
  {
    SB.State(map[KEY := BINDING.(status := status)], secrets, map[1 := REGRETTED], verifies, CONFIGS, probes)
  }

  function Verifying(pc: SB.VerifyPc): (verifies: map<Id, SB.Verify>) {
    map[2 := SB.Verify(KEY, BINDING, pc)]
  }

  lemma Stores(s: State) returns (s': State)
    requires Reachable(s)
    requires s.bind == NO_BINDINGS
    ensures Reachable(s')
    ensures s' == s.(bind := SB.State(map[], {(7, 1)}, map[1 := UPSERT], map[], map[], {}))
  {
    s' := BindStep(s, SB.StartUpsert(1, UPSERT));
  }

  lemma CommitsUnheard(s: State) returns (s': State)
    requires Reachable(s) && s.enroll == ONE_CODE
    requires s.bind == SB.State(map[], {(7, 1)}, map[1 := UPSERT], map[], map[], {})
    ensures Reachable(s')
    ensures s' == s.(bind := Bound(SB.PendingVerification, {(7, 1)}, map[], {}))
  {
    s' := BindStep(s, SB.CommitUpsert(1, false, Lost));
  }

  lemma StartsVerifying(s: State) returns (s': State)
    requires Reachable(s)
    requires s.bind == Bound(SB.PendingVerification, {(7, 1)}, map[], {})
    ensures Reachable(s')
    ensures s' == s.(bind := Bound(SB.PendingVerification, {(7, 1)}, Verifying(SB.Probing), {}))
  {
    s' := BindStep(s, SB.StartVerify(2, KEY));
  }

  lemma Probes(s: State) returns (s': State)
    requires Reachable(s)
    requires s.bind == Bound(SB.PendingVerification, {(7, 1)}, Verifying(SB.Probing), {})
    ensures Reachable(s')
    ensures s' == s.(bind := Bound(SB.PendingVerification, {(7, 1)}, Verifying(SB.Settling(true)), {PROBED}))
  {
    s' := BindStep(s, SB.Probe(2, true));
  }

  lemma Activates(s: State) returns (s': State)
    requires Reachable(s)
    requires s.bind == Bound(SB.PendingVerification, {(7, 1)}, Verifying(SB.Settling(true)), {PROBED})
    ensures Reachable(s')
    ensures s' == s.(bind := Bound(SB.Active, {(7, 1)}, Verifying(SB.VerifyDone), {PROBED}))
  {
    s' := BindStep(s, SB.CommitVerify(2, true));
  }

  /** The upsert goes on and removes the credential that the ACTIVE binding refers to. */
  lemma Drops(s: State) returns (s': State)
    requires Reachable(s) && s.bind == Bound(SB.Active, {(7, 1)}, Verifying(SB.VerifyDone), {PROBED})
    ensures Reachable(s') && s'.enroll == s.enroll && s'.legacy == s.legacy
    ensures s'.bind.secrets == {}
  {
    s' := BindStep(s, SB.DropSecret(1, true));
  }

  /** The binding becomes ACTIVE although the upsert that wrote it is about to remove its credential. */
  lemma LostUpsertActivates() returns (s: State)
    ensures Reachable(s) && s.enroll == ONE_CODE
    ensures s.bind == Bound(SB.Active, {(7, 1)}, Verifying(SB.VerifyDone), {PROBED})
  {
    s := Start();
    s := Stores(s);
    s := CommitsUnheard(s);
    s := StartsVerifying(s);
    s := Probes(s);
    s := Activates(s);
  }

  const CREATED := CLAIMED.(created := true)
  const ISSUED := CREATED.(issued := true)
  const PREPARED := ISSUED.(prepared := true)
  const TOKENS := map[5 := EP.Token(5, 5, false)]
  const PENDING :=
    ROW.(cleanupPending := true, provenance := Some(EP.Provenance(OWNER, DESK)), reservedWith := Some(1))
  const PROVISIONED := PENDING.(provisioned := true, cleanupPending := false)

  /** From the key on: the row, the live installations and the enrollment of request 5. */
  function Remote(row: EP.Device, tokens: map<Id, EP.Token>, live: set<(Id, Origin)>, e: EP.Enroll): (s: EP.State) {
    EP.State(map[0 := USED], map[5 := row], tokens, {5}, live, live, map[5 := e], map[])
  }

  lemma Creates(s: State) returns (s': State)
    requires Reachable(s)
    requires s.enroll == Local(USED, map[], CLAIMED)
    ensures Reachable(s')
    ensures s' == s.(enroll := Local(USED, map[5 := ROW], CREATED.(pc := EP.IssuingKey)))
  {
    assert EP.StepCreate(s.enroll, 5, Confirmed) == Local(USED, map[5 := ROW], CREATED.(pc := EP.IssuingKey));
    s' := Step(s, EP.CreateDevice(5, Confirmed));
  }

  lemma Issues(s: State) returns (s': State)
    requires Reachable(s)
    requires s.enroll == Local(USED, map[5 := ROW], CREATED.(pc := EP.IssuingKey))
    ensures Reachable(s')
    ensures s' == s.(enroll := Remote(ROW, map[], {}, ISSUED.(pc := EP.StoringToken)))
  {
    assert EP.StepIssue(s.enroll, 5, true) == Remote(ROW, map[], {}, ISSUED.(pc := EP.StoringToken));
    s' := Step(s, EP.IssueKey(5, true));
  }

  lemma StoresToken(s: State) returns (s': State)
    requires Reachable(s)
    requires s.enroll == Remote(ROW, map[], {}, ISSUED.(pc := EP.StoringToken))
    ensures Reachable(s')
    ensures s' == s.(enroll := Remote(ROW, TOKENS, {}, ISSUED.(pc := EP.Reserving)))
  {
    assert EP.StepStore(s.enroll, 5, Confirmed) == Remote(ROW, TOKENS, {}, ISSUED.(pc := EP.Reserving));
    s' := Step(s, EP.StoreToken(5, Confirmed));
  }

  lemma Reserves(s: State) returns (s': State)
    requires Reachable(s) && s.bind == Bound(SB.Active, {(7, 1)}, Verifying(SB.VerifyDone), {PROBED})
    requires s.enroll == Remote(ROW, TOKENS, {}, ISSUED.(pc := EP.Reserving))
    ensures Reachable(s')
    ensures s' == s.(enroll := Remote(PENDING, TOKENS, {}, ISSUED.(pc := EP.ReadingSecret(DESK, 1))))
  {
    assert EP.StepReserve(s.enroll, 5, Confirmed, EP.Managed(DESK, 1)) ==
           Remote(PENDING, TOKENS, {}, ISSUED.(pc := EP.ReadingSecret(DESK, 1)));
    s' := Step(s, EP.Reserve(5, Confirmed, EP.Managed(DESK, 1)));
  }

  lemma Reads(s: State) returns (s': State)
    requires Reachable(s) && s.bind == Bound(SB.Active, {(7, 1)}, Verifying(SB.VerifyDone), {PROBED})
    requires s.enroll == Remote(PENDING, TOKENS, {}, ISSUED.(pc := EP.ReadingSecret(DESK, 1)))
    ensures Reachable(s')
    ensures s' == s.(enroll := Remote(PENDING, TOKENS, {}, PREPARED.(pc := EP.Registering(DESK))))
  {
    assert EP.StepReadSecret(s.enroll, 5, true) == Remote(PENDING, TOKENS, {}, PREPARED.(pc := EP.Registering(DESK)));
    s' := Step(s, EP.ReadSecret(5, true));
  }

  lemma Registers(s: State) returns (s': State)
    requires Reachable(s)
    requires s.enroll == Remote(PENDING, TOKENS, {}, PREPARED.(pc := EP.Registering(DESK)))
    ensures Reachable(s')
    ensures s' == s.(enroll := Remote(PENDING, TOKENS, {(5, DESK)}, PREPARED.(pc := EP.MarkingProvisioned(DESK))))
  {
    assert EP.StepRegister(s.enroll, 5, Confirmed) ==
           Remote(PENDING, TOKENS, {(5, DESK)}, PREPARED.(pc := EP.MarkingProvisioned(DESK)));
    s' := Step(s, EP.Register(5, Confirmed));
  }

  lemma Marks(s: State) returns (s': State)
    requires Reachable(s)
    requires s.enroll == Remote(PENDING, TOKENS, {(5, DESK)}, PREPARED.(pc := EP.MarkingProvisioned(DESK)))
    ensures Reachable(s')
    ensures s' == s.(enroll := Remote(PROVISIONED, TOKENS, {(5, DESK)}, PREPARED.(pc := EP.Returning(Some(DESK)))))
  {
    assert EP.StepMark(s.enroll, 5, Confirmed) ==
           Remote(PROVISIONED, TOKENS, {(5, DESK)}, PREPARED.(pc := EP.Returning(Some(DESK))));
    s' := Step(s, EP.MarkProvisioned(5, Confirmed));
  }

  lemma Returns(s: State) returns (s': State)
    requires Reachable(s)
    requires s.enroll == Remote(PROVISIONED, TOKENS, {(5, DESK)}, PREPARED.(pc := EP.Returning(Some(DESK))))
    ensures Reachable(s')
    ensures s' == s.(enroll := Remote(PROVISIONED, TOKENS, {(5, DESK)}, PREPARED.(pc := EP.Succeeded)))
  {
    assert EP.StepReturn(s.enroll, 5, true) ==
           Remote(PROVISIONED, TOKENS, {(5, DESK)}, PREPARED.(pc := EP.Succeeded));
    s' := Step(s, EP.Return(5, true));
  }

  lemma ProvisionsOnIt(s: State) returns (s': State)
    requires Reachable(s) && s.enroll == ONE_CODE
    requires s.bind == Bound(SB.Active, {(7, 1)}, Verifying(SB.VerifyDone), {PROBED})
    ensures Reachable(s') && s'.bind == s.bind
    ensures s'.enroll == Remote(PROVISIONED, TOKENS, {(5, DESK)}, PREPARED.(pc := EP.Succeeded))
  {
    s' := Starts(s);
    s' := Claims(s');
    s' := Creates(s');
    s' := Issues(s');
    s' := StoresToken(s');
    s' := Reserves(s');
    s' := Reads(s');
    s' := Registers(s');
    s' := Marks(s');
    s' := Returns(s');
  }

  /** An enrollment registers an installation on that binding and succeeds; then the credential is removed. */
  lemma LostUpsertStrands() returns (s: State)
    ensures Reachable(s) && Stranded(s, 5) && (5, DESK) in s.enroll.live
    ensures 5 in s.enroll.enrolls && s.enroll.enrolls[5].pc.Succeeded?
  {
    s := LostUpsertActivates();
    s := ProvisionsOnIt(s);
    s := Drops(s);
  }

  /** A provisioned or pending device whose enrollment has ended, whose credential is gone, and no revocation of
      which has got past looking the credential up. */
  ghost predicate Stranded(s: State, d: Id) {
    && d in s.enroll.devices && EP.Flagged(s.enroll.devices[d]) && EP.EnrollmentEnded(s.enroll, d)
    && !s.enroll.devices[d].revocationCompleted && !Stored(s, s.enroll.devices[d])
    && NotPastLookup(s.enroll, d)
  }

  ghost predicate NotPastLookup(s: EP.State, d: Id) {
    forall v <- s.revokes :: s.revokes[v].device == d ==> !s.revokes[v].pc.RevokingDesk? && !s.revokes[v].pc.Completing?
  }

  lemma BindKeepsStranded(s: State, b: SB.Action, d: Id)
    requires Inv(s) && Enabled(s, Bind(b)) && Stranded(s, d)
    ensures Stranded(Apply(s, Bind(b)), d)
  {
    var row := s.enroll.devices[d];
    assert Locked(s, row);
    assert SB.RowOk(s.bind, DeskKey(row.org));
  }

  lemma EnrollKeepsStranded(s: EP.State, s': EP.State, r: Id, d: Id)
    requires EI.Inv(s) && EI.Touches(s, s', r) && r in s.enrolls && !EP.Ended(s.enrolls[r].pc)
    requires d in s.devices && EP.EnrollmentEnded(s, d) && NotPastLookup(s, d)
    ensures d in s'.devices && s'.devices[d] == s.devices[d] && EP.EnrollmentEnded(s', d) && NotPastLookup(s', d)
    ensures forall o :: (d, o) in s.live ==> (d, o) in s'.live
  {
    assert d != r;
  }

  /** A revocation that looks up the credential of a stranded device fails. */
  lemma LookupFails(s: State, v: Id)
    requires Inv(s) && v in s.enroll.revokes && s.enroll.revokes[v].pc.RevokingKeys?
    requires s.enroll.revokes[v].pc.todo == [] && Stranded(s, s.enroll.revokes[v].device)
    ensures !Enabled(s, Enroll(EP.ResolveDesk(v, true))) && s.enroll.revokes[v].pc.desk
  {
    var d := s.enroll.revokes[v].device;
    assert EI.RevokeOk(s.enroll, v);
    assert Locked(s, s.enroll.devices[d]);
  }

  /** The step neither completes the revocation of d nor gets past the lookup, and it leaves the Desk alone. */
  ghost predicate Stalls(s: EP.State, s': EP.State, v: Id, d: Id) {
    && d in s.devices && d in s'.devices && v in s'.revokes
    && s'.devices[d].provisioned == s.devices[d].provisioned
    && s'.devices[d].cleanupPending == s.devices[d].cleanupPending
    && !s'.revokes[v].pc.RevokingDesk? && !s'.revokes[v].pc.Completing?
    && !s'.devices[d].revocationCompleted && s'.live == s.live
  }

  lemma EarlyStepStalls(s: EP.State, e: EP.Action, d: Id)
    requires EP.Enabled(s, e) && (e.CommitIntent? || e.LoadDevice? || e.RevokeKey?)
    requires d in s.devices && s.revokes[e.v].device == d && !s.devices[d].revocationCompleted
    ensures Stalls(s, EP.Apply(s, e), e.v, d)
  {
  }

  lemma FailedLookupStalls(s: EP.State, v: Id, d: Id)
    requires v in s.revokes && s.revokes[v].pc.RevokingKeys? && s.revokes[v].pc.desk
    requires d in s.devices && s.revokes[v].device == d && !s.devices[d].revocationCompleted
    ensures Stalls(s, EP.StepResolve(s, v, false), v, d)
  {
  }

  lemma OwnRevocationStalls(s: State, e: EP.Action, d: Id)
    requires Inv(s) && Enabled(s, Enroll(e)) && EI.RevokeStep(e) && Stranded(s, d)
    requires s.enroll.revokes[e.v].device == d
    ensures Stalls(s.enroll, EP.Apply(s.enroll, e), e.v, d)
  {
    if e.ResolveDesk? {
      LookupFails(s, e.v);
      FailedLookupStalls(s.enroll, e.v, d);
    } else {
      EarlyStepStalls(s.enroll, e, d);
    }
  }

  /** A revocation step of another device, or one that stalls, leaves the device as it was. */
  lemma RevokedElsewhere(s: EP.State, s': EP.State, v: Id, x: Id, d: Id)
    requires EI.RevokeTouches(s, s', v, x) && d in s.devices && EP.EnrollmentEnded(s, d) && NotPastLookup(s, d)
    requires x == d ==> Stalls(s, s', v, d)
    ensures d in s'.devices && EP.EnrollmentEnded(s', d) && NotPastLookup(s', d)
    ensures s'.devices[d].org == s.devices[d].org && s'.devices[d].reservedWith == s.devices[d].reservedWith
    ensures EP.Flagged(s'.devices[d]) <==> EP.Flagged(s.devices[d])
    ensures s'.devices[d].revocationCompleted ==> s.devices[d].revocationCompleted || x == d
    ensures forall o :: (d, o) in s.live ==> (d, o) in s'.live
  {
  }

  lemma RevokeKeepsStranded(s: State, e: EP.Action, d: Id)
    requires Inv(s) && Enabled(s, Enroll(e)) && EI.RevokeStep(e) && Stranded(s, d)
    ensures Stranded(Apply(s, Enroll(e)), d)
    ensures forall o :: (d, o) in s.enroll.live ==> (d, o) in Apply(s, Enroll(e)).enroll.live
  {
    EI.RevokeStepKeepsInv(s.enroll, e);
    var x := s.enroll.revokes[e.v].device;
    if x == d { OwnRevocationStalls(s, e, d); }
    RevokedElsewhere(s.enroll, EP.Apply(s.enroll, e), e.v, x, d);
  }

  lemma StepKeepsStranded(s: State, a: Action, d: Id, o: Origin)
    requires Inv(s) && Enabled(s, a) && Stranded(s, d)
    ensures Stranded(Apply(s, a), d)
    ensures (d, o) in s.enroll.live ==> (d, o) in Apply(s, a).enroll.live
  {
    match a
    case Bind(b) => BindKeepsStranded(s, b, d);
    case Enroll(e) =>
      if EI.EnrollStep(e) {
        EI.OnlyRunningEnrollmentsStep(s.enroll, e);
        EI.EnrollStepKeepsInv(s.enroll, e);
        EnrollKeepsStranded(s.enroll, EP.Apply(s.enroll, e), e.r, d);
      } else if EI.RevokeStep(e) {
        RevokeKeepsStranded(s, e, d);
      } else if e.PersistCleanup? {
        EI.ReservationPrecedesRegistration(s.enroll, e.r);
        assert false;
      }
  }

  /** A stranded device stays stranded in every run: its revocation never completes and its installation is
      never revoked, whatever anybody does. */
  lemma {:induction false} StrandedForever(s: State, actions: seq<Action>, d: Id, o: Origin)
    requires Inv(s) && Legal(s, actions) && Stranded(s, d)
    ensures Stranded(Run(s, actions), d)
    ensures (d, o) in s.enroll.live ==> (d, o) in Run(s, actions).enroll.live
    decreases |actions|
  {
    if actions != [] {
      StepKeepsStranded(s, actions[0], d, o);
      StepKeepsInv(s, actions[0]);
      StrandedForever(Apply(s, actions[0]), actions[1..], d, o);
    }
  }

  ghost predicate CanComplete(s: State, v: Id, d: Id) {
    exists actions, s' :: CooperativeRun(s, actions, v, s') && Completed(s', d)
  }

  /** So a fresh revocation of a device whose enrollment has ended, and which no other revocation is finishing,
      can complete exactly when there is no installation to revoke or the credential for it is stored. */
  lemma RetryNeedsCredential(s: State, v: Id, d: Id)
    requires Reachable(s) && v !in s.enroll.revokes && d in s.enroll.devices && EP.EnrollmentEnded(s.enroll, d)
    requires !Completed(s, d) && NotPastLookup(s.enroll, d)
    ensures CanComplete(s, v, d) <==> StoredFor(s, d)
  {
    ReachableInv(s);
    if StoredFor(s, d) {
      var actions, s' := RetryCompletes(s, v, d);
    } else {
      forall actions, s' | CooperativeRun(s, actions, v, s') ensures !Completed(s', d) {
        StrandedForever(s, actions, d, "");
      }
    }
  }
}
