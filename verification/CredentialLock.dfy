/**
  How long the credential of an installation is kept (src/service-bindings/service-bindings.service.ts): the
  binding lock pins the reference on the row, but the secret behind it is dropped by whichever upsert has to
  clean up.
 */
module CredentialLock {
  import opened Wrappers
  import opened ControlPlane
  import opened ControlPlaneTheorems
  import SB = ServiceBindings
  import EP = EnrollmentProtocol
  import EI = EnrollmentInvariant

  predicate Flagged(s: State, d: Id) {
    d in s.enroll.devices && EP.Flagged(s.enroll.devices[d])
  }

  /** The device is provisioned or pending in every state of the run. */
  predicate StaysFlagged(s: State, actions: seq<Action>, d: Id)
    requires Legal(s, actions)
    decreases |actions|
  {
    Flagged(s, d) && (actions == [] || StaysFlagged(Apply(s, actions[0]), actions[1..], d))
  }

  lemma {:induction false} FlaggedAtTheEnd(s: State, actions: seq<Action>, d: Id)
    requires Legal(s, actions) && StaysFlagged(s, actions, d)
    ensures Flagged(Run(s, actions), d)
    decreases |actions|
  {
    if actions != [] { FlaggedAtTheEnd(Apply(s, actions[0]), actions[1..], d); }
  }

  /** The upsert that stored the credential still has to remove it. */
  predicate AboutToDrop(s: SB.State, c: Id) {
    c in s.upserts && s.upserts[c].pc == SB.Dropping(c)
  }

  predicate Threatened(s: State, row: EP.Device) {
    row.reservedWith.Some? && AboutToDrop(s.bind, row.reservedWith.value)
  }

  /** No binding step removes a stored credential that a row refers to, save the removal its own upsert owes. */
  lemma SecretStays(s: SB.State, b: SB.Action, key: SB.Key, c: Id)
    requires SB.Inv(s) && SB.Enabled(s, b) && key in s.rows && s.rows[key].config.credential == Some(c)
    requires (key.org, c) in s.secrets && !AboutToDrop(s, c)
    ensures (key.org, c) in SB.Apply(s, b).secrets && !AboutToDrop(SB.Apply(s, b), c)
  {
    assert SB.RowOk(s, key);
    if b.DropSecret? { assert SB.UpsertOk(s, b.u); }
  }

  /** A row that is flagged before and after a step keeps its organization and its reserved credential. */
  lemma ReservationStays(s: EP.State, a: EP.Action, d: Id)
    requires EI.Inv(s) && EP.Enabled(s, a) && d in s.devices && EP.Flagged(s.devices[d])
    requires d in EP.Apply(s, a).devices && EP.Flagged(EP.Apply(s, a).devices[d])
    ensures EP.Apply(s, a).devices[d].org == s.devices[d].org
    ensures EP.Apply(s, a).devices[d].reservedWith == s.devices[d].reservedWith
  {
    if EI.EnrollStep(a) {
      EI.EnrollStepKeepsInv(s, a);
      assert EI.EnrollOk(s, a.r);
      if a.r == d && !a.Reserve? { FlaggedRowKept(s, a); }
    } else if EI.RevokeStep(a) {
      EI.RevokeStepKeepsInv(s, a);
    } else if a.PersistCleanup? {
      EI.ReservationPrecedesRegistration(s, a.r);
      assert false;
    }
  }

  lemma StepKeepsStored(s: State, a: Action, d: Id)
    requires Inv(s) && Enabled(s, a) && Flagged(s, d) && Flagged(Apply(s, a), d)
    requires Stored(s, s.enroll.devices[d]) && !Threatened(s, s.enroll.devices[d])
    ensures var s' := Apply(s, a); Stored(s', s'.enroll.devices[d]) && !Threatened(s', s'.enroll.devices[d])
  {
    var row := s.enroll.devices[d];
    match a
    case Bind(b) =>
      assert Locked(s, row);
      if row.reservedWith.Some? { SecretStays(s.bind, b, DeskKey(row.org), row.reservedWith.value); }
    case Enroll(e) => ReservationStays(s.enroll, e, d);
  }

  lemma {:induction false} RunKeepsStored(s: State, actions: seq<Action>, d: Id)
    requires Inv(s) && Legal(s, actions) && StaysFlagged(s, actions, d)
    requires Stored(s, s.enroll.devices[d]) && !Threatened(s, s.enroll.devices[d])
    ensures Flagged(Run(s, actions), d) && Stored(Run(s, actions), Run(s, actions).enroll.devices[d])
    decreases |actions|
  {
    if actions != [] {
      StepKeepsStored(s, actions[0], d);
      StepKeepsInv(s, actions[0]);
      RunKeepsStored(Apply(s, actions[0]), actions[1..], d);
    }
  }

  /** In every run in which the device stays provisioned or pending, its credential is stored. */
  ghost predicate AlwaysStored(s: State, d: Id) {
    forall actions {:trigger Run(s, actions)} | Legal(s, actions) && StaysFlagged(s, actions, d) ::
      Flagged(Run(s, actions), d) && Stored(Run(s, actions), Run(s, actions).enroll.devices[d])
  }

  lemma ThreatIsCarriedOut(s: State, d: Id)
    requires Inv(s) && Flagged(s, d) && Threatened(s, s.enroll.devices[d])
    ensures !AlwaysStored(s, d)
  {
    var row := s.enroll.devices[d];
    var c := row.reservedWith.value;
    assert Locked(s, row);
    assert SB.RowOk(s.bind, DeskKey(row.org));
    var a := Bind(SB.DropSecret(c, true));
    var s' := Apply(s, a);
    assert [a][1..] == [] && Legal(s', []) && Run(s', []) == s' && StaysFlagged(s', [], d);
    assert Legal(s, [a]) && Run(s, [a]) == s' && StaysFlagged(s, [a], d);
  }

  /** From every reachable state the credential of a provisioned or pending device stays stored for as long as
      the device is so, in every run, exactly when it is stored now and the upsert that stored it has no
      unfinished removal of it. */
  lemma CredentialStays(s: State, d: Id)
    requires Reachable(s) && Flagged(s, d)
    ensures AlwaysStored(s, d) <==> Stored(s, s.enroll.devices[d]) && !Threatened(s, s.enroll.devices[d])
  {
    ReachableInv(s);
    var row := s.enroll.devices[d];
    if !Stored(s, row) {
      assert Legal(s, []) && Run(s, []) == s && StaysFlagged(s, [], d);
    } else if Threatened(s, row) {
      ThreatIsCarriedOut(s, d);
    } else {
      forall actions | Legal(s, actions) && StaysFlagged(s, actions, d)
        ensures Flagged(Run(s, actions), d) && Stored(Run(s, actions), Run(s, actions).enroll.devices[d])
      {
        RunKeepsStored(s, actions, d);
      }
    }
  }
}
