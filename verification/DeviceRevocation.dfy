/** What holds of device revocation (revokeDevice in src/admin/admin.service.ts) over every run. */
module DeviceRevocation {
  import opened Wrappers
  import opened ControlPlane
  import opened ControlPlaneTheorems
  import SB = ServiceBindings
  import EP = EnrollmentProtocol
  import EI = EnrollmentInvariant

  predicate Requested(s: State, d: Id) {
    d in s.enroll.devices && s.enroll.devices[d].revocationRequested
  }

  lemma TouchKeepsRequest(s: EP.State, s': EP.State, r: Id, d: Id)
    requires EI.Inv(s) && EI.Touches(s, s', r) && r in s.enrolls && !EP.Ended(s.enrolls[r].pc)
    requires d in s.devices && s.devices[d].revocationRequested
    ensures d in s'.devices && s'.devices[d].revocationRequested
  {
    assert EI.EnrollOk(s, r);
  }

  /** A committed revocation intent is never withdrawn and its device row never disappears. */
  lemma RequestStays(s: State, a: Action, d: Id)
    requires Inv(s) && Enabled(s, a) && Requested(s, d)
    ensures Requested(Apply(s, a), d)
  {
    if a.Enroll? && EI.EnrollStep(a.e) {
      EI.OnlyRunningEnrollmentsStep(s.enroll, a.e);
      EI.EnrollStepKeepsInv(s.enroll, a.e);
      TouchKeepsRequest(s.enroll, EP.Apply(s.enroll, a.e), a.e.r, d);
    } else if a.Enroll? && EI.RevokeStep(a.e) {
      EI.RevokeStepKeepsInv(s.enroll, a.e);
    }
  }

  /** Fail closed: once the intent is committed, every token of the device is revoked in every later
      state of every run, whatever fails remotely. */
  lemma {:induction false} RevocationIsFailClosed(s: State, actions: seq<Action>, d: Id, t: Id)
    requires Inv(s) && Legal(s, actions) && Requested(s, d)
    requires t in Run(s, actions).enroll.tokens && Run(s, actions).enroll.tokens[t].device == d
    ensures Requested(Run(s, actions), d) && Run(s, actions).enroll.tokens[t].revoked
    decreases |actions|
  {
    if actions == [] {
      assert EI.TokenOk(s.enroll, t);
    } else {
      StepKeepsInv(s, actions[0]);
      RequestStays(s, actions[0], d);
      RevocationIsFailClosed(Apply(s, actions[0]), actions[1..], d, t);
    }
  }

  /** Completion is recorded only after every gateway key of the device and any Desk installation of it
      have been revoked remotely, and the Desk columns are cleared with it. */
  lemma CompletionMeansRevoked(s: State, d: Id, t: Id)
    requires Reachable(s) && d in s.enroll.devices && s.enroll.devices[d].revocationCompleted
    ensures !EP.IsLive(s.enroll, d)
    ensures !EP.Flagged(s.enroll.devices[d]) && s.enroll.devices[d].provenance.None?
    ensures t in s.enroll.tokens && s.enroll.tokens[t].device == d ==>
              s.enroll.tokens[t].revoked && s.enroll.tokens[t].key !in s.enroll.keys
  {
    ReachableInv(s);
    assert EI.DeviceOk(s.enroll, d);
    if t in s.enroll.tokens { assert EI.TokenOk(s.enroll, t); }
  }

  /** A step of revocation v in which every database call and every remote call cooperates. */
  predicate Cooperates(a: Action, v: Id) {
    && a.Enroll?
    && match a.e
       case StartRevoke(w, _) => w == v
       case CommitIntent(w, outcome) => w == v && outcome.Confirmed?
       case LoadDevice(w, ok, _) => w == v && ok
       case RevokeKey(w, outcome) => w == v && outcome.Confirmed?
       case ResolveDesk(w, resolved) => w == v && resolved
       case RevokeDesk(w, outcome) => w == v && outcome.Confirmed?
       case Complete(w, outcome) => w == v && outcome.Confirmed?
       case _ => false
  }

  ghost predicate CooperativeRun(s: State, actions: seq<Action>, v: Id, s': State) {
    Legal(s, actions) && (forall a <- actions :: Cooperates(a, v)) && Run(s, actions) == s'
  }

  lemma Prepend(s: State, a: Action, actions: seq<Action>, v: Id, s': State)
    requires Enabled(s, a) && Cooperates(a, v) && CooperativeRun(Apply(s, a), actions, v, s')
    ensures CooperativeRun(s, [a] + actions, v, s')
  {
    assert ([a] + actions)[1..] == actions;
  }

  ghost predicate Completed(s: State, d: Id) {
    d in s.enroll.devices && s.enroll.devices[d].revocationCompleted
  }

  /** There is no Desk installation to revoke, or the credential for it is stored. */
  predicate StoredFor(s: State, d: Id) {
    d in s.enroll.devices && (EP.Flagged(s.enroll.devices[d]) ==> Stored(s, s.enroll.devices[d]))
  }

  lemma FinishCompletes(s: State, v: Id, d: Id) returns (actions: seq<Action>, s': State)
    requires Inv(s) && v in s.enroll.revokes && s.enroll.revokes[v].device == d
    requires s.enroll.revokes[v].pc.Completing?
    ensures CooperativeRun(s, actions, v, s') && Completed(s', d)
  {
    assert EI.RevokeOk(s.enroll, v);
    var a := Enroll(EP.Complete(v, Confirmed));
    s' := Apply(s, a);
    assert CooperativeRun(s', [], v, s');
    Prepend(s, a, [], v, s');
    actions := [a] + [];
  }

  lemma DeskStageCompletes(s: State, v: Id, d: Id) returns (actions: seq<Action>, s': State)
    requires Inv(s) && v in s.enroll.revokes && s.enroll.revokes[v].device == d
    requires s.enroll.revokes[v].pc.RevokingDesk?
    ensures CooperativeRun(s, actions, v, s') && Completed(s', d)
  {
    assert EI.RevokeOk(s.enroll, v);
    var a := Enroll(EP.RevokeDesk(v, Confirmed));
    StepKeepsInv(s, a);
    var rest;
    rest, s' := FinishCompletes(Apply(s, a), v, d);
    Prepend(s, a, rest, v, s');
    actions := [a] + rest;
  }

  /** A revocation whose Desk columns are current finds its target. */
  lemma ResolveCooperates(s: State, v: Id)
    requires Inv(s) && v in s.enroll.revokes
    requires s.enroll.revokes[v].pc.RevokingKeys? && s.enroll.revokes[v].pc.todo == []
    requires Current(s, v) && StoredFor(s, s.enroll.revokes[v].device)
    ensures Enabled(s, Enroll(EP.ResolveDesk(v, true)))
    ensures !Apply(s, Enroll(EP.ResolveDesk(v, true))).enroll.revokes[v].pc.RevokeEnded?
  {
    assert EI.RevokeOk(s.enroll, v);
    var pc := s.enroll.revokes[v].pc;
    var d := s.enroll.revokes[v].device;
    var row := s.enroll.devices[d];
    if pc.desk {
      assert Locked(s, row);
      if DeskKey(row.org) in s.bind.rows { assert SB.RowOk(s.bind, DeskKey(row.org)); }
    }
  }

  /** The Desk columns that revocation v read are the ones on the row. */
  ghost predicate Current(s: State, v: Id)
    requires v in s.enroll.revokes && s.enroll.revokes[v].pc.RevokingKeys?
  {
    var pc, d := s.enroll.revokes[v].pc, s.enroll.revokes[v].device;
    && d in s.enroll.devices && pc.desk == EP.Flagged(s.enroll.devices[d])
    && pc.provenance == s.enroll.devices[d].provenance
  }

  lemma LastStagesComplete(s: State, v: Id, d: Id) returns (actions: seq<Action>, s': State)
    requires Inv(s) && v in s.enroll.revokes && s.enroll.revokes[v].device == d
    requires s.enroll.revokes[v].pc.RevokingKeys? && s.enroll.revokes[v].pc.todo == [] && Current(s, v)
    requires StoredFor(s, d)
    ensures CooperativeRun(s, actions, v, s') && Completed(s', d)
  {
    var a := Enroll(EP.ResolveDesk(v, true));
    ResolveCooperates(s, v);
    StepKeepsInv(s, a);
    var rest;
    if s.enroll.revokes[v].pc.desk {
      rest, s' := DeskStageCompletes(Apply(s, a), v, d);
    } else {
      rest, s' := FinishCompletes(Apply(s, a), v, d);
    }
    Prepend(s, a, rest, v, s');
    actions := [a] + rest;
  }

  lemma {:induction false} KeyStageCompletes(s: State, v: Id, d: Id) returns (actions: seq<Action>, s': State)
    requires Inv(s) && v in s.enroll.revokes && s.enroll.revokes[v].device == d
    requires s.enroll.revokes[v].pc.RevokingKeys? && Current(s, v) && StoredFor(s, d)
    ensures CooperativeRun(s, actions, v, s') && Completed(s', d)
    decreases |s.enroll.revokes[v].pc.todo|
  {
    if s.enroll.revokes[v].pc.todo == [] {
      actions, s' := LastStagesComplete(s, v, d);
    } else {
      var a := Enroll(EP.RevokeKey(v, Confirmed));
      StepKeepsInv(s, a);
      var rest;
      rest, s' := KeyStageCompletes(Apply(s, a), v, d);
      Prepend(s, a, rest, v, s');
      actions := [a] + rest;
    }
  }

  /** The keys of a device's tokens, in some order. */
  lemma {:induction false} ListKeys(s: EP.State, d: Id, todo: set<Id>) returns (keys: seq<Id>)
    requires forall t <- todo :: t in s.tokens && s.tokens[t].device == d
    ensures forall t <- todo :: s.tokens[t].key in keys
    ensures forall k <- keys :: exists t :: t in s.tokens && s.tokens[t] == EP.Token(d, k, s.tokens[t].revoked)
    decreases |todo|
  {
    if todo == {} {
      keys := [];
    } else {
      var t :| t in todo;
      var rest := ListKeys(s, d, todo - {t});
      keys := [s.tokens[t].key] + rest;
    }
  }

  lemma SomeKeys(s: EP.State, d: Id) returns (keys: seq<Id>)
    ensures EP.KeysOf(s, d, keys)
  {
    keys := ListKeys(s, d, set t | t in s.tokens && s.tokens[t].device == d);
  }

  lemma LoadStageCompletes(s: State, v: Id, d: Id) returns (actions: seq<Action>, s': State)
    requires Inv(s) && v in s.enroll.revokes && s.enroll.revokes[v].device == d && s.enroll.revokes[v].pc.Loading?
    requires !Completed(s, d) && StoredFor(s, d)
    ensures CooperativeRun(s, actions, v, s') && Completed(s', d)
  {
    assert EI.RevokeOk(s.enroll, v);
    var keys := SomeKeys(s.enroll, d);
    var a := Enroll(EP.LoadDevice(v, true, keys));
    StepKeepsInv(s, a);
    var rest;
    rest, s' := KeyStageCompletes(Apply(s, a), v, d);
    Prepend(s, a, rest, v, s');
    actions := [a] + rest;
  }

  lemma IntentStageCompletes(s: State, v: Id, d: Id) returns (actions: seq<Action>, s': State)
    requires Inv(s) && v in s.enroll.revokes && s.enroll.revokes[v].device == d && s.enroll.revokes[v].pc.Intending?
    requires !Completed(s, d) && StoredFor(s, d)
    ensures CooperativeRun(s, actions, v, s') && Completed(s', d)
  {
    assert EI.RevokeOk(s.enroll, v);
    var a := Enroll(EP.CommitIntent(v, Confirmed));
    StepKeepsInv(s, a);
    var rest;
    rest, s' := LoadStageCompletes(Apply(s, a), v, d);
    Prepend(s, a, rest, v, s');
    actions := [a] + rest;
  }

  /** Retry-safe: in every reachable state, after any partial failures, a new revocation of a device
      whose enrollment has ended completes if the database, the gateway and the Desk cooperate. */
  lemma RetryCompletes(s: State, v: Id, d: Id) returns (actions: seq<Action>, s': State)
    requires Reachable(s) && v !in s.enroll.revokes
    requires d in s.enroll.devices && EP.EnrollmentEnded(s.enroll, d) && !Completed(s, d)
    requires StoredFor(s, d)
    ensures CooperativeRun(s, actions, v, s') && Completed(s', d)
  {
    ReachableInv(s);
    var a := Enroll(EP.StartRevoke(v, d));
    StepKeepsInv(s, a);
    var s1 := Apply(s, a);
    var rest;
    if Requested(s, d) {
      rest, s' := LoadStageCompletes(s1, v, d);
    } else {
      rest, s' := IntentStageCompletes(s1, v, d);
    }
    Prepend(s, a, rest, v, s');
    actions := [a] + rest;
  }

  // ---------------------------------------------------------------- every cooperative revocation

  /** If the action is a step of revocation v, it cooperates. */
  predicate OwnStepsCooperate(a: Action, v: Id) {
    a.Enroll? && (EI.RevokeStep(a.e) || a.e.StartRevoke?) && a.e.v == v ==> Cooperates(a, v)
  }

  /** Revocation v has not started, or it is under way, or it has ended with its device's completion. */
  ghost predicate OnTrack(s: State, v: Id) {
    v in s.enroll.revokes && s.enroll.revokes[v].pc.RevokeEnded? ==> Completed(s, s.enroll.revokes[v].device)
  }

  lemma EnrollKeepsCompletion(s: EP.State, a: EP.Action, d: Id)
    requires EI.Inv(s) && EP.Enabled(s, a) && EI.EnrollStep(a) && d in s.devices && s.devices[d].revocationCompleted
    ensures d in EP.Apply(s, a).devices && EP.Apply(s, a).devices[d].revocationCompleted
  {
    EI.OnlyRunningEnrollmentsStep(s, a);
    EI.EnrollStepKeepsInv(s, a);
    TouchKeepsCompletion(s, EP.Apply(s, a), a.r, d);
  }

  lemma CompletedStays(s: State, a: Action, d: Id)
    requires Inv(s) && Enabled(s, a) && Completed(s, d)
    ensures Completed(Apply(s, a), d)
  {
    if a.Enroll? {
      var e := a.e;
      if EI.EnrollStep(e) {
        EnrollKeepsCompletion(s.enroll, e, d);
      } else if EI.RevokeStep(e) {
        EI.RevokeStepKeepsInv(s.enroll, e);
        RevokeKeepsCompletion(s.enroll, EP.Apply(s.enroll, e), e.v, s.enroll.revokes[e.v].device, d);
      }
    }
  }

  lemma RevokeKeepsCompletion(s: EP.State, s': EP.State, v: Id, x: Id, d: Id)
    requires EI.RevokeTouches(s, s', v, x) && d in s.devices && s.devices[d].revocationCompleted
    ensures d in s'.devices && s'.devices[d].revocationCompleted
  {
  }

  lemma TouchKeepsCompletion(s: EP.State, s': EP.State, r: Id, d: Id)
    requires EI.Inv(s) && EI.Touches(s, s', r) && r in s.enrolls && !EP.Ended(s.enrolls[r].pc)
    requires d in s.devices && s.devices[d].revocationCompleted
    ensures d in s'.devices && s'.devices[d].revocationCompleted
  {
    assert EI.EnrollOk(s, r) && EI.DeviceOk(s, d);
  }

  lemma LoadEnds(s: EP.State, v: Id, keys: seq<Id>)
    requires EI.Inv(s) && v in s.revokes
    ensures var s', d := EP.StepLoad(s, v, true, keys), s.revokes[v].device;
            s'.revokes[v].pc.RevokeEnded? ==> d in s'.devices && s'.devices[d].revocationCompleted
  {
    assert EI.RevokeOk(s, v);
  }

  lemma ResolveEnds(s: EP.State, v: Id)
    requires EI.Inv(s) && v in s.revokes && s.revokes[v].pc.RevokingKeys? && s.revokes[v].pc.todo == []
    ensures !EP.StepResolve(s, v, true).revokes[v].pc.RevokeEnded?
  {
    assert EI.RevokeOk(s, v);
  }

  lemma CompleteEnds(s: EP.State, v: Id)
    requires EI.Inv(s) && v in s.revokes && s.revokes[v].pc.Completing?
    ensures var s', d := EP.StepComplete(s, v, Confirmed), s.revokes[v].device;
            d in s'.devices && s'.devices[d].revocationCompleted
  {
    assert EI.RevokeOk(s, v);
  }

  lemma OwnStepKeepsTrack(s: State, a: Action, v: Id)
    requires Inv(s) && Enabled(s, a) && Cooperates(a, v)
    ensures OnTrack(Apply(s, a), v)
  {
    match a.e
    case LoadDevice(_, _, keys) => LoadEnds(s.enroll, v, keys);
    case ResolveDesk(_, _) => ResolveEnds(s.enroll, v);
    case Complete(_, _) => CompleteEnds(s.enroll, v);
    case _ =>
  }

  lemma OtherStepKeepsRevocation(s: EP.State, a: EP.Action, v: Id)
    requires EI.Inv(s) && EP.Enabled(s, a) && !((EI.RevokeStep(a) || a.StartRevoke?) && a.v == v)
    ensures v in EP.Apply(s, a).revokes <==> v in s.revokes
    ensures v in s.revokes ==> EP.Apply(s, a).revokes[v] == s.revokes[v]
  {
    if EI.EnrollStep(a) {
      EI.EnrollStepKeepsInv(s, a);
    } else if EI.RevokeStep(a) {
      EI.RevokeStepKeepsInv(s, a);
    }
  }

  lemma StepKeepsTrack(s: State, a: Action, v: Id)
    requires Inv(s) && Enabled(s, a) && OnTrack(s, v) && OwnStepsCooperate(a, v)
    ensures OnTrack(Apply(s, a), v)
  {
    if Cooperates(a, v) {
      OwnStepKeepsTrack(s, a, v);
    } else {
      if a.Enroll? { OtherStepKeepsRevocation(s.enroll, a.e, v); }
      if v in s.enroll.revokes && s.enroll.revokes[v].pc.RevokeEnded? {
        CompletedStays(s, a, s.enroll.revokes[v].device);
      }
    }
  }

  /** In every run, whatever everybody else does meanwhile: a revocation all of whose own calls cooperated and
      that has ended has completed the revocation of its device. */
  lemma {:induction false} CooperativeEndCompletes(s: State, actions: seq<Action>, v: Id)
    requires Inv(s) && Legal(s, actions) && OnTrack(s, v) && forall a <- actions :: OwnStepsCooperate(a, v)
    ensures OnTrack(Run(s, actions), v)
    decreases |actions|
  {
    if actions != [] {
      assert actions[0] in actions && forall a <- actions[1..] :: a in actions;
      StepKeepsTrack(s, actions[0], v);
      StepKeepsInv(s, actions[0]);
      CooperativeEndCompletes(Apply(s, actions[0]), actions[1..], v);
    }
  }
}
