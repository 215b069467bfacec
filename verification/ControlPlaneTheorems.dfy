/** What holds in every reachable state of the control plane, and over every run of it. */
module ControlPlaneTheorems {
  import opened Wrappers
  import opened ControlPlane
  import SB = ServiceBindings
  import EP = EnrollmentProtocol
  import EI = EnrollmentInvariant

  // ---------------------------------------------------------------- Desk installations

  /** No orphan: a live installation is on the books of its own device row, at its own origin. */
  lemma NoOrphanInstallation(s: State, d: Id, o: Origin)
    requires Reachable(s) && (d, o) in s.enroll.live
    ensures d in s.enroll.devices
    ensures EP.Flagged(s.enroll.devices[d])
    ensures s.enroll.devices[d].provenance.Some? && s.enroll.devices[d].provenance.value.origin == o
  {
    ReachableInv(s);
    assert EI.LiveOk(s.enroll, d, o);
  }

  /** So a device has at most one live installation, whatever the interleaving. */
  lemma OneInstallationPerDevice(s: State, d: Id, o: Origin, o': Origin)
    requires Reachable(s) && (d, o) in s.enroll.live && (d, o') in s.enroll.live
    ensures o == o'
  {
    NoOrphanInstallation(s, d, o);
    NoOrphanInstallation(s, d, o');
  }

  /** The credential captured at the reservation, if there is one, is in the secret store. */
  predicate Stored(s: State, row: EP.Device) {
    row.reservedWith.Some? ==> (row.org, row.reservedWith.value) in s.bind.secrets
  }

  /** While a device is provisioned or pending, its route is pinned: resolving its revocation never conflicts,
      and it finds the target exactly if the credential is stored. Only an upsert whose own acknowledgement was
      lost can have removed it. */
  lemma InstallationStaysRevocable(s: State, d: Id)
    requires Reachable(s) && d in s.enroll.devices && EP.Flagged(s.enroll.devices[d])
    ensures Locked(s, s.enroll.devices[d])
    ensures var row := s.enroll.devices[d];
            var r := Resolve(s, row.org, row.provenance.value.origin);
            && r == (if Stored(s, row) then Target(row.provenance.value.origin) else CredentialMissing)
            && (!Stored(s, row) ==>
                  row.reservedWith.value in s.bind.upserts && s.bind.upserts[row.reservedWith.value].unseen)
  {
    ReachableInv(s);
    var row := s.enroll.devices[d];
    assert Locked(s, row);
    if DeskKey(row.org) in s.bind.rows {
      assert SB.RowOk(s.bind, DeskKey(row.org));
    }
  }

  // ---------------------------------------------------------------- one-time codes

  /** A row that its own enrollment does not know of, because the acknowledgement of its creation was lost. */
  predicate Unseen(s: State, d: Id) {
    d in s.enroll.enrolls && s.enroll.enrolls[d].unseen
  }

  /** A code has at most one device row at any time, not counting unseen ones. */
  lemma OneRowPerCode(s: State, d: Id, d': Id)
    requires Reachable(s) && d in s.enroll.devices && d' in s.enroll.devices
    requires s.enroll.devices[d].code.Some? && s.enroll.devices[d].code == s.enroll.devices[d'].code
    ensures d == d' || Unseen(s, d) || Unseen(s, d')
  {
    ReachableInv(s);
    assert EI.DeviceOk(s.enroll, d) && EI.DeviceOk(s.enroll, d');
    assert EI.EnrollOk(s.enroll, d) && EI.EnrollOk(s.enroll, d');
  }

  /** An unseen row is inert: it has no Desk columns, no token, no gateway key and no installation. */
  lemma UnseenRowIsInert(s: State, d: Id, t: Id, o: Origin)
    requires Reachable(s) && Unseen(s, d)
    ensures d in s.enroll.devices && !EP.Flagged(s.enroll.devices[d])
    ensures d !in s.enroll.keys && (d, o) !in s.enroll.live
    ensures t in s.enroll.tokens ==> s.enroll.tokens[t].device != d
  {
    ReachableInv(s);
    assert EI.EnrollOk(s.enroll, d);
    if t in s.enroll.tokens { assert EI.TokenOk(s.enroll, t); }
    assert (d, o) in s.enroll.live ==> EI.LiveOk(s.enroll, d, o);
  }

  /** A code is exchanged successfully at most once over all concurrent enrollments. */
  lemma OneSuccessPerCode(s: State, r: Id, r': Id)
    requires Reachable(s) && r in s.enroll.enrolls && r' in s.enroll.enrolls
    requires s.enroll.enrolls[r].pc.Succeeded? && s.enroll.enrolls[r'].pc.Succeeded?
    requires s.enroll.enrolls[r].code == s.enroll.enrolls[r'].code
    ensures r == r'
  {
    ReachableInv(s);
    assert EI.EnrollOk(s.enroll, r) && EI.EnrollOk(s.enroll, r');
  }

  /** What a successful exchange hands out is real at the moment it returns: the code is the caller's,
      the key is live, its token is stored, and a returned Desk binding names a live installation that
      the device row records as provisioned. */
  lemma SuccessIsComplete(s: State, r: Id)
    requires Reachable(s) && r in s.enroll.enrolls && s.enroll.enrolls[r].pc.Returning?
    ensures var e := s.enroll.enrolls[r];
            && e.code in s.enroll.codes && s.enroll.codes[e.code].holder == Some(r)
            && r in s.enroll.devices && s.enroll.devices[r].code == Some(e.code)
            && r in s.enroll.keys && r in s.enroll.tokens && s.enroll.tokens[r] == EP.Token(r, r, false)
    ensures var row, receipt := s.enroll.devices[r], s.enroll.enrolls[r].pc.receipt;
            if receipt.Some? then
              && (r, receipt.value) in s.enroll.live && row.provisioned && !row.cleanupPending
              && row.provenance.Some? && row.provenance.value.origin == receipt.value
            else
              !EP.Flagged(row) && !EP.IsLive(s.enroll, r)
  {
    ReachableInv(s);
    assert EI.EnrollOk(s.enroll, r);
    assert EI.DeviceOk(s.enroll, r);
    if o :| (r, o) in s.enroll.live { assert EI.LiveOk(s.enroll, r, o); }
  }

  predicate Provisions(a: EP.Action) {
    || a.CreateDevice? || a.IssueKey? || a.StoreToken? || a.Reserve? || a.ReadSecret? || a.ClearReservation?
    || a.Register? || a.CompensateRegistration? || a.PersistCleanup? || a.MarkProvisioned?
  }

  lemma ProvisioningKeepsCodes(s: EP.State, a: EP.Action)
    requires EP.Enabled(s, a) && Provisions(a)
    ensures EP.Apply(s, a).codes == s.codes
  {
  }

  lemma RevocationKeepsCodes(s: EP.State, a: EP.Action)
    requires EP.Enabled(s, a) && (EI.RevokeStep(a) || a.StartRevoke?)
    ensures EP.Apply(s, a).codes == s.codes
  {
  }

  lemma CodesKept(s: EP.State, a: EP.Action)
    requires EP.Enabled(s, a) && !a.IssueCode? && !a.ClaimCode? && !a.CleanCode?
    ensures EP.Apply(s, a).codes == s.codes
  {
    if Provisions(a) {
      ProvisioningKeepsCodes(s, a);
    } else if EI.RevokeStep(a) || a.StartRevoke? {
      RevocationKeepsCodes(s, a);
    }
  }

  /** A code becomes used only by the claim of one request, while it is unexpired for that request. */
  lemma ClaimIsTimely(s: EP.State, a: EP.Action, c: Id)
    requires EP.Enabled(s, a) && c in s.codes && s.codes[c].usedAt.None?
    requires EP.Apply(s, a).codes[c].usedAt.Some?
    ensures a.ClaimCode? && s.enrolls[a.r].code == c && s.enrolls[a.r].now <= s.codes[c].expiresAt
    ensures EP.Apply(s, a).codes[c].usedAt == Some(s.enrolls[a.r].now)
    ensures EP.Apply(s, a).codes[c].holder == Some(a.r)
  {
    if !a.IssueCode? && !a.ClaimCode? && !a.CleanCode? { CodesKept(s, a); }
  }

  /** The code is in use now and free, or gone, after the step. */
  predicate Releases(s: EP.State, a: EP.Action, c: Id)
    requires EP.Enabled(s, a)
  {
    && c in s.codes && s.codes[c].usedAt.Some?
    && (c in EP.Apply(s, a).codes ==> EP.Apply(s, a).codes[c].usedAt.None?)
  }

  lemma OnlyCleanupReleases(s: EP.State, a: EP.Action, c: Id)
    requires EP.Enabled(s, a) && Releases(s, a, c)
    ensures a.CleanCode? && s.enrolls[a.r].code == c && s.enrolls[a.r].pc == EP.CleaningCode(true, true, true)
  {
    if !a.IssueCode? && !a.ClaimCode? && !a.CleanCode? { CodesKept(s, a); }
  }

  /** A code is released only by the request that claimed it, and only once that request has left behind no
      live key and no live installation, and no device row except exactly an unseen one. */
  lemma ReleaseIsEarned(s: State, a: EP.Action, c: Id)
    requires Reachable(s) && EP.Enabled(s.enroll, a) && Releases(s.enroll, a, c)
    ensures a.CleanCode?
    ensures s.enroll.codes[c].holder == Some(a.r) && s.enroll.enrolls[a.r].code == c
    ensures a.r !in s.enroll.keys && !EP.IsLive(s.enroll, a.r)
    ensures a.r in s.enroll.devices <==> Unseen(s, a.r)
  {
    ReachableInv(s);
    OnlyCleanupReleases(s.enroll, a, c);
    assert EI.EnrollOk(s.enroll, a.r);
  }

  // ---------------------------------------------------------------- verified bindings

  /** An ACTIVE binding was probed successfully exactly as it stands, and an ACTIVE Desk binding carries
      a credential that is still stored, unless the upsert that brought it was lost. */
  lemma ActiveWasProbed(s: State, k: SB.Key)
    requires Reachable(s) && k in s.bind.rows && s.bind.rows[k].status.Active?
    ensures SB.Sighting(SB.At(s.bind.rows[k]), s.bind.rows[k].config) in s.bind.probes
    ensures k.service.DeskTasks? ==>
              var c := s.bind.rows[k].config.credential;
              && c.Some? && c.value in s.bind.upserts
              && ((k.org, c.value) in s.bind.secrets || s.bind.upserts[c.value].unseen)
  {
    ReachableInv(s);
    assert SB.RowOk(s.bind, k);
    assert SB.ProbeOk(s.bind, SB.Sighting(SB.At(s.bind.rows[k]), s.bind.rows[k].config));
  }

  lemma StepKeepsHistory(s: State, a: Action, e: SB.Version)
    requires Inv(s) && Enabled(s, a) && e in s.bind.configs
    ensures e in Apply(s, a).bind.configs && Apply(s, a).bind.configs[e] == s.bind.configs[e]
  {
    assert SB.HistoryOk(s.bind, e);
    if a.Bind? {
      if a.b.CommitUpsert? {
        var k := s.bind.upserts[a.b.u].key;
        if k in s.bind.rows { assert SB.RowOk(s.bind, k); }
      } else if a.b.Disable? && a.b.key in s.bind.rows {
        assert SB.RowOk(s.bind, a.b.key);
      }
    }
  }

  /** Equal row identifier and configVersion mean equal configuration at any two moments of any run. */
  lemma {:induction false} SameVersionSameConfig(s: State, actions: seq<Action>, k: SB.Key, k': SB.Key)
    requires Inv(s) && Legal(s, actions) && k in s.bind.rows && k' in Run(s, actions).bind.rows
    requires SB.At(s.bind.rows[k]) == SB.At(Run(s, actions).bind.rows[k'])
    ensures s.bind.rows[k].config == Run(s, actions).bind.rows[k'].config
  {
    assert SB.RowOk(s.bind, k);
    RunKeepsInv(s, actions);
    assert SB.RowOk(Run(s, actions).bind, k');
    RunKeepsHistory(s, actions, SB.At(s.bind.rows[k]));
  }

  lemma {:induction false} RunKeepsHistory(s: State, actions: seq<Action>, e: SB.Version)
    requires Inv(s) && Legal(s, actions) && e in s.bind.configs
    ensures e in Run(s, actions).bind.configs && Run(s, actions).bind.configs[e] == s.bind.configs[e]
    decreases |actions|
  {
    if actions != [] {
      StepKeepsHistory(s, actions[0], e);
      StepKeepsInv(s, actions[0]);
      RunKeepsHistory(Apply(s, actions[0]), actions[1..], e);
    }
  }
}
