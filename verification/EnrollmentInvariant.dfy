/** What every step of every enrollment and every revocation keeps. */
module EnrollmentInvariant {
  import opened Wrappers
  import opened EnrollmentProtocol

  /** Rows from before the protocol existed carry no Desk provenance and no pending revocation. */
  ghost predicate Init(s: State) {
    && s.enrolls == map[] && s.revokes == map[] && s.live == {} && s.known == {}
    && (forall c <- s.codes :: s.codes[c].usedAt.None? && s.codes[c].holder.None?)
    && (forall d <- s.devices :: s.devices[d] == Device(s.devices[d].org, None, false, false, None, false, false, None))
    && (forall t <- s.tokens :: s.tokens[t].device in s.devices)
  }

  ghost predicate CodeOk(s: State, c: Id)
    requires c in s.codes
  {
    var code := s.codes[c];
    && (code.usedAt.Some? <==> code.holder.Some?)
    && (code.holder.Some? ==>
          && code.holder.value in s.enrolls
          && var e := s.enrolls[code.holder.value];
             e.holds && e.code == c && code.usedAt == Some(e.now))
  }

  /** The device row of request r exists and its Desk columns are empty. */
  ghost predicate RowClean(s: State, r: Id) {
    r in s.devices && !Flagged(s.devices[r])
  }

  ghost predicate RowPending(s: State, r: Id, origin: Origin) {
    && r in s.devices && s.devices[r].cleanupPending && !s.devices[r].provisioned
    && s.devices[r].provenance.Some? && s.devices[r].provenance.value.origin == origin
  }

  ghost predicate RowFlagged(s: State, r: Id, origin: Origin) {
    && r in s.devices && Flagged(s.devices[r])
    && s.devices[r].provenance.Some? && s.devices[r].provenance.value.origin == origin
  }

  /** The gateway key of request r is live and its token row is stored, unrevoked. */
  ghost predicate Credentialed(s: State, r: Id, e: Enroll) {
    e.issued && r in s.keys && r in s.tokens && s.tokens[r] == Token(r, r, false)
  }

  ghost predicate Installed(s: State, r: Id, origin: Origin) {
    (r, origin) in s.live && (r, origin) in s.known
  }

  /** What the program counter of an enrollment says about the shared tables. */
  ghost predicate PcOk(s: State, r: Id, e: Enroll) {
    match e.pc
    case Validating => !e.holds && !e.created && !e.issued
    case CreatingDevice => e.holds && !e.created && !e.issued
    case IssuingKey => e.holds && e.created && !e.issued && RowClean(s, r)
    case StoringToken => e.holds && e.created && e.issued && r in s.keys && RowClean(s, r)
    case Reserving => e.holds && e.created && Credentialed(s, r, e) && RowClean(s, r)
    case ReadingSecret(o, _) => e.holds && e.created && Credentialed(s, r, e) && RowPending(s, r, o) && !IsLive(s, r)
    case ClearingReservation(o) => e.holds && e.created && RowPending(s, r, o) && !IsLive(s, r)
    case Registering(o) => e.holds && e.created && e.prepared && Credentialed(s, r, e) && RowPending(s, r, o)
    case CompensatingRegistration(o) => e.holds && e.created && e.prepared && RowPending(s, r, o)
    case PersistingCleanup(_) => false
    case MarkingProvisioned(o) =>
      e.holds && e.created && Credentialed(s, r, e) && RowPending(s, r, o) && Installed(s, r, o)
    case Returning(None) => e.holds && e.created && Credentialed(s, r, e) && RowClean(s, r)
    case Returning(Some(o)) =>
      && e.holds && e.created && Credentialed(s, r, e)
      && RowFlagged(s, r, o) && s.devices[r].provisioned && !s.devices[r].cleanupPending && Installed(s, r, o)
    case CleaningDesk(o) => e.holds && e.created && RowFlagged(s, r, o) && (r, o) in s.known
    case CleaningKey(desk) => e.holds && (desk ==> !IsLive(s, r))
    case CleaningDevice(key, desk) =>
      && e.holds && (desk ==> !IsLive(s, r))
      && (key ==> r !in s.keys)
    case CleaningCode(key, desk, removed) =>
      && e.holds && (desk ==> !IsLive(s, r))
      && (key ==> r !in s.keys)
      && (removed && !e.unseen ==> r !in s.devices)
    case Succeeded => e.holds && e.created
    case Failed => true
    case Died => true
  }

  /** A device row that its own request does not know of is inert: no Desk columns, no token, no key. */
  ghost predicate Inert(s: State, r: Id, e: Enroll) {
    && !e.created && !e.issued
    && (e.pc.CleaningKey? || e.pc.CleaningDevice? || e.pc.CleaningCode? || Ended(e.pc)) && !e.pc.Succeeded?
    && RowClean(s, r) && r !in s.keys && r !in s.tokens
  }

  /** The request works for the organization and the owner that its code was issued for. */
  ghost predicate Redeems(s: State, e: Enroll) {
    e.code in s.codes && e.org == s.codes[e.code].org && e.owner == s.codes[e.code].owner
  }

  ghost predicate EnrollOk(s: State, r: Id)
    requires r in s.enrolls
  {
    var e := s.enrolls[r];
    && PcOk(s, r, e)
    && (e.unseen ==> Inert(s, r, e))
    && (e.holds ==> e.code in s.codes && s.codes[e.code].holder == Some(r))
    && (e.holds || e.created || e.unseen ==> Redeems(s, e))
    && (!e.created && !e.unseen ==> r !in s.devices)
    && (!e.issued ==> r !in s.keys)
    && (e.pc.Validating? || e.pc.CreatingDevice? || e.pc.IssuingKey? || e.pc.StoringToken? ==> r !in s.tokens)
    && (!Ended(e.pc) && e.created && !e.pc.CleaningCode? ==> r in s.devices)
    && (!Ended(e.pc) && r in s.devices ==> !s.devices[r].revocationRequested)
  }

  ghost predicate DeviceOk(s: State, d: Id)
    requires d in s.devices
  {
    var row := s.devices[d];
    && (Flagged(row) <==> row.provenance.Some?)
    && (row.provisioned ==> row.provenance.Some? && (d, row.provenance.value.origin) in s.known)
    && (row.revocationCompleted ==> row.revocationRequested && !IsLive(s, d) && !Flagged(row))
    && (d in s.enrolls ==>
          && (s.enrolls[d].unseen || (s.enrolls[d].created && s.enrolls[d].holds))
          && row.code == Some(s.enrolls[d].code) && row.org == s.enrolls[d].org
          && (row.provenance.Some? ==> row.provenance.value.owner == s.enrolls[d].owner))
    && (d !in s.enrolls ==> row.code.None? && !Flagged(row))
  }

  /** No orphan: a live installation is on the books of the device row it belongs to. */
  ghost predicate LiveOk(s: State, d: Id, o: Origin) {
    (d, o) in s.known && RowFlagged(s, d, o)
  }

  ghost predicate TokenOk(s: State, t: Id)
    requires t in s.tokens
  {
    var token := s.tokens[t];
    && token.device in s.devices
    && (s.devices[token.device].revocationRequested ==> token.revoked)
    && (s.devices[token.device].revocationCompleted ==> token.key !in s.keys)
    && (token.key in s.enrolls ==> token.device == token.key)
    && (token.device in s.enrolls ==> !s.enrolls[token.device].unseen)
  }

  /** Every token of device d has its key revoked, except for those still listed in `todo`. */
  ghost predicate KeysDone(s: State, d: Id, todo: seq<Id>) {
    forall t {:trigger s.tokens[t]} | t in s.tokens && s.tokens[t].device == d ::
      s.tokens[t].key in todo || s.tokens[t].key !in s.keys
  }

  /** The Desk columns read by a revocation are still those of the row, unless they were cleared. */
  ghost predicate SnapshotOk(s: State, d: Id, desk: bool, provenance: Option<Provenance>, allowMissing: bool) {
    && d in s.devices && s.devices[d].revocationRequested
    && (Flagged(s.devices[d]) ==> desk && provenance == s.devices[d].provenance)
    && (desk ==> provenance.Some?)
    && (desk && !allowMissing ==> provenance.Some? && (d, provenance.value.origin) in s.known)
  }

  ghost predicate HasKey(s: State, d: Id, k: Id) {
    exists t :: t in s.tokens && s.tokens[t].device == d && s.tokens[t].key == k
  }

  ghost predicate RevokeOk(s: State, v: Id)
    requires v in s.revokes
  {
    var d := s.revokes[v].device;
    && d in s.devices && EnrollmentEnded(s, d)
    && match s.revokes[v].pc
       case Intending => true
       case Loading => s.devices[d].revocationRequested
       case RevokingKeys(todo, desk, p, missing) =>
         (forall k <- todo :: HasKey(s, d, k)) && KeysDone(s, d, todo) && SnapshotOk(s, d, desk, p, missing)
       case RevokingDesk(p, missing) => KeysDone(s, d, []) && SnapshotOk(s, d, true, Some(p), missing)
       case Completing(deskRevoked) =>
         && KeysDone(s, d, []) && s.devices[d].revocationRequested && !IsLive(s, d)
         && (!deskRevoked ==> !Flagged(s.devices[d]))
       case RevokeEnded => true
  }

  ghost predicate Inv(s: State) {
    && (forall c {:trigger CodeOk(s, c)} | c in s.codes :: CodeOk(s, c))
    && (forall r {:trigger EnrollOk(s, r)} | r in s.enrolls :: EnrollOk(s, r))
    && (forall d {:trigger DeviceOk(s, d)} | d in s.devices :: DeviceOk(s, d))
    && (forall d, o {:trigger LiveOk(s, d, o)} | (d, o) in s.live :: LiveOk(s, d, o))
    && (forall t {:trigger TokenOk(s, t)} | t in s.tokens :: TokenOk(s, t))
    && (forall v {:trigger RevokeOk(s, v)} | v in s.revokes :: RevokeOk(s, v))
  }

  lemma InitInv(s: State)
    requires Init(s)
    ensures Inv(s)
  {
  }

  // ---------------------------------------------------------------- framing of one enrollment

  /** s' differs from s only in what belongs to enrollment r. */
  ghost predicate Touches(s: State, s': State, r: Id) {
    && s'.revokes == s.revokes
    && r in s.enrolls && r in s'.enrolls && s'.enrolls == s.enrolls[r := s'.enrolls[r]]
    && s'.enrolls[r].code == s.enrolls[r].code
    && (forall d {:trigger d in s'.devices} | d != r :: d in s'.devices <==> d in s.devices)
    && (forall d {:trigger s'.devices[d]} | d != r && d in s'.devices :: s'.devices[d] == s.devices[d])
    && (forall t | t in s'.tokens && s'.tokens[t].device != r :: t in s.tokens && s.tokens[t] == s'.tokens[t])
    && (forall t | t in s'.tokens && t != r :: t in s.tokens)
    && (forall t | t in s.tokens && s.tokens[t].device != r :: t in s'.tokens && s.tokens[t] == s'.tokens[t])
    && (forall k {:trigger k in s'.keys} | k != r :: k in s'.keys <==> k in s.keys)
    && (forall d, o {:trigger (d, o) in s'.live} | d != r :: (d, o) in s'.live <==> (d, o) in s.live)
    && (forall d, o {:trigger (d, o) in s.known} | (d, o) in s.known :: (d, o) in s'.known)
    && s'.codes.Keys == s.codes.Keys
    && (forall c {:trigger s'.codes[c]} | c in s'.codes :: s'.codes[c] == s.codes[c] ||
          (c == s.enrolls[r].code && (s.codes[c].holder.None? || s.codes[c].holder == Some(r))
           && s'.codes[c].org == s.codes[c].org && s'.codes[c].owner == s.codes[c].owner))
  }

  /** The part of the invariant that speaks about enrollment r and its own rows. */
  ghost predicate Own(s: State, r: Id) {
    r in s.enrolls && EnrollOk(s, r) && OwnRows(s, r)
  }

  ghost predicate OwnRows(s: State, r: Id)
    requires r in s.enrolls
  {
    && (r in s.devices ==> DeviceOk(s, r))
    && (forall o | (r, o) in s.live :: LiveOk(s, r, o))
    && (forall t | t in s.tokens && s.tokens[t].device == r :: TokenOk(s, t))
    && (s.enrolls[r].code in s.codes ==> CodeOk(s, s.enrolls[r].code))
  }

  /** A running enrollment disturbs nobody else: its own obligations are all there is to prove. */
  lemma FrameEnroll(s: State, s': State, r: Id)
    requires Inv(s) && r in s.enrolls && !Ended(s.enrolls[r].pc)
    requires Touches(s, s', r) && Own(s', r)
    ensures Inv(s')
  {
    forall c <- s'.codes ensures CodeOk(s', c) { assert CodeOk(s, c); }
    forall x <- s'.enrolls ensures EnrollOk(s', x) { if x != r { FrameOther(s, s', r, x); } }
    forall d <- s'.devices ensures DeviceOk(s', d) { if d != r { assert DeviceOk(s, d); } }
    forall d, o | (d, o) in s'.live ensures LiveOk(s', d, o) { if d != r { assert LiveOk(s, d, o); } }
    forall t <- s'.tokens ensures TokenOk(s', t) { if s'.tokens[t].device != r { FrameToken(s, s', r, t); } }
    forall v <- s'.revokes ensures RevokeOk(s', v) { FrameRevoke(s, s', r, v); }
  }

  lemma FrameOther(s: State, s': State, r: Id, x: Id)
    requires Inv(s) && Touches(s, s', r) && x in s'.enrolls && x != r
    ensures EnrollOk(s', x)
  {
    assert EnrollOk(s, x);
  }

  lemma FrameToken(s: State, s': State, r: Id, t: Id)
    requires Inv(s) && Touches(s, s', r) && t in s'.tokens && s'.tokens[t].device != r
    ensures TokenOk(s', t) && s'.tokens[t].key != r
  {
    assert TokenOk(s, t);
  }

  lemma FrameRevoke(s: State, s': State, r: Id, v: Id)
    requires Inv(s) && Touches(s, s', r) && v in s'.revokes && !Ended(s.enrolls[r].pc)
    ensures RevokeOk(s', v)
  {
    assert RevokeOk(s, v);
    var d := s.revokes[v].device;
    assert d != r;
    forall t | t in s'.tokens && s'.tokens[t].device == d ensures s'.tokens[t].key != r { FrameToken(s, s', r, t); }
  }

  // ---------------------------------------------------------------- steps of an enrollment

  lemma OwnFacts(s: State, r: Id)
    requires Inv(s) && r in s.enrolls
    ensures Own(s, r)
  {
    assert EnrollOk(s, r);
    assert r in s.devices ==> DeviceOk(s, r);
    forall o | (r, o) in s.live ensures LiveOk(s, r, o) {}
    forall t | t in s.tokens && s.tokens[t].device == r ensures TokenOk(s, t) {}
    assert s.enrolls[r].code in s.codes ==> CodeOk(s, s.enrolls[r].code);
  }

  /** Giving up changes nothing but the program counter. */
  lemma GivesUp(s: State, r: Id)
    requires Own(s, r) && (s.enrolls[r].pc.Validating? || s.enrolls[r].pc.CleaningCode?)
    ensures var s' := To(s, r, s.enrolls[r], Failed); Touches(s, s', r) && Own(s', r)
  {
    var s' := To(s, r, s.enrolls[r], Failed);
    assert EnrollOk(s', r);
  }

  lemma ClaimedOwns(s: State, r: Id, pc: EnrollPc)
    requires Own(s, r) && s.enrolls[r].pc.Validating? && Claimable(s, s.enrolls[r])
    requires pc.CreatingDevice? || pc.Failed?
    ensures var s' := Claimed(s, r, pc); Touches(s, s', r) && Own(s', r)
  {
    var s' := Claimed(s, r, pc);
    assert EnrollOk(s', r);
  }

  lemma ClaimOwns(s: State, r: Id, outcome: Outcome)
    requires Own(s, r) && s.enrolls[r].pc.Validating?
    ensures var s' := StepClaim(s, r, outcome); Touches(s, s', r) && Own(s', r)
  {
    if outcome.Refused? || !Claimable(s, s.enrolls[r]) {
      GivesUp(s, r);
    } else {
      ClaimedOwns(s, r, if outcome.Confirmed? then CreatingDevice else Failed);
    }
  }

  lemma CreateTouches(s: State, r: Id, outcome: Outcome)
    requires Own(s, r) && s.enrolls[r].pc.CreatingDevice?
    ensures Touches(s, StepCreate(s, r, outcome), r)
  {
  }

  lemma CreateEnrollOk(s: State, r: Id, outcome: Outcome)
    requires Own(s, r) && s.enrolls[r].pc.CreatingDevice?
    ensures var s' := StepCreate(s, r, outcome); r in s'.enrolls && EnrollOk(s', r)
  {
  }

  lemma CreateOwns(s: State, r: Id, outcome: Outcome)
    requires Own(s, r) && s.enrolls[r].pc.CreatingDevice?
    ensures var s' := StepCreate(s, r, outcome); Touches(s, s', r) && Own(s', r)
  {
    CreateTouches(s, r, outcome);
    CreateEnrollOk(s, r, outcome);
    var s' := StepCreate(s, r, outcome);
    assert r in s'.devices ==> DeviceOk(s', r);
  }

  lemma IssueOwns(s: State, r: Id, ok: bool)
    requires Own(s, r) && s.enrolls[r].pc.IssuingKey?
    ensures var s' := StepIssue(s, r, ok); Touches(s, s', r) && Own(s', r)
  {
  }

  lemma StoreTouches(s: State, r: Id, outcome: Outcome)
    requires Own(s, r) && s.enrolls[r].pc.StoringToken?
    ensures Touches(s, StepStore(s, r, outcome), r)
  {
  }

  lemma StoreEnrollOk(s: State, r: Id, outcome: Outcome)
    requires Own(s, r) && s.enrolls[r].pc.StoringToken?
    ensures var s' := StepStore(s, r, outcome); r in s'.enrolls && EnrollOk(s', r)
  {
  }

  lemma StoreOwns(s: State, r: Id, outcome: Outcome)
    requires Own(s, r) && s.enrolls[r].pc.StoringToken?
    ensures var s' := StepStore(s, r, outcome); Touches(s, s', r) && Own(s', r)
  {
    StoreTouches(s, r, outcome);
    StoreEnrollOk(s, r, outcome);
    var s' := StepStore(s, r, outcome);
    assert r in s'.devices ==> DeviceOk(s', r);
  }

  lemma ReserveTouches(s: State, r: Id, outcome: Outcome, route: Route)
    requires Own(s, r) && s.enrolls[r].pc.Reserving? && r in s.devices
    ensures Touches(s, StepReserve(s, r, outcome, route), r)
  {
  }

  lemma ReserveEnrollOk(s: State, r: Id, outcome: Outcome, route: Route)
    requires Own(s, r) && s.enrolls[r].pc.Reserving? && r in s.devices
    ensures var s' := StepReserve(s, r, outcome, route); r in s'.enrolls && EnrollOk(s', r)
  {
  }

  lemma ReserveOwns(s: State, r: Id, outcome: Outcome, route: Route)
    requires Own(s, r) && s.enrolls[r].pc.Reserving? && r in s.devices
    ensures var s' := StepReserve(s, r, outcome, route); Touches(s, s', r) && Own(s', r)
  {
    ReserveTouches(s, r, outcome, route);
    ReserveEnrollOk(s, r, outcome, route);
    var s' := StepReserve(s, r, outcome, route);
    assert r in s'.devices ==> DeviceOk(s', r);
  }

  lemma ReadSecretOwns(s: State, r: Id, ok: bool)
    requires Own(s, r) && s.enrolls[r].pc.ReadingSecret?
    ensures var s' := StepReadSecret(s, r, ok); Touches(s, s', r) && Own(s', r)
  {
  }

  lemma ClearedOwns(s: State, r: Id)
    requires Own(s, r) && s.enrolls[r].pc.ClearingReservation? && Clearable(s, r, s.enrolls[r])
    ensures Touches(s, Cleared(s, r), r) && Own(Cleared(s, r), r)
  {
    assert EnrollOk(Cleared(s, r), r);
  }

  lemma NotClearedOwns(s: State, r: Id)
    requires Own(s, r) && s.enrolls[r].pc.ClearingReservation?
    ensures var s' := To(s, r, s.enrolls[r], CleaningKey(true)); Touches(s, s', r) && Own(s', r)
  {
    assert EnrollOk(To(s, r, s.enrolls[r], CleaningKey(true)), r);
  }

  lemma ClearOwns(s: State, r: Id, outcome: Outcome)
    requires Own(s, r) && s.enrolls[r].pc.ClearingReservation?
    ensures var s' := StepClear(s, r, outcome); Touches(s, s', r) && Own(s', r)
  {
    if outcome.Refused? || !Clearable(s, r, s.enrolls[r]) { NotClearedOwns(s, r); } else { ClearedOwns(s, r); }
  }

  lemma RegisterTouches(s: State, r: Id, outcome: Outcome)
    requires Own(s, r) && s.enrolls[r].pc.Registering?
    ensures Touches(s, StepRegister(s, r, outcome), r)
  {
  }

  lemma RegisterEnrollOk(s: State, r: Id, outcome: Outcome)
    requires Own(s, r) && s.enrolls[r].pc.Registering?
    ensures var s' := StepRegister(s, r, outcome); r in s'.enrolls && EnrollOk(s', r)
  {
  }

  lemma RegisterOwns(s: State, r: Id, outcome: Outcome)
    requires Own(s, r) && s.enrolls[r].pc.Registering?
    ensures var s' := StepRegister(s, r, outcome); Touches(s, s', r) && Own(s', r)
  {
    RegisterTouches(s, r, outcome);
    RegisterEnrollOk(s, r, outcome);
    var s' := StepRegister(s, r, outcome);
    assert r in s'.devices ==> DeviceOk(s', r);
  }

  lemma CompensateTouches(s: State, r: Id, outcome: Outcome)
    requires Own(s, r) && s.enrolls[r].pc.CompensatingRegistration?
    ensures Touches(s, StepCompensate(s, r, outcome), r)
  {
  }

  lemma CompensateEnrollOk(s: State, r: Id, outcome: Outcome)
    requires Own(s, r) && s.enrolls[r].pc.CompensatingRegistration?
    ensures var s' := StepCompensate(s, r, outcome); r in s'.enrolls && EnrollOk(s', r)
  {
  }

  lemma CompensateOwns(s: State, r: Id, outcome: Outcome)
    requires Own(s, r) && s.enrolls[r].pc.CompensatingRegistration?
    ensures var s' := StepCompensate(s, r, outcome); Touches(s, s', r) && Own(s', r)
  {
    CompensateTouches(s, r, outcome);
    CompensateEnrollOk(s, r, outcome);
    var s' := StepCompensate(s, r, outcome);
    assert r in s'.devices ==> DeviceOk(s', r);
  }

  lemma MarkTouches(s: State, r: Id, outcome: Outcome)
    requires Own(s, r) && s.enrolls[r].pc.MarkingProvisioned?
    ensures Touches(s, StepMark(s, r, outcome), r)
  {
  }

  lemma MarkEnrollOk(s: State, r: Id, outcome: Outcome)
    requires Own(s, r) && s.enrolls[r].pc.MarkingProvisioned?
    ensures var s' := StepMark(s, r, outcome); r in s'.enrolls && EnrollOk(s', r)
  {
  }

  lemma MarkOwns(s: State, r: Id, outcome: Outcome)
    requires Own(s, r) && s.enrolls[r].pc.MarkingProvisioned?
    ensures var s' := StepMark(s, r, outcome); Touches(s, s', r) && Own(s', r)
  {
    MarkTouches(s, r, outcome);
    MarkEnrollOk(s, r, outcome);
    var s' := StepMark(s, r, outcome);
    assert r in s'.devices ==> DeviceOk(s', r);
  }

  lemma ReturnTouches(s: State, r: Id, ok: bool)
    requires Own(s, r) && s.enrolls[r].pc.Returning?
    ensures Touches(s, StepReturn(s, r, ok), r)
  {
  }

  lemma ReturnEnrollOk(s: State, r: Id, ok: bool)
    requires Own(s, r) && s.enrolls[r].pc.Returning?
    ensures var s' := StepReturn(s, r, ok); r in s'.enrolls && EnrollOk(s', r)
  {
  }

  lemma ReturnOwns(s: State, r: Id, ok: bool)
    requires Own(s, r) && s.enrolls[r].pc.Returning?
    ensures var s' := StepReturn(s, r, ok); Touches(s, s', r) && Own(s', r)
  {
    ReturnTouches(s, r, ok);
    ReturnEnrollOk(s, r, ok);
    var s' := StepReturn(s, r, ok);
    assert r in s'.devices ==> DeviceOk(s', r);
  }

  lemma CleanDeskTouches(s: State, r: Id, outcome: Outcome)
    requires Own(s, r) && s.enrolls[r].pc.CleaningDesk?
    ensures Touches(s, StepCleanDesk(s, r, outcome), r)
  {
  }

  lemma CleanDeskEnrollOk(s: State, r: Id, outcome: Outcome)
    requires Own(s, r) && s.enrolls[r].pc.CleaningDesk?
    ensures var s' := StepCleanDesk(s, r, outcome); r in s'.enrolls && EnrollOk(s', r)
  {
  }

  lemma CleanDeskOwns(s: State, r: Id, outcome: Outcome)
    requires Own(s, r) && s.enrolls[r].pc.CleaningDesk?
    ensures var s' := StepCleanDesk(s, r, outcome); Touches(s, s', r) && Own(s', r)
  {
    CleanDeskTouches(s, r, outcome);
    CleanDeskEnrollOk(s, r, outcome);
    var s' := StepCleanDesk(s, r, outcome);
    assert r in s'.devices ==> DeviceOk(s', r);
  }

  lemma CleanKeyTouches(s: State, r: Id, outcome: Outcome)
    requires Own(s, r) && s.enrolls[r].pc.CleaningKey?
    ensures Touches(s, StepCleanKey(s, r, outcome), r)
  {
  }

  lemma CleanKeyEnrollOk(s: State, r: Id, outcome: Outcome)
    requires Own(s, r) && s.enrolls[r].pc.CleaningKey?
    ensures var s' := StepCleanKey(s, r, outcome); r in s'.enrolls && EnrollOk(s', r)
  {
  }

  lemma CleanKeyOwns(s: State, r: Id, outcome: Outcome)
    requires Own(s, r) && s.enrolls[r].pc.CleaningKey?
    ensures var s' := StepCleanKey(s, r, outcome); Touches(s, s', r) && Own(s', r)
  {
    CleanKeyTouches(s, r, outcome);
    CleanKeyEnrollOk(s, r, outcome);
    var s' := StepCleanKey(s, r, outcome);
    assert r in s'.devices ==> DeviceOk(s', r);
  }

  lemma RemovedTouches(s: State, r: Id, pc: EnrollPc)
    requires r in s.enrolls
    ensures Touches(s, Removed(s, r, pc), r)
  {
  }

  lemma RemovedOwns(s: State, r: Id, seen: bool)
    requires Own(s, r) && s.enrolls[r].pc == CleaningDevice(true, true) && s.enrolls[r].created
    ensures Own(Removed(s, r, CleaningCode(true, true, seen)), r)
  {
    var s' := Removed(s, r, CleaningCode(true, true, seen));
    assert EnrollOk(s', r);
  }

  lemma KeptOwns(s: State, r: Id)
    requires Own(s, r) && s.enrolls[r].pc.CleaningDevice?
    ensures var e := s.enrolls[r];
            var s' := To(s, r, e, CleaningCode(e.pc.gatewayRevoked, e.pc.deskRevoked, !e.created));
            Touches(s, s', r) && Own(s', r)
  {
    var e := s.enrolls[r];
    assert EnrollOk(To(s, r, e, CleaningCode(e.pc.gatewayRevoked, e.pc.deskRevoked, !e.created)), r);
  }

  lemma CleanDeviceOwns(s: State, r: Id, outcome: Outcome)
    requires Own(s, r) && s.enrolls[r].pc.CleaningDevice?
    ensures var s' := StepCleanDevice(s, r, outcome); Touches(s, s', r) && Own(s', r)
  {
    var e := s.enrolls[r];
    if e.created && e.pc == CleaningDevice(true, true) && !outcome.Refused? {
      RemovedTouches(s, r, CleaningCode(true, true, outcome.Confirmed?));
      RemovedOwns(s, r, outcome.Confirmed?);
    } else {
      KeptOwns(s, r);
    }
  }

  lemma ReleasedOwns(s: State, r: Id)
    requires Own(s, r) && Releasable(s, s.enrolls[r])
    ensures Touches(s, Released(s, r), r) && Own(Released(s, r), r)
  {
    assert EnrollOk(Released(s, r), r);
  }

  lemma CleanCodeOwns(s: State, r: Id, outcome: Outcome)
    requires Own(s, r) && s.enrolls[r].pc.CleaningCode?
    ensures var s' := StepCleanCode(s, r, outcome); Touches(s, s', r) && Own(s', r)
  {
    if outcome.Refused? || !Releasable(s, s.enrolls[r]) { GivesUp(s, r); } else { ReleasedOwns(s, r); }
  }

  /** The steps up to the confirmed registration, and those after it or after a failure. */
  predicate ForwardStep(a: Action) {
    || a.ClaimCode? || a.CreateDevice? || a.IssueKey? || a.StoreToken? || a.Reserve? || a.ReadSecret? || a.Register?
  }

  predicate ClosingStep(a: Action) {
    || a.ClearReservation? || a.CompensateRegistration? || a.MarkProvisioned? || a.Return? || a.CleanDesk?
    || a.CleanKey? || a.CleanDevice? || a.CleanCode?
  }

  predicate EnrollStep(a: Action) {
    ForwardStep(a) || ClosingStep(a)
  }

  lemma ForwardStepOwns(s: State, a: Action)
    requires Enabled(s, a) && ForwardStep(a) && Own(s, a.r)
    ensures Touches(s, Apply(s, a), a.r) && Own(Apply(s, a), a.r)
  {
    match a
    case ClaimCode(r, outcome) => ClaimOwns(s, r, outcome);
    case CreateDevice(r, outcome) => CreateOwns(s, r, outcome);
    case IssueKey(r, ok) => IssueOwns(s, r, ok);
    case StoreToken(r, outcome) => StoreOwns(s, r, outcome);
    case Reserve(r, outcome, route) => ReserveOwns(s, r, outcome, route);
    case ReadSecret(r, ok) => ReadSecretOwns(s, r, ok);
    case Register(r, outcome) => RegisterOwns(s, r, outcome);
  }

  lemma ClosingStepOwns(s: State, a: Action)
    requires Enabled(s, a) && ClosingStep(a) && Own(s, a.r)
    ensures Touches(s, Apply(s, a), a.r) && Own(Apply(s, a), a.r)
  {
    match a
    case ClearReservation(r, outcome) => ClearOwns(s, r, outcome);
    case CompensateRegistration(r, outcome) => CompensateOwns(s, r, outcome);
    case MarkProvisioned(r, outcome) => MarkOwns(s, r, outcome);
    case Return(r, ok) => ReturnOwns(s, r, ok);
    case CleanDesk(r, outcome) => CleanDeskOwns(s, r, outcome);
    case CleanKey(r, outcome) => CleanKeyOwns(s, r, outcome);
    case CleanDevice(r, outcome) => CleanDeviceOwns(s, r, outcome);
    case CleanCode(r, outcome) => CleanCodeOwns(s, r, outcome);
  }

  lemma OnlyRunningEnrollmentsStep(s: State, a: Action)
    requires Enabled(s, a) && EnrollStep(a)
    ensures a.r in s.enrolls && !Ended(s.enrolls[a.r].pc)
  {
  }

  /** Every step of an enrollment keeps the invariant. */
  lemma EnrollStepKeepsInv(s: State, a: Action)
    requires Inv(s) && Enabled(s, a) && EnrollStep(a)
    ensures Inv(Apply(s, a)) && Touches(s, Apply(s, a), a.r)
  {
    OnlyRunningEnrollmentsStep(s, a);
    OwnFacts(s, a.r);
    if ForwardStep(a) { ForwardStepOwns(s, a); } else { ClosingStepOwns(s, a); }
    FrameEnroll(s, Apply(s, a), a.r);
  }

  lemma IssueCodeKeepsInv(s: State, a: Action)
    requires Inv(s) && a.IssueCode? && Enabled(s, a)
    ensures Inv(Apply(s, a))
  {
    var s' := Apply(s, a);
    forall c <- s'.codes ensures CodeOk(s', c) { if c != a.c { assert CodeOk(s, c); } }
    forall r <- s'.enrolls ensures EnrollOk(s', r) { assert EnrollOk(s, r); }
    forall d <- s'.devices ensures DeviceOk(s', d) { assert DeviceOk(s, d); }
    forall d, o | (d, o) in s'.live ensures LiveOk(s', d, o) { assert LiveOk(s, d, o); }
    forall t <- s'.tokens ensures TokenOk(s', t) { assert TokenOk(s, t); }
    forall v <- s'.revokes ensures RevokeOk(s', v) { assert RevokeOk(s, v); }
  }

  lemma StartEnrollKeepsInv(s: State, a: Action)
    requires Inv(s) && a.StartEnroll? && Enabled(s, a)
    ensures Inv(Apply(s, a))
  {
    var s' := Apply(s, a);
    forall c <- s'.codes ensures CodeOk(s', c) { assert CodeOk(s, c); }
    forall r <- s'.enrolls ensures EnrollOk(s', r) { if r != a.r { assert EnrollOk(s, r); } }
    forall d <- s'.devices ensures DeviceOk(s', d) { assert DeviceOk(s, d); }
    forall d, o | (d, o) in s'.live ensures LiveOk(s', d, o) { assert LiveOk(s, d, o); }
    forall t <- s'.tokens ensures TokenOk(s', t) { assert TokenOk(s, t); }
    forall v <- s'.revokes ensures RevokeOk(s', v) { assert RevokeOk(s, v); }
  }

  lemma DieOwns(s: State, r: Id)
    requires Own(s, r) && !Ended(s.enrolls[r].pc)
    ensures Touches(s, StepDie(s, r), r) && Own(StepDie(s, r), r)
  {
    assert EnrollOk(StepDie(s, r), r);
  }

  /** An enrollment that dies leaves its rows exactly as its last step left them. */
  lemma DieKeepsInv(s: State, r: Id)
    requires Inv(s) && r in s.enrolls
    ensures Inv(StepDie(s, r)) && Touches(s, StepDie(s, r), r)
  {
    if !Ended(s.enrolls[r].pc) {
      OwnFacts(s, r);
      DieOwns(s, r);
      FrameEnroll(s, StepDie(s, r), r);
    }
  }

  // ---------------------------------------------------------------- steps of a revocation

  /** A revocation moves a row forward only: requested stays requested, Desk columns are kept or cleared. */
  ghost predicate RowShrinks(row: Device, row': Device) {
    && row'.code == row.code && row'.org == row.org && row'.reservedWith == row.reservedWith
    && (row.revocationRequested ==> row'.revocationRequested)
    && (row.revocationCompleted ==> row'.revocationCompleted)
    && (Flagged(row') ==> row'.provisioned == row.provisioned && row'.cleanupPending == row.cleanupPending
                          && row'.provenance == row.provenance)
  }

  /** s' differs from s only in revocation v and its device d; keys and installations only disappear. */
  ghost predicate RevokeTouches(s: State, s': State, v: Id, d: Id) {
    && s'.enrolls == s.enrolls && s'.codes == s.codes && s'.known == s.known
    && s'.keys <= s.keys && s'.live <= s.live
    && (forall k | k in s.keys && k !in s'.keys :: HasKey(s, d, k))
    && (forall x, o | (x, o) in s.live && x != d :: (x, o) in s'.live)
    && v in s'.revokes && s'.revokes[v].device == d && (v in s.revokes ==> s.revokes[v].device == d)
    && s'.revokes == s.revokes[v := s'.revokes[v]]
    && d in s.devices && EnrollmentEnded(s, d)
    && d in s'.devices && s'.devices == s.devices[d := s'.devices[d]]
    && RowShrinks(s.devices[d], s'.devices[d])
    && s'.tokens.Keys == s.tokens.Keys
    && (forall t {:trigger s'.tokens[t]} | t in s'.tokens ::
          s'.tokens[t] == s.tokens[t] || (s.tokens[t].device == d && s'.tokens[t] == s.tokens[t].(revoked := true)))
  }

  ghost predicate RevokeOwn(s: State, v: Id, d: Id) {
    && v in s.revokes && RevokeOk(s, v)
    && d in s.devices && DeviceOk(s, d)
    && (forall o | (d, o) in s.live :: LiveOk(s, d, o))
    && (forall t | t in s.tokens && s.tokens[t].device == d :: TokenOk(s, t))
  }

  lemma FrameRevocation(s: State, s': State, v: Id, d: Id)
    requires Inv(s) && RevokeTouches(s, s', v, d) && RevokeOwn(s', v, d)
    ensures Inv(s')
  {
    forall c <- s'.codes ensures CodeOk(s', c) { assert CodeOk(s, c); }
    forall r <- s'.enrolls ensures EnrollOk(s', r) { FrameRevokedEnroll(s, s', v, d, r); }
    forall x <- s'.devices ensures DeviceOk(s', x) { if x != d { assert DeviceOk(s, x); } }
    forall x, o | (x, o) in s'.live ensures LiveOk(s', x, o) { if x != d { assert LiveOk(s, x, o); } }
    forall t <- s'.tokens ensures TokenOk(s', t) { if s'.tokens[t].device != d { assert TokenOk(s, t); } }
    forall w <- s'.revokes ensures RevokeOk(s', w) { if w != v { FrameOtherRevocation(s, s', v, d, w); } }
  }

  lemma FrameRevokedEnroll(s: State, s': State, v: Id, d: Id, r: Id)
    requires Inv(s) && RevokeTouches(s, s', v, d) && r in s.enrolls
    ensures EnrollOk(s', r)
  {
    assert EnrollOk(s, r);
    if r in s.keys && r !in s'.keys {
      var t :| t in s.tokens && s.tokens[t].device == d && s.tokens[t].key == r;
      assert TokenOk(s, t);
    }
  }

  lemma FrameOtherRevocation(s: State, s': State, v: Id, d: Id, w: Id)
    requires Inv(s) && RevokeTouches(s, s', v, d) && w in s.revokes && w != v
    ensures RevokeOk(s', w)
  {
    assert RevokeOk(s, w);
  }

  lemma RevokeOwnFacts(s: State, v: Id)
    requires Inv(s) && v in s.revokes
    ensures RevokeOwn(s, v, s.revokes[v].device)
  {
    var d := s.revokes[v].device;
    assert RevokeOk(s, v);
    assert DeviceOk(s, d);
    forall o | (d, o) in s.live ensures LiveOk(s, d, o) {}
    forall t | t in s.tokens && s.tokens[t].device == d ensures TokenOk(s, t) {}
  }

  lemma IntentOwns(s: State, v: Id, outcome: Outcome)
    requires v in s.revokes && RevokeOwn(s, v, s.revokes[v].device) && s.revokes[v].pc.Intending?
    ensures var s', d := StepIntent(s, v, outcome), s.revokes[v].device;
            RevokeTouches(s, s', v, d) && RevokeOwn(s', v, d)
  {
    assert RevokeOk(StepIntent(s, v, outcome), v);
  }

  lemma LoadOwns(s: State, v: Id, ok: bool, keys: seq<Id>)
    requires v in s.revokes && RevokeOwn(s, v, s.revokes[v].device)
    requires s.revokes[v].pc.Loading? && KeysOf(s, s.revokes[v].device, keys)
    ensures var s', d := StepLoad(s, v, ok, keys), s.revokes[v].device;
            RevokeTouches(s, s', v, d) && RevokeOwn(s', v, d)
  {
    assert RevokeOk(StepLoad(s, v, ok, keys), v);
  }

  lemma RevokeKeyOwns(s: State, v: Id, outcome: Outcome)
    requires v in s.revokes && RevokeOwn(s, v, s.revokes[v].device)
    requires s.revokes[v].pc.RevokingKeys? && s.revokes[v].pc.todo != []
    ensures var s', d := StepRevokeKey(s, v, outcome), s.revokes[v].device;
            RevokeTouches(s, s', v, d) && RevokeOwn(s', v, d)
  {
    var s', d, todo := StepRevokeKey(s, v, outcome), s.revokes[v].device, s.revokes[v].pc.todo;
    forall k <- todo ensures HasKey(s', d, k) { assert HasKey(s, d, k); }
    assert RevokeOk(s', v);
  }

  lemma ResolveOwns(s: State, v: Id, resolved: bool)
    requires v in s.revokes && RevokeOwn(s, v, s.revokes[v].device)
    requires s.revokes[v].pc.RevokingKeys? && s.revokes[v].pc.todo == []
    ensures var s', d := StepResolve(s, v, resolved), s.revokes[v].device;
            RevokeTouches(s, s', v, d) && RevokeOwn(s', v, d)
  {
    assert RevokeOk(StepResolve(s, v, resolved), v);
  }

  lemma RevokeDeskOwns(s: State, v: Id, outcome: Outcome)
    requires v in s.revokes && RevokeOwn(s, v, s.revokes[v].device) && s.revokes[v].pc.RevokingDesk?
    ensures var s', d := StepRevokeDesk(s, v, outcome), s.revokes[v].device;
            RevokeTouches(s, s', v, d) && RevokeOwn(s', v, d)
  {
    assert RevokeOk(StepRevokeDesk(s, v, outcome), v);
  }

  lemma CompleteOwns(s: State, v: Id, outcome: Outcome)
    requires v in s.revokes && RevokeOwn(s, v, s.revokes[v].device) && s.revokes[v].pc.Completing?
    ensures var s', d := StepComplete(s, v, outcome), s.revokes[v].device;
            RevokeTouches(s, s', v, d) && RevokeOwn(s', v, d)
  {
    assert RevokeOk(StepComplete(s, v, outcome), v);
  }

  predicate RevokeStep(a: Action) {
    a.CommitIntent? || a.LoadDevice? || a.RevokeKey? || a.ResolveDesk? || a.RevokeDesk? || a.Complete?
  }

  lemma RevokeStepOwns(s: State, a: Action)
    requires Enabled(s, a) && RevokeStep(a) && RevokeOwn(s, a.v, s.revokes[a.v].device)
    ensures var d := s.revokes[a.v].device; RevokeTouches(s, Apply(s, a), a.v, d) && RevokeOwn(Apply(s, a), a.v, d)
  {
    match a
    case CommitIntent(v, outcome) => IntentOwns(s, v, outcome);
    case LoadDevice(v, ok, keys) => LoadOwns(s, v, ok, keys);
    case RevokeKey(v, outcome) => RevokeKeyOwns(s, v, outcome);
    case ResolveDesk(v, resolved) => ResolveOwns(s, v, resolved);
    case RevokeDesk(v, outcome) => RevokeDeskOwns(s, v, outcome);
    case Complete(v, outcome) => CompleteOwns(s, v, outcome);
  }

  /** Every step of a revocation keeps the invariant. */
  lemma RevokeStepKeepsInv(s: State, a: Action)
    requires Inv(s) && Enabled(s, a) && RevokeStep(a)
    ensures Inv(Apply(s, a)) && RevokeTouches(s, Apply(s, a), a.v, s.revokes[a.v].device)
  {
    RevokeOwnFacts(s, a.v);
    RevokeStepOwns(s, a);
    FrameRevocation(s, Apply(s, a), a.v, s.revokes[a.v].device);
  }

  lemma StartRevokeKeepsInv(s: State, v: Id, d: Id)
    requires Inv(s) && v !in s.revokes && d in s.devices && EnrollmentEnded(s, d)
    ensures Inv(StepStart(s, v, d))
  {
    var s' := StepStart(s, v, d);
    assert DeviceOk(s, d) && RevokeOk(s', v) && DeviceOk(s', d);
    forall o | (d, o) in s'.live ensures LiveOk(s', d, o) { assert LiveOk(s, d, o); }
    forall t | t in s'.tokens && s'.tokens[t].device == d ensures TokenOk(s', t) { assert TokenOk(s, t); }
    FrameRevocation(s, s', v, d);
  }

  /** The branch of enroll that writes cleanup provenance after a failed registration is never taken:
      the reservation has always been written before the first remote byte. */
  lemma ReservationPrecedesRegistration(s: State, r: Id)
    requires Inv(s) && r in s.enrolls
    ensures !s.enrolls[r].pc.PersistingCleanup?
    ensures s.enrolls[r].pc.Registering? ==> RowPending(s, r, s.enrolls[r].pc.origin)
  {
    assert EnrollOk(s, r);
  }

  lemma StepKeepsInv(s: State, a: Action)
    requires Inv(s) && Enabled(s, a)
    ensures Inv(Apply(s, a))
  {
    if EnrollStep(a) {
      EnrollStepKeepsInv(s, a);
    } else if RevokeStep(a) {
      RevokeStepKeepsInv(s, a);
    } else {
      match a
      case IssueCode(_, _) => IssueCodeKeepsInv(s, a);
      case StartEnroll(_, _, _) => StartEnrollKeepsInv(s, a);
      case Die(r) => DieKeepsInv(s, r);
      case StartRevoke(v, d) => StartRevokeKeepsInv(s, v, d);
      case PersistCleanup(r, _) =>
        ReservationPrecedesRegistration(s, r);
        assert false;
    }
  }
}
