/**
  Enrollment, Desk provisioning and device revocation (src/enroll/enroll.service.ts,
  src/enroll/desk-provisioner.ts, src/admin/admin.service.ts) as programs that interleave at every
  database statement and every remote call.

  Every enrollment and every revocation is a request with its own program counter. One action is one
  database statement or transaction or one remote call. Each of them is confirmed, refused without effect,
  or lost: it took effect, but the caller sees an error. An enrollment may die at any step.

  The device row, its gateway key and its Desk installation all carry the identifier of the enrollment
  request that created them; the sources draw that identifier at random.
 */
module EnrollmentProtocol {
  import opened Wrappers

  type Id = nat
  type Org = nat
  type Origin = string
  type Owner = string

  /** Where a Desk installation lives and on whose behalf: deskOrigin and deskOwner of a device row. */
  datatype Provenance = Provenance(owner: Owner, origin: Origin)

  /** `holder` is history: the request whose claim `usedAt` records. */
  datatype Code = Code(org: Org, owner: Owner, expiresAt: nat, usedAt: Option<nat>, holder: Option<Id>)

  /** The four nullable timestamps are kept as "is set". `reservedWith` is history: the credential
      reference captured when the row was reserved, None for the legacy environment credential. */
  datatype Device = Device(org: Org, code: Option<Id>, provisioned: bool, cleanupPending: bool,
                           provenance: Option<Provenance>, revocationRequested: bool, revocationCompleted: bool,
                           reservedWith: Option<Id>)

  datatype Token = Token(device: Id, key: Id, revoked: bool)

  datatype EnrollPc =
    | Validating
    | CreatingDevice
    | IssuingKey
    | StoringToken
    | Reserving
    | ReadingSecret(origin: Origin, secret: Id)
    | ClearingReservation(origin: Origin)
    | Registering(origin: Origin)
    | CompensatingRegistration(origin: Origin)
    | PersistingCleanup(origin: Origin)
    | MarkingProvisioned(origin: Origin)
    | Returning(receipt: Option<Origin>)
    | CleaningDesk(origin: Origin)
    | CleaningKey(deskRevoked: bool)
    | CleaningDevice(gatewayRevoked: bool, deskRevoked: bool)
    | CleaningCode(gatewayRevoked: bool, deskRevoked: bool, deviceRemoved: bool)
    | Succeeded
    | Failed
    | Died

  /** `created` and `issued` are the locals `dev` and `issued` being non-null, `prepared` is
      deskCleanupPrepared, `holds` says that the claim on the code is this request's. `unseen` is history: a
      device row was created, but the acknowledgement was lost. */
  datatype Enroll = Enroll(code: Id, now: nat, org: Org, owner: Owner, holds: bool, created: bool, issued: bool,
                           prepared: bool, unseen: bool, pc: EnrollPc)

  datatype RevokePc =
    | Intending
    | Loading
    | RevokingKeys(todo: seq<Id>, desk: bool, provenance: Option<Provenance>, allowMissing: bool)
    | RevokingDesk(target: Provenance, missingAllowed: bool)
    | Completing(deskRevoked: bool)
    | RevokeEnded

  datatype Revocation = Revocation(device: Id, pc: RevokePc)

  /** `keys` are the live gateway keys, `live` the live Desk installations, and `known` the
      installations a Desk has ever registered (a revoked one still answers "already revoked"). */
  datatype State = State(
    codes: map<Id, Code>,
    devices: map<Id, Device>,
    tokens: map<Id, Token>,
    keys: set<Id>,
    live: set<(Id, Origin)>,
    known: set<(Id, Origin)>,
    enrolls: map<Id, Enroll>,
    revokes: map<Id, Revocation>)

  /** What the reservation transaction finds for the organization. */
  datatype Route = NoDesk | NoCredential | Managed(origin: Origin, secret: Id) | Legacy(origin: Origin)

  datatype Action =
    | IssueCode(c: Id, code: Code)
    | StartEnroll(r: Id, c: Id, now: nat)
    | ClaimCode(r: Id, outcome: Outcome)
    | CreateDevice(r: Id, outcome: Outcome)
    | IssueKey(r: Id, ok: bool)
    | StoreToken(r: Id, outcome: Outcome)
    | Reserve(r: Id, outcome: Outcome, route: Route)
    | ReadSecret(r: Id, ok: bool)
    | ClearReservation(r: Id, outcome: Outcome)
    | Register(r: Id, outcome: Outcome)
    | CompensateRegistration(r: Id, outcome: Outcome)
    | PersistCleanup(r: Id, ok: bool)
    | MarkProvisioned(r: Id, outcome: Outcome)
    | Return(r: Id, ok: bool)
    | CleanDesk(r: Id, outcome: Outcome)
    | CleanKey(r: Id, outcome: Outcome)
    | CleanDevice(r: Id, outcome: Outcome)
    | CleanCode(r: Id, outcome: Outcome)
    | Die(r: Id)
    | StartRevoke(v: Id, d: Id)
    | CommitIntent(v: Id, outcome: Outcome)
    | LoadDevice(v: Id, ok: bool, keys: seq<Id>)
    | RevokeKey(v: Id, outcome: Outcome)
    | ResolveDesk(v: Id, resolved: bool)
    | RevokeDesk(v: Id, outcome: Outcome)
    | Complete(v: Id, outcome: Outcome)

  // ---------------------------------------------------------------- helpers

  predicate Flagged(d: Device) {
    d.provisioned || d.cleanupPending
  }

  predicate Ended(pc: EnrollPc) {
    pc.Succeeded? || pc.Failed? || pc.Died?
  }

  predicate EnrollmentEnded(s: State, d: Id) {
    d in s.enrolls ==> Ended(s.enrolls[d].pc)
  }

  ghost predicate IsLive(s: State, d: Id) {
    exists o :: (d, o) in s.live
  }

  /** The keys of the tokens of device d. */
  predicate KeysOf(s: State, d: Id, keys: seq<Id>) {
    && (forall t <- s.tokens :: s.tokens[t].device == d ==> s.tokens[t].key in keys)
    && (forall k <- keys :: exists t :: t in s.tokens && s.tokens[t] == Token(d, k, s.tokens[t].revoked))
  }

  /** A fresh random identifier: no row, request or gateway key uses it yet. */
  predicate Fresh(s: State, r: Id) {
    && r !in s.enrolls && r !in s.devices && r !in s.tokens && r !in s.keys
    && (forall t <- s.tokens :: s.tokens[t].key != r)
  }

  function To(s: State, r: Id, e: Enroll, pc: EnrollPc): (s': State) {
    s.(enrolls := s.enrolls[r := e.(pc := pc)])
  }

  function RevokeTo(s: State, v: Id, pc: RevokePc): (s': State)
    requires v in s.revokes
  {
    s.(revokes := s.revokes[v := s.revokes[v].(pc := pc)])
  }

  function Put(s: State, d: Id, row: Device): (s': State) {
    s.(devices := s.devices[d := row])
  }

  // ---------------------------------------------------------------- steps of one enrollment

  predicate Claimable(s: State, e: Enroll) {
    e.code in s.codes && s.codes[e.code].usedAt.None? && s.codes[e.code].expiresAt >= e.now
  }

  /** The guarded update of the claim took effect. */
  function Claimed(s: State, r: Id, pc: EnrollPc): (s': State)
    requires r in s.enrolls && Claimable(s, s.enrolls[r])
  {
    var e := s.enrolls[r];
    var c := s.codes[e.code];
    To(s, r, e.(holds := true, org := c.org, owner := c.owner), pc)
      .(codes := s.codes[e.code := c.(usedAt := Some(e.now), holder := Some(r))])
  }

  function StepClaim(s: State, r: Id, outcome: Outcome): (s': State)
    requires r in s.enrolls
  {
    if outcome.Refused? || !Claimable(s, s.enrolls[r]) then To(s, r, s.enrolls[r], Failed)
    else Claimed(s, r, if outcome.Confirmed? then CreatingDevice else Failed)
  }

  function NewRow(e: Enroll): (row: Device) {
    Device(e.org, Some(e.code), false, false, None, false, false, None)
  }

  function StepCreate(s: State, r: Id, outcome: Outcome): (s': State)
    requires r in s.enrolls
    ensures s'.codes == s.codes
  {
    var e := s.enrolls[r];
    match outcome
    case Confirmed => Put(To(s, r, e.(created := true), IssuingKey), r, NewRow(e))
    case Refused => To(s, r, e, CleaningKey(true))
    case Lost => Put(To(s, r, e.(unseen := true), CleaningKey(true)), r, NewRow(e))
  }

  function StepIssue(s: State, r: Id, ok: bool): (s': State)
    requires r in s.enrolls
    ensures s'.codes == s.codes
  {
    var e := s.enrolls[r];
    if ok then To(s, r, e.(issued := true), StoringToken).(keys := s.keys + {r})
    else To(s, r, e, CleaningKey(true))
  }

  function StepStore(s: State, r: Id, outcome: Outcome): (s': State)
    requires r in s.enrolls
    ensures s'.codes == s.codes
  {
    var e := s.enrolls[r];
    To(s, r, e, if outcome.Confirmed? then Reserving else CleaningKey(true))
      .(tokens := if outcome.Refused? then s.tokens else s.tokens[r := Token(r, r, false)])
  }

  function Reserved(row: Device, owner: Owner, origin: Origin, secret: Option<Id>): (row': Device) {
    row.(provisioned := false, cleanupPending := true, provenance := Some(Provenance(owner, origin)),
         reservedWith := secret)
  }

  function StepReserve(s: State, r: Id, outcome: Outcome, route: Route): (s': State)
    requires r in s.enrolls && r in s.devices
    ensures s'.codes == s.codes
  {
    var e := s.enrolls[r];
    if outcome.Refused? then To(s, r, e, CleaningKey(true))
    else match route
      case NoDesk => To(s, r, e, if outcome.Lost? then CleaningKey(true) else Returning(None))
      case NoCredential => To(s, r, e, CleaningKey(true))
      case Managed(origin, secret) =>
        Put(To(s, r, e, if outcome.Lost? then CleaningKey(true) else ReadingSecret(origin, secret)), r,
            Reserved(s.devices[r], e.owner, origin, Some(secret)))
      case Legacy(origin) =>
        Put(if outcome.Lost? then To(s, r, e, CleaningKey(true))
            else To(s, r, e.(prepared := true), Registering(origin)), r,
            Reserved(s.devices[r], e.owner, origin, None))
  }

  function StepReadSecret(s: State, r: Id, ok: bool): (s': State)
    requires r in s.enrolls && s.enrolls[r].pc.ReadingSecret?
    ensures s'.codes == s.codes
  {
    var e := s.enrolls[r];
    if ok then To(s, r, e.(prepared := true), Registering(e.pc.origin))
    else To(s, r, e, ClearingReservation(e.pc.origin))
  }

  predicate Clearable(s: State, r: Id, e: Enroll)
    requires e.pc.ClearingReservation?
  {
    && r in s.devices && !s.devices[r].provisioned && s.devices[r].cleanupPending
    && s.devices[r].org == e.org && s.devices[r].provenance == Some(Provenance(e.owner, e.pc.origin))
  }

  /** The guarded update that takes the reservation back took effect. */
  function Cleared(s: State, r: Id): (s': State)
    requires r in s.enrolls && r in s.devices
  {
    Put(To(s, r, s.enrolls[r], CleaningKey(true)), r, s.devices[r].(cleanupPending := false, provenance := None))
  }

  function StepClear(s: State, r: Id, outcome: Outcome): (s': State)
    requires r in s.enrolls && s.enrolls[r].pc.ClearingReservation?
    ensures s'.codes == s.codes
  {
    var e := s.enrolls[r];
    if outcome.Refused? || !Clearable(s, r, e) then To(s, r, e, CleaningKey(true)) else Cleared(s, r)
  }

  function StepRegister(s: State, r: Id, outcome: Outcome): (s': State)
    requires r in s.enrolls && s.enrolls[r].pc.Registering?
    ensures s'.codes == s.codes
  {
    var e := s.enrolls[r];
    var o := e.pc.origin;
    var next := To(s, r, e, if outcome.Confirmed? then MarkingProvisioned(o) else CompensatingRegistration(o));
    if outcome.Refused? then next
    else next.(live := s.live + {(r, o)}, known := s.known + {(r, o)})
  }

  function StepCompensate(s: State, r: Id, outcome: Outcome): (s': State)
    requires r in s.enrolls && s.enrolls[r].pc.CompensatingRegistration?
    ensures s'.codes == s.codes
  {
    var e := s.enrolls[r];
    var o := e.pc.origin;
    var next := To(s, r, e,
                   if outcome.Confirmed? then CleaningKey(true)
                   else if e.prepared then CleaningKey(false)
                   else PersistingCleanup(o));
    if outcome.Refused? then next else next.(live := s.live - {(r, o)})
  }

  function StepPersist(s: State, r: Id, ok: bool): (s': State)
    requires r in s.enrolls && s.enrolls[r].pc.PersistingCleanup?
    ensures s'.codes == s.codes
  {
    var e := s.enrolls[r];
    var next := To(s, r, e, CleaningKey(false));
    if ok && r in s.devices then
      Put(next, r, s.devices[r].(provisioned := false, cleanupPending := true,
                                 provenance := Some(Provenance(e.owner, e.pc.origin))))
    else
      next
  }

  function StepMark(s: State, r: Id, outcome: Outcome): (s': State)
    requires r in s.enrolls && s.enrolls[r].pc.MarkingProvisioned?
    ensures s'.codes == s.codes
  {
    var e := s.enrolls[r];
    var o := e.pc.origin;
    if !outcome.Refused? && r in s.devices then
      Put(To(s, r, e, if outcome.Lost? then CleaningDesk(o) else Returning(Some(o))), r,
          s.devices[r].(provisioned := true, cleanupPending := false, provenance := Some(Provenance(e.owner, o))))
    else
      To(s, r, e, CleaningDesk(o))
  }

  function StepReturn(s: State, r: Id, ok: bool): (s': State)
    requires r in s.enrolls && s.enrolls[r].pc.Returning?
    ensures s'.codes == s.codes
  {
    var e := s.enrolls[r];
    To(s, r, e,
       if ok then Succeeded
       else if e.pc.receipt.Some? then CleaningDesk(e.pc.receipt.value)
       else CleaningKey(true))
  }

  function StepCleanDesk(s: State, r: Id, outcome: Outcome): (s': State)
    requires r in s.enrolls && s.enrolls[r].pc.CleaningDesk?
    ensures s'.codes == s.codes
  {
    var e := s.enrolls[r];
    var next := To(s, r, e, CleaningKey(outcome.Confirmed?));
    if outcome.Refused? then next else next.(live := s.live - {(r, e.pc.origin)})
  }

  function StepCleanKey(s: State, r: Id, outcome: Outcome): (s': State)
    requires r in s.enrolls && s.enrolls[r].pc.CleaningKey?
    ensures s'.codes == s.codes
  {
    var e := s.enrolls[r];
    To(s, r, e, CleaningDevice(!e.issued || outcome.Confirmed?, e.pc.deskRevoked))
      .(keys := if !e.issued || outcome.Refused? then s.keys else s.keys - {r})
  }

  /** The row and, by cascade, its tokens are gone. */
  function Removed(s: State, r: Id, pc: EnrollPc): (s': State)
    requires r in s.enrolls
  {
    To(s, r, s.enrolls[r], pc)
      .(devices := s.devices - {r},
        tokens := map t | t in s.tokens && s.tokens[t].device != r :: s.tokens[t])
  }

  function StepCleanDevice(s: State, r: Id, outcome: Outcome): (s': State)
    requires r in s.enrolls && s.enrolls[r].pc.CleaningDevice?
    ensures s'.codes == s.codes
  {
    var e := s.enrolls[r];
    var CleaningDevice(key, desk) := e.pc;
    if e.created && key && desk && !outcome.Refused? then
      Removed(s, r, CleaningCode(true, true, outcome.Confirmed?))
    else
      To(s, r, e, CleaningCode(key, desk, !e.created))
  }

  predicate Releasable(s: State, e: Enroll) {
    e.pc == CleaningCode(true, true, true) && e.code in s.codes && s.codes[e.code].usedAt == Some(e.now)
  }

  /** The guarded update that frees the code took effect. */
  function Released(s: State, r: Id): (s': State)
    requires r in s.enrolls && Releasable(s, s.enrolls[r])
  {
    var e := s.enrolls[r];
    To(s, r, e.(holds := false), Failed)
      .(codes := s.codes[e.code := s.codes[e.code].(usedAt := None, holder := None)])
  }

  function StepCleanCode(s: State, r: Id, outcome: Outcome): (s': State)
    requires r in s.enrolls && s.enrolls[r].pc.CleaningCode?
  {
    if outcome.Refused? || !Releasable(s, s.enrolls[r]) then To(s, r, s.enrolls[r], Failed) else Released(s, r)
  }

  function StepDie(s: State, r: Id): (s': State)
    requires r in s.enrolls
    ensures s'.codes == s.codes
  {
    if Ended(s.enrolls[r].pc) then s else To(s, r, s.enrolls[r], Died)
  }

  // ---------------------------------------------------------------- steps of one revocation

  function StepStart(s: State, v: Id, d: Id): (s': State)
    requires d in s.devices
    ensures s'.codes == s.codes
  {
    s.(revokes := s.revokes[v := Revocation(d, if s.devices[d].revocationRequested then Loading else Intending)])
  }

  function StepIntent(s: State, v: Id, outcome: Outcome): (s': State)
    requires v in s.revokes
    ensures s'.codes == s.codes
  {
    var d := s.revokes[v].device;
    if outcome.Refused? then RevokeTo(s, v, RevokeEnded)
    else
      RevokeTo(s, v, if outcome.Lost? then RevokeEnded else Loading)
        .(devices := if d in s.devices then s.devices[d := s.devices[d].(revocationRequested := true)] else s.devices,
          tokens := map t | t in s.tokens ::
            if s.tokens[t].device == d then s.tokens[t].(revoked := true) else s.tokens[t])
  }

  function StepLoad(s: State, v: Id, ok: bool, keys: seq<Id>): (s': State)
    requires v in s.revokes
    ensures s'.codes == s.codes
  {
    var d := s.revokes[v].device;
    if !ok || d !in s.devices || s.devices[d].revocationCompleted then RevokeTo(s, v, RevokeEnded)
    else
      var row := s.devices[d];
      RevokeTo(s, v, RevokingKeys(keys, Flagged(row), row.provenance, row.cleanupPending && !row.provisioned))
  }

  function StepRevokeKey(s: State, v: Id, outcome: Outcome): (s': State)
    requires v in s.revokes && s.revokes[v].pc.RevokingKeys? && s.revokes[v].pc.todo != []
    ensures s'.codes == s.codes
  {
    var pc := s.revokes[v].pc;
    var next := RevokeTo(s, v, if outcome.Confirmed? then pc.(todo := pc.todo[1..]) else RevokeEnded);
    if outcome.Refused? then next else next.(keys := s.keys - {pc.todo[0]})
  }

  function StepResolve(s: State, v: Id, resolved: bool): (s': State)
    requires v in s.revokes && s.revokes[v].pc.RevokingKeys?
    ensures s'.codes == s.codes
  {
    var pc := s.revokes[v].pc;
    RevokeTo(s, v,
             if !pc.desk then Completing(false)
             else if pc.provenance.None? || !resolved then RevokeEnded
             else RevokingDesk(pc.provenance.value, pc.allowMissing))
  }

  function StepRevokeDesk(s: State, v: Id, outcome: Outcome): (s': State)
    requires v in s.revokes && s.revokes[v].pc.RevokingDesk?
    ensures s'.codes == s.codes
  {
    var pc := s.revokes[v].pc;
    var next := RevokeTo(s, v, if outcome.Confirmed? then Completing(true) else RevokeEnded);
    if outcome.Refused? then next else next.(live := s.live - {(s.revokes[v].device, pc.target.origin)})
  }

  function StepComplete(s: State, v: Id, outcome: Outcome): (s': State)
    requires v in s.revokes && s.revokes[v].pc.Completing?
    ensures s'.codes == s.codes
  {
    var d := s.revokes[v].device;
    var next := RevokeTo(s, v, RevokeEnded);
    if !outcome.Refused? && d in s.devices then
      var row := s.devices[d].(revocationCompleted := true);
      Put(next, d,
          if s.revokes[v].pc.deskRevoked then row.(provisioned := false, cleanupPending := false, provenance := None)
          else row)
    else
      next
  }

  // ---------------------------------------------------------------- the machine

  /** A Desk confirms a revocation of an installation it registered once; only cleanup of an
      inconclusive registration accepts the answer "not found". */
  predicate MayConfirm(s: State, d: Id, origin: Origin, allowMissing: bool) {
    (d, origin) in s.known || allowMissing
  }

  predicate Enabled(s: State, a: Action) {
    match a
    case IssueCode(c, code) => c !in s.codes && code.usedAt.None? && code.holder.None?
    case StartEnroll(r, c, now) => Fresh(s, r)
    case ClaimCode(r, _) => r in s.enrolls && s.enrolls[r].pc.Validating?
    case CreateDevice(r, _) => r in s.enrolls && s.enrolls[r].pc.CreatingDevice?
    case IssueKey(r, _) => r in s.enrolls && s.enrolls[r].pc.IssuingKey?
    case StoreToken(r, _) => r in s.enrolls && s.enrolls[r].pc.StoringToken?
    case Reserve(r, _, _) => r in s.enrolls && s.enrolls[r].pc.Reserving? && r in s.devices
    case ReadSecret(r, _) => r in s.enrolls && s.enrolls[r].pc.ReadingSecret?
    case ClearReservation(r, _) => r in s.enrolls && s.enrolls[r].pc.ClearingReservation?
    case Register(r, _) => r in s.enrolls && s.enrolls[r].pc.Registering?
    case CompensateRegistration(r, _) => r in s.enrolls && s.enrolls[r].pc.CompensatingRegistration?
    case PersistCleanup(r, _) => r in s.enrolls && s.enrolls[r].pc.PersistingCleanup?
    case MarkProvisioned(r, _) => r in s.enrolls && s.enrolls[r].pc.MarkingProvisioned?
    case Return(r, _) => r in s.enrolls && s.enrolls[r].pc.Returning?
    case CleanDesk(r, outcome) =>
      && r in s.enrolls && s.enrolls[r].pc.CleaningDesk?
      && (outcome.Confirmed? ==> MayConfirm(s, r, s.enrolls[r].pc.origin, false))
    case CleanKey(r, _) => r in s.enrolls && s.enrolls[r].pc.CleaningKey?
    case CleanDevice(r, _) => r in s.enrolls && s.enrolls[r].pc.CleaningDevice?
    case CleanCode(r, _) => r in s.enrolls && s.enrolls[r].pc.CleaningCode?
    case Die(r) => r in s.enrolls
    case StartRevoke(v, d) => v !in s.revokes && d in s.devices && EnrollmentEnded(s, d)
    case CommitIntent(v, _) => v in s.revokes && s.revokes[v].pc.Intending?
    case LoadDevice(v, _, keys) => v in s.revokes && s.revokes[v].pc.Loading? && KeysOf(s, s.revokes[v].device, keys)
    case RevokeKey(v, _) => v in s.revokes && s.revokes[v].pc.RevokingKeys? && s.revokes[v].pc.todo != []
    case ResolveDesk(v, _) => v in s.revokes && s.revokes[v].pc.RevokingKeys? && s.revokes[v].pc.todo == []
    case RevokeDesk(v, outcome) =>
      && v in s.revokes && s.revokes[v].pc.RevokingDesk?
      && (outcome.Confirmed? ==>
            MayConfirm(s, s.revokes[v].device, s.revokes[v].pc.target.origin, s.revokes[v].pc.missingAllowed))
    case Complete(v, _) => v in s.revokes && s.revokes[v].pc.Completing?
  }

  function Apply(s: State, a: Action): (s': State)
    requires Enabled(s, a)
  {
    match a
    case IssueCode(c, code) => s.(codes := s.codes[c := code])
    case StartEnroll(r, c, now) =>
      s.(enrolls := s.enrolls[r := Enroll(c, now, 0, "", false, false, false, false, false, Validating)])
    case ClaimCode(r, outcome) => StepClaim(s, r, outcome)
    case CreateDevice(r, outcome) => StepCreate(s, r, outcome)
    case IssueKey(r, ok) => StepIssue(s, r, ok)
    case StoreToken(r, outcome) => StepStore(s, r, outcome)
    case Reserve(r, outcome, route) => StepReserve(s, r, outcome, route)
    case ReadSecret(r, ok) => StepReadSecret(s, r, ok)
    case ClearReservation(r, outcome) => StepClear(s, r, outcome)
    case Register(r, outcome) => StepRegister(s, r, outcome)
    case CompensateRegistration(r, outcome) => StepCompensate(s, r, outcome)
    case PersistCleanup(r, ok) => StepPersist(s, r, ok)
    case MarkProvisioned(r, outcome) => StepMark(s, r, outcome)
    case Return(r, ok) => StepReturn(s, r, ok)
    case CleanDesk(r, outcome) => StepCleanDesk(s, r, outcome)
    case CleanKey(r, outcome) => StepCleanKey(s, r, outcome)
    case CleanDevice(r, outcome) => StepCleanDevice(s, r, outcome)
    case CleanCode(r, outcome) => StepCleanCode(s, r, outcome)
    case Die(r) => StepDie(s, r)
    case StartRevoke(v, d) => StepStart(s, v, d)
    case CommitIntent(v, outcome) => StepIntent(s, v, outcome)
    case LoadDevice(v, ok, keys) => StepLoad(s, v, ok, keys)
    case RevokeKey(v, outcome) => StepRevokeKey(s, v, outcome)
    case ResolveDesk(v, resolved) => StepResolve(s, v, resolved)
    case RevokeDesk(v, outcome) => StepRevokeDesk(s, v, outcome)
    case Complete(v, outcome) => StepComplete(s, v, outcome)
  }
}
