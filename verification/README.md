# Verified model of Hara Control

Hara Control enrolls devices of an organization, hands out gateway keys and Desk installations, revokes
them, and keeps the policies, tickets, crash alerts, learnings and audit records around that. This project
models the parts where those operations interleave, fail halfway or have to agree with each other, and
proves what holds for every input, every run or every reachable state.

`dafny verify dfyconfig.toml` checks everything.

## How the model is built

* **Control plane** (`ServiceBindings`, `EnrollmentProtocol`, `EnrollmentInvariant`, `ControlPlane`,
  `ControlPlaneTheorems`, `Reservations`, `BindingChanges`, `CredentialLock`, `DeviceRevocation`,
  `LostAcknowledgements`, `FreedBindings`, `EnrollmentOutcomes`, `EnrollmentProgress`). Enrollment, binding administration and
  revocation are programs with a program counter each. One action is one database statement or transaction,
  one secret-store call or one remote call; any number of programs interleave in any order. Each call, to the
  database as to a remote service, is confirmed, refused without effect, or lost: it took effect, but its
  caller sees an error. An enrollment may die anywhere. `EnrollmentInvariant` proves that each step keeps one
  invariant by a framing argument (a step of request r disturbs nobody else's rows); `ControlPlane` adds the
  advisory-locked binding tables; the theorems follow from the invariant. `Reservations`, `BindingChanges` and
  `EnrollmentOutcomes` say what the steps do in terms of the tables before them, `FreedBindings` and
  `EnrollmentProgress` that the protocols can always be brought to their end.
* **Audit** (`CanonicalJson`, `CanonicalText`, `AuditChain`, `AuditLog`). Text is UTF-16 code units; a number is the text
  printed for it. The hash is any function that is injective and never returns the empty text. The payload
  column drops undefined members on the way in and may return the members of an object in any order.
* **Policies** (`PolicyBudget`, `PolicyMerge`). Budgets are trees of finite maps over exact numbers. Lists come
  out sorted by UTF-16 code units.
* **Leases, queues and limits** (`CrashAlerts`, `FeedbackTickets`, `FeedbackWorkflow`, `FeedbackLeases`,
  `FeishuMonitor`, `MonitorOutcomes`, `LearningLedger`, `LearningEffects`, `RateLimiter`). Interleaved programs are step machines; state that one call updates in
  place is a class whose methods are proved against specification functions.
* **Algorithms** (`Base32`, `OrgTree`). The loops of the sources, with invariants.

Names such as `holder`, `reservedWith`, `unseen`, `configs`, `probes`, `sentUnder`, `grants`, `launches` are
history: no action reads them, they exist so that a property of a whole run can be stated about a state.

## Assumptions

* `DeskProvisioner` has its bindings service, as src/enroll/enroll.module.ts:7 wires it; the legacy
  environment mapping never changes.
* `issueKey` returns a key or leaves none. A remote registration is not applied after a revoke of the same
  installation, be it its own compensation or an administrator's. A Desk answers "already revoked" for an
  installation it once knew.
* Revocation of a device starts only after that device's enrollment call has ended. The code does not fence
  that overlap.
* Identifiers drawn at random are distinct. Claim timestamps of crash alert runs are distinct.
* Committed serializable transactions are atomic. Clocks of the rate limiter and of tickets do not run
  backwards. A bundle of learnings reads one snapshot. An organization table does not change during a walk.
* In the monitor, reading an existing file succeeds, and every exception that leaves `process_record` is
  counted as an interruption, like a crash.

## Where the code does less than it seems to

* **A device row can outlive its code.** If the creation of the row commits but its acknowledgement is lost,
  the enrollment believes that there is no row and releases the code (src/enroll/enroll.service.ts:228).
  `ReleaseIsEarned` and `OneRowPerCode` state this exception exactly, `UnseenRowIsInert` shows that such a row
  has no token, key or installation, and `UnseenRowOutlivesCode` is a run.
* **A lost upsert can strand an installation for good.** When the transaction of an upsert commits but reports
  an error, the upsert removes the credential that the committed row refers to. A verification may have passed
  and a device may have enrolled in between. `LostUpsertStrands` is such a run, `StrandedForever` proves that
  neither revoking the device nor changing the binding ever works again, and `RetryNeedsCredential` that a
  retry can complete exactly when the credential is stored. `CredentialStays` says for every reachable state
  when the credential of a provisioned device is safe in all further runs: exactly when it is stored and the
  upsert that stored it has no unfinished removal of it.
* **A late intake shortens its own consumer's lease.** An intake claims with the time at which it started, so a
  slow one can replace a longer lease of the same consumer by a shorter one, and another consumer is granted
  the ticket before the first expiry. `LateIntakeShortensLease` is such a run; `LeaseIsExclusive` proves that
  exclusivity until a deadline holds in all runs exactly when no such intake is on its way.
* **A checked ticket update can go through under somebody else's lease.** The claim check and the transition it
  guards are separate steps (src/feedback-tickets/feedback-tickets.service.ts:224-237).
  `SupersededUpdateApplies` is a run in which A's checked update ends B's lease; `CheckedUpdate` says exactly
  when a checked update is still applied under its own token.
* **Consent can be loosened.** Omitting `allowPersonalModelConnections` denies it, yet a later layer that
  sets it to true grants it when no earlier layer mentioned it. `LayersOnlyTighten` gives the exact
  condition, `OmittedConsentIsGrantedLater` an example. Everything else only tightens.
* **Budget dimensions named like members of Object.prototype can be lost.** `restrictiveBudget` reads
  `merged[key]` on a plain object, so `toString` or `constructor` set only by a later layer resolves to an
  inherited function, which is then kept; set by the first table, it merges as it should. `LeafMinimum` proves
  that merging any list of layers yields the minimum at every leaf exactly when each layer fits what it is
  merged into: same shapes, and no such name that it alone sets. `LeafMinimumOfLayers` gives the same condition
  on the layers alone. `InheritedDimensionIsLost` is an example.
* **The monitor's attempt rules fail when a backend is configured.** `enqueue` saves its record again after
  each backend call, from memory. If the worker thread has picked the record up meanwhile, its progress is
  undone: an attempt can be repeated (`AttemptRepeats`), a fourth launch can happen without any crash
  (`FourLaunches`), and a launch can follow a stored terminal transition (`LaunchAfterTerminal`).
  `DisciplineNeedsOneWrite` proves that each of the three rules holds for all runs exactly when no backend is
  configured. `PatientRunsAreDisciplined` proves them for any configuration if the worker leaves a record alone
  until its enqueue call is done, and `AttemptNumbersAreBounded` proves the bound on attempt numbers in every
  run.
* **The organization walks differ at an empty identifier.** The upward walk takes it for no parent, the downward
  walk follows it. `WalksAgree` gives the exact condition, `WalksDisagree` a table; identifiers are generated,
  so it does not arise.
* **A branch that is never taken.** src/enroll/enroll.service.ts:230-256 writes cleanup provenance after an
  unconfirmed registration that was not prepared; `ReservationPrecedesRegistration` shows that a
  registration is always prepared.
* `createOrg` may nest deeper than 64 levels, after which the upward walk reports "too deep";
  `BuiltTablesHaveNoCycle` shows that this is the only error left for an existing unit, and `TooDeepTree`
  builds such a tree of 65 units.

## Model

| member | source | states |
|---|---|---|
| `ControlPlaneTheorems.NoOrphanInstallation` | src/enroll/enroll.service.ts:162-302 | in every reachable state of any interleaving, a live Desk installation of device d on origin o implies that row d exists with that origin and is marked provisioned or cleanup-pending |
| `ControlPlaneTheorems.OneInstallationPerDevice` | src/enroll/desk-provisioner.ts:244-424 | a device never has live installations on two origins |
| `ControlPlaneTheorems.InstallationStaysRevocable` | src/service-bindings/service-bindings.service.ts:528-569 | while a device is provisioned or pending, the binding keeps the origin and credential reference captured at reservation, or no managed row exists and the legacy origin matches; resolution never conflicts, and it finds the target exactly if the credential is stored, which only an upsert with a lost acknowledgement can have undone |
| `Reservations.ReservedOnLiveRoute` | src/service-bindings/service-bindings.service.ts:575-631 | in every reachable state, a step turns an unflagged row into a flagged one only as a reservation on an ACTIVE binding, whose origin and credential it records and which was probed as it stands, or, without any managed row, on the environment; for the organization and owner of the row's code |
| `Reservations.ReservationOutcome` | src/service-bindings/service-bindings.service.ts:582-631 | a reservation that took effect leaves the row pending on that route in exactly these two cases and empty in every other; an acknowledged one goes on to the credential or the registration, gives up on an ACTIVE row without a credential and otherwise returns without a Desk |
| `Reservations.ReservationIsTakenBack` | src/service-bindings/service-bindings.service.ts:633-659 | after an unreadable credential the reservation is cleared next, and the guarded update always finds its row |
| `Reservations.ResolutionOutcome` | src/service-bindings/service-bindings.service.ts:528-569 | a revocation gets a target exactly from a managed row of any status at the expected origin with a stored credential, or from the environment at that origin if there is no managed row; another origin is a conflict |
| `Reservations.RowBelongsToItsCode` | src/enroll/enroll.service.ts:94-126 | in every reachable state a row that came from a code has that code's organization, and its Desk provenance names that code's owner |
| `EnrollmentOutcomes.ClaimOutcome` | src/enroll/enroll.service.ts:94-104 | a claim takes the code exactly if it exists, is unused and not expired at the time of the request |
| `EnrollmentOutcomes.ConfirmedEnrollmentSucceeds` | src/enroll/enroll.service.ts:55-220 | in every run with everybody else's steps in between, an enrollment all of whose own calls are confirmed never compensates and ends with success unless its code was not to be had |
| `EnrollmentOutcomes.FailureLeavesNothing` | src/enroll/enroll.service.ts:221-302 | in every run, if an enrollment fails anywhere and its cleanup calls are confirmed, its code is no longer its own, unless the claim itself was not acknowledged, and no token, key, installation or row of it is left, except exactly a row whose creation was not acknowledged |
| `EnrollmentProgress.UsableCodeCanBeRedeemed` | src/enroll/enroll.service.ts:55-220 | from every reachable state, a new request with a usable code has a run of its own confirmed calls to success, with a live installation on the Desk its organization is offered, unless the credential for that is missing |
| `CredentialLock.CredentialStays` | src/service-bindings/service-bindings.service.ts:253-321 | from every reachable state, the credential of a provisioned or pending device stays stored in every run in which it stays so, exactly when it is stored now and the upsert that stored it has no unfinished removal of it |
| `ControlPlaneTheorems.OneRowPerCode` | src/enroll/enroll.service.ts:94-123 | two device rows never carry the same enrollment code, unless the creation of one was lost to its own enrollment |
| `ControlPlaneTheorems.UnseenRowIsInert` | src/enroll/enroll.service.ts:221-302 | a row whose creation was lost has no Desk columns, no token, no gateway key and no installation |
| `ControlPlaneTheorems.OneSuccessPerCode` | src/enroll/enroll.service.ts:94-104 | over all concurrent enrollments at most one exchange of a code succeeds |
| `ControlPlaneTheorems.SuccessIsComplete` | src/enroll/enroll.service.ts:114-220 | when an enrollment is about to return, code, row, live key and stored token are its own, and a returned Desk binding names a live installation recorded as provisioned (no binding: no installation) |
| `ControlPlaneTheorems.ClaimIsTimely` | src/enroll/enroll.service.ts:94-104 | an unused code becomes used only by a claim of a request for it, not after its expiry, and records that request's time |
| `ControlPlaneTheorems.ReleaseIsEarned` | src/enroll/enroll.service.ts:279-302 | a used code becomes unused only through its own claimant, once its key is revoked and its installation is gone; its row is still there exactly if the creation of the row was lost |
| `DeviceRevocation.RequestStays` | src/admin/admin.service.ts:518-539 | no step of anyone withdraws a committed revocation intent or removes its row |
| `DeviceRevocation.RevocationIsFailClosed` | src/admin/admin.service.ts:518-548 | once the intent is committed, every token of the device is revoked in every later state of every run |
| `DeviceRevocation.CompletionMeansRevoked` | src/admin/admin.service.ts:555-600 | a completed revocation means that every gateway key of the device's tokens and any Desk installation are revoked remotely, and that the Desk columns of the row are cleared, so that it no longer holds the binding |
| `DeviceRevocation.CooperativeEndCompletes` | src/admin/admin.service.ts:509-601 | in every run with everybody else's steps in between, a revocation all of whose own calls cooperate and that has ended has completed its device's revocation |
| `DeviceRevocation.RetryCompletes` | src/admin/admin.service.ts:509-601 | from every reachable state, after any partial failures, a new revocation has a run in which all its calls cooperate and which completes, if the credential is stored |
| `FreedBindings.CompletedOrganizationIsFree` | src/admin/admin.service.ts:574-600 | once every provisioned or pending device of an organization has completed its revocation, an upsert of its Desk binding takes effect unless its own transaction fails, and so does disabling it |
| `FreedBindings.FreedExactlyIfStored` | src/admin/admin.service.ts:509-601 | an organization whose enrollments have ended can stop holding its Desk binding, in some run, exactly when the credential of each of its provisioned or pending devices is stored |
| `LostAcknowledgements.UnseenRowOutlivesCode` | src/enroll/enroll.service.ts:221-302 | a run in which the creation of a row is lost and its code is released |
| `LostAcknowledgements.LostUpsertStrands` | src/service-bindings/service-bindings.service.ts:253-321 | a run in which a lost upsert removes the credential of a live installation |
| `LostAcknowledgements.StrandedForever` | src/enroll/desk-provisioner.ts:438-483 | such a device stays unrevoked, and its installation live, in every further run |
| `LostAcknowledgements.RetryNeedsCredential` | src/admin/admin.service.ts:509-601 | a fresh revocation of a device that no other revocation is finishing can complete exactly when it has no installation to revoke or the credential is stored |
| `ControlPlaneTheorems.ActiveWasProbed` | src/service-bindings/service-bindings.service.ts:337-417 | an ACTIVE binding was probed successfully at its current identifier, version and configuration; an ACTIVE Desk binding has a stored credential unless the upsert that brought it was lost |
| `ControlPlaneTheorems.SameVersionSameConfig` | src/service-bindings/service-bindings.service.ts:266-296 | equal identifier and configVersion at any two moments of a run mean equal configuration |
| `ServiceBindings.ChangeIsANewVersion` | src/service-bindings/service-bindings.service.ts:425-446 | inserting, reconfiguring or disabling a row leaves it inactive under a version that no probe and no verification in flight has seen |
| `BindingChanges.UpsertTakesEffect` | src/service-bindings/service-bindings.service.ts:253-304 | an upsert that takes effect writes the origin and settings of the request, with the capabilities given, inherited or 1, its own credential or the former one, PENDING_VERIFICATION and the next version, or a new row with version 1; every other row stays, and one that is refused or busy writes nothing |
| `BindingChanges.UpsertOwesRemoval` | src/service-bindings/service-bindings.service.ts:298-321 | an upsert goes on to remove exactly the credential it replaced if it was acknowledged, and its own one if it saw an error |
| `BindingChanges.DisableTakesEffect` | src/service-bindings/service-bindings.service.ts:419-446 | disabling keeps the configuration and moves status and version of that row alone, and a busy Desk binding stays as it is |
| `BindingChanges.VerdictTakesEffect` | src/service-bindings/service-bindings.service.ts:713-734 | a verification result changes the status alone, to what the probe said, exactly if identifier and version are those probed |
| `BindingChanges.VersionCountsMutations` | src/service-bindings/service-bindings.service.ts:253-446 | in every run the version of a binding stays the same exactly when no upsert and no disabling took effect on it, and then so does its configuration |
| `BindingChanges.VerdictNeedsQuiet` | src/service-bindings/service-bindings.service.ts:337-417 | for every run between the reading of a row and the result of its verification, the result is written exactly when nothing changed the binding meanwhile |
| `ServiceBindings.CommitUpsertKeepsInv` | src/service-bindings/service-bindings.service.ts:253-335 | whatever it writes (`BindingChanges.UpsertTakesEffect` says what), committing, failing or losing an upsert keeps every row's credential stored and every dropped secret unreferenced, lost upserts aside, and ACTIVE rows probed as they stand |
| `ServiceBindings.DropSecretKeepsInv` | src/service-bindings/service-bindings.service.ts:305-335 | deleting a retired or unused secret never removes one that a row refers to, unless the upsert that stored it was lost |
| `ServiceBindings.DisableKeepsInv` | src/service-bindings/service-bindings.service.ts:419-446 | disabling keeps the invariant |
| `ServiceBindings.CommitVerifyKeepsInv` | src/service-bindings/service-bindings.service.ts:713-734 | a verification result is applied only to the row version it probed, so ACTIVE stays earned |
| `EnrollmentInvariant.ReservationPrecedesRegistration` | src/enroll/enroll.service.ts:230-256 | no reachable enrollment is in the branch that persists cleanup for an unprepared registration |
| `EnrollmentInvariant.EnrollStepKeepsInv` | src/enroll/enroll.service.ts:94-322 | every step of an enrollment, from the claim to the last compensation, confirmed, refused or lost, keeps the joint invariant and touches only its own rows |
| `EnrollmentInvariant.RevokeStepKeepsInv` | src/admin/admin.service.ts:518-600 | every step of a revocation keeps the invariant: requested stays requested, completed stays completed, Desk columns are kept or cleared, keys and installations only disappear |
| `ControlPlane.BindKeepsLock` | src/service-bindings/service-bindings.service.ts:253-264 | a binding mutation moves an organization's Desk route only while none of its devices is provisioned or pending |
| `ControlPlane.ReserveKeepsLock` | src/service-bindings/service-bindings.service.ts:582-631 | a row that a reservation leaves flagged has the origin and credential that the locked binding has at that moment (`Reservations.ReservationOutcome` says when it is left flagged) |
| `ControlPlane.RunKeepsInv` | src/service-bindings/service-bindings.service.ts:736-746 | the joint invariant of both subsystems holds after every run |
| `CanonicalJson.QuoteInjective` | src/common/crypto.ts:13-29 | a quoted string determines the string and where it ends, escapes and lone surrogates included |
| `CanonicalJson.ValueInjective` | src/common/crypto.ts:13-29 | a canonical value followed by a delimiter or by nothing determines the value up to member order, and where it ends |
| `CanonicalJson.CanonicalExact` | src/common/crypto.ts:13-29 | for objects, canonical(a)+p = canonical(b)+q exactly when a and b are the same up to member order and p = q |
| `CanonicalJson.InsertionOrderIrrelevant` | src/common/crypto.ts:13-23 | objects with the same members in any insertion order have the same canonical text |
| `CanonicalText.LeqIsLexicographic` | src/common/crypto.ts:17-21 | keys are ordered by the first UTF-16 unit that differs, a prefix first |
| `CanonicalText.CanonicalIs` | src/common/crypto.ts:13-23 | the text of every value with its words, brackets and commas; the members of an object are listed by ascending key |
| `CanonicalText.QuoteIs` | src/common/crypto.ts:14 | strings are written as they are, except for quotation marks, backslashes, control characters and lone surrogates, whose escapes are given |
| `AuditChain.Verify` | src/audit/audit.service.ts:135-204 | the verifier loop accepts exactly the intact chains, counts both legacy forms, and otherwise reports the first broken row and why |
| `AuditChain.IdentityFields` | src/audit/audit.service.ts:32-50 | what is hashed of a row has its seven fields, each under its own name, and nothing else |
| `AuditChain.SameHashSameRow` | src/audit/audit.service.ts:32-50 | two accepted rows with equal hash agree on every hashed field, up to the order of payload members and the null personId form of enroll_code.create, and on both hash columns |
| `AuditChain.SameHashSameHistory` | src/audit/audit.service.ts:135-204 | from two anchored rows with equal hash, both tables have the same rows back to the anchor |
| `AuditChain.SameHeadSameChain` | src/audit/audit.service.ts:135-204 | tamper evidence: two tables that verify and end in the same hash have equal anchored suffixes |
| `AuditLog.ReadRowMatches` | src/audit/audit.service.ts:19-30 | a row appended over the persisted payload matches its hash however the column returns that payload |
| `AuditLog.PersistKeeps` | src/audit/audit.service.ts:19-30 | the persisted payload has exactly the members of the given one that are not undefined, with values after the same rule |
| `AuditLog.RawHashIsReproduced` | src/audit/audit.service.ts:19-30 | a row hashed over the payload as given would match exactly when the read is the same value, so nothing was dropped |
| `AuditLog.AppendKeepsVerifying` | src/audit/audit.service.ts:52-83 | appending keeps a table verifiable under every read of it |
| `AuditLog.EveryLogVerifies` | src/audit/audit.service.ts:52-109 | after any interleaving of any organizations' transactions, every organization's log verifies in whatever form the database returns it, and no committed row changes |
| `AuditLog.LegacyFormVerifies` | src/audit/audit.service.ts:160-190 | a row that was hashed with an undefined personId is accepted however it is read back without it |
| `AuditLog.Store.Transact` | src/audit/audit.service.ts:85-109 | at most four attempts, only conflicts are tried again; a reported success added one row to its organization, with the entry's identifier, action, actor type, actor, time and the members of its payload that are not undefined, numbered and linked after the last row and matching its own hash, and changed no other row; a failure added nothing unless its acknowledgement was lost; a payload that is no object is never appended |
| `PolicyBudget.RestrictiveBudget` | src/roles/roles.service.ts:96-113 | the recursive program that fills a copy computes the restriction function |
| `PolicyBudget.LeafNeverRises` | src/roles/roles.service.ts:96-113 | a limit in force never rises or disappears, whatever the next layer says |
| `PolicyBudget.LeafMinimum` | src/roles/roles.service.ts:96-113 | for any list of normalized layers: each leaf is the minimum over the layers that set it and nothing is lost or added, exactly when each layer fits what the earlier ones were merged to |
| `PolicyBudget.LeafMinimumOfLayers` | src/roles/roles.service.ts:96-113 | the same exact condition on the layers alone: pairwise the same shape wherever both set something, and at every path the first layer with a table sets every inherited name that a later one sets |
| `PolicyBudget.PairwiseAgreementFits` | src/roles/roles.service.ts:96-113 | layers that agree pairwise in shape and in such names fit in any order |
| `PolicyBudget.BudgetOrderIrrelevant` | src/roles/roles.service.ts:96-113 | for fitting layers, another order or repetition gives the same budget exactly when they fit in that order too |
| `PolicyBudget.RestrictCommutes` | src/roles/roles.service.ts:96-113 | two normalized budgets can be exchanged exactly when they agree in shape and no one-sided dimension has an inherited name |
| `PolicyBudget.InheritedDimensionIsLost` | src/roles/roles.service.ts:104-109 | a dimension called toString that only the later layer sets is lost |
| `PolicyMerge.NamesAreClean` | src/roles/roles.service.ts:26-38 | every listed name that survives normalization is trimmed, visible, at most 256 long, free of control characters and its own normal form |
| `PolicyMerge.MergePolicy` | src/roles/roles.service.ts:116-152 | the loop succeeds exactly when every present layer is well formed, and said from the layers' JSON: a name is in a deny list exactly if some layer's list under that key has a string that trims to it, in the allow list exactly if every layer with one has it, approval and consent follow the layers' booleans, and the budget is the restriction of trees that have at every path what the layers' JSON has; lists are sorted, empty deny lists omitted; otherwise it reports what is wrong with the first malformed layer |
| `PolicyMerge.NormalizeReads` | src/roles/roles.service.ts:26-94 | a layer is accepted exactly if it is well formed; then each list, flag and budget of the policy is what the layer's JSON has under that key, and otherwise the fault names something that is wrong with it |
| `PolicyMerge.SingleBudget` | src/roles/roles.service.ts:136-150 | if one layer alone has a budget, the output has at every path the number or table of that JSON |
| `PolicyMerge.SeveralBudgets` | src/roles/roles.service.ts:96-150 | if several have one, the output is their leaf minimum exactly on the condition of `LeafMinimumOfLayers` |
| `PolicyMerge.OneRendering` | src/roles/roles.service.ts:138-151 | what it returns is determined: a merged policy has one written form |
| `PolicyMerge.LayersOnlyTighten` | src/roles/roles.service.ts:115-152 | appending any layers grows deny lists, shrinks allow lists, keeps approval and never raises a budget leaf; consent is not loosened exactly unless it was omitted, some later layer gives it and none denies it |
| `PolicyMerge.OmittedConsentIsGrantedLater` | src/roles/roles.service.ts:20-22 | two layers in which it is loosened |
| `PolicyMerge.MergeAppends` | src/roles/roles.service.ts:116-136 | merging more layers is adding them to the merge of the first ones |
| `PolicyMerge.MergeMeans` | src/roles/roles.service.ts:116-152 | a name is denied exactly when some layer denies it, allowed exactly when every allow list has it, approval required exactly when some layer requires it |
| `PolicyMerge.MergedBudget` | src/roles/roles.service.ts:136-150 | the merged budget is the restriction of the budgets that are set, or absent |
| `PolicyMerge.OrderIrrelevant` | src/roles/roles.service.ts:116-152 | another order or repetition of the layers changes at most the budget, and that exactly when the budgets do not fit in that order |
| `RateLimiter.Limiter.EnforceRateLimit` | src/crash-reports/crash-reports.service.ts:36-57 | each decision of the pruned limiter equals the one taken by counting all accepted submissions: accepted exactly with fewer than 1000 in the last hour and fewer than 12 of the fingerprint in the last 24 hours; old times are dropped hourly |
| `RateLimiter.Limiter.Cleanup` | src/crash-reports/crash-reports.service.ts:49-56 | cleanup changes no later decision and leaves no key without recent entries |
| `RateLimiter.HourlyLimitHolds` | src/crash-reports/crash-reports.service.ts:36-40 | no period of one hour has more than 1000 accepted submissions |
| `RateLimiter.DailyLimitHolds` | src/crash-reports/crash-reports.service.ts:41-45 | no period of 24 hours has more than 12 of one fingerprint |
| `RateLimiter.DecideExactly` | src/crash-reports/crash-reports.service.ts:36-45 | each of the three decisions is taken exactly on its counts of earlier submissions |
| `CrashAlerts.StepKeepsInv` | src/crash-reports/crash-alerts.service.ts:229-310 | every step of any worker, reopen, retry, review or expiry keeps the invariant: a run that still holds its claim has read the row as it is |
| `CrashAlerts.AlertsAreSound` | src/crash-reports/crash-alerts.service.ts:229-310 | over all runs attempts stay at most 8, PENDING means fewer than 8, FAILED means exactly 8, SENT means that this generation was sent |
| `CrashAlerts.SentUnderCurrentClaim` | src/crash-reports/crash-alerts.service.ts:277-292 | a row becomes SENT only by the run whose claim is current and which delivered that very generation |
| `CrashAlerts.ClaimOutlivesTimeout` | src/crash-reports/crash-alerts.service.ts:229-263 | a claim is replaced by another only after five minutes, as one more attempt |
| `CrashAlerts.ClaimOutcome` | src/crash-reports/crash-alerts.service.ts:229-263 | a claim takes the row exactly if it has attempts left and is pending and due, or its claim is at least five minutes old; as one more attempt |
| `CrashAlerts.FailureOutcome` | src/crash-reports/crash-alerts.service.ts:293-310 | under a current claim, a failure is final exactly at the eighth attempt and otherwise pending again after 30 seconds, doubled with each attempt up to an hour; under a lost claim it changes nothing |
| `CrashAlerts.ResetOutcome` | src/crash-reports/crash-reports.service.ts:106-177 | a new report, a recurrence and a manual retry put the alert back to its beginning, and only a recurrence makes a new generation |
| `CrashAlerts.DueAlertIsDelivered` | src/crash-reports/crash-alerts.service.ts:229-292 | from every state, an alert that is due or was left behind by a dead worker has a run that sends its generation and records it as sent |
| `CrashAlerts.BackoffGrows` | src/crash-reports/crash-alerts.service.ts:293-295 | the delay before a retry is between 30 seconds and one hour and never shrinks with attempts |
| `FeedbackTickets.Row.Transition` | src/feedback-tickets/feedback-tickets.service.ts:239-330 | a transition is accepted exactly along an allowed edge, with a reason when blocking and with version and steps when releasing or closing; then each field is as asked or as before, the first acknowledgement and start and the last release and closing are kept, the lease goes exactly on waiting for release or an end, and one event tells it; a refused one reports the first broken rule and changes nothing |
| `FeedbackWorkflow.EnteredFrom` | src/feedback-tickets/feedback-tickets.service.ts:31-40 | where each status can be entered from |
| `FeedbackWorkflow.CanBeClosed` | src/feedback-tickets/feedback-tickets.service.ts:31-40 | from every status a ticket can be closed in at most four accepted changes |
| `FeedbackWorkflow.ClaimOutcome` | src/feedback-tickets/feedback-tickets.service.ts:140-172 | an intake is handed an existing ticket exactly if it is open and free, expired or its own; then for fifteen minutes, with nothing else changed |
| `FeedbackWorkflow.CheckOutcome` | src/feedback-tickets/feedback-tickets.service.ts:224-237 | a claimed update passes exactly with the token of an unexpired lease, in the name of its owner |
| `FeedbackWorkflow.TransitionOutcome` | src/feedback-tickets/feedback-tickets.service.ts:239-330 | the transition step of the concurrent model does what the method does, and touches no intake or grant |
| `FeedbackTickets.StepKeepsInv` | src/feedback-tickets/feedback-tickets.service.ts:140-330 | every step of concurrent intakes and updates keeps path, timestamps and lease in order |
| `FeedbackTickets.HistoryIsSound` | src/feedback-tickets/feedback-tickets.service.ts:239-330 | in every run the events are a path in the allowed graph from RECEIVED to the current status; closedAt is set exactly when CLOSED; CLOSED and REJECTED tickets hold no lease; a CLOSED ticket has version, steps and acknowledged ≤ started ≤ released ≤ closed |
| `FeedbackTickets.OnlyLatestTokenPasses` | src/feedback-tickets/feedback-tickets.service.ts:224-237 | only the token granted last passes the claim check, before its expiry, and never on a CLOSED or REJECTED ticket |
| `FeedbackLeases.LeaseIsExclusive` | src/feedback-tickets/feedback-tickets.service.ts:140-172 | a lease that lasts beyond a deadline keeps everybody else away until then, in all runs without a clearing transition, exactly when its holder has no unfinished intake that would shorten it to the deadline |
| `FeedbackLeases.LateIntakeShortensLease` | src/feedback-tickets/feedback-tickets.service.ts:140-172 | a run in which a late intake of the holder shortens the lease and another consumer is granted the ticket before the first expiry |
| `FeedbackLeases.CheckedUpdate` | src/feedback-tickets/feedback-tickets.service.ts:224-237 | for every run between check and transition, the update is applied under its own unexpired token exactly when nothing was granted, no transition cleared the lease and it has not run out |
| `FeedbackLeases.SupersededUpdateApplies` | src/feedback-tickets/feedback-tickets.service.ts:224-237 | a run in which a checked update is applied after another consumer has taken over |
| `LearningLedger.Ledger.Submit` | src/learnings/learnings.service.ts:145-214 | a submission is refused (evidence from the future, evidence full) and changes nothing, or records proposal, evidence and the recurrence counters as specified |
| `LearningLedger.Ledger.Review` | src/learnings/learnings.service.ts:306-362 | a review reports the first broken rule or applies the decision and moves the version only when the active text changes |
| `LearningEffects.ReviewOutcome` | src/learnings/learnings.service.ts:317-348 | after an approval the bundle has the pending text, or the candidate's own if there was none; after a rejection it is unchanged; after a revocation it has nothing under that key; each clears the proposal, counts the revision and signs it |
| `LearningEffects.SubmissionIsRefused` | src/learnings/learnings.service.ts:141-182 | a submission is refused exactly for evidence more than five minutes in the future or 5000 stored receipts, and then changes nothing |
| `LearningEffects.EvidenceIsRecorded` | src/learnings/learnings.service.ts:184-197 | an accepted one stores its evidence as far as there is room, once per receipt, and alters no stored receipt |
| `LearningEffects.ProposalIsStored` | src/learnings/learnings.service.ts:145-180 | a pending text is replaced, any other candidate keeps its text and remembers the proposal, and no other candidate or version changes |
| `LearningEffects.RecurrencesAreCounted` | src/learnings/learnings.service.ts:198-216 | the counters are the receipts of the last thirty days and the tasks they come from |
| `LearningEffects.BundleIsGrounded` | src/learnings/learnings.service.ts:225-258 | in every run from empty tables, each learning in a bundle has word for word the text of one submission under its key, and its key was approved by a review |
| `LearningLedger.SubmissionsKeepBundle` | src/learnings/learnings.service.ts:145-223 | no sequence of submissions changes the approved set or the version |
| `LearningLedger.VersionMarksChange` | src/learnings/learnings.service.ts:317-362 | a step moves the version by one if it changes the approved set and leaves it otherwise |
| `LearningLedger.SameVersionSameBundle` | src/learnings/learnings.service.ts:233-258 | the version never decreases, and snapshots with equal version hold the same approved learnings |
| `LearningLedger.RevisionIsReviewedOnce` | src/learnings/learnings.service.ts:312-316 | after a review takes effect, every later review expecting the same revision is refused |
| `LearningLedger.EvidenceIsBounded` | src/learnings/learnings.service.ts:184-203 | no candidate ever has more than 5000 receipts |
| `LearningLedger.CountsAreBounded` | src/learnings/learnings.service.ts:198-216 | no candidate ever counts more tasks than occurrences or more than 5000 occurrences |
| `FeishuMonitor.AlwaysInSomeDirectory` | scripts/hara-feishu-monitor.py:957-960 | with crashes and thread interleavings anywhere, an enqueued message is in some directory until pruned |
| `MonitorOutcomes.TerminalIsEarned` | scripts/hara-feishu-monitor.py:1110-1151 | a message is marked done only after success or a link to another task, and failed only after a failure in the third attempt or later |
| `MonitorOutcomes.FilingIsEarned` | scripts/hara-feishu-monitor.py:583-640 | and it is filed only in the directory of its stored transition, or as settled, quarantined or with a broken resumption |
| `MonitorOutcomes.EnqueueOutcome` | scripts/hara-feishu-monitor.py:660-668 | a message in any directory is not taken in again, any other one starts afresh |
| `MonitorOutcomes.ExitIsFiled` | scripts/hara-feishu-monitor.py:1106-1157 | without further trouble, success ends in the done directory, failure in the third attempt in the failed one, and an earlier failure back in the queue with its attempts counted |
| `MonitorOutcomes.FailuresEndInFailed` | scripts/hara-feishu-monitor.py:1075-1157 | a worker that keeps failing is launched with every remaining number up to three, in order, and then the message is failed |
| `FeishuMonitor.PatientRunsAreDisciplined` | scripts/hara-feishu-monitor.py:1093-1157 | with a worker that waits for enqueue, launched attempts strictly increase, there are at most 3 plus one per interruption, and none is possible after a terminal transition is stored |
| `FeishuMonitor.AttemptNumbersAreBounded` | scripts/hara-feishu-monitor.py:1093-1157 | in every run no launched attempt has a number above 3 plus the interruptions |
| `FeishuMonitor.LaunchAfterTerminal` | scripts/hara-feishu-monitor.py:660-679 | with a backend configured there is a run without crashes in which a launch is possible after a terminal transition was stored |
| `FeishuMonitor.AttemptRepeats` | scripts/hara-feishu-monitor.py:660-679 | with a backend configured there is a run without crashes that launches attempt 1 twice |
| `FeishuMonitor.FourLaunches` | scripts/hara-feishu-monitor.py:660-679 | and one with four launches |
| `FeishuMonitor.DisciplineNeedsOneWrite` | scripts/hara-feishu-monitor.py:660-679 | without assuming that the worker waits, each of the three rules (order, count, nothing after a terminal transition) holds in all runs exactly when enqueue saves once |
| `Base32.Encode` | src/common/crypto.ts:129-144 | the encoder with the wrapping accumulator writes what the one with an unbounded accumulator writes, and that spells the input bits in groups of five with fewer than five zero bits added (section 6 of RFC 4648) |
| `Base32.ShiftIn` | src/common/crypto.ts:129-162 | one shift keeps the 32-bit accumulator equal to the unbounded one modulo 2^32, and the pending bits grow by exactly the new ones |
| `Base32.SameDigit` | src/common/crypto.ts:135-158 | a digit read within the low 32 bits is the same in both accumulators |
| `Base32.Decode` | src/common/crypto.ts:146-162 | accepts exactly the texts whose cleaned form (full upper-casing included) is all symbols, reads what the decoder with an unbounded accumulator reads, and returns the whole bytes of the bits |
| `Base32.TypedIsCleaned` | src/common/crypto.ts:146-147 | symbols typed in either case, with spaces anywhere and padding at the end, clean up to those symbols |
| `Base32.TypedRoundTrip` | src/common/crypto.ts:129-162 | however the encoding of a byte string is typed, it decodes to that byte string |
| `Base32.DecodingInvertsEncoding` | src/common/crypto.ts:129-162 | whatever decodes an encoding of a byte string is that byte string |
| `Base32.RoundTrip` | src/common/crypto.ts:129-162 | decoding the encoding returns the input, for every byte string |
| `OrgTree.Ancestors` | src/org/org-tree.service.ts:45-70 | ends on every table; returns the whole duplicate-free chain, leaf first, or reports a missing unit, a cycle or too deep a chain, each exactly when there is one |
| `OrgTree.Descendants` | src/org/org-tree.service.ts:76-91 | ends on every table; returns exactly the units under the root, without duplicates, nearer before farther, or fails only above 4096 |
| `OrgTree.WalksAgree` | src/org/org-tree.service.ts:45-91 | whenever both walks return, r is an ancestor of x exactly when x is a descendant of r, unless and only unless an empty identifier cuts x off from r |
| `OrgTree.WalksDisagree` | src/org/org-tree.service.ts:45-91 | a table with an empty identifier on which they differ |
| `OrgTree.BuiltTablesHaveNoCycle` | src/admin/admin.service.ts:67-99 | on every table built by creations the upward walk reports no cycle and reaches a root or is too deep |
| `OrgTree.TooDeepTree` | src/org/org-tree.service.ts:45-70 | 65 nested units can be created, and the walk from the innermost reports too deep |

## Left out

- HTTP transport, DNS, redirects and response parsing: a remote call is its outcome.
- Cryptographic primitives, KMS and the contents of secrets: a hash is an injective function, a secret its reference.
- Controllers, DTO validation, sanitization and redaction of text, environment checks, console: single-branch validation or user interface.
- `provisionDeskAgent` and `provision`: re-registering an agent of an already enrolled device is not part of the protocol model.
- Overlap of a device's revocation with its own enrollment: the code does not fence it.
- The audit rows that enrollment and revocation write: the audit log is modelled by itself.
- Timestamps of device rows are kept as "is set"; the completion time of a revocation is not modelled.
- Entitlement and access checks, seat limits, model routing and gateway limits before the claim: one allowed-or-not choice.
- Zeroing of secret buffers in desk-provisioner.ts: memory contents are not modelled.
- A lost acknowledgement of a step of the ticket, learning or policy tables is not a case of its own: the caller ends there and the tables are as after a confirmed step.
- Enrollment, bindings, revocation, alert delivery and the monitor are step machines over values instead of classes: their programs interleave at every await, which one method call cannot express.
- PolicyMerge.MergePolicy: numbers are exact; fault texts are constructors.
- LearningLedger.Ledger.Submit: texts are taken after safeText, and the audit row is not modelled.
- LearningLedger.Ledger.Review: nothing is claimed about an administrator having approved the exact text on their screen.
- FeishuMonitor.PatientRunsAreDisciplined: assumes a worker that leaves a record alone while enqueue is still saving it, because without that the rules fail (`FeishuMonitor.DisciplineNeedsOneWrite`).
- EnrollmentOutcomes.FailureLeavesNothing: nothing is claimed about an enrollment whose process dies before or during its cleanup.
- EnrollmentProgress.UsableCodeCanBeRedeemed: without the stored credential of an ACTIVE binding nothing is claimed; the enrollment then fails and cleans up.
- FreedBindings.FreedExactlyIfStored: nothing is claimed while an enrollment of the organization is still under way.
- MonitorOutcomes.ExitIsFiled: the run is one without crashes and with answering backends; what crashes can do is in `FeishuMonitor`.
- FeedbackTickets.Row.Transition: free text is taken after sanitization.
- CrashAlerts.AlertsAreSound: an alert whose worker dies during attempt 8 stays SENDING; nothing is claimed about its delivery.
- OrgTree.Ancestors: rows are represented by their identifiers.
- FeishuMonitor.AlwaysInSomeDirectory: loss of the disk itself and stray temporary files are not modelled.
- Work-session chain, spend reports, vector search, assets, OIDC and SCIM: other parts of the repository.
