/**
  Organization service bindings (src/service-bindings/service-bindings.service.ts): upsert, verify
  and disable as programs that interleave at every database or network step.

  One action is one locked transaction, one secret-store call or one probe. The transaction of an upsert
  can also be lost: it committed, but the caller sees an error. A request identifier doubles as the
  identifier it would draw at random: an upsert that stores a credential names the secret after itself, and
  an upsert that inserts a row names the row after itself.
 */
module ServiceBindings {
  import opened Wrappers

  type Id = nat
  type Org = nat
  type Origin = string

  datatype Service = DeskTasks | Collab | Other(name: string)
  datatype Key = Key(org: Org, service: Service)
  datatype Status = PendingVerification | Active | Degraded | Disabled

  /** The public connection fields that a probe is about, besides origin and credential. */
  datatype Settings = Settings(mode: string, region: string, issuer: Option<string>, jwksUri: Option<string>,
                               audience: Option<string>, capabilities: nat)
  datatype Config = Config(origin: Origin, credential: Option<Id>, settings: Settings)
  datatype Binding = Binding(id: Id, config: Config, status: Status, version: nat)

  datatype UpsertPc = Committing | Dropping(secret: Id) | UpsertDone
  /** `unseen` is history: the transaction committed, but the acknowledgement was lost. */
  datatype Upsert = Upsert(key: Key, origin: Origin, settings: Settings, capabilities: Option<nat>,
                           credential: bool, unseen: bool, pc: UpsertPc)

  datatype VerifyPc = Probing | Settling(healthy: bool) | VerifyDone
  /** One version of one row, and a configuration that version was seen with. */
  datatype Version = Version(id: Id, number: nat)
  datatype Sighting = Sighting(version: Version, config: Config)

  datatype Verify = Verify(key: Key, seen: Binding, pc: VerifyPc)

  /** `configs` and `probes` are history: every configuration a row ever had, under its identifier and
      version, and every configuration a probe succeeded on. No action reads them. */
  datatype State = State(
    rows: map<Key, Binding>,
    secrets: set<(Org, Id)>,
    upserts: map<Id, Upsert>,
    verifies: map<Id, Verify>,
    configs: map<Version, Config>,
    probes: set<Sighting>)

  /** `busy` is what hasProvisionedDeskDevices answers inside the transaction; `committed` is false when the
      transaction fails without effect. */
  datatype Action =
    | StartUpsert(u: Id, request: Upsert)
    | CommitUpsert(u: Id, busy: bool, outcome: Outcome)
    | DropSecret(u: Id, removed: bool)
    | Disable(key: Key, busy: bool)
    | StartVerify(v: Id, key: Key)
    | Probe(v: Id, healthy: bool)
    | CommitVerify(v: Id, committed: bool)

  predicate Enabled(s: State, a: Action) {
    match a
    case StartUpsert(u, q) =>
      u !in s.upserts && q.pc.Committing? && !q.unseen && (q.credential ==> q.key.service.DeskTasks?)
    case CommitUpsert(u, _, _) => u in s.upserts && s.upserts[u].pc.Committing?
    case DropSecret(u, _) => u in s.upserts && s.upserts[u].pc.Dropping?
    case Disable(_, _) => true
    case StartVerify(v, key) => v !in s.verifies && key in s.rows
    case Probe(v, healthy) =>
      && v in s.verifies && s.verifies[v].pc.Probing?
      && (healthy && s.verifies[v].key.service.DeskTasks? ==>
            var c := s.verifies[v].seen.config.credential;
            c.Some? && (s.verifies[v].key.org, c.value) in s.secrets)
    case CommitVerify(v, _) => v in s.verifies && s.verifies[v].pc.Settling?
  }

  /** The credential reference an upsert leaves on the row. */
  function NextCredential(s: State, u: Id): (c: Option<Id>)
    requires u in s.upserts
  {
    var q := s.upserts[u];
    if q.credential then Some(u)
    else if q.key in s.rows then s.rows[q.key].config.credential
    else None
  }

  function NextConfig(s: State, u: Id): (c: Config)
    requires u in s.upserts
  {
    var q := s.upserts[u];
    var capabilities :=
      if q.capabilities.Some? then q.capabilities.value
      else if q.key in s.rows then s.rows[q.key].config.settings.capabilities
      else 1;
    Config(q.origin, NextCredential(s, u), q.settings.(capabilities := capabilities))
  }

  function At(row: Binding): (v: Version) {
    Version(row.id, row.version)
  }

  /** Write `row` at `key` and remember its configuration in the history. */
  function Write(s: State, key: Key, row: Binding): (s': State) {
    s.(rows := s.rows[key := row], configs := s.configs[At(row) := row.config])
  }

  function Commit(s: State, u: Id): (s': State)
    requires u in s.upserts
  {
    var q := s.upserts[u];
    var config := NextConfig(s, u);
    if q.key in s.rows then
      var was := s.rows[q.key];
      var retired := if q.credential then was.config.credential else None;
      Write(s, q.key, Binding(was.id, config, PendingVerification, was.version + 1))
        .(upserts := s.upserts[u := q.(pc := if retired.Some? then Dropping(retired.value) else UpsertDone)])
    else
      Write(s, q.key, Binding(u, config, PendingVerification, 1)).(upserts := s.upserts[u := q.(pc := UpsertDone)])
  }

  /** The upsert sees an error and goes on to remove the credential it has just stored. */
  function Regret(s: State, u: Id, unseen: bool): (s': State)
    requires u in s.upserts
  {
    var q := s.upserts[u];
    s.(upserts := s.upserts[u := q.(unseen := unseen, pc := if q.credential then Dropping(u) else UpsertDone)])
  }

  function Apply(s: State, a: Action): (s': State)
    requires Enabled(s, a)
  {
    match a
    case StartUpsert(u, q) =>
      s.(upserts := s.upserts[u := q],
         secrets := if q.credential then s.secrets + {(q.key.org, u)} else s.secrets)
    case CommitUpsert(u, busy, outcome) =>
      if outcome.Refused? || (s.upserts[u].key.service.DeskTasks? && busy) then Regret(s, u, false)
      else if outcome.Lost? then Regret(Commit(s, u), u, true)
      else Commit(s, u)
    case DropSecret(u, removed) =>
      var q := s.upserts[u];
      s.(upserts := s.upserts[u := q.(pc := UpsertDone)],
         secrets := if removed then s.secrets - {(q.key.org, q.pc.secret)} else s.secrets)
    case Disable(key, busy) =>
      if key !in s.rows || (key.service.DeskTasks? && busy) then s
      else
        var was := s.rows[key];
        Write(s, key, was.(status := Disabled, version := was.version + 1))
    case StartVerify(v, key) =>
      s.(verifies := s.verifies[v := Verify(key, s.rows[key], Probing)])
    case Probe(v, healthy) =>
      var q := s.verifies[v];
      s.(verifies := s.verifies[v := q.(pc := Settling(healthy))],
         probes := if healthy then s.probes + {Sighting(At(q.seen), q.seen.config)} else s.probes)
    case CommitVerify(v, committed) =>
      var q := s.verifies[v];
      var done := s.(verifies := s.verifies[v := q.(pc := VerifyDone)]);
      if committed && q.key in s.rows && At(s.rows[q.key]) == At(q.seen) then
        done.(rows := s.rows[q.key := s.rows[q.key].(status := if q.pc.healthy then Active else Degraded)])
      else
        done
  }

  ghost predicate Init(s: State) {
    s == State(map[], {}, map[], map[], map[], {})
  }

  // ---------------------------------------------------------------- invariant

  /** A row was written by known upserts, its credential is stored unless its own upsert was lost, it is the
      newest entry of its own history, and an ACTIVE row was probed exactly as it stands. */
  ghost predicate RowOk(s: State, key: Key)
    requires key in s.rows
  {
    var b := s.rows[key];
    && b.id in s.upserts && s.upserts[b.id].key == key && s.upserts[b.id].pc != Committing
    && At(b) in s.configs && s.configs[At(b)] == b.config
    && (b.config.credential.Some? ==>
          var c := b.config.credential.value;
          && c in s.upserts && s.upserts[c].key == key && s.upserts[c].pc != Committing
          && ((key.org, c) in s.secrets || s.upserts[c].unseen))
    && (b.status.Active? ==> Sighting(At(b), b.config) in s.probes)
  }

  /** A secret waiting to be dropped is on no row and can no longer get onto one, unless it is the upsert's own
      and that upsert was lost. */
  ghost predicate UpsertOk(s: State, u: Id)
    requires u in s.upserts
  {
    var q := s.upserts[u];
    && (q.pc.Committing? ==> !q.unseen)
    && (q.pc.Committing? && q.credential ==> (q.key.org, u) in s.secrets)
    && (q.pc.Dropping? ==>
          && q.pc.secret in s.upserts && s.upserts[q.pc.secret].pc != Committing
          && s.upserts[q.pc.secret].key == q.key
          && (q.key in s.rows && s.rows[q.key].config.credential == Some(q.pc.secret) ==>
                s.upserts[q.pc.secret].unseen && q.pc.secret == u))
  }

  ghost predicate HistoryOk(s: State, e: Version) {
    && e.id in s.upserts && s.upserts[e.id].pc != Committing
    && s.upserts[e.id].key in s.rows && s.rows[s.upserts[e.id].key].id == e.id
    && e.number <= s.rows[s.upserts[e.id].key].version
  }

  ghost predicate ProbeOk(s: State, e: Sighting) {
    && e.version in s.configs && s.configs[e.version] == e.config
    && (e.version.id in s.upserts && s.upserts[e.version.id].key.service.DeskTasks? ==> e.config.credential.Some?)
  }

  /** A verification holds a snapshot of a configuration that its row really had. */
  ghost predicate VerifyOk(s: State, v: Id)
    requires v in s.verifies
  {
    var q := s.verifies[v];
    && At(q.seen) in s.configs && s.configs[At(q.seen)] == q.seen.config
    && q.seen.id in s.upserts && s.upserts[q.seen.id].key == q.key
    && (q.pc == Settling(true) ==> Sighting(At(q.seen), q.seen.config) in s.probes)
  }

  ghost predicate Inv(s: State) {
    && (forall k {:trigger RowOk(s, k)} | k in s.rows :: RowOk(s, k))
    && (forall u {:trigger UpsertOk(s, u)} | u in s.upserts :: UpsertOk(s, u))
    && (forall e {:trigger HistoryOk(s, e)} | e in s.configs :: HistoryOk(s, e))
    && (forall e {:trigger ProbeOk(s, e)} | e in s.probes :: ProbeOk(s, e))
    && (forall v {:trigger VerifyOk(s, v)} | v in s.verifies :: VerifyOk(s, v))
  }

  lemma InitInv(s: State)
    requires Init(s)
    ensures Inv(s)
  {
  }

  lemma StartUpsertKeepsInv(s: State, u: Id, q: Upsert)
    requires Inv(s) && Enabled(s, StartUpsert(u, q))
    ensures Inv(Apply(s, StartUpsert(u, q)))
  {
    var s' := Apply(s, StartUpsert(u, q));
    forall k <- s'.rows ensures RowOk(s', k) { assert RowOk(s, k); }
    forall w <- s'.upserts ensures UpsertOk(s', w) { assert w != u ==> UpsertOk(s, w); }
    forall e <- s'.configs ensures HistoryOk(s', e) { assert HistoryOk(s, e); }
    forall e <- s'.probes ensures ProbeOk(s', e) { assert ProbeOk(s, e) && HistoryOk(s, e.version); }
    forall v <- s'.verifies ensures VerifyOk(s', v) { assert VerifyOk(s, v); }
  }

  lemma CommitKeepsRow(s: State, u: Id, k: Key)
    requires Inv(s) && u in s.upserts && s.upserts[u].pc.Committing? && k in Commit(s, u).rows
    ensures RowOk(Commit(s, u), k)
  {
    assert UpsertOk(s, u);
    if k in s.rows { assert RowOk(s, k); }
    if s.upserts[u].key in s.rows { assert RowOk(s, s.upserts[u].key); }
    var e := At(Commit(s, u).rows[s.upserts[u].key]);
    assert e in s.configs ==> HistoryOk(s, e);
  }

  lemma CommitKeepsUpsert(s: State, u: Id, w: Id)
    requires Inv(s) && u in s.upserts && s.upserts[u].pc.Committing? && w in s.upserts
    ensures UpsertOk(Commit(s, u), w)
  {
    assert UpsertOk(s, w);
    if s.upserts[u].key in s.rows { assert RowOk(s, s.upserts[u].key); }
  }

  lemma CommitKeepsHistory(s: State, u: Id, e: Version)
    requires Inv(s) && u in s.upserts && s.upserts[u].pc.Committing? && e in Commit(s, u).configs
    ensures HistoryOk(Commit(s, u), e)
    ensures e in s.configs ==> Commit(s, u).configs[e] == s.configs[e]
  {
    if e in s.configs { assert HistoryOk(s, e); }
    if s.upserts[u].key in s.rows { assert RowOk(s, s.upserts[u].key); }
  }

  lemma CommitKeepsProbes(s: State, u: Id)
    requires Inv(s) && u in s.upserts && s.upserts[u].pc.Committing?
    ensures forall e <- Commit(s, u).probes :: ProbeOk(Commit(s, u), e)
    ensures forall v <- Commit(s, u).verifies :: VerifyOk(Commit(s, u), v)
  {
    var s' := Commit(s, u);
    forall e <- s'.probes ensures ProbeOk(s', e) {
      assert ProbeOk(s, e);
      CommitKeepsHistory(s, u, e.version);
    }
    forall v <- s'.verifies ensures VerifyOk(s', v) {
      assert VerifyOk(s, v);
      CommitKeepsHistory(s, u, At(s.verifies[v].seen));
    }
  }

  /** Writing the next version of a row, or its first one, keeps the invariant. */
  lemma CommitKeepsInv(s: State, u: Id)
    requires Inv(s) && u in s.upserts && s.upserts[u].pc.Committing?
    ensures Inv(Commit(s, u))
  {
    var s' := Commit(s, u);
    forall k <- s'.rows ensures RowOk(s', k) { CommitKeepsRow(s, u, k); }
    forall w <- s'.upserts ensures UpsertOk(s', w) { CommitKeepsUpsert(s, u, w); }
    forall e <- s'.configs ensures HistoryOk(s', e) { CommitKeepsHistory(s, u, e); }
    CommitKeepsProbes(s, u);
  }

  /** Regretting a commit is safe if no row refers to the credential, or the loss is remembered. */
  lemma RegretKeepsInv(s: State, u: Id, unseen: bool)
    requires Inv(s) && u in s.upserts && !s.upserts[u].unseen
    requires s.upserts[u].pc != Committing || !unseen
    requires !unseen ==> s.upserts[u].pc.Committing?
    ensures Inv(Regret(s, u, unseen))
  {
    var s' := Regret(s, u, unseen);
    assert UpsertOk(s, u);
    forall k <- s'.rows ensures RowOk(s', k) && (!unseen ==> s'.rows[k].config.credential != Some(u)) {
      assert RowOk(s, k);
    }
    forall w <- s'.upserts ensures UpsertOk(s', w) { assert UpsertOk(s, w); }
    forall e <- s'.configs ensures HistoryOk(s', e) { assert HistoryOk(s, e); }
    forall e <- s'.probes ensures ProbeOk(s', e) { assert ProbeOk(s, e); }
    forall v <- s'.verifies ensures VerifyOk(s', v) { assert VerifyOk(s, v); }
  }

  lemma CommitUpsertKeepsInv(s: State, a: Action)
    requires Inv(s) && a.CommitUpsert? && Enabled(s, a)
    ensures Inv(Apply(s, a))
  {
    assert UpsertOk(s, a.u);
    if a.outcome.Refused? || (s.upserts[a.u].key.service.DeskTasks? && a.busy) {
      RegretKeepsInv(s, a.u, false);
    } else {
      CommitKeepsInv(s, a.u);
      if a.outcome.Lost? { RegretKeepsInv(Commit(s, a.u), a.u, true); }
    }
  }

  lemma DropSecretKeepsInv(s: State, a: Action)
    requires Inv(s) && a.DropSecret? && Enabled(s, a)
    ensures Inv(Apply(s, a))
  {
    var s' := Apply(s, a);
    assert UpsertOk(s, a.u);
    forall k <- s'.rows ensures RowOk(s', k) { assert RowOk(s, k); }
    forall w <- s'.upserts ensures UpsertOk(s', w) { assert UpsertOk(s, w); }
    forall e <- s'.configs ensures HistoryOk(s', e) { assert HistoryOk(s, e); }
    forall e <- s'.probes ensures ProbeOk(s', e) { assert ProbeOk(s, e); }
    forall v <- s'.verifies ensures VerifyOk(s', v) { assert VerifyOk(s, v); }
  }

  lemma DisableKeepsInv(s: State, a: Action)
    requires Inv(s) && a.Disable? && Enabled(s, a)
    ensures Inv(Apply(s, a))
  {
    var s' := Apply(s, a);
    if s' != s {
      var b := s.rows[a.key];
      assert RowOk(s, a.key);
      forall e <- s.configs ensures HistoryOk(s, e) && e != At(s'.rows[a.key]) {}
      forall k <- s'.rows ensures RowOk(s', k) { assert RowOk(s, k); }
      forall w <- s'.upserts ensures UpsertOk(s', w) { assert UpsertOk(s, w); }
      forall e <- s'.configs ensures HistoryOk(s', e) {}
      forall e <- s'.probes ensures ProbeOk(s', e) { assert ProbeOk(s, e); }
      forall v <- s'.verifies ensures VerifyOk(s', v) { assert VerifyOk(s, v); }
    }
  }

  lemma ProbeKeepsInv(s: State, a: Action)
    requires Inv(s) && (a.StartVerify? || a.Probe?) && Enabled(s, a)
    ensures Inv(Apply(s, a))
  {
    var s' := Apply(s, a);
    if a.StartVerify? { assert RowOk(s, a.key); } else { assert VerifyOk(s, a.v); }
    forall k <- s'.rows ensures RowOk(s', k) { assert RowOk(s, k); }
    forall w <- s'.upserts ensures UpsertOk(s', w) { assert UpsertOk(s, w); }
    forall e <- s'.configs ensures HistoryOk(s', e) { assert HistoryOk(s, e); }
    forall e <- s'.probes ensures ProbeOk(s', e) { assert e in s.probes ==> ProbeOk(s, e); }
    forall v <- s'.verifies ensures VerifyOk(s', v) { assert v in s.verifies ==> VerifyOk(s, v); }
  }

  /** Equal identifier and version mean equal configuration, so the probe was about this very row. */
  lemma CommitVerifyKeepsInv(s: State, a: Action)
    requires Inv(s) && a.CommitVerify? && Enabled(s, a)
    ensures Inv(Apply(s, a))
  {
    var s' := Apply(s, a);
    assert VerifyOk(s, a.v);
    forall k <- s'.rows ensures RowOk(s', k) { assert RowOk(s, k); }
    forall w <- s'.upserts ensures UpsertOk(s', w) { assert UpsertOk(s, w); }
    forall e <- s'.configs ensures HistoryOk(s', e) { assert HistoryOk(s, e); }
    forall e <- s'.probes ensures ProbeOk(s', e) { assert ProbeOk(s, e); }
    forall v <- s'.verifies ensures VerifyOk(s', v) { assert VerifyOk(s, v); }
  }

  lemma StepKeepsInv(s: State, a: Action)
    requires Inv(s) && Enabled(s, a)
    ensures Inv(Apply(s, a))
  {
    match a
    case StartUpsert(u, q) => StartUpsertKeepsInv(s, u, q);
    case CommitUpsert(_, _, _) => CommitUpsertKeepsInv(s, a);
    case DropSecret(_, _) => DropSecretKeepsInv(s, a);
    case Disable(_, _) => DisableKeepsInv(s, a);
    case CommitVerify(_, _) => CommitVerifyKeepsInv(s, a);
    case _ => ProbeKeepsInv(s, a);
  }

  /** The row at k was inserted, reconfigured or disabled. */
  predicate Changed(s: State, s': State, k: Key)
    requires k in s'.rows
  {
    || k !in s.rows
    || s'.rows[k].config != s.rows[k].config
    || (s'.rows[k].status != s.rows[k].status
        && (s'.rows[k].status.Disabled? || s'.rows[k].status.PendingVerification?))
  }

  /** No probe and no verification in flight has seen this version. */
  ghost predicate Unseen(s: State, version: Version) {
    && (forall e <- s.probes :: e.version != version)
    && (forall v <- s.verifies :: At(s.verifies[v].seen) != version)
  }

  lemma FreshIsUnseen(s: State, version: Version)
    requires Inv(s) && version !in s.configs
    ensures Unseen(s, version)
  {
    forall p <- s.probes ensures p.version != version { assert ProbeOk(s, p); }
    forall v <- s.verifies ensures At(s.verifies[v].seen) != version { assert VerifyOk(s, v); }
  }

  /** A late verification result cannot activate a changed row: the change makes a new version. */
  lemma ChangeIsANewVersion(s: State, a: Action, k: Key)
    requires Inv(s) && Enabled(s, a) && k in Apply(s, a).rows && Changed(s, Apply(s, a), k)
    ensures !Apply(s, a).rows[k].status.Active?
    ensures Unseen(Apply(s, a), At(Apply(s, a).rows[k]))
  {
    var s' := Apply(s, a);
    var version := At(s'.rows[k]);
    assert a.CommitUpsert? || a.Disable?;
    if k in s.rows { assert RowOk(s, k); }
    assert version in s.configs ==> HistoryOk(s, version);
    FreshIsUnseen(s, version);
  }
}
