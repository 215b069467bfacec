/**
  What the administration of a binding does to the binding table
  (src/service-bindings/service-bindings.service.ts), said from the request and the table before the step.
 */
module BindingChanges {
  import opened Wrappers
  import opened ControlPlane
  import SB = ServiceBindings

  ghost predicate SameExcept(s: SB.State, s': SB.State, key: SB.Key) {
    forall k | k != key :: (k in s'.rows <==> k in s.rows) && (k in s.rows ==> s'.rows[k] == s.rows[k])
  }

  /** The row carries what the request asks for; what the request leaves open comes from the row before it, or
      from the default if there was none. */
  predicate Carries(row: SB.Binding, u: Id, q: SB.Upsert, was: Option<SB.Binding>) {
    var c := row.config;
    && c.origin == q.origin
    && c.settings.mode == q.settings.mode && c.settings.region == q.settings.region
    && c.settings.issuer == q.settings.issuer && c.settings.jwksUri == q.settings.jwksUri
    && c.settings.audience == q.settings.audience
    && (q.capabilities.Some? ==> c.settings.capabilities == q.capabilities.value)
    && (q.capabilities.None? && was.Some? ==> c.settings.capabilities == was.value.config.settings.capabilities)
    && (q.capabilities.None? && was.None? ==> c.settings.capabilities == 1)
    && (q.credential ==> c.credential == Some(u))
    && (!q.credential && was.Some? ==> c.credential == was.value.config.credential)
    && (!q.credential && was.None? ==> c.credential.None?)
    && row.status.PendingVerification?
    && (was.Some? ==> row.id == was.value.id && row.version == was.value.version + 1)
    && (was.None? ==> row.id == u && row.version == 1)
  }

  function RowAt(s: SB.State, key: SB.Key): (row: Option<SB.Binding>) {
    if key in s.rows then Some(s.rows[key]) else None
  }

  /** The transaction of an upsert took effect: it did not fail, and no Desk device stood in its way. */
  predicate Takes(s: SB.State, b: SB.Action)
    requires SB.Enabled(s, b) && b.CommitUpsert?
  {
    !b.outcome.Refused? && (s.upserts[b.u].key.service.DeskTasks? ==> !b.busy)
  }

  lemma CommitCarries(s: SB.State, u: Id)
    requires u in s.upserts
    ensures var s', q := SB.Commit(s, u), s.upserts[u];
            && q.key in s'.rows && Carries(s'.rows[q.key], u, q, RowAt(s, q.key))
            && SameExcept(s, s', q.key)
  {
  }

  /** An upsert writes what it was asked to write, and one that is turned away writes nothing. */
  lemma UpsertTakesEffect(s: SB.State, b: SB.Action)
    requires SB.Enabled(s, b) && b.CommitUpsert?
    ensures var s', q := SB.Apply(s, b), s.upserts[b.u];
            && SameExcept(s, s', q.key)
            && (Takes(s, b) ==> q.key in s'.rows && Carries(s'.rows[q.key], b.u, q, RowAt(s, q.key)))
            && (!Takes(s, b) ==> s'.rows == s.rows)
  {
    if Takes(s, b) {
      CommitCarries(s, b.u);
      assert SB.Apply(s, b).rows == SB.Commit(s, b.u).rows;
    }
  }

  /** What an upsert still has to remove from the secret store: a credential that it replaced if it was
      acknowledged, its own one if it saw an error, and nothing if it brought none. */
  lemma UpsertOwesRemoval(s: SB.State, b: SB.Action)
    requires SB.Inv(s) && SB.Enabled(s, b) && b.CommitUpsert?
    ensures var pc, q := SB.Apply(s, b).upserts[b.u].pc, s.upserts[b.u];
            var was := RowAt(s, q.key);
            forall c {:trigger SB.Dropping(c)} :: pc == SB.Dropping(c) <==>
              && q.credential
              && (if Takes(s, b) && b.outcome.Confirmed? then was.Some? && was.value.config.credential == Some(c)
                  else c == b.u)
  {
  }

  /** Disabling a binding keeps its configuration, and is refused like an upsert. */
  lemma DisableTakesEffect(s: SB.State, key: SB.Key, busy: bool)
    ensures var s' := SB.Apply(s, SB.Disable(key, busy));
            && SameExcept(s, s', key) && (key in s'.rows <==> key in s.rows)
            && (key in s.rows ==>
                  var row, row' := s.rows[key], s'.rows[key];
                  if key.service.DeskTasks? && busy then row' == row
                  else
                    && row'.status.Disabled? && row'.config == row.config
                    && row'.id == row.id && row'.version == row.version + 1)
  {
  }

  /** A verification result lands on the very version that was probed and says what the probe said, or is lost. */
  lemma VerdictTakesEffect(s: SB.State, v: Id, committed: bool)
    requires SB.Enabled(s, SB.CommitVerify(v, committed))
    ensures var s', q := SB.Apply(s, SB.CommitVerify(v, committed)), s.verifies[v];
            && SameExcept(s, s', q.key) && (q.key in s'.rows <==> q.key in s.rows)
            && (q.key in s.rows ==>
                  var row, row' := s.rows[q.key], s'.rows[q.key];
                  && row'.config == row.config && row'.id == row.id && row'.version == row.version
                  && (if committed && row.id == q.seen.id && row.version == q.seen.version then
                        row'.status == (if q.pc.healthy then SB.Active else SB.Degraded)
                      else
                        row'.status == row.status))
  {
  }

  // ---------------------------------------------------------------- over whole runs

  /** The step changes the binding at `key`: an upsert or a removal from service that no Desk device hinders. */
  predicate Mutates(s: State, a: Action, key: SB.Key)
    requires Enabled(s, a)
  {
    && a.Bind?
    && (key.service.DeskTasks? ==> !Busy(s, key.org))
    && match a.b
       case CommitUpsert(u, _, outcome) => s.bind.upserts[u].key == key && !outcome.Refused?
       case Disable(k, _) => k == key && key in s.bind.rows
       case _ => false
  }

  predicate MutatedIn(s: State, actions: seq<Action>, key: SB.Key)
    requires Legal(s, actions)
    decreases |actions|
  {
    actions != [] && (Mutates(s, actions[0], key) || MutatedIn(Apply(s, actions[0]), actions[1..], key))
  }

  lemma StepVersion(s: State, a: Action, key: SB.Key)
    requires Enabled(s, a) && key in s.bind.rows
    ensures key in Apply(s, a).bind.rows
    ensures var row, row' := s.bind.rows[key], Apply(s, a).bind.rows[key];
            && row'.id == row.id
            && row'.version == (if Mutates(s, a, key) then row.version + 1 else row.version)
            && (!Mutates(s, a, key) ==> row'.config == row.config)
  {
    if a.Bind? {
      match a.b
      case CommitUpsert(_, _, _) => UpsertTakesEffect(s.bind, a.b);
      case Disable(k, busy) => DisableTakesEffect(s.bind, k, busy);
      case CommitVerify(v, committed) => VerdictTakesEffect(s.bind, v, committed);
      case _ =>
    }
  }

  /** In every run the version of a binding never falls, and it stays the same exactly when no upsert and no
      removal from service took effect on it. */
  lemma {:induction false} VersionCountsMutations(s: State, actions: seq<Action>, key: SB.Key)
    requires Legal(s, actions) && key in s.bind.rows
    ensures key in Run(s, actions).bind.rows
    ensures var row, row' := s.bind.rows[key], Run(s, actions).bind.rows[key];
            && row'.id == row.id && row'.version >= row.version
            && (row'.version == row.version <==> !MutatedIn(s, actions, key))
            && (!MutatedIn(s, actions, key) ==> row'.config == row.config)
    decreases |actions|
  {
    if actions != [] {
      StepVersion(s, actions[0], key);
      VersionCountsMutations(Apply(s, actions[0]), actions[1..], key);
    }
  }

  lemma StepKeepsSnapshot(s: SB.State, b: SB.Action, v: Id)
    requires SB.Enabled(s, b) && v in s.verifies
    ensures var s' := SB.Apply(s, b);
            v in s'.verifies && s'.verifies[v].key == s.verifies[v].key && s'.verifies[v].seen == s.verifies[v].seen
  {
  }

  lemma {:induction false} SnapshotStays(s: State, actions: seq<Action>, v: Id)
    requires Legal(s, actions) && v in s.bind.verifies
    ensures v in Run(s, actions).bind.verifies
    ensures Run(s, actions).bind.verifies[v].key == s.bind.verifies[v].key
    ensures Run(s, actions).bind.verifies[v].seen == s.bind.verifies[v].seen
    decreases |actions|
  {
    if actions != [] {
      if actions[0].Bind? { StepKeepsSnapshot(s.bind, actions[0].b, v); }
      SnapshotStays(Apply(s, actions[0]), actions[1..], v);
    }
  }

  /** A verification holds the row as it stands and is settled at the end of a run: its result is written exactly
      if nothing changed the binding in between, and then on the row that was probed. */
  lemma {:induction false} VerdictNeedsQuiet(s: State, actions: seq<Action>, v: Id)
    requires Legal(s, actions) && v in s.bind.verifies
    requires var q := s.bind.verifies[v]; q.key in s.bind.rows && s.bind.rows[q.key] == q.seen
    requires Enabled(Run(s, actions), Bind(SB.CommitVerify(v, true)))
    ensures var q, s1 := s.bind.verifies[v], Run(s, actions);
            var s2 := Apply(s1, Bind(SB.CommitVerify(v, true)));
            && q.key in s1.bind.rows && q.key in s2.bind.rows
            && (if MutatedIn(s, actions, q.key) then s2.bind.rows[q.key] == s1.bind.rows[q.key]
                else
                  && s2.bind.rows[q.key].status == (if s1.bind.verifies[v].pc.healthy then SB.Active else SB.Degraded)
                  && s2.bind.rows[q.key].config == q.seen.config && s2.bind.rows[q.key].version == q.seen.version)
  {
    VersionCountsMutations(s, actions, s.bind.verifies[v].key);
    SnapshotStays(s, actions, v);
    VerdictTakesEffect(Run(s, actions).bind, v, true);
  }
}
