/**
  Appending to the audit log: what is hashed, what the database gives back of it, and what every committed
  transaction keeps.

  The payload column is JSONB. A payload on its way into it loses its undefined members, and a read may return
  the members of an object in any order.
 */
module AuditLog {
  import opened Wrappers
  import opened CanonicalJson
  import opened AuditChain

  // ---------------------------------------------------------------- persistedPayload

  /** A round trip through JSON text: undefined members disappear, undefined elements become null. */
  function Persist(v: Value): (w: Value)
    decreases v, 1, 0
  {
    match v
    case Undefined => Null
    case Arr(items) => Arr(seq(|items|, i requires 0 <= i < |items| => Persist(items[i])))
    case Obj(ms) => Obj(PersistFrom(v, 0))
    case _ => v
  }

  function PersistFrom(o: Value, i: nat): (ms: seq<Member>)
    requires o.Obj? && i <= |o.members|
    decreases o, 0, |o.members| - i
  {
    if i == |o.members| then []
    else if o.members[i].value.Undefined? then PersistFrom(o, i + 1)
    else [Member(o.members[i].key, Persist(o.members[i].value))] + PersistFrom(o, i + 1)
  }

  /** `kept` is `given` without its undefined parts: the same members with the same values, except that the undefined
      ones are missing, and null where a list element or the value itself is undefined. */
  predicate Keeps(given: Value, kept: Value)
    decreases given, 1
  {
    match given
    case Undefined => kept.Null?
    case Arr(items) =>
      kept.Arr? && |kept.items| == |items| && forall i | 0 <= i < |items| :: Keeps(items[i], kept.items[i])
    case Obj(ms) =>
      && kept.Obj?
      && (forall i | 0 <= i < |ms| && !ms[i].value.Undefined? :: Arrives(ms[i], kept.members))
      && (forall m <- kept.members :: Stems(given, 0, m))
    case _ => kept == given
  }

  predicate Arrives(m: Member, kept: seq<Member>)
    decreases m, 0
  {
    exists j | 0 <= j < |kept| :: kept[j].key == m.key && Keeps(m.value, kept[j].value)
  }

  /** The member comes from one of the given members, from index k on, that is not undefined. */
  predicate Stems(given: Value, k: nat, m: Member)
    requires given.Obj?
    decreases given, 0
  {
    exists i | k <= i < |given.members| && !given.members[i].value.Undefined? ::
      given.members[i].key == m.key && Keeps(given.members[i].value, m.value)
  }

  lemma {:induction false} PersistKeeps(v: Value)
    ensures Keeps(v, Persist(v))
    decreases v, 1, 0
  {
    match v
    case Arr(items) =>
      forall i | 0 <= i < |items| ensures Keeps(items[i], Persist(items[i])) { PersistKeeps(items[i]); }
    case Obj(_) => PersistFromKeeps(v, 0);
    case _ =>
  }

  lemma {:induction false} PersistFromKeeps(o: Value, k: nat)
    requires o.Obj? && k <= |o.members|
    ensures forall i | k <= i < |o.members| && !o.members[i].value.Undefined? ::
              Arrives(o.members[i], PersistFrom(o, k))
    ensures forall m <- PersistFrom(o, k) :: Stems(o, k, m)
    decreases o, 0, |o.members| - k
  {
    if k < |o.members| {
      var m, rest := o.members[k], PersistFrom(o, k + 1);
      PersistFromKeeps(o, k + 1);
      if !m.value.Undefined? {
        PersistKeeps(m.value);
        FirstArrives(m, rest);
        forall i | k < i < |o.members| && !o.members[i].value.Undefined?
          ensures Arrives(o.members[i], PersistFrom(o, k))
        {
          StillArrives(o.members[i], Member(m.key, Persist(m.value)), rest);
        }
      }
    }
  }

  lemma {:induction false} FirstArrives(m: Member, rest: seq<Member>)
    requires Keeps(m.value, Persist(m.value))
    ensures Arrives(m, [Member(m.key, Persist(m.value))] + rest)
  {
    assert ([Member(m.key, Persist(m.value))] + rest)[0].key == m.key;
  }

  lemma {:induction false} StillArrives(m: Member, first: Member, rest: seq<Member>)
    requires Arrives(m, rest)
    ensures Arrives(m, [first] + rest)
  {
    var j :| 0 <= j < |rest| && rest[j].key == m.key && Keeps(m.value, rest[j].value);
    assert ([first] + rest)[j + 1] == rest[j];
  }

  /** No undefined anywhere: a value the database can give back unchanged. */
  predicate Clean(v: Value) {
    match v
    case Undefined => false
    case Arr(items) => forall i | 0 <= i < |items| :: Clean(items[i])
    case Obj(ms) => forall i | 0 <= i < |ms| :: Clean(ms[i].value)
    case _ => true
  }

  lemma {:induction false} PersistIsClean(v: Value)
    ensures Clean(Persist(v))
    decreases v, 1, 0
  {
    match v
    case Arr(items) => forall i | 0 <= i < |items| ensures Clean(Persist(items[i])) { PersistIsClean(items[i]); }
    case Obj(_) => PersistFromIsClean(v, 0);
    case _ =>
  }

  lemma {:induction false} PersistFromIsClean(o: Value, i: nat)
    requires o.Obj? && i <= |o.members|
    ensures forall m <- PersistFrom(o, i) :: Clean(m.value)
    decreases o, 0, |o.members| - i
  {
    if i < |o.members| {
      PersistFromIsClean(o, i + 1);
      PersistIsClean(o.members[i].value);
    }
  }

  lemma {:induction false} CleanPersists(v: Value)
    requires Clean(v)
    ensures Persist(v) == v
    decreases v, 1, 0
  {
    match v
    case Arr(items) => forall i | 0 <= i < |items| ensures Persist(items[i]) == items[i] { CleanPersists(items[i]); }
    case Obj(ms) => CleanPersistsFrom(v, 0);
    case _ =>
  }

  lemma {:induction false} CleanPersistsFrom(o: Value, i: nat)
    requires o.Obj? && i <= |o.members| && Clean(o)
    ensures PersistFrom(o, i) == o.members[i..]
    decreases o, 0, |o.members| - i
  {
    if i < |o.members| {
      CleanPersists(o.members[i].value);
      CleanPersistsFrom(o, i + 1);
    }
  }

  lemma {:induction false} PersistIdempotent(v: Value)
    ensures Persist(Persist(v)) == Persist(v)
  {
    PersistIsClean(v);
    CleanPersists(Persist(v));
  }

  // ---------------------------------------------------------------- the column

  /** What a read may return for a payload that was handed to the database. */
  predicate GivesBack(stored: Value, read: Value) {
    Clean(read) && Same(Persist(stored), read)
  }

  /** The other columns come back as they are. */
  predicate RowRead(stored: Row, read: Row) {
    read == stored.(payload := read.payload) && GivesBack(stored.payload, read.payload)
  }

  predicate TableRead(stored: seq<Row>, read: seq<Row>) {
    |stored| == |read| && forall i | 0 <= i < |stored| :: RowRead(stored[i], read[i])
  }

  /** The table verifies however it is read back. */
  ghost predicate Verifies(h: Text -> Text, stored: seq<Row>) {
    forall read | TableRead(stored, read) :: Intact(h, read)
  }

  lemma SamePointwise(ms: seq<Member>, ns: seq<Member>)
    requires |ms| == |ns| && forall i | 0 <= i < |ms| :: ms[i].key == ns[i].key && Same(ms[i].value, ns[i].value)
    ensures Same(Obj(ms), Obj(ns))
  {
    assert KeySet(ms) == KeySet(ns);
    forall k <- KeySet(ms) ensures Find(ms, k) == Find(ns, k) { FindPointwise(ms, ns, k); }
  }

  lemma {:induction false} FindPointwise(ms: seq<Member>, ns: seq<Member>, k: Text)
    requires |ms| == |ns| && forall i | 0 <= i < |ms| :: ms[i].key == ns[i].key
    requires k in KeySet(ms) && k in KeySet(ns)
    ensures Find(ms, k) == Find(ns, k)
  {
    if ms[0].key != k {
      assert ms[1..][Find(ms, k) - 1].key == k && ns[1..][Find(ns, k) - 1].key == k;
      FindPointwise(ms[1..], ns[1..], k);
    }
  }

  lemma {:induction false} IdentitySame(r: Row, x: Value, y: Value)
    requires Same(x, y)
    ensures Canonical(Identity(r, x)) == Canonical(Identity(r, y))
  {
    var ms, ns := Identity(r, x).members, Identity(r, y).members;
    forall i | 0 <= i < 7 ensures ms[i].key == ns[i].key && Same(ms[i].value, ns[i].value) {
      if i != 4 { SameReflexive(ms[i].value); }
    }
    SamePointwise(ms, ns);
    SameCanonical(Identity(r, x), Identity(r, y));
  }

  // ---------------------------------------------------------------- append

  datatype Entry = Entry(id: nat, org: Text, action: Text, actorType: Text, actorId: Text, payload: Value, at: Text)

  type Log = map<Text, seq<Row>>

  /** persistedPayload throws unless a JSON object is left. */
  predicate Acceptable(e: Entry) {
    Persist(e.payload).Obj?
  }

  /** The row that is handed to the database. */
  function NextRow(h: Text -> Text, rows: seq<Row>, e: Entry): (r: Row) {
    var seqNo := if rows == [] then 0 else rows[|rows| - 1].seqNo + 1;
    var prevHash := if rows == [] then [] else rows[|rows| - 1].rowHash;
    var r := Row(e.id, e.org, e.action, e.actorType, e.actorId, Persist(e.payload), seqNo, e.at, prevHash, []);
    r.(rowHash := ChainHash(h, Identity(r, Stored(r.payload)), prevHash))
  }

  function RowsOf(log: Log, org: Text): (rows: seq<Row>) {
    if org in log then log[org] else []
  }

  /** An entry that is not acceptable rolls its transaction back. */
  function Append(h: Text -> Text, log: Log, e: Entry): (log': Log) {
    if !Acceptable(e) then log else log[e.org := RowsOf(log, e.org) + [NextRow(h, RowsOf(log, e.org), e)]]
  }

  predicate Numbered(rows: seq<Row>) {
    forall i | 0 < i < |rows| :: rows[i].seqNo == rows[i - 1].seqNo + 1
  }

  /** Every organization's rows verify however they are read, belong to it and are numbered without gaps. */
  ghost predicate Sound(h: Text -> Text, log: Log) {
    forall o <- log :: Verifies(h, log[o]) && Numbered(log[o]) && forall r <- log[o] :: r.org == o
  }

  lemma {:induction false} PrefixAppended(rows: seq<Row>, r: Row)
    requires !Unanchored(r)
    ensures Prefix(rows + [r]) == Prefix(rows)
  {
    if rows != [] && Unanchored(rows[0]) {
      assert (rows + [r])[1..] == rows[1..] + [r];
      PrefixAppended(rows[1..], r);
    }
  }

  /** The digest that was computed over the persisted payload is reproduced from whatever is read back. */
  lemma ReadRowMatches(h: Text -> Text, rows: seq<Row>, e: Entry, read: Row)
    requires Acceptable(e) && RowRead(NextRow(h, rows, e), read)
    ensures MatchesPlain(h, read)
  {
    var r := NextRow(h, rows, e);
    PersistIdempotent(e.payload);
    IdentitySame(r, r.payload, read.payload);
  }

  lemma IntactGrows(h: Text -> Text, rows: seq<Row>, r: Row)
    requires NeverEmpty(h) && Intact(h, rows) && MatchesPlain(h, r)
    requires r.prevHash == if rows == [] then [] else rows[|rows| - 1].rowHash
    ensures Intact(h, rows + [r])
  {
    var rows' := rows + [r];
    HashNotEmpty(h, r);
    PrefixAppended(rows, r);
    forall i | Prefix(rows') <= i < |rows'| ensures Linked(h, rows', i) {
      if i < |rows| {
        assert Linked(h, rows, i);
      } else if rows != [] && Prefix(rows) == |rows| {
        assert Unanchored(rows[|rows| - 1]);
      }
    }
  }

  /** Appending keeps a table verifiable under every read of it. */
  lemma AppendKeepsVerifying(h: Text -> Text, rows: seq<Row>, e: Entry)
    requires NeverEmpty(h) && Verifies(h, rows) && Acceptable(e)
    ensures Verifies(h, rows + [NextRow(h, rows, e)])
  {
    var n := |rows|;
    var stored := rows + [NextRow(h, rows, e)];
    forall read | TableRead(stored, read) ensures Intact(h, read) {
      forall i | 0 <= i < n ensures RowRead(rows[i], read[..n][i]) { assert RowRead(stored[i], read[i]); }
      assert RowRead(stored[n], read[n]);
      ReadRowMatches(h, rows, e, read[n]);
      IntactGrows(h, read[..n], read[n]);
      assert read == read[..n] + [read[n]];
    }
  }

  lemma NothingVerifies(h: Text -> Text)
    ensures Verifies(h, [])
  {
  }

  lemma AppendKeepsSound(h: Text -> Text, log: Log, e: Entry)
    requires NeverEmpty(h) && Sound(h, log)
    ensures Sound(h, Append(h, log, e))
    ensures forall o :: RowsOf(log, o) <= RowsOf(Append(h, log, e), o)
  {
    if Acceptable(e) {
      NothingVerifies(h);
      AppendKeepsVerifying(h, RowsOf(log, e.org), e);
    }
  }

  /** The committed transactions, in commit order: any interleaving over any organizations. */
  function AppendAll(h: Text -> Text, log: Log, entries: seq<Entry>): (log': Log)
    decreases |entries|
  {
    if entries == [] then log else AppendAll(h, Append(h, log, entries[0]), entries[1..])
  }

  /** Every log reached by committed transactions verifies for every organization, in whatever form the
      database returns it, and no row that was ever committed is changed or lost. */
  lemma {:induction false} EveryLogVerifies(h: Text -> Text, log: Log, entries: seq<Entry>, org: Text, read: seq<Row>)
    requires NeverEmpty(h) && Sound(h, log)
    requires TableRead(RowsOf(AppendAll(h, log, entries), org), read)
    ensures Sound(h, AppendAll(h, log, entries))
    ensures Intact(h, read)
    ensures RowsOf(log, org) <= RowsOf(AppendAll(h, log, entries), org)
    decreases |entries|
  {
    if entries != [] {
      AppendKeepsSound(h, log, entries[0]);
      EveryLogVerifies(h, Append(h, log, entries[0]), entries[1..], org, read);
    }
  }

  /** Hashing the payload as it was given would not do: a row hashed that way is reproduced by a read exactly if
      the read is the same value, that is, if no undefined member was dropped on the way. */
  lemma RawHashIsReproduced(h: Text -> Text, r: Row, read: Row)
    requires CollisionFree(h) && r.payload.Obj? && RowRead(r, read)
    requires r.rowHash == ChainHash(h, Identity(r, r.payload), r.prevHash)
    ensures MatchesPlain(h, read) <==> Same(r.payload, read.payload)
  {
    if Same(r.payload, read.payload) {
      IdentitySame(r, r.payload, read.payload);
    } else if MatchesPlain(h, read) {
      CanonicalExact(Identity(r, r.payload), Identity(read, read.payload), r.prevHash, r.prevHash);
      SameIdentity(r, r.payload, read, read.payload);
    }
  }

  // ---------------------------------------------------------------- the legacy serialization

  lemma SameInPlace(xs: seq<Member>, k: Text, ys: seq<Member>)
    ensures Canonical(Obj(xs + [Member(k, Undefined)] + ys)) == Canonical(Obj(xs + [Member(k, Null)] + ys))
  {
    var ms, ns := xs + [Member(k, Undefined)] + ys, xs + [Member(k, Null)] + ys;
    forall i | 0 <= i < |ms| ensures ms[i].key == ns[i].key && Same(ms[i].value, ns[i].value) {
      if i != |xs| { SameReflexive(ms[i].value); }
    }
    SamePointwise(ms, ns);
    SameCanonical(Obj(ms), Obj(ns));
  }

  lemma {:induction false} PersistSkips(xs: seq<Member>, k: Text, ys: seq<Member>, i: nat)
    requires Clean(Obj(xs)) && Clean(Obj(ys)) && i <= |xs| + 1 + |ys|
    ensures PersistFrom(Obj(xs + [Member(k, Undefined)] + ys), i)
         == if i <= |xs| then xs[i..] + ys else ys[i - |xs| - 1..]
    decreases |xs| + 1 + |ys| - i
  {
    var o := Obj(xs + [Member(k, Undefined)] + ys);
    if i < |o.members| {
      PersistSkips(xs, k, ys, i + 1);
      if i != |xs| { CleanPersists(o.members[i].value); }
    }
  }

  /** Dropping an undefined member and adding it back at the end as null gives the same value. */
  lemma RestoredSame(xs: seq<Member>, k: Text, ys: seq<Member>)
    requires DistinctKeys(xs + [Member(k, Null)] + ys)
    ensures Same(Obj(xs + [Member(k, Undefined)] + ys), Obj(xs + ys + [Member(k, Null)]))
    ensures k !in KeySet(xs + ys)
  {
    var ms, ns := xs + [Member(k, Null)] + ys, xs + ys + [Member(k, Null)];
    var raw := Obj(xs + [Member(k, Undefined)] + ys);
    forall i | 0 <= i < |xs + ys| ensures (xs + ys)[i].key != k {
      var j := if i < |xs| then i else i + 1;
      assert ms[j] == (xs + ys)[i] && ms[|xs|].key == k;
    }
    assert multiset(ms) == multiset(ns);
    SameInPlace(xs, k, ys);
    InsertionOrderIrrelevant(ms, ns);
    CanonicalExact(raw, Obj(ns), [], []);
  }

  /** Adding the same absent member to the same objects gives the same objects. */
  lemma {:induction false} SameWithPerson(a: Value, b: Value)
    requires a.Obj? && b.Obj? && Same(a, b) && Ascii("personId") !in KeySet(a.members)
    ensures Same(WithNullPerson(a), WithNullPerson(b))
  {
    var m := Member(Ascii("personId"), Null);
    KeySetAppended(a.members, m);
    KeySetAppended(b.members, m);
    forall k <- KeySet(a.members + [m])
      ensures Same(At(WithNullPerson(a), k), At(WithNullPerson(b), k))
    {
      if k == m.key {
        FindLast(a.members, m);
        FindLast(b.members, m);
      } else {
        FindAppended(a.members, m, k);
        FindAppended(b.members, m, k);
      }
    }
  }

  lemma {:induction false} FindLast(ms: seq<Member>, m: Member)
    requires m.key !in KeySet(ms)
    ensures m.key in KeySet(ms + [m]) && Find(ms + [m], m.key) == |ms|
  {
    assert (ms + [m])[|ms|] == m;
    if ms != [] {
      assert ms[0].key in KeySet(ms);
      assert (ms + [m])[1..] == ms[1..] + [m];
      forall k <- KeySet(ms[1..]) ensures k in KeySet(ms) { assert ms[Find(ms[1..], k) + 1].key == k; }
      FindLast(ms[1..], m);
    }
  }

  /** A row that was hashed over its raw payload, with personId undefined, and stored without it still
      verifies, however it is read: the legacy form reconstructs exactly the text that was hashed. */
  lemma LegacyFormVerifies(h: Text -> Text, r: Row, xs: seq<Member>, ys: seq<Member>, read: Row)
    requires DistinctKeys(xs + [Member(Ascii("personId"), Null)] + ys) && Clean(Obj(xs)) && Clean(Obj(ys))
    requires r.action == Ascii("enroll_code.create") && RowRead(r, read)
    requires r.payload == Obj(xs + [Member(Ascii("personId"), Undefined)] + ys)
    requires r.rowHash == ChainHash(h, Identity(r, r.payload), r.prevHash)
    ensures MatchesLegacy(h, read)
  {
    var k := Ascii("personId");
    var kept := Obj(xs + ys);
    PersistSkips(xs, k, ys, 0);
    RestoredSame(xs, k, ys);
    assert Same(kept, read.payload);
    SameWithPerson(kept, read.payload);
    IdentitySame(r, r.payload, WithNullPerson(kept));
    IdentitySame(r, WithNullPerson(kept), WithNullPerson(read.payload));
  }

  /** The organization's rows grew by one, which says what the entry says and is linked to the row before it. */
  predicate Records(h: Text -> Text, was: seq<Row>, now: seq<Row>, e: Entry) {
    && |now| == |was| + 1 && now[..|was|] == was
    && var r := now[|was|];
       && r.id == e.id && r.org == e.org && r.action == e.action && r.at == e.at
       && r.actorType == e.actorType && r.actorId == e.actorId
       && r.payload.Obj? && Keeps(e.payload, r.payload)
       && (if was == [] then r.seqNo == 0 && r.prevHash == []
           else r.seqNo == was[|was| - 1].seqNo + 1 && r.prevHash == was[|was| - 1].rowHash)
       && MatchesPlain(h, r)
  }

  lemma AppendRecords(h: Text -> Text, log: Log, e: Entry)
    requires Acceptable(e)
    ensures Records(h, RowsOf(log, e.org), RowsOf(Append(h, log, e), e.org), e)
    ensures forall o | o != e.org :: RowsOf(Append(h, log, e), o) == RowsOf(log, o)
  {
    PersistKeeps(e.payload);
  }

  // ---------------------------------------------------------------- transact

  /** What the database does with one attempt. A lost one commits, but the caller sees an error. */
  datatype Fate = Commits | Conflicts | Throws | Loses

  datatype Ending = Committed(attempt: nat) | Aborted(attempt: nat)

  const MAX_ATTEMPTS := 4

  class Store {
    const h: Text -> Text
    var log: Log

    constructor (h: Text -> Text)
      ensures this.h == h && log == map[]
    {
      this.h := h;
      log := map[];
    }

    /** At most four attempts, and only conflicts are tried again. A reported success appended exactly the
        entry of its attempt; a failure appended nothing, or that entry if the acknowledgement was lost. A payload
        that is no JSON object fails for good. Each attempt runs the mutation again and so brings its own entry. */
    method Transact(fates: seq<Fate>, entries: seq<Entry>) returns (end: Ending)
      requires |fates| == MAX_ATTEMPTS && |entries| == MAX_ATTEMPTS
      modifies this`log
      ensures end.attempt < MAX_ATTEMPTS && forall i | 0 <= i < end.attempt :: fates[i].Conflicts?
      ensures end.Committed? <==> fates[end.attempt].Commits? && Acceptable(entries[end.attempt])
      ensures log == if fates[end.attempt].Commits? || fates[end.attempt].Loses? then
                       Append(h, old(log), entries[end.attempt])
                     else old(log)
      ensures fates[end.attempt].Conflicts? ==> end.attempt == MAX_ATTEMPTS - 1
      ensures var e := entries[end.attempt];
              end.Committed? || log != old(log) ==>
                && Records(h, RowsOf(old(log), e.org), RowsOf(log, e.org), e)
                && forall o | o != e.org :: RowsOf(log, o) == RowsOf(old(log), o)
    {
      var attempt := 0;
      while true // the last attempt always returns or throws
        invariant attempt < MAX_ATTEMPTS && log == old(log)
        invariant forall i | 0 <= i < attempt :: fates[i].Conflicts?
        decreases MAX_ATTEMPTS - attempt
      {
        if !fates[attempt].Conflicts? && !Acceptable(entries[attempt]) {
          return Aborted(attempt);
        }
        if fates[attempt].Commits? {
          AppendRecords(h, log, entries[attempt]);
          log := Append(h, log, entries[attempt]);
          return Committed(attempt);
        }
        if fates[attempt].Loses? {
          AppendRecords(h, log, entries[attempt]);
          log := Append(h, log, entries[attempt]);
          return Aborted(attempt);
        }
        if !fates[attempt].Conflicts? || attempt == MAX_ATTEMPTS - 1 {
          return Aborted(attempt);
        }
        attempt := attempt + 1;
      }
    }
  }
}
