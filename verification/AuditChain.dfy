/**
  The per-organization audit chain (src/audit/audit.service.ts): append, the retried serializable
  transaction around it, and the verifier with its two legacy escapes.

  The digest is a parameter `h` of everything here. Tamper evidence assumes that it has no collisions
  and never yields the empty text, which is what the sources rely on SHA-256 for.
 */
module AuditChain {
  import opened Wrappers
  import opened CanonicalJson

  /** `at` is the ISO text of the timestamp. */
  datatype Row = Row(id: nat, org: Text, action: Text, actorType: Text, actorId: Text, payload: Value,
                     seqNo: nat, at: Text, prevHash: Text, rowHash: Text)

  // ---------------------------------------------------------------- what is hashed

  function Decimal(n: nat): (t: Text)
    ensures IsNumber(t) && t[0] != 45
  {
    if n < 10 then [48 + n] else Decimal(n / 10) + [48 + n % 10]
  }

  lemma {:induction false} DecimalInjective(m: nat, n: nat)
    requires Decimal(m) == Decimal(n)
    ensures m == n
  {
    var s, t := Decimal(m), Decimal(n);
    assert s[|s| - 1] == 48 + m % 10 && t[|t| - 1] == 48 + n % 10;
    assert m >= 10 ==> s == Decimal(m / 10) + [48 + m % 10];
    assert n >= 10 ==> t == Decimal(n / 10) + [48 + n % 10];
    if m >= 10 {
      assert Decimal(m / 10) == s[..|s| - 1] && Decimal(n / 10) == t[..|t| - 1];
      DecimalInjective(m / 10, n / 10);
    }
  }

  /** A missing payload is hashed as the empty object. */
  function Stored(payload: Value): (v: Value) {
    if payload.Null? || payload.Undefined? then Obj([]) else payload
  }

  function Identity(r: Row, payload: Value): (v: Value) {
    Obj([Member(Ascii("orgId"), Str(r.org)),
         Member(Ascii("action"), Str(r.action)),
         Member(Ascii("actorType"), Str(r.actorType)),
         Member(Ascii("actorId"), Str(r.actorId)),
         Member(Ascii("payload"), payload),
         Member(Ascii("seq"), Num(Decimal(r.seqNo))),
         Member(Ascii("at"), Str(r.at))])
  }

  function ChainHash(h: Text -> Text, fields: Value, prevHash: Text): (t: Text) {
    h(Canonical(fields) + prevHash)
  }

  ghost predicate CollisionFree(h: Text -> Text) {
    forall x, y :: h(x) == h(y) ==> x == y
  }

  ghost predicate NeverEmpty(h: Text -> Text) {
    forall x :: h(x) != []
  }

  /** Old enrollment rows were hashed with an undefined personId that the database then dropped. */
  predicate Eligible(r: Row) {
    r.action == Ascii("enroll_code.create") && r.payload.Obj? && Ascii("personId") !in KeySet(r.payload.members)
  }

  function WithNullPerson(payload: Value): (v: Value)
    requires payload.Obj?
  {
    Obj(payload.members + [Member(Ascii("personId"), Null)])
  }

  // ---------------------------------------------------------------- an intact chain

  predicate Unanchored(r: Row) {
    r.prevHash == [] && r.rowHash == []
  }

  predicate MatchesPlain(h: Text -> Text, r: Row) {
    ChainHash(h, Identity(r, Stored(r.payload)), r.prevHash) == r.rowHash
  }

  predicate MatchesLegacy(h: Text -> Text, r: Row) {
    Eligible(r) && ChainHash(h, Identity(r, WithNullPerson(r.payload)), r.prevHash) == r.rowHash
  }

  /** How many rows at the front predate hashing. */
  function Prefix(rows: seq<Row>): (n: nat)
    ensures n <= |rows|
    ensures forall i | 0 <= i < n :: Unanchored(rows[i])
    ensures n < |rows| ==> !Unanchored(rows[n])
  {
    if rows == [] || !Unanchored(rows[0]) then 0 else 1 + Prefix(rows[1..])
  }

  function Previous(rows: seq<Row>, i: nat): (t: Text)
    requires Prefix(rows) <= i < |rows|
  {
    if i == Prefix(rows) then [] else rows[i - 1].rowHash
  }

  predicate Linked(h: Text -> Text, rows: seq<Row>, i: nat)
    requires Prefix(rows) <= i < |rows|
  {
    rows[i].prevHash == Previous(rows, i) && (MatchesPlain(h, rows[i]) || MatchesLegacy(h, rows[i]))
  }

  predicate Intact(h: Text -> Text, rows: seq<Row>) {
    forall i | Prefix(rows) <= i < |rows| :: Linked(h, rows, i)
  }

  datatype Reason = LinkageMismatch | RowTampered
  datatype Break = Break(seqNo: nat, id: nat, reason: Reason)
  datatype Verdict = Verdict(ok: bool, count: nat, legacyPrefix: nat, legacyRows: nat, brokenAt: Option<Break>)

  predicate OnlyLegacy(h: Text -> Text, r: Row) {
    !MatchesPlain(h, r) && MatchesLegacy(h, r)
  }

  /** How many of the anchored rows before index n only the legacy form explains. */
  function LegacyRows(h: Text -> Text, rows: seq<Row>, n: nat): (k: nat)
    requires n <= |rows|
  {
    if n <= Prefix(rows) then 0 else LegacyRows(h, rows, n - 1) + if OnlyLegacy(h, rows[n - 1]) then 1 else 0
  }

  /** Row i is the first one that is not linked, and why. */
  ghost predicate FirstBreak(h: Text -> Text, rows: seq<Row>, i: nat, reason: Reason) {
    && Prefix(rows) <= i < |rows| && !Linked(h, rows, i) && (forall j | Prefix(rows) <= j < i :: Linked(h, rows, j))
    && (reason.LinkageMismatch? <==> rows[i].prevHash != Previous(rows, i))
  }

  /** Whether the row matches its own hash, and whether only in the legacy form. */
  method MatchRow(h: Text -> Text, r: Row, prevHash: Text) returns (plain: bool, legacy: bool)
    requires prevHash == r.prevHash
    ensures plain <==> MatchesPlain(h, r)
    ensures legacy <==> OnlyLegacy(h, r)
  {
    var expected := ChainHash(h, Identity(r, Stored(r.payload)), prevHash);
    plain := expected == r.rowHash;
    legacy := expected != r.rowHash && Eligible(r)
              && ChainHash(h, Identity(r, WithNullPerson(r.payload)), prevHash) == r.rowHash;
  }

  /** What the verifier knows after i rows. */
  ghost predicate Scanned(h: Text -> Text, rows: seq<Row>, i: nat, prevHash: Text, legacyPrefix: nat, legacyRows: nat,
                          anchored: bool)
    requires i <= |rows|
  {
    && legacyPrefix == (if anchored then Prefix(rows) else i)
    && (!anchored ==> i <= Prefix(rows) && prevHash == [])
    && (anchored ==> Prefix(rows) < i && prevHash == rows[i - 1].rowHash)
    && (forall j | Prefix(rows) <= j < i :: Linked(h, rows, j))
    && legacyRows == LegacyRows(h, rows, i)
  }

  /** A row that is not skipped belongs to the anchored ones, and the verifier holds the hash before it. */
  lemma {:induction false} ReachesAnchored(h: Text -> Text, rows: seq<Row>, i: nat, prevHash: Text,
                                           legacyPrefix: nat, legacyRows: nat, anchored: bool)
    requires i < |rows| && Scanned(h, rows, i, prevHash, legacyPrefix, legacyRows, anchored)
    requires anchored || !Unanchored(rows[i])
    ensures Prefix(rows) <= i && prevHash == Previous(rows, i) && legacyPrefix == Prefix(rows)
    ensures Linked(h, rows, i) <==>
            rows[i].prevHash == prevHash && (MatchesPlain(h, rows[i]) || MatchesLegacy(h, rows[i]))
  {
  }

  lemma OneMoreRow(h: Text -> Text, rows: seq<Row>, i: nat)
    requires Prefix(rows) <= i < |rows|
    ensures LegacyRows(h, rows, i + 1) == LegacyRows(h, rows, i) + if OnlyLegacy(h, rows[i]) then 1 else 0
  {
  }

  lemma {:induction false} OneMoreLinked(h: Text -> Text, rows: seq<Row>, i: nat)
    requires Prefix(rows) <= i < |rows| && Linked(h, rows, i)
    requires forall j | Prefix(rows) <= j < i :: Linked(h, rows, j)
    ensures forall j | Prefix(rows) <= j < i + 1 :: Linked(h, rows, j)
  {
    forall j | Prefix(rows) <= j < i + 1 ensures Linked(h, rows, j) {
      if j < i { assert Linked(h, rows, j); }
    }
  }

  lemma {:induction false} ScansOn(h: Text -> Text, rows: seq<Row>, i: nat, prevHash: Text, legacyPrefix: nat,
                                   legacyRows: nat, anchored: bool, legacy: bool)
    requires i < |rows| && Scanned(h, rows, i, prevHash, legacyPrefix, legacyRows, anchored)
    requires Prefix(rows) <= i && Linked(h, rows, i) && (legacy <==> OnlyLegacy(h, rows[i]))
    ensures Scanned(h, rows, i + 1, rows[i].rowHash, Prefix(rows), legacyRows + (if legacy then 1 else 0), true)
  {
    OneMoreRow(h, rows, i);
    OneMoreLinked(h, rows, i);
  }

  /** The verifier accepts exactly the intact chains, and otherwise names the first broken row. */
  method Verify(h: Text -> Text, rows: seq<Row>) returns (v: Verdict)
    ensures v.ok <==> Intact(h, rows)
    ensures v.count == |rows| && v.legacyPrefix == Prefix(rows)
    ensures v.ok ==> v.brokenAt.None? && v.legacyRows == LegacyRows(h, rows, |rows|)
    ensures !v.ok ==>
      v.brokenAt.Some?
      && exists i: nat :: FirstBreak(h, rows, i, v.brokenAt.value.reason)
                          && v.brokenAt.value == Break(rows[i].seqNo, rows[i].id, v.brokenAt.value.reason)
  {
    var prevHash: Text := [];
    var legacyPrefix, legacyRows, anchored := 0, 0, false;
    for i := 0 to |rows|
      invariant Scanned(h, rows, i, prevHash, legacyPrefix, legacyRows, anchored)
    {
      var r := rows[i];
      if !anchored && r.prevHash == [] && r.rowHash == [] {
        legacyPrefix := legacyPrefix + 1;
        continue;
      }
      ReachesAnchored(h, rows, i, prevHash, legacyPrefix, legacyRows, anchored);
      if r.prevHash != prevHash {
        assert FirstBreak(h, rows, i, LinkageMismatch);
        return Verdict(false, |rows|, legacyPrefix, 0, Some(Break(r.seqNo, r.id, LinkageMismatch)));
      }
      var matchesPlain, matchesLegacy := MatchRow(h, r, prevHash);
      if !matchesPlain && !matchesLegacy {
        assert FirstBreak(h, rows, i, RowTampered);
        return Verdict(false, |rows|, legacyPrefix, legacyRows, Some(Break(r.seqNo, r.id, RowTampered)));
      }
      ScansOn(h, rows, i, prevHash, legacyPrefix, legacyRows, anchored, matchesLegacy);
      anchored := true;
      if matchesLegacy {
        legacyRows := legacyRows + 1;
      }
      prevHash := r.rowHash;
    }
    return Verdict(true, |rows|, legacyPrefix, legacyRows, None);
  }

  // ---------------------------------------------------------------- tamper evidence

  lemma {:induction false} FindFirst(ms: seq<Member>, i: nat)
    requires i < |ms| && forall j | 0 <= j < i :: ms[j].key != ms[i].key
    ensures Find(ms, ms[i].key) == i
  {
    if i > 0 {
      assert ms[1..][i - 1] == ms[i];
      FindFirst(ms[1..], i - 1);
    }
  }

  /** The member list of an identity and what its keys are. */
  lemma IdentityKeys(r: Row, payload: Value)
    ensures var ms := Identity(r, payload).members;
            forall i, j | 0 <= i < j < 7 :: ms[i].key != ms[j].key
  {
    var ms := Identity(r, payload).members;
    assert |ms[0].key| == 5 && |ms[1].key| == 6 && |ms[2].key| == 9 && |ms[3].key| == 7 && |ms[4].key| == 7;
    assert |ms[5].key| == 3 && |ms[6].key| == 2;
    assert ms[3].key[0] == 97 && ms[4].key[0] == 112;
  }

  lemma FieldOf(r: Row, payload: Value, i: nat)
    requires i < 7
    ensures var o := Identity(r, payload);
            o.members[i].key in KeySet(o.members) && At(o, o.members[i].key) == o.members[i].value
  {
    IdentityKeys(r, payload);
    FindFirst(Identity(r, payload).members, i);
  }

  predicate Names(o: Value, key: string, v: Value) {
    o.Obj? && Ascii(key) in KeySet(o.members) && At(o, Ascii(key)) == v
  }

  lemma IdentityKeySet(r: Row, payload: Value)
    ensures KeySet(Identity(r, payload).members) ==
            {Ascii("orgId"), Ascii("action"), Ascii("actorType"), Ascii("actorId"), Ascii("payload"), Ascii("seq"),
             Ascii("at")}
  {
    var ms := Identity(r, payload).members;
    forall i | 0 <= i < 7 ensures ms[i].key in KeySet(ms) {}
    assert ms[0].key == Ascii("orgId") && ms[1].key == Ascii("action") && ms[2].key == Ascii("actorType");
    assert ms[3].key == Ascii("actorId") && ms[4].key == Ascii("payload") && ms[5].key == Ascii("seq");
    assert ms[6].key == Ascii("at");
  }

  /** What is hashed of a row: each of these seven fields under its own name, and nothing else. */
  lemma IdentityFields(r: Row, payload: Value)
    ensures var o := Identity(r, payload);
            && Names(o, "orgId", Str(r.org)) && Names(o, "action", Str(r.action))
            && Names(o, "actorType", Str(r.actorType)) && Names(o, "actorId", Str(r.actorId))
            && Names(o, "payload", payload) && Names(o, "seq", Num(Decimal(r.seqNo))) && Names(o, "at", Str(r.at))
            && KeySet(o.members) == {Ascii("orgId"), Ascii("action"), Ascii("actorType"), Ascii("actorId"),
                                     Ascii("payload"), Ascii("seq"), Ascii("at")}
  {
    FieldOf(r, payload, 0);
    FieldOf(r, payload, 1);
    FieldOf(r, payload, 2);
    FieldOf(r, payload, 3);
    FieldOf(r, payload, 4);
    FieldOf(r, payload, 5);
    FieldOf(r, payload, 6);
    IdentityKeySet(r, payload);
  }

  lemma SameField(a: Row, x: Value, b: Row, y: Value, i: nat)
    requires Same(Identity(a, x), Identity(b, y)) && i < 7
    ensures Same(Identity(a, x).members[i].value, Identity(b, y).members[i].value)
  {
    FieldOf(a, x, i);
    FieldOf(b, y, i);
    assert Identity(a, x).members[i].key == Identity(b, y).members[i].key;
  }

  /** Equal identities mean equal rows, field by field. */
  lemma {:induction false} SameIdentity(a: Row, x: Value, b: Row, y: Value)
    requires Same(Identity(a, x), Identity(b, y))
    ensures a.org == b.org && a.action == b.action && a.actorType == b.actorType && a.actorId == b.actorId
    ensures Same(x, y) && a.seqNo == b.seqNo && a.at == b.at
  {
    SameField(a, x, b, y, 0);
    SameField(a, x, b, y, 1);
    SameField(a, x, b, y, 2);
    SameField(a, x, b, y, 3);
    SameField(a, x, b, y, 4);
    SameField(a, x, b, y, 5);
    SameField(a, x, b, y, 6);
    DecimalInjective(a.seqNo, b.seqNo);
  }

  /** Equal up to member order, or one of them is the other with an explicit null personId. */
  predicate SamePayload(a: Row, b: Row) {
    || Same(Stored(a.payload), Stored(b.payload))
    || (Eligible(a) && Same(WithNullPerson(a.payload), Stored(b.payload)))
    || (Eligible(b) && Same(Stored(a.payload), WithNullPerson(b.payload)))
  }

  predicate SameRow(a: Row, b: Row) {
    && a.org == b.org && a.action == b.action && a.actorType == b.actorType && a.actorId == b.actorId
    && SamePayload(a, b) && a.seqNo == b.seqNo && a.at == b.at
    && a.prevHash == b.prevHash && a.rowHash == b.rowHash
  }

  lemma {:induction false} FindAppended(ms: seq<Member>, m: Member, k: Text)
    requires k in KeySet(ms)
    ensures k in KeySet(ms + [m]) && Find(ms + [m], k) == Find(ms, k)
  {
    var ns := ms + [m];
    assert ns[Find(ms, k)].key == k;
    if ms[0].key != k {
      assert ns[1..] == ms[1..] + [m];
      assert ms[1..][Find(ms, k) - 1].key == k;
      FindAppended(ms[1..], m, k);
    }
  }

  /** Adding the same absent member to both sides changes nothing. */
  lemma {:induction false} SameWithoutPerson(a: Value, b: Value)
    requires a.Obj? && b.Obj? && Ascii("personId") !in KeySet(a.members) && Ascii("personId") !in KeySet(b.members)
    requires Same(WithNullPerson(a), WithNullPerson(b))
    ensures Same(a, b)
  {
    var m := Member(Ascii("personId"), Null);
    KeySetAppended(a.members, m);
    KeySetAppended(b.members, m);
    assert KeySet(a.members) == KeySet(a.members + [m]) - {m.key};
    assert KeySet(b.members) == KeySet(b.members + [m]) - {m.key};
    forall k <- KeySet(a.members)
      ensures Same(a.members[Find(a.members, k)].value, b.members[Find(b.members, k)].value)
    {
      FindAppended(a.members, m, k);
      FindAppended(b.members, m, k);
    }
  }

  lemma KeySetAppended(ms: seq<Member>, m: Member)
    ensures KeySet(ms + [m]) == KeySet(ms) + {m.key}
  {
    var ns := ms + [m];
    forall k <- KeySet(ms) ensures k in KeySet(ns) { assert ns[Find(ms, k)].key == k; }
    assert ns[|ms|] == m;
    forall k <- KeySet(ns) ensures k in KeySet(ms) + {m.key} {
      var i := Find(ns, k);
      if i < |ms| { assert ms[i].key == k; }
    }
  }

  /** Two accepted rows with the same hash are the same row. */
  lemma SameHashSameRow(h: Text -> Text, a: Row, b: Row)
    requires CollisionFree(h) && a.rowHash == b.rowHash
    requires (MatchesPlain(h, a) || MatchesLegacy(h, a)) && (MatchesPlain(h, b) || MatchesLegacy(h, b))
    ensures SameRow(a, b)
  {
    var x := if MatchesPlain(h, a) then Stored(a.payload) else WithNullPerson(a.payload);
    var y := if MatchesPlain(h, b) then Stored(b.payload) else WithNullPerson(b.payload);
    assert h(Canonical(Identity(a, x)) + a.prevHash) == h(Canonical(Identity(b, y)) + b.prevHash);
    CanonicalExact(Identity(a, x), Identity(b, y), a.prevHash, b.prevHash);
    SameIdentity(a, x, b, y);
    if !MatchesPlain(h, a) && !MatchesPlain(h, b) {
      SameWithoutPerson(a.payload, b.payload);
    }
  }

  lemma HashNotEmpty(h: Text -> Text, r: Row)
    requires NeverEmpty(h) && (MatchesPlain(h, r) || MatchesLegacy(h, r))
    ensures r.rowHash != []
  {
  }

  /** An anchored row points at the row before it, and only the first one points at nothing. */
  lemma {:induction false} PointsBack(h: Text -> Text, rows: seq<Row>, i: nat)
    requires NeverEmpty(h) && Intact(h, rows) && Prefix(rows) <= i < |rows|
    ensures MatchesPlain(h, rows[i]) || MatchesLegacy(h, rows[i])
    ensures rows[i].prevHash == [] <==> i == Prefix(rows)
    ensures i > Prefix(rows) ==> rows[i].prevHash == rows[i - 1].rowHash
  {
    assert Linked(h, rows, i);
    if i > Prefix(rows) {
      assert Linked(h, rows, i - 1);
      HashNotEmpty(h, rows[i - 1]);
    }
  }

  /** Row j of the first table and the row equally far behind the anchor of the second one. */
  ghost predicate Twins(rows: seq<Row>, rows': seq<Row>, j: nat) {
    && Prefix(rows) <= j < |rows| && 0 <= j - Prefix(rows) + Prefix(rows') < |rows'|
    && SameRow(rows[j], rows'[j - Prefix(rows) + Prefix(rows')])
  }

  /** Two rows with the same hash are the same row, and so are the hashes of the rows before them, if any. */
  lemma {:induction false} SameHashOneBack(h: Text -> Text, rows: seq<Row>, i: nat, rows': seq<Row>, i': nat)
    requires CollisionFree(h) && NeverEmpty(h) && Intact(h, rows) && Intact(h, rows')
    requires Prefix(rows) <= i < |rows| && Prefix(rows') <= i' < |rows'|
    requires rows[i].rowHash == rows'[i'].rowHash
    ensures SameRow(rows[i], rows'[i'])
    ensures i > Prefix(rows) <==> i' > Prefix(rows')
    ensures i > Prefix(rows) ==> rows[i - 1].rowHash == rows'[i' - 1].rowHash
  {
    PointsBack(h, rows, i);
    PointsBack(h, rows', i');
    SameHashSameRow(h, rows[i], rows'[i']);
  }

  /** Walking back from two rows with the same hash meets the same rows all the way to the anchor. */
  lemma {:induction false} SameHashSameHistory(h: Text -> Text, rows: seq<Row>, i: nat, rows': seq<Row>, i': nat)
    requires CollisionFree(h) && NeverEmpty(h) && Intact(h, rows) && Intact(h, rows')
    requires Prefix(rows) <= i < |rows| && Prefix(rows') <= i' < |rows'|
    requires rows[i].rowHash == rows'[i'].rowHash
    ensures i - Prefix(rows) == i' - Prefix(rows')
    ensures forall j | Prefix(rows) <= j <= i :: Twins(rows, rows', j)
    decreases i
  {
    SameHashOneBack(h, rows, i, rows', i');
    if i > Prefix(rows) { SameHashSameHistory(h, rows, i - 1, rows', i' - 1); }
    assert Twins(rows, rows', i);
  }

  /** Tamper evidence: two tables that verify and end in the same hash have the same anchored rows. */
  lemma {:induction false} SameHeadSameChain(h: Text -> Text, rows: seq<Row>, rows': seq<Row>)
    requires CollisionFree(h) && NeverEmpty(h) && Intact(h, rows) && Intact(h, rows')
    requires rows != [] && rows' != [] && rows[|rows| - 1].rowHash == rows'[|rows'| - 1].rowHash != []
    ensures |rows| - Prefix(rows) == |rows'| - Prefix(rows')
    ensures forall j | Prefix(rows) <= j < |rows| :: Twins(rows, rows', j)
  {
    SameHashSameHistory(h, rows, |rows| - 1, rows', |rows'| - 1);
  }
}
