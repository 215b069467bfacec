/**
  canonicalJson (src/common/crypto.ts): the serialization that audit rows are hashed over.

  Text is a sequence of UTF-16 code units, as in ECMAScript. A number is identified with the text
  JSON.stringify prints for it. Objects keep their members in insertion order, so that independence of
  that order is something to prove.
 */
module CanonicalJson {
  type Unit = u: nat | u < 0x10000
  type Text = seq<Unit>

  predicate NumberUnit(u: Unit) {
    48 <= u <= 57 || u == 43 || u == 45 || u == 46 || u == 69 || u == 101 // 0-9 + - . E e
  }

  predicate IsNumber(t: Text) {
    t != [] && (48 <= t[0] <= 57 || t[0] == 45) && forall u <- t :: NumberUnit(u)
  }

  type Numeral = t: Text | IsNumber(t) witness [48]

  datatype Member = Member(key: Text, value: Value)
  datatype Value =
    | Undefined
    | Null
    | Bool(b: bool)
    | Num(numeral: Numeral)
    | Str(text: Text)
    | Arr(items: seq<Value>)
    | Obj(members: seq<Member>)

  function Ascii(s: string): (t: Text) {
    seq(|s|, i requires 0 <= i < |s| => if s[i] as int < 128 then s[i] as int else 0)
  }

  // ---------------------------------------------------------------- objects

  function KeySet(ms: seq<Member>): (ks: set<Text>) {
    set i | 0 <= i < |ms| :: ms[i].key
  }

  /** Where the member named k is. */
  function Find(ms: seq<Member>, k: Text): (i: nat)
    requires exists i :: 0 <= i < |ms| && ms[i].key == k
    ensures i < |ms| && ms[i].key == k
  {
    if ms[0].key == k then 0 else 1 + Find(ms[1..], k)
  }

  predicate Leq(s: Text, t: Text) {
    s == [] || (t != [] && (s[0] < t[0] || (s[0] == t[0] && Leq(s[1..], t[1..]))))
  }

  lemma {:induction false} LeqTotal(s: Text, t: Text)
    ensures Leq(s, t) || Leq(t, s)
    ensures Leq(s, s)
  {
    if s != [] { LeqTotal(s[1..], if t != [] then t[1..] else []); }
  }

  lemma {:induction false} LeqTransitive(s: Text, t: Text, u: Text)
    requires Leq(s, t) && Leq(t, u)
    ensures Leq(s, u)
  {
    if s != [] && s[0] == t[0] == u[0] { LeqTransitive(s[1..], t[1..], u[1..]); }
  }

  predicate IsLeast(ks: set<Text>, k: Text) {
    k in ks && forall j <- ks :: Leq(k, j)
  }

  lemma {:induction false} LeastExists(ks: set<Text>)
    requires ks != {}
    ensures exists k :: IsLeast(ks, k)
    decreases |ks|
  {
    var j :| j in ks;
    LeqTotal(j, j);
    if ks == {j} {
      assert IsLeast(ks, j);
    } else {
      assert ks - {j} != {};
      LeastExists(ks - {j});
      var m :| IsLeast(ks - {j}, m);
      LeqTotal(j, m);
      if Leq(j, m) {
        forall i <- ks ensures Leq(j, i) {
          if i != j { LeqTransitive(j, m, i); }
        }
        assert IsLeast(ks, j);
      } else {
        assert IsLeast(ks, m);
      }
    }
  }

  lemma {:induction false} LeqAntisymmetric(s: Text, t: Text)
    requires Leq(s, t) && Leq(t, s)
    ensures s == t
  {
    if s != [] { LeqAntisymmetric(s[1..], t[1..]); }
  }

  lemma LeastUnique(ks: set<Text>)
    ensures forall j, k | IsLeast(ks, j) && IsLeast(ks, k) :: j == k
  {
    forall j, k | IsLeast(ks, j) && IsLeast(ks, k) ensures j == k { LeqAntisymmetric(j, k); }
  }

  /** The first key in the order of Array.prototype.sort. */
  function Least(ks: set<Text>): (k: Text)
    requires ks != {}
    ensures IsLeast(ks, k)
  {
    LeastExists(ks);
    LeastUnique(ks);
    var k :| IsLeast(ks, k);
    k
  }

  // ---------------------------------------------------------------- strings

  predicate High(u: Unit) { 0xD800 <= u <= 0xDBFF }

  predicate Low(u: Unit) { 0xDC00 <= u <= 0xDFFF }

  function Hex(n: nat): (u: Unit)
    requires n < 16
  {
    if n < 10 then 48 + n else 87 + n
  }

  function Escape(u: Unit): (t: Text) {
    [92, 117, Hex(u / 4096), Hex(u / 256 % 16), Hex(u / 16 % 16), Hex(u % 16)]
  }

  /** How many code units the first step of quoting consumes: a surrogate pair stays together. */
  function Width(s: Text): (n: nat)
    requires s != []
    ensures 1 <= n <= |s|
  {
    if |s| >= 2 && High(s[0]) && Low(s[1]) then 2 else 1
  }

  /** What quoting writes for them. */
  function Emit(s: Text): (t: Text)
    requires s != []
  {
    if Width(s) == 2 then s[..2]
    else
      var u := s[0];
      if u == 34 then [92, 34]
      else if u == 92 then [92, 92]
      else if u == 8 then [92, 98]
      else if u == 9 then [92, 116]
      else if u == 10 then [92, 110]
      else if u == 12 then [92, 102]
      else if u == 13 then [92, 114]
      else if u < 32 || High(u) || Low(u) then Escape(u)
      else [u]
  }

  function Body(s: Text): (t: Text) {
    if s == [] then [] else Emit(s) + Body(s[Width(s)..])
  }

  function Quote(s: Text): (t: Text) {
    [34] + Body(s) + [34]
  }

  // ---------------------------------------------------------------- values

  function Canonical(v: Value): (t: Text)
    decreases v, 1, 0
  {
    match v
    case Undefined => [110, 117, 108, 108]
    case Null => [110, 117, 108, 108]
    case Bool(b) => if b then [116, 114, 117, 101] else [102, 97, 108, 115, 101]
    case Num(n) => n
    case Str(s) => Quote(s)
    case Arr(items) => [91] + Items(v, 0) + [93]
    case Obj(ms) => [123] + Members(v, KeySet(ms), true) + [125]
  }

  /** The elements from index i on, joined by commas; with a leading comma unless i is 0. */
  function Items(a: Value, i: nat): (t: Text)
    requires a.Arr? && i <= |a.items|
    decreases a, 0, |a.items| - i
  {
    if i == |a.items| then []
    else (if i == 0 then [] else [44]) + Canonical(a.items[i]) + Items(a, i + 1)
  }

  /** The members named in ks, in key order; with a leading comma unless they come first. */
  function Members(o: Value, ks: set<Text>, first: bool): (t: Text)
    requires o.Obj? && ks <= KeySet(o.members)
    decreases o, 0, |ks|
  {
    if ks == {} then []
    else
      var k := Least(ks);
      (if first then [] else [44]) + Quote(k) + [58] + Canonical(o.members[Find(o.members, k)].value)
        + Members(o, ks - {k}, false)
  }

  /** Equality of values as JSON sees them: member order is irrelevant, undefined reads as null. */
  predicate Same(a: Value, b: Value)
    decreases a
  {
    match a
    case Undefined => b.Undefined? || b.Null?
    case Null => b.Undefined? || b.Null?
    case Arr(items) =>
      b.Arr? && |items| == |b.items| && forall i | 0 <= i < |items| :: Same(items[i], b.items[i])
    case Obj(ms) =>
      && b.Obj? && KeySet(ms) == KeySet(b.members)
      && forall k <- KeySet(ms) :: Same(ms[Find(ms, k)].value, b.members[Find(b.members, k)].value)
    case _ => a == b
  }

  // ---------------------------------------------------------------- injectivity of strings

  lemma EmitHead(s: Text)
    requires s != []
    ensures Emit(s) != [] && Emit(s)[0] != 34
  {
  }

  lemma Cancel(a: Text, x: Text, b: Text, y: Text)
    requires a + x == b + y && |a| == |b|
    ensures a == b && x == y
  {
    assert a == (a + x)[..|a|] && b == (b + y)[..|b|];
    assert x == (a + x)[|a|..] && y == (b + y)[|b|..];
  }

  function Unhex(u: Unit): (n: nat) {
    if u < 58 then (if u >= 48 then u - 48 else 0) else if u >= 87 then u - 87 else 0
  }

  /** Reading the first quoted chunk back: the code units it stands for and its length. */
  function Chunk(t: Text): (r: (seq<nat>, nat))
    requires |t| >= 1 && (t[0] == 92 || High(t[0]) ==> |t| >= 2) && (t[0] == 92 && t[1] == 117 ==> |t| >= 6)
  {
    if t[0] == 92 then
      if t[1] == 117 then ([4096 * Unhex(t[2]) + 256 * Unhex(t[3]) + 16 * Unhex(t[4]) + Unhex(t[5])], 6)
      else if t[1] == 98 then ([8], 2)
      else if t[1] == 116 then ([9], 2)
      else if t[1] == 110 then ([10], 2)
      else if t[1] == 102 then ([12], 2)
      else if t[1] == 114 then ([13], 2)
      else ([t[1]], 2)
    else if High(t[0]) then ([t[0], t[1]], 2)
    else ([t[0]], 1)
  }

  lemma HexDigits(u: Unit)
    ensures 4096 * (u / 4096) + 256 * (u / 256 % 16) + 16 * (u / 16 % 16) + u % 16 == u && u / 4096 < 16
  {
  }

  lemma ChunkOfEmit(s: Text, x: Text)
    requires s != []
    ensures var t := Emit(s) + x;
            && |t| >= 1 && (t[0] == 92 || High(t[0]) ==> |t| >= 2) && (t[0] == 92 && t[1] == 117 ==> |t| >= 6)
            && Chunk(t) == (s[..Width(s)], |Emit(s)|)
  {
    var m := Emit(s);
    var t := m + x;
    assert forall i | 0 <= i < |m| :: t[i] == m[i];
    HexDigits(s[0]);
    assert s[..1] == [s[0]];
    assert Width(s) == 2 ==> s[..2] == [s[0], s[1]];
  }

  /** The first emitted chunk determines the code units it stands for. */
  lemma EmitInjective(s: Text, t: Text, x: Text, y: Text)
    requires s != [] && t != [] && Emit(s) + x == Emit(t) + y
    ensures Width(s) == Width(t) && s[..Width(s)] == t[..Width(t)] && x == y
  {
    ChunkOfEmit(s, x);
    ChunkOfEmit(t, y);
    assert |s[..Width(s)]| == |t[..Width(t)]|;
    Cancel(Emit(s), x, Emit(t), y);
  }

  lemma {:induction false} BodyHead(s: Text, p: Text)
    ensures (Body(s) + [34] + p)[0] == 34 <==> s == []
  {
    if s != [] {
      EmitHead(s);
      assert (Body(s) + [34] + p)[0] == Emit(s)[0];
    }
  }

  lemma {:induction false} BodyUnfold(s: Text, p: Text)
    requires s != []
    ensures Body(s) + [34] + p == Emit(s) + (Body(s[Width(s)..]) + [34] + p)
  {
  }

  lemma {:induction false} BodyInjective(s: Text, t: Text, p: Text, q: Text)
    requires Body(s) + [34] + p == Body(t) + [34] + q
    ensures s == t && p == q
    decreases |s| + |t|
  {
    BodyHead(s, p);
    BodyHead(t, q);
    if s == [] {
      Cancel(Body(s) + [34], p, Body(t) + [34], q);
    } else {
      var x, y := s[Width(s)..], t[Width(t)..];
      BodyUnfold(s, p);
      BodyUnfold(t, q);
      EmitInjective(s, t, Body(x) + [34] + p, Body(y) + [34] + q);
      BodyInjective(x, y, p, q);
      assert s == s[..Width(s)] + x;
      assert t == t[..Width(t)] + y;
    }
  }

  lemma QuoteInjective(s: Text, t: Text, p: Text, q: Text)
    requires Quote(s) + p == Quote(t) + q
    ensures s == t && p == q
  {
    assert Body(s) + [34] + p == (Quote(s) + p)[1..];
    assert Body(t) + [34] + q == (Quote(t) + q)[1..];
    BodyInjective(s, t, p, q);
  }

  // ---------------------------------------------------------------- injectivity of values

  /** p begins with a delimiter: a comma or a closing bracket. */
  predicate Delimited(p: Text) {
    p != [] && (p[0] == 44 || p[0] == 93 || p[0] == 125)
  }

  /** Values whose text ends in its own closing mark. */
  predicate Closed(v: Value) {
    v.Str? || v.Arr? || v.Obj?
  }

  lemma NumberThenDelimiter(t: Text, q: Text, i: nat)
    requires (forall u <- t :: NumberUnit(u)) && Delimited(q)
    ensures i < |t| ==> NumberUnit((t + q)[i])
    ensures i == |t| ==> i < |t + q| && !NumberUnit((t + q)[i])
  {
    if i < |t| { assert (t + q)[i] == t[i] && t[i] in t; }
  }

  lemma NumberInjective(s: Text, t: Text, p: Text, q: Text)
    requires (forall u <- s :: NumberUnit(u)) && (forall u <- t :: NumberUnit(u))
    requires Delimited(p) && Delimited(q) && s + p == t + q
    ensures s == t && p == q
  {
    NumberThenDelimiter(s, p, |s|);
    NumberThenDelimiter(t, q, |s|);
    NumberThenDelimiter(s, p, |t|);
    NumberThenDelimiter(t, q, |t|);
    Cancel(s, p, t, q);
  }

  /** The first code unit tells the kinds of values apart, and is never a delimiter. */
  function Kind(v: Value): (k: nat) {
    match v
    case Undefined => 0
    case Null => 0
    case Bool(b) => if b then 1 else 2
    case Num(_) => 3
    case Str(_) => 4
    case Arr(_) => 5
    case Obj(_) => 6
  }

  function KindOfHead(u: Unit): (k: nat) {
    if u == 110 then 0
    else if u == 116 then 1
    else if u == 102 then 2
    else if u == 34 then 4
    else if u == 91 then 5
    else if u == 123 then 6
    else 3
  }

  lemma {:induction false} Head(v: Value, p: Text)
    ensures var t := Canonical(v) + p; t != [] && KindOfHead(t[0]) == Kind(v) && !Delimited(t)
  {
  }

  lemma Opened(open: Unit, x: Text, close: Unit, p: Text, y: Text, q: Text)
    requires [open] + x + [close] + p == [open] + y + [close] + q
    ensures x + [close] + p == y + [close] + q
  {
    assert [open] + x + [close] + p == [open] + (x + [close] + p);
    assert [open] + y + [close] + q == [open] + (y + [close] + q);
    Cancel([open], x + [close] + p, [open], y + [close] + q);
  }

  /** Canonical text is self-delimiting, and it determines the value up to Same. */
  lemma {:induction false} ValueInjective(a: Value, b: Value, p: Text, q: Text)
    requires Canonical(a) + p == Canonical(b) + q
    requires (Closed(a) && Closed(b)) || (Delimited(p) && Delimited(q))
    ensures Same(a, b) && p == q
    decreases a, 1, 0
  {
    Head(a, p);
    Head(b, q);
    assert Kind(a) == Kind(b);
    match a
    case Num(m) => NumberInjective(m, b.numeral, p, q);
    case Str(s) => QuoteInjective(s, b.text, p, q);
    case Arr(_) =>
      Opened(91, Items(a, 0), 93, p, Items(b, 0), q);
      ItemsInjective(a, b, 0, p, q);
    case Obj(ms) =>
      Opened(123, Members(a, KeySet(ms), true), 125, p, Members(b, KeySet(b.members), true), q);
      MembersInjective(a, b, KeySet(ms), KeySet(b.members), true, p, q);
    case _ => Cancel(Canonical(a), p, Canonical(b), q);
  }

  lemma {:induction false} ItemsHead(a: Value, i: nat, p: Text)
    requires a.Arr? && i <= |a.items|
    ensures (Items(a, i) + [93] + p)[0] == 93 <==> i == |a.items|
    ensures i > 0 ==> Delimited(Items(a, i) + [93] + p)
  {
    if i < |a.items| {
      Head(a.items[i], []);
      assert Canonical(a.items[i]) + [] == Canonical(a.items[i]);
      if i == 0 { assert (Items(a, i) + [93] + p)[0] == Canonical(a.items[i])[0]; }
    }
  }

  lemma ItemsUnfold(a: Value, i: nat, p: Text)
    requires a.Arr? && i < |a.items|
    ensures Items(a, i) + [93] + p
         == (if i == 0 then [] else [44]) + (Canonical(a.items[i]) + (Items(a, i + 1) + [93] + p))
  {
    RegroupItem(if i == 0 then [] else [44], Canonical(a.items[i]), Items(a, i + 1), [93], p);
  }

  lemma RegroupItem(c: Text, v: Text, m: Text, z: Text, p: Text)
    ensures c + v + m + z + p == c + (v + (m + z + p))
  {
  }

  lemma {:induction false} ItemsInjective(a: Value, b: Value, i: nat, p: Text, q: Text)
    requires a.Arr? && b.Arr? && i <= |a.items| && i <= |b.items|
    requires Items(a, i) + [93] + p == Items(b, i) + [93] + q
    ensures |a.items| == |b.items| && p == q
    ensures forall j | i <= j < |a.items| :: Same(a.items[j], b.items[j])
    decreases a, 0, |a.items| - i
  {
    ItemsHead(a, i, p);
    ItemsHead(b, i, q);
    if i == |a.items| {
      Cancel(Items(a, i) + [93], p, Items(b, i) + [93], q);
    } else {
      var x, y := Items(a, i + 1) + [93] + p, Items(b, i + 1) + [93] + q;
      var c: Text := if i == 0 then [] else [44];
      ItemsUnfold(a, i, p);
      ItemsUnfold(b, i, q);
      Cancel(c, Canonical(a.items[i]) + x, c, Canonical(b.items[i]) + y);
      ItemsHead(a, i + 1, p);
      ItemsHead(b, i + 1, q);
      ValueInjective(a.items[i], b.items[i], x, y);
      ItemsInjective(a, b, i + 1, p, q);
    }
  }

  function At(o: Value, k: Text): (v: Value)
    requires o.Obj? && k in KeySet(o.members)
  {
    o.members[Find(o.members, k)].value
  }

  lemma {:induction false} MembersHead(o: Value, ks: set<Text>, first: bool, p: Text)
    requires o.Obj? && ks <= KeySet(o.members)
    ensures (Members(o, ks, first) + [125] + p)[0] == 125 <==> ks == {}
    ensures !first ==> Delimited(Members(o, ks, first) + [125] + p)
  {
  }

  lemma Regroup(c: Text, k: Text, s: Text, v: Text, m: Text, z: Text, p: Text)
    ensures c + k + s + v + m + z + p == c + (k + (s + (v + (m + z + p))))
  {
  }

  lemma {:induction false} MembersUnfold(o: Value, ks: set<Text>, k: Text, first: bool, p: Text)
    requires o.Obj? && ks <= KeySet(o.members) && ks != {} && k == Least(ks)
    ensures Members(o, ks, first) + [125] + p
         == (if first then [] else [44]) +
            (Quote(k) + ([58] + (Canonical(At(o, k)) + (Members(o, ks - {k}, false) + [125] + p))))
  {
    Regroup(if first then [] else [44], Quote(k), [58], Canonical(At(o, k)), Members(o, ks - {k}, false), [125], p);
  }

  /** Equal texts start with the same key, followed by equal texts. */
  lemma {:induction false} FirstMember(a: Value, b: Value, ks: set<Text>, js: set<Text>, first: bool, p: Text, q: Text)
    requires a.Obj? && b.Obj? && ks <= KeySet(a.members) && js <= KeySet(b.members) && ks != {} && js != {}
    requires Members(a, ks, first) + [125] + p == Members(b, js, first) + [125] + q
    ensures Least(ks) == Least(js)
    ensures Canonical(At(a, Least(ks))) + (Members(a, ks - {Least(ks)}, false) + [125] + p)
         == Canonical(At(b, Least(ks))) + (Members(b, js - {Least(ks)}, false) + [125] + q)
  {
    var k, j := Least(ks), Least(js);
    var x := Canonical(At(a, k)) + (Members(a, ks - {k}, false) + [125] + p);
    var y := Canonical(At(b, j)) + (Members(b, js - {j}, false) + [125] + q);
    var c: Text := if first then [] else [44];
    MembersUnfold(a, ks, k, first, p);
    MembersUnfold(b, js, j, first, q);
    Cancel(c, Quote(k) + ([58] + x), c, Quote(j) + ([58] + y));
    QuoteInjective(k, j, [58] + x, [58] + y);
    Cancel([58], x, [58], y);
  }

  /** The first members are the same, and so is what follows them. */
  lemma {:induction false} MemberStep(a: Value, b: Value, ks: set<Text>, js: set<Text>, first: bool, p: Text, q: Text)
    requires a.Obj? && b.Obj? && ks <= KeySet(a.members) && js <= KeySet(b.members) && ks != {}
    requires Members(a, ks, first) + [125] + p == Members(b, js, first) + [125] + q
    ensures var k := Least(ks);
            && k in js && Same(At(a, k), At(b, k))
            && Members(a, ks - {k}, false) + [125] + p == Members(b, js - {k}, false) + [125] + q
    decreases a, 0, |ks|, 0
  {
    var k := Least(ks);
    MembersHead(a, ks, first, p);
    MembersHead(b, js, first, q);
    FirstMember(a, b, ks, js, first, p, q);
    MembersHead(a, ks - {k}, false, p);
    MembersHead(b, js - {k}, false, q);
    var x, y := Members(a, ks - {k}, false) + [125] + p, Members(b, js - {k}, false) + [125] + q;
    ValueInjective(At(a, k), At(b, k), x, y);
  }

  lemma {:induction false} MembersInjective(a: Value, b: Value, ks: set<Text>, js: set<Text>, first: bool,
                                            p: Text, q: Text)
    requires a.Obj? && b.Obj? && ks <= KeySet(a.members) && js <= KeySet(b.members)
    requires Members(a, ks, first) + [125] + p == Members(b, js, first) + [125] + q
    ensures ks == js && p == q
    ensures forall k <- ks :: Same(At(a, k), At(b, k))
    decreases a, 0, |ks|
  {
    if ks == {} {
      MembersHead(a, ks, first, p);
      MembersHead(b, js, first, q);
      Cancel(Members(a, ks, first) + [125], p, Members(b, js, first) + [125], q);
    } else {
      var k := Least(ks);
      MemberStep(a, b, ks, js, first, p, q);
      RestInjective(a, b, ks, js, k, p, q);
    }
  }

  lemma {:induction false} RestInjective(a: Value, b: Value, ks: set<Text>, js: set<Text>, k: Text, p: Text, q: Text)
    requires a.Obj? && b.Obj? && ks <= KeySet(a.members) && js <= KeySet(b.members) && k in ks && k in js
    requires Members(a, ks - {k}, false) + [125] + p == Members(b, js - {k}, false) + [125] + q
    requires Same(At(a, k), At(b, k))
    ensures ks == js && p == q
    ensures forall j <- ks :: Same(At(a, j), At(b, j))
    decreases a, 0, |ks|, 0
  {
    var rest, rest' := ks - {k}, js - {k};
    assert ks == rest + {k} && js == rest' + {k};
    MembersInjective(a, b, rest, rest', false, p, q);
  }

  // ---------------------------------------------------------------- and nothing else

  /** Same values have the same canonical text, whatever order their members were inserted in. */
  lemma {:induction false} SameCanonical(a: Value, b: Value)
    requires Same(a, b)
    ensures Canonical(a) == Canonical(b)
    decreases a, 1, 0
  {
    match a
    case Arr(_) => SameItems(a, b, 0);
    case Obj(ms) => SameMembers(a, b, KeySet(ms), true);
    case _ =>
  }

  lemma {:induction false} SameItems(a: Value, b: Value, i: nat)
    requires a.Arr? && Same(a, b) && i <= |a.items|
    ensures Items(a, i) == Items(b, i)
    decreases a, 0, |a.items| - i
  {
    if i < |a.items| {
      SameCanonical(a.items[i], b.items[i]);
      SameItems(a, b, i + 1);
    }
  }

  lemma {:induction false} SameMembers(a: Value, b: Value, ks: set<Text>, first: bool)
    requires a.Obj? && Same(a, b) && ks <= KeySet(a.members)
    ensures Members(a, ks, first) == Members(b, ks, first)
    decreases a, 0, |ks|
  {
    if ks != {} {
      var k := Least(ks);
      SameCanonical(At(a, k), At(b, k));
      SameMembers(a, b, ks - {k}, false);
    }
  }

  /** For objects, canonical texts followed by anything agree exactly when the objects are the same as
      values and what follows is the same. */
  lemma {:induction false} CanonicalExact(a: Value, b: Value, p: Text, q: Text)
    requires a.Obj? && b.Obj?
    ensures Canonical(a) + p == Canonical(b) + q <==> Same(a, b) && p == q
  {
    if Canonical(a) + p == Canonical(b) + q { ValueInjective(a, b, p, q); }
    if Same(a, b) { SameCanonical(a, b); }
  }

  lemma {:induction false} SameReflexive(v: Value)
    ensures Same(v, v)
    decreases v
  {
    match v
    case Arr(items) => forall i | 0 <= i < |items| ensures Same(items[i], items[i]) { SameReflexive(items[i]); }
    case Obj(ms) =>
      forall k <- KeySet(ms) ensures Same(ms[Find(ms, k)].value, ms[Find(ms, k)].value) {
        SameReflexive(ms[Find(ms, k)].value);
      }
    case _ =>
  }

  predicate DistinctKeys(ms: seq<Member>) {
    forall i, j | 0 <= i < j < |ms| :: ms[i].key != ms[j].key
  }

  /** With distinct keys, the order in which members were inserted does not show in the text. */
  lemma InsertionOrderIrrelevant(ms: seq<Member>, ns: seq<Member>)
    requires DistinctKeys(ms) && multiset(ms) == multiset(ns)
    ensures Canonical(Obj(ms)) == Canonical(Obj(ns))
  {
    assert forall m :: m in ms <==> m in multiset(ms);
    assert forall m :: m in ns <==> m in multiset(ns);
    assert KeySet(ms) == KeySet(ns) by {
      forall k <- KeySet(ms) ensures k in KeySet(ns) { assert ms[Find(ms, k)] in ns; }
      forall k <- KeySet(ns) ensures k in KeySet(ms) { assert ns[Find(ns, k)] in ms; }
    }
    forall k <- KeySet(ms) ensures Same(ms[Find(ms, k)].value, ns[Find(ns, k)].value) {
      assert ns[Find(ns, k)] in ms;
      SameReflexive(ms[Find(ms, k)].value);
    }
    SameCanonical(Obj(ms), Obj(ns));
  }
}
