/** What canonicalJson (src/common/crypto.ts) writes, spelled out: the words, the separators and the key order. */
module CanonicalText {
  import opened CanonicalJson

  /** The order of Array.prototype.sort: s is a proper prefix of t, or smaller at the first unit that differs. */
  ghost predicate Precedes(s: Text, t: Text) {
    exists i: nat {:trigger s[..i]} :: i <= |s| && i < |t| && s[..i] == t[..i] && (i == |s| || s[i] < t[i])
  }

  lemma {:induction false} LeqMeansPrecedes(s: Text, t: Text)
    requires Leq(s, t)
    ensures s == t || Precedes(s, t)
  {
    if s == [] {
      assert t != [] ==> s[..0] == t[..0];
    } else if s[0] < t[0] {
      assert s[..0] == t[..0];
    } else {
      LeqMeansPrecedes(s[1..], t[1..]);
      if s[1..] == t[1..] {
        assert s == [s[0]] + s[1..] && t == [t[0]] + t[1..];
      } else {
        var i: nat :| i <= |s[1..]| && i < |t[1..]| && s[1..][..i] == t[1..][..i]
                      && (i == |s[1..]| || s[1..][i] < t[1..][i]);
        assert s[..i + 1] == [s[0]] + s[1..][..i] && t[..i + 1] == [t[0]] + t[1..][..i];
      }
    }
  }

  lemma {:induction false} PrecedesMeansLeq(s: Text, t: Text, i: nat)
    requires i <= |s| && i < |t| && s[..i] == t[..i] && (i == |s| || s[i] < t[i])
    ensures Leq(s, t) && s != t
  {
    if i > 0 {
      assert s[0] == s[..i][0] && t[0] == t[..i][0];
      assert s[1..][..i - 1] == s[..i][1..] && t[1..][..i - 1] == t[..i][1..];
      PrecedesMeansLeq(s[1..], t[1..], i - 1);
    }
  }

  /** Keys are compared by code units, at the first one that differs. */
  lemma {:induction false} LeqIsLexicographic(s: Text, t: Text)
    ensures Leq(s, t) <==> s == t || Precedes(s, t)
    ensures Precedes(s, t) ==> s != t
  {
    if Leq(s, t) { LeqMeansPrecedes(s, t); }
    if Precedes(s, t) {
      var i: nat :| i <= |s| && i < |t| && s[..i] == t[..i] && (i == |s| || s[i] < t[i]);
      PrecedesMeansLeq(s, t, i);
    }
    LeqTotal(s, s);
  }

  /** The parts with commas between them. */
  function Join(parts: seq<Text>): (t: Text) {
    if parts == [] then [] else if |parts| == 1 then parts[0] else parts[0] + Ascii(",") + Join(parts[1..])
  }

  function ItemTexts(items: seq<Value>): (parts: seq<Text>) {
    if items == [] then [] else [Canonical(items[0])] + ItemTexts(items[1..])
  }

  function MemberTexts(o: Value, ks: seq<Text>): (parts: seq<Text>)
    requires o.Obj? && forall k <- ks :: k in KeySet(o.members)
  {
    if ks == [] then []
    else [Quote(ks[0]) + Ascii(":") + Canonical(At(o, ks[0]))] + MemberTexts(o, ks[1..])
  }

  ghost predicate Ascending(ks: seq<Text>) {
    forall i, j | 0 <= i < j < |ks| :: Precedes(ks[i], ks[j])
  }

  lemma {:induction false} ItemsText(a: Value, i: nat)
    requires a.Arr? && i <= |a.items|
    ensures Items(a, i) == (if i == 0 || i == |a.items| then [] else Ascii(",")) + Join(ItemTexts(a.items[i..]))
    decreases |a.items| - i
  {
    if i < |a.items| {
      ItemsText(a, i + 1);
      assert a.items[i..][1..] == a.items[i + 1..];
    }
  }

  lemma FirstIsLeast(ks: seq<Text>, keys: set<Text>)
    requires ks != [] && Ascending(ks) && forall k :: k in ks <==> k in keys
    ensures keys != {} && Least(keys) == ks[0] && forall k :: k in ks[1..] <==> k in keys - {ks[0]}
  {
    assert ks[0] in ks && ks == [ks[0]] + ks[1..];
    forall i | 0 < i < |ks| ensures Leq(ks[0], ks[i]) && ks[0] != ks[i] { LeqIsLexicographic(ks[0], ks[i]); }
    LeqTotal(ks[0], ks[0]);
    assert IsLeast(keys, ks[0]);
    LeastUnique(keys);
  }

  /** The separator before the rest of a list. */
  function Comma(parts: seq<Text>): (t: Text) {
    if parts == [] then [] else Ascii(",")
  }

  lemma {:induction false} JoinMore(part: Text, rest: seq<Text>)
    ensures Join([part] + rest) == part + (Comma(rest) + Join(rest))
  {
    assert ([part] + rest)[1..] == rest;
  }

  lemma {:induction false} MembersFirst(o: Value, keys: set<Text>, k: Text, first: bool)
    requires o.Obj? && keys <= KeySet(o.members) && keys != {} && k == Least(keys)
    ensures Members(o, keys, first)
         == (if first then [] else Ascii(","))
            + ((Quote(k) + Ascii(":") + Canonical(At(o, k))) + Members(o, keys - {k}, false))
  {
    assert Ascii(",") == [44] && Ascii(":") == [58];
    var c, q, v, m := if first then [] else Ascii(","), Quote(k), Canonical(At(o, k)), Members(o, keys - {k}, false);
    assert c + q + [58] + v + m == c + ((q + [58] + v) + m);
  }

  lemma {:induction false} MembersText(o: Value, ks: seq<Text>, keys: set<Text>, first: bool)
    requires o.Obj? && keys <= KeySet(o.members) && Ascending(ks) && forall k :: k in ks <==> k in keys
    ensures Members(o, keys, first)
         == (if first then [] else Comma(MemberTexts(o, ks))) + Join(MemberTexts(o, ks))
    decreases |ks|
  {
    if ks == [] {
      assert keys == {};
    } else {
      assert ks[0] in ks && ks[0] in keys;
      FirstIsLeast(ks, keys);
      MembersFirst(o, keys, ks[0], first);
      MembersText(o, ks[1..], keys - {ks[0]}, false);
      JoinMore(Quote(ks[0]) + Ascii(":") + Canonical(At(o, ks[0])), MemberTexts(o, ks[1..]));
    }
  }

  /** The text of every value, down to its separators; an object lists its keys in ascending order. */
  lemma {:induction false} CanonicalIs(v: Value, ks: seq<Text>)
    requires v.Obj? ==> Ascending(ks) && forall k :: k in ks <==> k in KeySet(v.members)
    ensures Canonical(v) == match v
                            case Undefined => Ascii("null")
                            case Null => Ascii("null")
                            case Bool(b) => if b then Ascii("true") else Ascii("false")
                            case Num(n) => n
                            case Str(s) => Quote(s)
                            case Arr(items) => Ascii("[") + Join(ItemTexts(items)) + Ascii("]")
                            case Obj(_) => Ascii("{") + Join(MemberTexts(v, ks)) + Ascii("}")
  {
    assert Ascii("[") == [91] && Ascii("]") == [93] && Ascii("{") == [123] && Ascii("}") == [125];
    match v
    case Arr(items) =>
      ItemsText(v, 0);
      assert items[0..] == items;
    case Obj(ms) => MembersText(v, ks, KeySet(ms), true);
    case _ =>
  }

  // ---------------------------------------------------------------- strings

  /** A unit that is written as it is. */
  predicate Plain(u: Unit) {
    u >= 32 && u != 34 && u != 92 && !(0xD800 <= u <= 0xDFFF)
  }

  const HEX := Ascii("0123456789abcdef")

  /** What is written for a unit that is not plain and not in a surrogate pair: a letter after a backslash, where there
      is one for it, or else its number in four lower-case hexadecimal digits. */
  function Escaped(u: Unit): (t: Text) {
    match u
    case 34 => Ascii("\\\"")
    case 92 => Ascii("\\\\")
    case 8 => Ascii("\\b")
    case 9 => Ascii("\\t")
    case 10 => Ascii("\\n")
    case 12 => Ascii("\\f")
    case 13 => Ascii("\\r")
    case _ => Ascii("\\u") + [HEX[u / 4096], HEX[u / 256 % 16], HEX[u / 16 % 16], HEX[u % 16]]
  }

  /** How long the first piece of a string is, and what is written for it: surrogate pairs stay together. */
  function Piece(s: Text): (n: nat)
    requires s != []
    ensures n <= |s|
  {
    if |s| >= 2 && 0xD800 <= s[0] <= 0xDBFF && 0xDC00 <= s[1] <= 0xDFFF then 2 else 1
  }

  function Written(s: Text): (t: Text)
    decreases |s|
  {
    if s == [] then []
    else (if Piece(s) == 2 then s[..2] else if Plain(s[0]) then [s[0]] else Escaped(s[0])) + Written(s[Piece(s)..])
  }

  lemma HexIs(n: nat)
    requires n < 16
    ensures Hex(n) == HEX[n]
  {
  }

  lemma EmitIs(s: Text)
    requires s != []
    ensures Width(s) == Piece(s)
    ensures Emit(s) == if Piece(s) == 2 then s[..2] else if Plain(s[0]) then [s[0]] else Escaped(s[0])
  {
    if Piece(s) == 1 && !Plain(s[0]) {
      HexIs(s[0] / 4096);
      HexIs(s[0] / 256 % 16);
      HexIs(s[0] / 16 % 16);
      HexIs(s[0] % 16);
    }
  }

  lemma {:induction false} BodyIs(s: Text)
    ensures Body(s) == Written(s)
    decreases |s|
  {
    if s != [] {
      EmitIs(s);
      BodyIs(s[Piece(s)..]);
    }
  }

  /** Strings are quoted as JSON.stringify quotes them: well-formed, lone surrogates escaped, nothing else than
      quotation marks, backslashes and control characters touched. */
  lemma {:induction false} QuoteIs(s: Text)
    ensures Quote(s) == Ascii("\"") + Written(s) + Ascii("\"")
  {
    BodyIs(s);
    assert Ascii("\"") == [34];
  }
}
