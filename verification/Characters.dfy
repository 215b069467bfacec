/** Characters and strings of ECMAScript: classes that validators use, trimming, UTF-16 length and sorting. */
module Characters {
  /** What \s matches and String.prototype.trim removes. */
  predicate IsSpace(c: char) {
    var u := c as int;
    9 <= u <= 13 || u == 32 || u == 0xA0 || u == 0x1680 || 0x2000 <= u <= 0x200A || u == 0x2028 || u == 0x2029
    || u == 0x202F || u == 0x205F || u == 0x3000 || u == 0xFEFF
  }

  /** The C0 control characters and DEL. */
  predicate IsControl(c: char) {
    c as int <= 0x1F || c as int == 0x7F
  }

  function TrimStart(s: string): (t: string) {
    if s != [] && IsSpace(s[0]) then TrimStart(s[1..]) else s
  }

  function TrimEnd(s: string): (t: string) {
    if s != [] && IsSpace(s[|s| - 1]) then TrimEnd(s[..|s| - 1]) else s
  }

  function Trim(s: string): (t: string) {
    TrimEnd(TrimStart(s))
  }

  lemma {:induction false} TrimStartFacts(s: string)
    ensures |TrimStart(s)| <= |s| && forall c <- TrimStart(s) :: c in s
    ensures TrimStart(s) != [] ==> !IsSpace(TrimStart(s)[0])
  {
    if s != [] && IsSpace(s[0]) { TrimStartFacts(s[1..]); }
  }

  lemma {:induction false} TrimEndFacts(s: string)
    ensures |TrimEnd(s)| <= |s| && TrimEnd(s) <= s
    ensures TrimEnd(s) != [] ==> !IsSpace(TrimEnd(s)[|TrimEnd(s)| - 1])
  {
    if s != [] && IsSpace(s[|s| - 1]) { TrimEndFacts(s[..|s| - 1]); }
  }

  /** Trimming keeps characters of s only, leaves no space at either end, and need not be repeated. */
  lemma TrimFacts(s: string)
    ensures |Trim(s)| <= |s| && forall c <- Trim(s) :: c in s
    ensures Trim(s) != [] ==> !IsSpace(Trim(s)[0]) && !IsSpace(Trim(s)[|Trim(s)| - 1])
    ensures Trim(Trim(s)) == Trim(s)
  {
    TrimStartFacts(s);
    TrimEndFacts(TrimStart(s));
  }

  // ---------------------------------------------------------------- UTF-16

  /** The length of a string in UTF-16 code units. */
  function Units(s: string): (n: nat)
    ensures n >= |s|
  {
    if s == [] then 0 else Units(s[..|s| - 1]) + if s[|s| - 1] as int >= 0x1_0000 then 2 else 1
  }

  lemma {:induction false} UnitsOfConcat(s: string, t: string)
    ensures Units(s + t) == Units(s) + Units(t)
  {
    if t == [] {
      assert s + t == s;
    } else {
      assert (s + t)[..|s + t| - 1] == s + t[..|t| - 1];
      UnitsOfConcat(s, t[..|t| - 1]);
    }
  }

  lemma {:induction false} TrimUnits(s: string)
    ensures Units(Trim(s)) <= Units(s)
  {
    TrimStartSplits(s);
    UnitsOfConcat(s[..|s| - |TrimStart(s)|], TrimStart(s));
    var t := TrimStart(s);
    TrimEndFacts(t);
    assert t == TrimEnd(t) + t[|TrimEnd(t)|..];
    UnitsOfConcat(TrimEnd(t), t[|TrimEnd(t)|..]);
  }

  lemma {:induction false} TrimStartSplits(s: string)
    ensures |TrimStart(s)| <= |s| && s == s[..|s| - |TrimStart(s)|] + TrimStart(s)
  {
    if s != [] && IsSpace(s[0]) { TrimStartSplits(s[1..]); }
  }

  /** Where a character stands in the order of UTF-16 code units: surrogate pairs come before U+E000. */
  function Rank(c: char): (r: nat) {
    var u := c as int;
    if u < 0xD800 then u else if u >= 0x1_0000 then u - 0x1_0000 + 0xD800 else u + 0x10_0000
  }

  lemma RankInjective(c: char, d: char)
    requires Rank(c) == Rank(d)
    ensures c == d
  {
  }

  /** The strict order of Array.prototype.sort. */
  predicate Before(s: string, t: string) {
    t != [] && (s == [] || Rank(s[0]) < Rank(t[0]) || (s[0] == t[0] && Before(s[1..], t[1..])))
  }

  lemma {:induction false} BeforeTransitive(s: string, t: string, u: string)
    requires Before(s, t) && Before(t, u)
    ensures Before(s, u)
  {
    if s != [] && s[0] == t[0] == u[0] { BeforeTransitive(s[1..], t[1..], u[1..]); }
  }

  lemma {:induction false} BeforeTotal(s: string, t: string)
    ensures s == t || Before(s, t) || Before(t, s)
    ensures Before(s, t) ==> s != t && !Before(t, s)
  {
    if s != [] && t != [] {
      if Rank(s[0]) == Rank(t[0]) { RankInjective(s[0], t[0]); }
      BeforeTotal(s[1..], t[1..]);
    }
  }

  predicate Sorted(l: seq<string>) {
    forall i, j | 0 <= i < j < |l| :: Before(l[i], l[j])
  }

  /** l lists the names in order, without repetitions. */
  ghost predicate Lists(l: seq<string>, names: set<string>) {
    Sorted(l) && forall n :: n in l <==> n in names
  }

  function Insert(l: seq<string>, n: string): (m: seq<string>) {
    if l == [] then [n] else if Before(n, l[0]) then [n] + l else [l[0]] + Insert(l[1..], n)
  }

  lemma {:induction false} InsertLists(l: seq<string>, names: set<string>, n: string)
    requires Lists(l, names) && n !in names
    ensures Lists(Insert(l, n), names + {n})
  {
    if l == [] {
    } else if Before(n, l[0]) {
      forall j | 0 <= j < |l| ensures Before(n, l[j]) {
        if j > 0 { BeforeTransitive(n, l[0], l[j]); }
      }
    } else {
      var rest := names - {l[0]};
      assert l[0] in l && l == [l[0]] + l[1..];
      BeforeTotal(n, l[0]);
      ListTail(l, names);
      InsertLists(l[1..], rest, n);
      var m := Insert(l[1..], n);
      forall j | 0 <= j < |m| ensures Before(l[0], m[j]) {
        assert m[j] in rest + {n};
        if m[j] != n {
          var i :| 0 <= i < |l| && l[i] == m[j];
          assert i > 0;
        }
      }
      assert names + {n} == {l[0]} + (rest + {n});
    }
  }

  /** A set of names, sorted. */
  method ListOf(names: set<string>) returns (l: seq<string>)
    ensures Lists(l, names)
  {
    l := [];
    var todo := names;
    while todo != {}
      invariant todo <= names && Lists(l, names - todo)
      decreases |todo|
    {
      var n :| n in todo;
      InsertLists(l, names - todo, n);
      l := Insert(l, n);
      assert names - (todo - {n}) == names - todo + {n};
      todo := todo - {n};
    }
    assert names - todo == names;
  }

  lemma FirstOf(l: seq<string>, names: set<string>)
    requires Lists(l, names)
    ensures l == [] <==> names == {}
    ensures l != [] ==> l[0] in names && forall n <- names :: n == l[0] || Before(l[0], n)
  {
    if l != [] {
      assert l[0] in l;
      forall n <- names ensures n == l[0] || Before(l[0], n) {
        var i :| 0 <= i < |l| && l[i] == n;
      }
    }
  }

  /** There is one way to list a set. */
  lemma {:induction false} OneList(l: seq<string>, m: seq<string>, names: set<string>)
    requires Lists(l, names) && Lists(m, names)
    ensures l == m
    decreases |l|
  {
    FirstOf(l, names);
    FirstOf(m, names);
    if l != [] {
      BeforeTotal(l[0], m[0]);
      ListTail(l, names);
      ListTail(m, names);
      OneList(l[1..], m[1..], names - {l[0]});
    }
  }

  lemma ListTail(l: seq<string>, names: set<string>)
    requires Lists(l, names) && l != []
    ensures Lists(l[1..], names - {l[0]})
  {
    assert l == [l[0]] + l[1..];
    forall x ensures x in l[1..] <==> x in names - {l[0]} {
      if x in l[1..] {
        var j :| 0 <= j < |l[1..]| && l[1..][j] == x;
        assert Before(l[0], l[j + 1]);
        BeforeTotal(l[0], x);
      }
    }
  }
}
