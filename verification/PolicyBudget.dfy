/** Governance budgets (src/roles/roles.service.ts): restrictiveBudget over trees of exact numbers. */
module PolicyBudget {
  import opened Wrappers

  /** A limit, a table of dimensions, or a function that a lookup inherited from Object.prototype. */
  datatype Budget = Limit(n: real) | Table(entries: map<string, Budget>) | Foreign

  /** The property names Object.prototype has and that a budget may use as dimensions. */
  const INHERITED := {"constructor", "hasOwnProperty", "isPrototypeOf", "propertyIsEnumerable",
                      "toLocaleString", "toString", "valueOf"}

  /** restrictiveBudget. A dimension that only the next layer sets is read from the current table first;
      when its name is an inherited one, what is found there is kept instead of the limit. */
  function Restrict(current: Budget, next: Budget): (b: Budget)
    decreases next
  {
    match (current, next)
    case (Limit(x), Limit(y)) => Limit(if y < x then y else x)
    case (Table(c), Table(n)) =>
      Table(map k | k in c.Keys + n.Keys ::
              if k in c && k in n then Restrict(c[k], n[k])
              else if k in c then c[k]
              else if k in INHERITED then Foreign
              else n[k])
    case _ => current
  }

  function RestrictBoth(current: Option<Budget>, next: Option<Budget>): (b: Option<Budget>) {
    if next.None? then current
    else if current.None? then next
    else Some(Restrict(current.value, next.value))
  }

  /** What reading a key of a plain object gives. */
  function Read(table: map<string, Budget>, k: string): (b: Option<Budget>) {
    if k in table then Some(table[k]) else if k in INHERITED then Some(Foreign) else None
  }

  /** The program: it recurses while it fills a copy of the current table. */
  method RestrictiveBudget(current: Option<Budget>, next: Option<Budget>) returns (b: Option<Budget>)
    ensures b == RestrictBoth(current, next)
    decreases if next.Some? then next.value else Limit(0.0), 1
  {
    if next.None? { return current; }
    if current.None? { return next; }
    match (current.value, next.value) {
      case (Limit(x), Limit(y)) => return Some(Limit(if y < x then y else x));
      case (Table(c), Table(n)) =>
        var merged := RestrictTables(c, next.value);
        return Some(Table(merged));
      case _ => return current;
    }
  }

  method RestrictTables(c: map<string, Budget>, next: Budget) returns (merged: map<string, Budget>)
    requires next.Table?
    ensures Table(merged) == Restrict(Table(c), next)
    decreases next, 0
  {
    var n := next.entries;
    merged := c;
    var todo := n.Keys;
    while todo != {}
      invariant todo <= n.Keys
      invariant Filled(c, n, todo, merged)
      decreases |todo|
    {
      var k :| k in todo;
      var value := RestrictiveBudget(Read(merged, k), Some(n[k]));
      merged := merged[k := value.value];
      todo := todo - {k};
    }
    FilledAll(c, n, merged);
  }

  /** The copy once every key outside todo has been handled. */
  ghost predicate Filled(c: map<string, Budget>, n: map<string, Budget>, todo: set<string>,
                         merged: map<string, Budget>)
  {
    && merged.Keys == c.Keys + (n.Keys - todo)
    && forall k | k in merged ::
         if k in n && k !in todo then Some(merged[k]) == RestrictBoth(Read(c, k), Some(n[k]))
         else k in c && merged[k] == c[k]
  }

  lemma FilledAll(c: map<string, Budget>, n: map<string, Budget>, merged: map<string, Budget>)
    requires Filled(c, n, {}, merged)
    ensures Table(merged) == Restrict(Table(c), Table(n))
  {
    var r := Restrict(Table(c), Table(n)).entries;
    assert merged.Keys == r.Keys;
    forall k | k in merged ensures merged[k] == r[k] {
      if k in n && k !in c && k in INHERITED { assert Restrict(Foreign, n[k]) == Foreign; }
    }
    assert merged == r;
  }

  /** What a budget says at a path of dimensions. */
  datatype Look = Absent | Inner | Leaf(n: real) | Junk

  function LookAt(b: Budget, path: seq<string>): (l: Look)
    decreases |path|
  {
    if path == [] then (match b case Limit(n) => Leaf(n) case Table(_) => Inner case Foreign => Junk)
    else if b.Table? && path[0] in b.entries then LookAt(b.entries[path[0]], path[1..])
    else Absent
  }

  /** Wherever both set something, they agree on whether it is a number or a table; and no dimension that
      only one of them sets has an inherited name. */
  predicate Agree(a: Budget, b: Budget) {
    match (a, b)
    case (Limit(_), Limit(_)) => true
    case (Table(x), Table(y)) =>
      && (forall k | k in x && k in y :: Agree(x[k], y[k]))
      && (forall k | k in INHERITED :: k in x <==> k in y)
    case _ => false
  }

  /** Nothing inherited is in it: what normalization returns. */
  predicate Clean(b: Budget) {
    match b
    case Limit(_) => true
    case Table(x) => forall k | k in x :: Clean(x[k])
    case Foreign => false
  }

  function Join(x: Look, y: Look): (z: Look) {
    if x.Absent? then y
    else if x.Leaf? && y.Leaf? then Leaf(if y.n < x.n then y.n else x.n)
    else x
  }

  /** A number already in force never rises and never disappears, whatever the next layer says. */
  lemma {:induction false} LeafNeverRises(current: Budget, next: Budget, path: seq<string>)
    requires LookAt(current, path).Leaf?
    ensures LookAt(Restrict(current, next), path).Leaf?
    ensures LookAt(Restrict(current, next), path).n <= LookAt(current, path).n
    decreases |path|
  {
    if path != [] && next.Table? && path[0] in next.entries {
      LeafNeverRises(current.entries[path[0]], next.entries[path[0]], path[1..]);
    }
  }

  /** What the next layer needs in order to be merged faithfully: it has a table where the current one has a
      table and a number where it has a number, and no dimension that it alone sets has an inherited name. */
  predicate Fits(current: Budget, next: Budget) {
    match (current, next)
    case (Limit(_), Limit(_)) => true
    case (Table(c), Table(n)) => forall k | k in n :: if k in c then Fits(c[k], n[k]) else k !in INHERITED
    case _ => false
  }

  predicate Mixed(x: Look, y: Look) {
    (x.Leaf? && y.Inner?) || (x.Inner? && y.Leaf?)
  }

  /** Then every path is decided by the two budgets at that path alone. */
  lemma {:induction false} FittingLooks(a: Budget, b: Budget, path: seq<string>)
    requires Fits(a, b) && Clean(b)
    ensures LookAt(Restrict(a, b), path) == Join(LookAt(a, path), LookAt(b, path))
    ensures !Mixed(LookAt(a, path), LookAt(b, path)) && !LookAt(b, path).Junk?
    decreases |path|
  {
    if path != [] && b.Table? && path[0] in b.entries {
      if path[0] in a.entries {
        FittingLooks(a.entries[path[0]], b.entries[path[0]], path[1..]);
      } else {
        CleanLooks(b.entries[path[0]], path[1..]);
      }
    }
  }

  lemma {:induction false} CleanLooks(b: Budget, path: seq<string>)
    requires Clean(b)
    ensures !LookAt(b, path).Junk?
    decreases |path|
  {
    if path != [] && b.Table? && path[0] in b.entries { CleanLooks(b.entries[path[0]], path[1..]); }
  }

  lemma {:induction false} FittingIsClean(a: Budget, b: Budget)
    requires Fits(a, b) && Clean(a) && Clean(b)
    ensures Clean(Restrict(a, b))
    decreases b
  {
    if b.Table? {
      forall k | k in a.entries && k in b.entries ensures Clean(Restrict(a.entries[k], b.entries[k])) {
        FittingIsClean(a.entries[k], b.entries[k]);
      }
    }
  }

  /** Otherwise there is a path at which the layers contradict each other or a limit is lost. */
  lemma {:induction false} Misfit(a: Budget, b: Budget) returns (path: seq<string>)
    requires Clean(a) && Clean(b) && !Fits(a, b)
    ensures LookAt(Restrict(a, b), path).Junk? || Mixed(LookAt(a, path), LookAt(b, path))
    decreases b
  {
    path := [];
    if a.Table? && b.Table? {
      var k :| k in b.entries && !(if k in a.entries then Fits(a.entries[k], b.entries[k]) else k !in INHERITED);
      if k in a.entries {
        var rest := Misfit(a.entries[k], b.entries[k]);
        path := [k] + rest;
        assert path[1..] == rest;
      } else {
        path := [k];
        assert Restrict(a, b).entries[k] == Foreign;
        assert LookAt(Restrict(a, b), path) == LookAt(Foreign, []);
      }
    }
  }

  /** What is lost stays lost. */
  lemma {:induction false} JunkStays(a: Budget, b: Budget, path: seq<string>)
    requires LookAt(a, path).Junk?
    ensures LookAt(Restrict(a, b), path).Junk?
    decreases |path|
  {
    if path != [] && b.Table? && path[0] in b.entries {
      JunkStays(a.entries[path[0]], b.entries[path[0]], path[1..]);
    }
  }

  lemma {:induction false} RestrictAgrees(a: Budget, b: Budget, c: Budget)
    requires Agree(a, b) && Agree(a, c) && Agree(b, c)
    ensures Agree(Restrict(a, b), c)
    decreases c
  {
    if c.Table? {
      var r := Restrict(a, b);
      forall k | k in r.entries && k in c.entries ensures Agree(r.entries[k], c.entries[k]) {
        if k in a.entries && k in b.entries { RestrictAgrees(a.entries[k], b.entries[k], c.entries[k]); }
      }
    }
  }

  /** Budgets that look the same everywhere are equal. */
  lemma {:induction false} LookExtensional(a: Budget, b: Budget)
    requires forall path :: LookAt(a, path) == LookAt(b, path)
    ensures a == b
    decreases a
  {
    assert LookAt(a, []) == LookAt(b, []);
    if a.Table? {
      forall k ensures k in a.entries <==> k in b.entries {
        assert LookAt(a, [k]) == LookAt(b, [k]);
        if k in a.entries { assert LookAt(a, [k]) == LookAt(a.entries[k], [k][1..]); }
        if k in b.entries { assert LookAt(b, [k]) == LookAt(b.entries[k], [k][1..]); }
      }
      forall k | k in a.entries ensures a.entries[k] == b.entries[k] {
        forall path ensures LookAt(a.entries[k], path) == LookAt(b.entries[k], path) {
          assert LookAt(a, [k] + path) == LookAt(b, [k] + path);
          assert ([k] + path)[1..] == path;
        }
        LookExtensional(a.entries[k], b.entries[k]);
      }
      assert a.entries == b.entries;
    }
  }

  // ---------------------------------------------------------------- many layers

  function RestrictAll(bs: seq<Budget>): (b: Budget)
    requires bs != []
  {
    if |bs| == 1 then bs[0] else Restrict(RestrictAll(bs[..|bs| - 1]), bs[|bs| - 1])
  }

  predicate AllAgree(bs: seq<Budget>) {
    forall i, j | 0 <= i < |bs| && 0 <= j < |bs| :: Agree(bs[i], bs[j])
  }

  lemma {:induction false} RestrictAllAgrees(bs: seq<Budget>, c: Budget)
    requires bs != [] && AllAgree(bs) && forall i | 0 <= i < |bs| :: Agree(bs[i], c)
    ensures Agree(RestrictAll(bs), c)
  {
    if |bs| > 1 {
      var n := |bs| - 1;
      RestrictAllAgrees(bs[..n], c);
      RestrictAllAgrees(bs[..n], bs[n]);
      RestrictAgrees(RestrictAll(bs[..n]), bs[n], c);
    }
  }

  /** x is what the budgets in bs, taken together, say at a path: the least number any of them sets, a
      table if any of them has one there, nothing if none of them sets anything. */
  ghost predicate Combined(bs: seq<Budget>, path: seq<string>, x: Look) {
    match x
    case Absent => forall b <- bs :: LookAt(b, path).Absent?
    case Inner => (exists b <- bs :: LookAt(b, path).Inner?) && forall b <- bs :: !LookAt(b, path).Leaf?
    case Junk => false
    case Leaf(n) =>
      && (exists b <- bs :: LookAt(b, path) == Leaf(n))
      && (forall b <- bs :: LookAt(b, path).Absent? || (LookAt(b, path).Leaf? && n <= LookAt(b, path).n))
  }

  /** Every path of the merged budget says what its layers say together: each leaf is the minimum over the
      layers that set it, and nothing is lost or added. */
  ghost predicate Faithful(bs: seq<Budget>)
    requires bs != []
  {
    forall path :: Combined(bs, path, LookAt(RestrictAll(bs), path))
  }

  /** Each layer fits what the layers before it have been merged to. */
  predicate FitsAll(bs: seq<Budget>) {
    forall i | 0 < i < |bs| :: Fits(RestrictAll(bs[..i]), bs[i])
  }

  predicate AllClean(bs: seq<Budget>) {
    forall b <- bs :: Clean(b)
  }

  lemma FitsPrefix(bs: seq<Budget>, n: nat)
    requires n <= |bs| && forall i | 0 < i < n :: Fits(RestrictAll(bs[..i]), bs[i])
    ensures FitsAll(bs[..n])
  {
    forall i | 0 < i < n ensures Fits(RestrictAll(bs[..n][..i]), bs[..n][i]) { assert bs[..n][..i] == bs[..i]; }
  }

  lemma {:induction false} FittingLayers(bs: seq<Budget>)
    requires bs != [] && AllClean(bs) && FitsAll(bs)
    ensures Faithful(bs) && Clean(RestrictAll(bs))
    decreases |bs|
  {
    var n := |bs| - 1;
    assert bs[n] in bs;
    if n == 0 {
      assert bs == [bs[0]];
      forall path ensures Combined(bs, path, LookAt(RestrictAll(bs), path)) { CleanLooks(bs[0], path); }
    } else {
      var cs, b := bs[..n], bs[n];
      assert bs == cs + [b];
      FitsPrefix(bs, n);
      FittingLayers(cs);
      FittingIsClean(RestrictAll(cs), b);
      forall path ensures Combined(bs, path, LookAt(RestrictAll(bs), path)) {
        FittingLooks(RestrictAll(cs), b, path);
        CombinedSnoc(cs, b, path, LookAt(RestrictAll(cs), path));
      }
    }
  }

  lemma {:induction false} JunkStaysInAll(bs: seq<Budget>, i: nat, path: seq<string>)
    requires 0 < i <= |bs| && LookAt(RestrictAll(bs[..i]), path).Junk?
    ensures LookAt(RestrictAll(bs), path).Junk?
    decreases |bs|
  {
    if i < |bs| {
      var n := |bs| - 1;
      assert bs[..n][..i] == bs[..i];
      JunkStaysInAll(bs[..n], i, path);
      JunkStays(RestrictAll(bs[..n]), bs[n], path);
    } else {
      assert bs[..i] == bs;
    }
  }

  lemma {:induction false} FirstMisfit(bs: seq<Budget>, n: nat) returns (i: nat)
    requires 0 < n < |bs| && !Fits(RestrictAll(bs[..n]), bs[n])
    ensures 0 < i <= n && !Fits(RestrictAll(bs[..i]), bs[i])
    ensures forall j | 0 < j < i :: Fits(RestrictAll(bs[..j]), bs[j])
  {
    if j :| 0 < j < n && !Fits(RestrictAll(bs[..j]), bs[j]) {
      i := FirstMisfit(bs, j);
    } else {
      i := n;
    }
  }

  /** Layers that contradict each other at a path have no common meaning there. */
  lemma {:induction false} Contradiction(bs: seq<Budget>, i: nat, path: seq<string>, x: Look, y: Look)
    requires i < |bs| && Combined(bs[..i], path, x) && Mixed(x, LookAt(bs[i], path))
    ensures !Combined(bs, path, y)
  {
    var cs, b := bs[..i], bs[i];
    assert b in bs && forall c <- cs :: c in bs;
    if x.Leaf? {
      var c :| c in cs && LookAt(c, path) == x;
      assert c in bs;
    } else {
      var c :| c in cs && LookAt(c, path).Inner?;
      assert c in bs;
    }
  }

  lemma MisfitAt(bs: seq<Budget>, i: nat)
    requires 0 < i < |bs| && AllClean(bs) && FitsAll(bs[..i]) && !Fits(RestrictAll(bs[..i]), bs[i])
    ensures !Faithful(bs)
  {
    var cs, b := bs[..i], bs[i];
    assert AllClean(cs) && Clean(b) by {
      forall c <- cs ensures Clean(c) { assert c in bs; }
      assert b in bs;
    }
    FittingLayers(cs);
    var path := Misfit(RestrictAll(cs), b);
    var x, y := LookAt(RestrictAll(cs), path), LookAt(RestrictAll(bs), path);
    if Mixed(x, LookAt(b, path)) {
      assert Combined(cs, path, x);
      Contradiction(bs, i, path, x, y);
    } else {
      assert bs[..i + 1][..i] == cs && bs[..i + 1][i] == b;
      JunkStaysInAll(bs, i + 1, path);
    }
    assert !Combined(bs, path, y);
  }

  lemma MisfittingLayers(bs: seq<Budget>)
    requires bs != [] && AllClean(bs) && !FitsAll(bs)
    ensures !Faithful(bs)
  {
    var n :| 0 < n < |bs| && !Fits(RestrictAll(bs[..n]), bs[n]);
    var i := FirstMisfit(bs, n);
    FitsPrefix(bs, i);
    MisfitAt(bs, i);
  }

  /** Merging is faithful exactly when each layer fits what it is merged into. */
  lemma LeafMinimum(bs: seq<Budget>)
    requires bs != [] && AllClean(bs)
    ensures Faithful(bs) <==> FitsAll(bs)
  {
    if FitsAll(bs) { FittingLayers(bs); } else { MisfittingLayers(bs); }
  }

  // ---------------------------------------------------------------- the layers alone

  predicate Sets(b: Budget, path: seq<string>) {
    !LookAt(b, path).Absent?
  }

  /** b sets a dimension below the path that has an inherited name and that a, which has a table there, lacks. */
  ghost predicate Hidden(a: Budget, b: Budget, path: seq<string>, k: string) {
    k in INHERITED && LookAt(a, path).Inner? && Sets(b, path + [k]) && !Sets(a, path + [k])
  }

  lemma {:induction false} LookBelow(b: Budget, path: seq<string>, k: string)
    requires Sets(b, path + [k])
    ensures LookAt(b, path).Inner?
    decreases |path|
  {
    if path == [] {
      assert ([] + [k])[0] == k;
    } else {
      assert (path + [k])[1..] == path[1..] + [k];
      LookBelow(b.entries[path[0]], path[1..], k);
    }
  }

  lemma {:induction false} LookDeeper(b: Budget, k: string, path: seq<string>)
    requires b.Table? && k in b.entries
    ensures LookAt(b, [k] + path) == LookAt(b.entries[k], path)
  {
    assert ([k] + path)[1..] == path;
  }

  lemma HiddenDeeper(a: Budget, b: Budget, k: string, path: seq<string>, j: string)
    requires a.Table? && b.Table? && k in a.entries && k in b.entries
    ensures Hidden(a, b, [k] + path, j) <==> Hidden(a.entries[k], b.entries[k], path, j)
  {
    LookDeeper(a, k, path);
    assert [k] + path + [j] == [k] + (path + [j]);
    LookDeeper(a, k, path + [j]);
    LookDeeper(b, k, path + [j]);
  }

  lemma SetsOne(b: Budget, k: string)
    ensures Sets(b, [] + [k]) <==> b.Table? && k in b.entries
  {
    assert [] + [k] == [k] && [k][0] == k && [k][1..] == [];
    if b.Table? && k in b.entries { assert LookAt(b, [k]) == LookAt(b.entries[k], []); }
  }

  /** Fitting, path by path. */
  lemma {:induction false} FitsAtEveryPath(a: Budget, b: Budget, path: seq<string>, k: string)
    requires Fits(a, b)
    ensures !Mixed(LookAt(a, path), LookAt(b, path)) && !Hidden(a, b, path, k)
    decreases |path|
  {
    if path == [] {
      SetsOne(a, k);
      SetsOne(b, k);
    } else if a.Table? && b.Table? && path[0] in a.entries && path[0] in b.entries {
      assert path == [path[0]] + path[1..];
      HiddenDeeper(a, b, path[0], path[1..], k);
      FitsAtEveryPath(a.entries[path[0]], b.entries[path[0]], path[1..], k);
    } else {
      assert (path + [k])[0] == path[0];
    }
  }

  lemma {:induction false} MisfitSomewhere(a: Budget, b: Budget) returns (path: seq<string>, k: string)
    requires Clean(a) && Clean(b) && !Fits(a, b)
    ensures Mixed(LookAt(a, path), LookAt(b, path)) || Hidden(a, b, path, k)
    decreases b
  {
    path, k := [], "";
    if a.Table? && b.Table? {
      var j :| j in b.entries && !(if j in a.entries then Fits(a.entries[j], b.entries[j]) else j !in INHERITED);
      if j in a.entries {
        var rest;
        rest, k := MisfitSomewhere(a.entries[j], b.entries[j]);
        path := [j] + rest;
        LookDeeper(a, j, rest);
        LookDeeper(b, j, rest);
        HiddenDeeper(a, b, j, rest, k);
      } else {
        k := j;
        SetsOne(a, k);
        SetsOne(b, k);
      }
    }
  }

  /** Layer i is the first one that has a table at the path. */
  ghost predicate FirstTable(bs: seq<Budget>, i: nat, path: seq<string>) {
    i < |bs| && LookAt(bs[i], path).Inner? && forall m | 0 <= m < i :: !LookAt(bs[m], path).Inner?
  }

  ghost predicate OneShape(bs: seq<Budget>) {
    forall i, j, path | 0 <= i < |bs| && 0 <= j < |bs| :: !Mixed(LookAt(bs[i], path), LookAt(bs[j], path))
  }

  /** At every path the first layer with a table there sets every inherited name that any later layer sets. */
  ghost predicate NothingHidden(bs: seq<Budget>) {
    forall i: nat, j: nat, path, k | FirstTable(bs, i, path) && i < j < |bs| :: !Hidden(bs[i], bs[j], path, k)
  }

  /** What the merge of a faithful list has at a path. */
  lemma {:induction false} MergedLook(bs: seq<Budget>, path: seq<string>)
    requires bs != [] && Faithful(bs)
    ensures Sets(RestrictAll(bs), path) <==> exists b <- bs :: Sets(b, path)
    ensures LookAt(RestrictAll(bs), path).Inner? ==> exists b <- bs :: LookAt(b, path).Inner?
    ensures LookAt(RestrictAll(bs), path).Leaf? ==> exists b <- bs :: LookAt(b, path).Leaf?
    ensures forall b <- bs :: !Mixed(LookAt(RestrictAll(bs), path), LookAt(b, path))
  {
    assert Combined(bs, path, LookAt(RestrictAll(bs), path));
  }

  lemma {:induction false} FirstTableExists(bs: seq<Budget>, n: nat, path: seq<string>) returns (i: nat)
    requires n < |bs| && LookAt(bs[n], path).Inner?
    ensures i <= n && FirstTable(bs, i, path)
  {
    if m :| 0 <= m < n && LookAt(bs[m], path).Inner? {
      i := FirstTableExists(bs, m, path);
    } else {
      i := n;
    }
  }

  lemma {:induction false} FirstSetter(bs: seq<Budget>, n: nat, path: seq<string>) returns (j: nat)
    requires n < |bs| && Sets(bs[n], path)
    ensures j <= n && Sets(bs[j], path) && forall m | 0 <= m < j :: !Sets(bs[m], path)
  {
    if m :| 0 <= m < n && Sets(bs[m], path) {
      j := FirstSetter(bs, m, path);
    } else {
      j := n;
    }
  }

  /** A prefix of fitting clean layers is faithful. */
  lemma PrefixFaithful(bs: seq<Budget>, i: nat)
    requires 0 < i <= |bs| && AllClean(bs) && forall m | 0 < m < i :: Fits(RestrictAll(bs[..m]), bs[m])
    ensures AllClean(bs[..i]) && Faithful(bs[..i]) && Clean(RestrictAll(bs[..i]))
  {
    forall b <- bs[..i] ensures Clean(b) { assert b in bs; }
    FitsPrefix(bs, i);
    FittingLayers(bs[..i]);
  }

  lemma FittingHasOneShape(bs: seq<Budget>)
    requires bs != [] && AllClean(bs) && FitsAll(bs)
    ensures OneShape(bs)
  {
    FittingLayers(bs);
    forall i, j, path | 0 <= i < |bs| && 0 <= j < |bs| ensures !Mixed(LookAt(bs[i], path), LookAt(bs[j], path)) {
      assert Combined(bs, path, LookAt(RestrictAll(bs), path));
      assert bs[i] in bs && bs[j] in bs;
    }
  }

  lemma FittingHidesNothing(bs: seq<Budget>, i: nat, n: nat, path: seq<string>, k: string)
    requires AllClean(bs) && FitsAll(bs) && FirstTable(bs, i, path) && i < n < |bs|
    ensures !Hidden(bs[i], bs[n], path, k)
  {
    if Hidden(bs[i], bs[n], path, k) {
      var p := path + [k];
      var j := FirstSetter(bs, n, p);
      LookBelow(bs[j], path, k);
      assert i < j;
      var cs := bs[..j];
      PrefixFaithful(bs, j);
      MergedLook(cs, p);
      MergedLook(cs, path);
      assert cs[i] == bs[i] && bs[i] in cs;
      forall b <- cs ensures !Sets(b, p) {
        var m :| 0 <= m < j && cs[m] == b;
        assert !Sets(bs[m], p);
      }
      assert LookAt(RestrictAll(cs), path).Inner? by {
        assert Sets(RestrictAll(cs), path);
        CleanLooks(RestrictAll(cs), path);
      }
      FitsAtEveryPath(RestrictAll(cs), bs[j], path, k);
      assert false;
    }
  }

  lemma {:induction false} MergedShape(bs: seq<Budget>, i: nat, path: seq<string>)
    requires 0 < i < |bs| && OneShape(bs) && Faithful(bs[..i])
    ensures !Mixed(LookAt(RestrictAll(bs[..i]), path), LookAt(bs[i], path))
  {
    var cs := bs[..i];
    var x := LookAt(RestrictAll(cs), path);
    MergedLook(cs, path);
    if x.Leaf? || x.Inner? {
      var b :| b in cs && (if x.Leaf? then LookAt(b, path).Leaf? else LookAt(b, path).Inner?);
      var m :| 0 <= m < i && cs[m] == b;
      assert !Mixed(LookAt(bs[m], path), LookAt(bs[i], path));
    }
  }

  lemma MergedHidesNothing(bs: seq<Budget>, i: nat, path: seq<string>, k: string)
    requires 0 < i < |bs| && NothingHidden(bs) && Faithful(bs[..i])
    ensures !Hidden(RestrictAll(bs[..i]), bs[i], path, k)
  {
    var cs := bs[..i];
    MergedLook(cs, path);
    MergedLook(cs, path + [k]);
    if LookAt(RestrictAll(cs), path).Inner? {
      var b :| b in cs && LookAt(b, path).Inner?;
      var m :| 0 <= m < i && cs[m] == b;
      var f := FirstTableExists(bs, m, path);
      assert !Hidden(bs[f], bs[i], path, k);
      assert cs[f] == bs[f] && bs[f] in cs;
    }
  }

  /** The next layer fits if the layers themselves are in order. */
  lemma NextFits(bs: seq<Budget>, i: nat)
    requires 0 < i < |bs| && AllClean(bs) && OneShape(bs) && NothingHidden(bs)
    requires forall m | 0 < m < i :: Fits(RestrictAll(bs[..m]), bs[m])
    ensures Fits(RestrictAll(bs[..i]), bs[i])
  {
    PrefixFaithful(bs, i);
    assert bs[i] in bs;
    if !Fits(RestrictAll(bs[..i]), bs[i]) {
      var path, k := MisfitSomewhere(RestrictAll(bs[..i]), bs[i]);
      MergedShape(bs, i, path);
      MergedHidesNothing(bs, i, path, k);
    }
  }

  lemma {:induction false} FitsUpTo(bs: seq<Budget>, n: nat)
    requires n <= |bs| && AllClean(bs) && OneShape(bs) && NothingHidden(bs)
    ensures forall m | 0 < m < n :: Fits(RestrictAll(bs[..m]), bs[m])
  {
    if n > 0 {
      FitsUpTo(bs, n - 1);
      if n > 1 { NextFits(bs, n - 1); }
    }
  }

  /** The same condition on the layers alone: they agree pairwise in shape wherever both set something, and at
      every path the first one with a table sets every inherited name that a later one sets. */
  lemma LeafMinimumOfLayers(bs: seq<Budget>)
    requires bs != [] && AllClean(bs)
    ensures Faithful(bs) <==> OneShape(bs) && NothingHidden(bs)
    ensures FitsAll(bs) <==> OneShape(bs) && NothingHidden(bs)
  {
    LeafMinimum(bs);
    if FitsAll(bs) {
      FittingHasOneShape(bs);
      forall i: nat, j: nat, path, k | FirstTable(bs, i, path) && i < j < |bs| ensures !Hidden(bs[i], bs[j], path, k) {
        FittingHidesNothing(bs, i, j, path, k);
      }
    } else if OneShape(bs) && NothingHidden(bs) {
      FitsUpTo(bs, |bs|);
    }
  }

  lemma {:induction false} AgreementFits(a: Budget, b: Budget)
    requires Agree(a, b)
    ensures Fits(a, b)
    decreases b
  {
    if b.Table? {
      forall k | k in b.entries && k in a.entries ensures Fits(a.entries[k], b.entries[k]) {
        AgreementFits(a.entries[k], b.entries[k]);
      }
    }
  }

  /** Layers that agree pairwise fit in any order. */
  lemma PairwiseAgreementFits(bs: seq<Budget>)
    requires AllAgree(bs)
    ensures FitsAll(bs)
  {
    forall i | 0 < i < |bs| ensures Fits(RestrictAll(bs[..i]), bs[i]) {
      RestrictAllAgrees(bs[..i], bs[i]);
      AgreementFits(RestrictAll(bs[..i]), bs[i]);
    }
  }

  lemma {:induction false} CombinedSnoc(cs: seq<Budget>, b: Budget, path: seq<string>, x: Look)
    requires Combined(cs, path, x)
    requires !(x.Leaf? && LookAt(b, path).Inner?) && !(x.Inner? && LookAt(b, path).Leaf?) && !LookAt(b, path).Junk?
    ensures Combined(cs + [b], path, Join(x, LookAt(b, path)))
  {
    var bs := cs + [b];
    assert b in bs;
    forall c <- cs ensures c in bs {}
    forall d <- bs ensures d in cs || d == b {}
  }

  lemma SameLayersSameMeaning(bs: seq<Budget>, cs: seq<Budget>, path: seq<string>, x: Look)
    requires (forall b :: b in bs <==> b in cs) && Combined(bs, path, x)
    ensures Combined(cs, path, x)
  {
  }

  /** Another order of the same layers, or repeating some, changes nothing exactly when they fit in that order
      too. */
  lemma {:induction false} BudgetOrderIrrelevant(bs: seq<Budget>, cs: seq<Budget>)
    requires bs != [] && cs != [] && AllClean(bs) && (forall b :: b in bs <==> b in cs) && FitsAll(bs)
    ensures RestrictAll(cs) == RestrictAll(bs) <==> FitsAll(cs)
  {
    LeafMinimum(bs);
    LeafMinimum(cs);
    if FitsAll(cs) {
      forall path ensures LookAt(RestrictAll(bs), path) == LookAt(RestrictAll(cs), path) {
        CombinedUnique(bs, cs, path, LookAt(RestrictAll(bs), path), LookAt(RestrictAll(cs), path));
      }
      LookExtensional(RestrictAll(bs), RestrictAll(cs));
    } else if RestrictAll(cs) == RestrictAll(bs) {
      forall path ensures Combined(cs, path, LookAt(RestrictAll(cs), path)) {
        SameLayersSameMeaning(bs, cs, path, LookAt(RestrictAll(bs), path));
      }
    }
  }

  lemma CombinedUnique(bs: seq<Budget>, cs: seq<Budget>, path: seq<string>, x: Look, y: Look)
    requires bs != [] && (forall b :: b in bs <==> b in cs)
    requires Combined(bs, path, x) && Combined(cs, path, y)
    ensures x == y
  {
    assert bs[0] in bs;
  }

  /** Two layers may be exchanged exactly when they agree. */
  lemma {:induction false} RestrictCommutes(a: Budget, b: Budget)
    requires Clean(a) && Clean(b)
    ensures Restrict(a, b) == Restrict(b, a) <==> Agree(a, b)
    decreases a
  {
    if a.Table? && b.Table? {
      forall k | k in a.entries && k in b.entries
        ensures Restrict(a.entries[k], b.entries[k]) == Restrict(b.entries[k], a.entries[k])
           <==> Agree(a.entries[k], b.entries[k])
      {
        RestrictCommutes(a.entries[k], b.entries[k]);
      }
      var ab, ba := Restrict(a, b), Restrict(b, a);
      assert ab == ba <==> ab.entries == ba.entries;
      if Agree(a, b) {
        assert ab.entries == ba.entries;
      } else if k :| k in INHERITED && !(k in a.entries <==> k in b.entries) {
        assert Clean(if k in a.entries then a.entries[k] else b.entries[k]);
        assert ab.entries[k] != ba.entries[k];
      } else {
        var k :| k in a.entries && k in b.entries && !Agree(a.entries[k], b.entries[k]);
        assert ab.entries[k] != ba.entries[k];
      }
    }
  }

  /** A new dimension with an inherited name is silently dropped by a later layer's table. */
  lemma InheritedDimensionIsLost(x: real)
    ensures var dimension := map["toString" := Limit(x)];
            LookAt(Restrict(Table(map[]), Table(dimension)), ["toString"]) == Junk
  {
    var r := Restrict(Table(map[]), Table(map["toString" := Limit(x)]));
    assert "toString" in r.entries && r.entries["toString"] == Foreign;
    assert LookAt(r, ["toString"]) == LookAt(Foreign, []);
  }
}
