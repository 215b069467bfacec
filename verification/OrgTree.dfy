/**
  The organization hierarchy (src/org/org-tree.service.ts, and createOrg in src/admin/admin.service.ts):
  upward and downward walks over a table of rows that name their parent.

  A table maps each row to its parentId. Walks are specified for every table, cyclic ones and ones with
  dangling parents included; the table does not change during a walk.
 */
module OrgTree {
  import opened Wrappers

  type Table = map<string, Option<string>>

  const MAX_DEPTH := 64

  datatype Fault = NotFound | Cycle | TooDeep | TooLarge

  /** The parent a walk goes on with: an empty identifier is as good as none. */
  function Parent(t: Table, id: string): (p: Option<string>) {
    if id in t && t[id].Some? && t[id].value != "" then t[id] else None
  }

  ghost predicate Distinct(c: seq<string>) {
    forall i, j | 0 <= i < j < |c| :: c[i] != c[j]
  }

  lemma DistinctSnoc(c: seq<string>, x: string)
    requires Distinct(c) && x !in c
    ensures Distinct(c + [x])
  {
    forall i, j | 0 <= i < j < |c + [x]| ensures (c + [x])[i] != (c + [x])[j] {
      if j == |c| { assert c[i] in c; }
    }
  }

  // ---------------------------------------------------------------- upward

  /** c starts at x and goes from row to parent, never visiting a row twice. */
  ghost predicate Climb(t: Table, x: string, c: seq<string>) {
    && Distinct(c)
    && (forall i | 0 <= i < |c| :: c[i] in t && c[i] != "")
    && (c != [] ==> c[0] == x)
    && (forall i | 0 <= i < |c| - 1 :: Parent(t, c[i]) == Some(c[i + 1]))
  }

  /** Where a climb goes next. */
  function Onward(t: Table, x: string, c: seq<string>): (id: Option<string>) {
    if c != [] then Parent(t, c[|c| - 1]) else if x == "" then None else Some(x)
  }

  /** The climb comes back to a row it has visited. */
  ghost predicate Closes(t: Table, x: string, c: seq<string>) {
    Climb(t, x, c) && |c| <= MAX_DEPTH && Onward(t, x, c).Some? && Onward(t, x, c).value in c
  }

  /** The climb would go on beyond 64 rows. */
  ghost predicate Overflows(t: Table, x: string, c: seq<string>) {
    Climb(t, x, c) && |c| == MAX_DEPTH && Onward(t, x, c).Some? && Onward(t, x, c).value !in c
  }

  /** The climb ends at a root or at a dangling parent. */
  ghost predicate Ends(t: Table, x: string, c: seq<string>) {
    && Climb(t, x, c) && |c| <= MAX_DEPTH
    && (Onward(t, x, c).None? || (Onward(t, x, c).value !in t && |c| < MAX_DEPTH))
  }

  /** Every climb that stops, for whatever reason, is the same one. */
  lemma OneStop(t: Table, x: string, c: seq<string>, d: seq<string>)
    requires Closes(t, x, c) || Overflows(t, x, c) || Ends(t, x, c)
    requires Closes(t, x, d) || Overflows(t, x, d) || Ends(t, x, d)
    ensures c == d
  {
    forall i | 0 <= i < |c| && i < |d| ensures c[i] == d[i] { ClimbsAgree(t, x, c, d, i); }
    if |c| < |d| {
      NotStopped(t, x, c, d);
    } else if |d| < |c| {
      NotStopped(t, x, d, c);
    }
  }

  lemma NotStopped(t: Table, x: string, c: seq<string>, d: seq<string>)
    requires Climb(t, x, c) && Climb(t, x, d) && c < d && |d| <= MAX_DEPTH
    ensures !Closes(t, x, c) && !Overflows(t, x, c) && !Ends(t, x, c)
  {
    assert Onward(t, x, c) == Some(d[|c|]);
    assert forall i | 0 <= i < |c| :: d[|c|] != d[i];
  }

  lemma Outcomes(t: Table, x: string, c: seq<string>)
    requires Closes(t, x, c) || Overflows(t, x, c) || Ends(t, x, c)
    ensures (exists d :: Closes(t, x, d)) <==> Closes(t, x, c)
    ensures (exists d :: Overflows(t, x, d)) <==> Overflows(t, x, c)
  {
    if d :| Closes(t, x, d) { OneStop(t, x, c, d); }
    if d :| Overflows(t, x, d) { OneStop(t, x, c, d); }
  }

  /** The chain is leaf-first, complete, free of duplicates and at most 64 rows long; each error is reported
      exactly in its own situation. */
  method Ancestors(t: Table, x: string) returns (r: Result<seq<string>, Fault>)
    ensures r.Ok? ==> Ends(t, x, r.value) && (r.value == [] <==> x == "")
    ensures r == Err(NotFound) <==> x != "" && x !in t
    ensures r == Err(Cycle) <==> exists c :: Closes(t, x, c)
    ensures r == Err(TooDeep) <==> exists c :: Overflows(t, x, c)
    ensures r != Err(TooLarge)
  {
    var chain: seq<string> := [];
    var seen: set<string> := {};
    var current := if x == "" then None else Some(x);
    while current.Some?
      invariant Climb(t, x, chain) && |chain| <= MAX_DEPTH
      invariant forall id :: id in seen <==> id in chain
      invariant current == Onward(t, x, chain)
      invariant chain != [] ==> x in t
      decreases MAX_DEPTH - |chain|, current.Some?
    {
      if current.value in seen {
        Outcomes(t, x, chain);
        return Err(Cycle);
      }
      if |chain| >= MAX_DEPTH {
        Outcomes(t, x, chain);
        return Err(TooDeep);
      }
      seen := seen + {current.value};
      if current.value !in t {
        Outcomes(t, x, chain);
        if |chain| == 0 { return Err(NotFound); }
        break;
      }
      DistinctSnoc(chain, current.value);
      chain := chain + [current.value];
      current := Parent(t, current.value);
    }
    Outcomes(t, x, chain);
    return Ok(chain);
  }

  /** There is one climb of each length: of two climbs from x one is a prefix of the other. */
  lemma {:induction false} ClimbsAgree(t: Table, x: string, c: seq<string>, d: seq<string>, i: nat)
    requires Climb(t, x, c) && Climb(t, x, d) && i < |c| && i < |d|
    ensures c[i] == d[i]
  {
    if i > 0 {
      ClimbsAgree(t, x, c, d, i - 1);
      assert Parent(t, c[i - 1]) == Some(c[i]) && Parent(t, d[i - 1]) == Some(d[i]);
    }
  }

  // ---------------------------------------------------------------- downward

  function Children(t: Table, id: string): (kids: set<string>) {
    set k | k in t && t[k] == Some(id)
  }

  /** From x the n-th row upward is r. */
  ghost predicate Reaches(t: Table, x: string, r: string, n: nat)
    decreases n
  {
    if n == 0 then x == r else x in t && t[x].Some? && Reaches(t, t[x].value, r, n - 1)
  }

  ghost predicate Under(t: Table, r: string, x: string) {
    exists n :: Reaches(t, x, r, n)
  }

  /** The list is breadth-first: the distances to the root never decrease along it. */
  ghost predicate BreadthFirst(t: Table, root: string, out: seq<string>, distances: seq<nat>) {
    && |distances| == |out|
    && (forall i | 0 <= i < |out| :: Reaches(t, out[i], root, distances[i]))
    && (forall i, j | 0 <= i < j < |out| :: distances[i] <= distances[j])
  }

  /** The rows of a set in some order, as a query without ordering returns them. */
  method Listed(s: set<string>) returns (l: seq<string>)
    ensures forall k :: k in l <==> k in s
    ensures Distinct(l)
  {
    l := [];
    var todo := s;
    while todo != {}
      invariant todo <= s && forall k :: k in l <==> k in s - todo
      invariant Distinct(l)
      decreases |todo|
    {
      var k :| k in todo;
      DistinctSnoc(l, k);
      l := l + [k];
      todo := todo - {k};
    }
  }

  /** The queue holds what is left to visit, in the order of distance. */
  ghost predicate Frontier(t: Table, root: string, out: seq<string>, ds: seq<nat>, queue: seq<string>, qs: seq<nat>) {
    && BreadthFirst(t, root, out + queue, ds + qs) && |ds| == |out|
    && (forall i | 0 <= i < |qs| && ds != [] :: qs[i] <= ds[|ds| - 1] + 1)
    && (ds == [] ==> queue == [root] && qs == [0])
  }

  /** What was visited is remembered without repetition, and only rows are visited. */
  ghost predicate Pending(t: Table, root: string, out: seq<string>, seen: set<string>, queue: seq<string>) {
    && Distinct(out) && (out != [] ==> out[0] == root)
    && (forall x :: x in seen <==> x in out)
    && (forall k | k in queue :: k in t || k == root)
    && seen <= t.Keys + {root}
  }

  method Enqueue(t: Table, root: string, out: seq<string>, ghost ds: seq<nat>, seen: set<string>, queue: seq<string>,
                 ghost qs: seq<nat>)
    returns (queue': seq<string>, ghost qs': seq<nat>)
    requires out != [] && Frontier(t, root, out, ds, queue, qs) && Closed(t, out[..|out| - 1], out, queue)
    requires Pending(t, root, out, seen, queue)
    ensures Frontier(t, root, out, ds, queue', qs') && Closed(t, out, out, queue')
    ensures Pending(t, root, out, seen, queue')
  {
    var id := out[|out| - 1];
    var kids := Listed(Children(t, id));
    queue', qs' := queue, qs;
    ghost var d := ds[|ds| - 1];
    for i := 0 to |kids|
      invariant Frontier(t, root, out, ds, queue', qs') && Pending(t, root, out, seen, queue')
      invariant forall k | k in queue :: k in queue'
      invariant forall k | k in kids[..i] :: k in seen || k in queue'
    {
      var k := kids[i];
      assert k in Children(t, id);
      if k !in seen {
        FrontierPush(t, root, out, ds, queue', qs', k);
        queue', qs' := queue' + [k], qs' + [d + 1];
      }
    }
    assert kids[..|kids|] == kids;
    ClosedVisit(t, out[..|out| - 1], id, queue, queue');
    assert out[..|out| - 1] + [id] == out;
  }

  lemma FrontierPush(t: Table, root: string, out: seq<string>, ds: seq<nat>, queue: seq<string>, qs: seq<nat>,
                     k: string)
    requires Frontier(t, root, out, ds, queue, qs) && out != [] && k in Children(t, out[|out| - 1])
    ensures Frontier(t, root, out, ds, queue + [k], qs + [ds[|ds| - 1] + 1])
  {
    var d := ds[|ds| - 1];
    var all, dist := out + queue, ds + qs;
    assert out + (queue + [k]) == all + [k] && ds + (qs + [d + 1]) == dist + [d + 1];
    assert all[|out| - 1] == out[|out| - 1] && dist[|out| - 1] == d;
    assert Reaches(t, all[|out| - 1], root, dist[|out| - 1]);
    assert Reaches(t, k, root, d + 1);
    forall i | 0 <= i < |dist| ensures dist[i] <= d + 1 {
      if i < |ds| { assert i < |ds| - 1 ==> dist[i] <= dist[|ds| - 1]; } else { assert dist[i] == qs[i - |ds|]; }
    }
  }

  lemma FrontierVisit(t: Table, root: string, out: seq<string>, ds: seq<nat>, queue: seq<string>, qs: seq<nat>)
    requires Frontier(t, root, out, ds, queue, qs) && queue != []
    ensures Frontier(t, root, out + [queue[0]], ds + [qs[0]], queue[1..], qs[1..])
  {
    assert out + [queue[0]] + queue[1..] == out + queue;
    assert ds + [qs[0]] + qs[1..] == ds + qs;
    if ds != [] {
      assert (ds + qs)[|ds| - 1] == ds[|ds| - 1] && (ds + qs)[|ds|] == qs[0];
      assert ds[|ds| - 1] <= qs[0];
    }
  }

  lemma FrontierSkip(t: Table, root: string, out: seq<string>, ds: seq<nat>, queue: seq<string>, qs: seq<nat>)
    requires Frontier(t, root, out, ds, queue, qs) && queue != [] && out != []
    ensures Frontier(t, root, out, ds, queue[1..], qs[1..])
  {
    var all, dist := out + queue, ds + qs;
    var all', dist' := out + queue[1..], ds + qs[1..];
    forall i | 0 <= i < |all'| ensures Reaches(t, all'[i], root, dist'[i]) {
      var j := if i < |out| then i else i + 1;
      assert all'[i] == all[j] && dist'[i] == dist[j];
    }
    forall i, j | 0 <= i < j < |all'| ensures dist'[i] <= dist'[j] {
      var i', j' := if i < |out| then i else i + 1, if j < |out| then j else j + 1;
      assert dist'[i] == dist[i'] && dist'[j] == dist[j'];
    }
  }

  /** Every child of a row in done has been visited or waits in the queue. */
  ghost predicate Closed(t: Table, done: seq<string>, out: seq<string>, queue: seq<string>) {
    forall x, k | x in done && k in Children(t, x) :: k in out || k in queue
  }

  lemma ClosedShift(t: Table, out: seq<string>, queue: seq<string>, out': seq<string>)
    requires Closed(t, out, out, queue) && queue != [] && queue[0] in out' && forall x <- out :: x in out'
    ensures Closed(t, out, out', queue[1..])
  {
    forall x, k | x in out && k in Children(t, x) ensures k in out' || k in queue[1..] {
      assert k in out || k in queue;
      assert queue == [queue[0]] + queue[1..];
    }
  }

  lemma ClosedVisit(t: Table, out: seq<string>, id: string, queue: seq<string>, queue': seq<string>)
    requires Closed(t, out, out + [id], queue) && forall k <- queue :: k in queue'
    requires forall k <- Children(t, id) :: k in out + [id] || k in queue'
    ensures Closed(t, out + [id], out + [id], queue')
  {
    forall x, k | x in out + [id] && k in Children(t, x) ensures k in out + [id] || k in queue' {
      if x != id { assert x in out; }
    }
  }

  /** Exactly the rows under the root, the root first and nearer rows before farther ones. */
  ghost predicate Subtree(t: Table, root: string, out: seq<string>) {
    && Distinct(out) && out != [] && out[0] == root
    && (forall x :: x in out <==> Under(t, root, x))
    && exists distances :: BreadthFirst(t, root, out, distances)
  }

  ghost predicate Oversized(t: Table, root: string) {
    exists out :: Distinct(out) && |out| > MAX_DEPTH * MAX_DEPTH && forall x <- out :: Under(t, root, x)
  }

  /** The subtree, or an error only if it has more than 4096 rows. It ends on every table. */
  method Descendants(t: Table, root: string) returns (r: Result<seq<string>, Fault>)
    ensures r.Ok? ==> Subtree(t, root, r.value) && |r.value| <= MAX_DEPTH * MAX_DEPTH
    ensures r.Err? ==> r == Err(TooLarge) && Oversized(t, root)
  {
    var out: seq<string>, seen: set<string>, queue := [], {}, [root];
    ghost var ds: seq<nat>, qs: seq<nat> := [], [0];
    while queue != []
      invariant Frontier(t, root, out, ds, queue, qs) && Closed(t, out, out, queue)
      invariant Pending(t, root, out, seen, queue)
      invariant |out| <= MAX_DEPTH * MAX_DEPTH
      decreases |t.Keys + {root} - seen|, |queue|
    {
      var id := queue[0];
      if id in seen {
        FrontierSkip(t, root, out, ds, queue, qs);
        ClosedShift(t, out, queue, out);
        queue, qs := queue[1..], qs[1..];
        continue;
      }
      Visit(t, root, out, ds, seen, queue, qs);
      out, ds, queue, qs := out + [id], ds + [qs[0]], queue[1..], qs[1..];
      seen := seen + {id};
      if |out| > MAX_DEPTH * MAX_DEPTH {
        WalkedTooMany(t, root, out, ds, queue, qs);
        return Err(TooLarge);
      }
      queue, qs := Enqueue(t, root, out, ds, seen, queue, qs);
    }
    WalkedAll(t, root, out, ds, queue, qs);
    return Ok(out);
  }

  lemma Visit(t: Table, root: string, out: seq<string>, ds: seq<nat>, seen: set<string>, queue: seq<string>,
              qs: seq<nat>)
    requires Frontier(t, root, out, ds, queue, qs) && Closed(t, out, out, queue) && Pending(t, root, out, seen, queue)
    requires queue != [] && queue[0] !in seen
    ensures Frontier(t, root, out + [queue[0]], ds + [qs[0]], queue[1..], qs[1..])
    ensures Closed(t, (out + [queue[0]])[..|out|], out + [queue[0]], queue[1..])
    ensures Pending(t, root, out + [queue[0]], seen + {queue[0]}, queue[1..])
    ensures |t.Keys + {root} - (seen + {queue[0]})| < |t.Keys + {root} - seen|
  {
    var id := queue[0];
    FrontierVisit(t, root, out, ds, queue, qs);
    DistinctSnoc(out, id);
    ClosedShift(t, out, queue, out + [id]);
    assert (out + [id])[..|out|] == out;
    assert t.Keys + {root} - (seen + {id}) == (t.Keys + {root} - seen) - {id};
  }

  lemma WalkedTooMany(t: Table, root: string, out: seq<string>, ds: seq<nat>, queue: seq<string>, qs: seq<nat>)
    requires Frontier(t, root, out, ds, queue, qs) && Distinct(out) && |out| > MAX_DEPTH * MAX_DEPTH
    ensures Oversized(t, root)
  {
    VisitedUnder(t, root, out, ds, queue, qs);
  }

  lemma WalkedAll(t: Table, root: string, out: seq<string>, ds: seq<nat>, queue: seq<string>, qs: seq<nat>)
    requires Frontier(t, root, out, ds, queue, qs) && queue == [] && Closed(t, out, out, queue)
    requires Distinct(out) && (out != [] ==> out[0] == root)
    ensures Subtree(t, root, out)
  {
    assert out + queue == out && ds + qs == ds;
    VisitedUnder(t, root, out, ds, queue, qs);
    forall x | Under(t, root, x) ensures x in out {
      var n :| Reaches(t, x, root, n);
      ClosedUnder(t, root, out, x, n);
    }
  }

  lemma VisitedUnder(t: Table, root: string, out: seq<string>, ds: seq<nat>, queue: seq<string>, qs: seq<nat>)
    requires Frontier(t, root, out, ds, queue, qs)
    ensures forall x <- out :: Under(t, root, x)
  {
    forall x <- out ensures Under(t, root, x) {
      var i :| 0 <= i < |out| && out[i] == x;
      assert (out + queue)[i] == x && Reaches(t, (out + queue)[i], root, (ds + qs)[i]);
    }
  }

  lemma {:induction false} ClosedUnder(t: Table, root: string, out: seq<string>, x: string, n: nat)
    requires root in out && Closed(t, out, out, [])
    requires Reaches(t, x, root, n)
    ensures x in out
    decreases n
  {
    if n > 0 {
      ClosedUnder(t, root, out, t[x].value, n - 1);
      assert x in Children(t, t[x].value);
    }
  }

  // ---------------------------------------------------------------- the walks agree

  lemma {:induction false} ClimbReaches(t: Table, x: string, c: seq<string>, i: nat, k: nat)
    requires Climb(t, x, c) && k <= i < |c|
    ensures Reaches(t, c[i - k], c[i], k)
  {
    if k > 0 {
      ClimbReaches(t, x, c, i, k - 1);
      assert Parent(t, c[i - k]) == Some(c[i - k + 1]);
    }
  }

  lemma {:induction false} CompleteClimbHits(t: Table, x: string, c: seq<string>, i: nat, r: string, n: nat)
    requires Ends(t, x, c) && i < |c| && r in t
    requires Reaches(t, c[i], r, n) && forall m | 0 <= m <= n :: !Reaches(t, c[i], "", m)
    ensures r in c
    decreases n
  {
    if n > 0 {
      var y := t[c[i]].value;
      assert y in t;
      forall m | 0 <= m <= n - 1 ensures !Reaches(t, y, "", m) { assert !Reaches(t, c[i], "", m + 1); }
      assert !Reaches(t, y, "", 0);
      assert Parent(t, c[i]) == Some(y);
      if i < |c| - 1 { CompleteClimbHits(t, x, c, i + 1, r, n - 1); }
    }
  }

  lemma {:induction false} OneRowPerDistance(t: Table, x: string, r: string, r': string, n: nat)
    requires Reaches(t, x, r, n) && Reaches(t, x, r', n)
    ensures r == r'
    decreases n
  {
    if n > 0 { OneRowPerDistance(t, t[x].value, r, r', n - 1); }
  }

  /** On the way up from x the row with the empty identifier comes no later than r. The upward walk stops
      there, because an empty identifier reads as no parent; the downward walk passes it. */
  ghost predicate Severed(t: Table, x: string, r: string) {
    exists n: nat :: Reaches(t, x, "", n) && forall m | 0 <= m < n :: !Reaches(t, x, r, m)
  }

  lemma AncestorIsReached(t: Table, x: string, c: seq<string>, r: string)
    requires Ends(t, x, c) && r in c
    ensures Under(t, r, x) && !Severed(t, x, r)
  {
    var i :| 0 <= i < |c| && c[i] == r;
    ClimbReaches(t, x, c, i, i);
    forall n: nat | Reaches(t, x, "", n) ensures exists m :: 0 <= m < n && Reaches(t, x, r, m) {
      if n <= i {
        ClimbReaches(t, x, c, n, n);
        OneRowPerDistance(t, x, c[n], "", n);
      }
    }
  }

  lemma {:induction false} LeastDistance(t: Table, x: string, r: string, n: nat) returns (k: nat)
    requires Reaches(t, x, r, n)
    ensures Reaches(t, x, r, k) && forall m | 0 <= m < k :: !Reaches(t, x, r, m)
  {
    if m :| 0 <= m < n && Reaches(t, x, r, m) {
      k := LeastDistance(t, x, r, m);
    } else {
      k := n;
    }
  }

  lemma ReachedIsAncestor(t: Table, x: string, c: seq<string>, r: string)
    requires Ends(t, x, c) && x in t && r in t && (c == [] <==> x == "")
    requires Under(t, r, x) && !Severed(t, x, r)
    ensures r in c
  {
    var n: nat :| Reaches(t, x, r, n);
    n := LeastDistance(t, x, r, n);
    forall m | 0 <= m <= n ensures !Reaches(t, x, "", m) {}
    assert !Reaches(t, x, "", 0);
    CompleteClimbHits(t, x, c, 0, r, n);
  }

  lemma NoEmptyRowNoCut(t: Table, x: string, r: string)
    requires "" !in t && x in t && r in t && Under(t, r, x)
    ensures !Severed(t, x, r)
  {
    var k: nat :| Reaches(t, x, r, k);
    forall n: nat | Reaches(t, x, "", n) ensures exists m :: 0 <= m < n && Reaches(t, x, r, m) {
      if n <= k { PassesThrough(t, x, "", n, r, k); }
      assert k < n && Reaches(t, x, r, k);
    }
  }

  /** The row at distance n lies on the way to the row at distance k, so it is a row of the table. */
  lemma {:induction false} PassesThrough(t: Table, x: string, y: string, n: nat, r: string, k: nat)
    requires Reaches(t, x, y, n) && Reaches(t, x, r, k) && n <= k && r in t
    ensures y in t
    decreases n
  {
    if n > 0 { PassesThrough(t, t[x].value, y, n - 1, r, k - 1); }
  }

  /** Whenever both walks return, r is an ancestor of x exactly when x is a descendant of r whom no empty
      identifier cuts off. Identifiers are generated, and without an empty one the walks simply agree. */
  method WalksAgree(t: Table, r: string, x: string)
    returns (up: Result<seq<string>, Fault>, down: Result<seq<string>, Fault>)
    requires r in t && x in t
    ensures up.Ok? && down.Ok? ==>
      ((r in up.value <==> x in down.value) <==> !(x in down.value && Severed(t, x, r)))
    ensures up.Ok? && down.Ok? && "" !in t ==> (r in up.value <==> x in down.value)
  {
    up := Ancestors(t, x);
    down := Descendants(t, r);
    if up.Ok? && down.Ok? {
      var c := up.value;
      if r in c { AncestorIsReached(t, x, c, r); }
      if Under(t, r, x) && !Severed(t, x, r) { ReachedIsAncestor(t, x, c, r); }
      if "" !in t && Under(t, r, x) { NoEmptyRowNoCut(t, x, r); }
    }
  }

  const CUT := map["x" := Some(""), "" := Some("r"), "r" := None]

  /** x lies under r by way of the empty identifier: the downward walk finds it, the upward walk stops at x. */
  lemma WalksDisagree()
    ensures Under(CUT, "r", "x") && Severed(CUT, "x", "r") && Ends(CUT, "x", ["x"])
  {
    assert Reaches(CUT, "r", "r", 0) && Reaches(CUT, "", "r", 1) && Reaches(CUT, "x", "r", 2);
    assert Reaches(CUT, "", "", 0) && Reaches(CUT, "x", "", 1) && !Reaches(CUT, "x", "r", 0);
  }

  // ---------------------------------------------------------------- tables built by createOrg

  /** A request to create a unit. Its identifier is drawn when it is created; `allowed` is the outcome of
      the name and access checks. */
  datatype Creation = Creation(id: string, parent: Option<string>, allowed: bool)

  function CreateOrg(t: Table, c: Creation): (t': Table) {
    if !c.allowed || c.id in t || c.id == "" then t
    else if c.parent.Some? && c.parent.value !in t then t
    else t[c.id := c.parent]
  }

  function Build(cs: seq<Creation>): (t: Table) {
    if cs == [] then map[] else CreateOrg(Build(cs[..|cs| - 1]), cs[|cs| - 1])
  }

  /** Creation order: every parent is older than its children. */
  ghost predicate Ordered(t: Table, age: map<string, nat>) {
    && age.Keys == t.Keys
    && forall id <- t :: t[id].Some? ==> t[id].value in t && age[t[id].value] < age[id]
  }

  lemma {:induction false} BuiltIsOrdered(cs: seq<Creation>) returns (age: map<string, nat>)
    ensures Ordered(Build(cs), age) && "" !in Build(cs)
    ensures forall id <- age :: age[id] < |cs|
  {
    if cs == [] {
      age := map[];
    } else {
      var n := |cs| - 1;
      age := BuiltIsOrdered(cs[..n]);
      if Build(cs) != Build(cs[..n]) { age := age[cs[n].id := n]; }
    }
  }

  lemma {:induction false} ClimbAges(t: Table, age: map<string, nat>, x: string, c: seq<string>, i: nat, j: nat)
    requires Ordered(t, age) && Climb(t, x, c) && i < j < |c|
    ensures age[c[j]] < age[c[i]]
  {
    assert Parent(t, c[j - 1]) == Some(c[j]);
    if i < j - 1 { ClimbAges(t, age, x, c, i, j - 1); }
  }

  lemma NoClimbCloses(t: Table, age: map<string, nat>, x: string, c: seq<string>)
    requires Ordered(t, age) && "" !in t && Climb(t, x, c) && c != [] && Onward(t, x, c).Some?
    ensures Onward(t, x, c).value in t && Onward(t, x, c).value !in c
  {
    var y := Onward(t, x, c).value;
    if y in c {
      var i :| 0 <= i < |c| && c[i] == y;
      if i < |c| - 1 { ClimbAges(t, age, x, c, i, |c| - 1); }
    }
  }

  /** On a table built by any sequence of creations the upward walk never reports a cycle and never stops at
      a dangling parent: it returns the whole chain up to a root, or reports that there are more than 64. */
  method BuiltTablesHaveNoCycle(cs: seq<Creation>, x: string) returns (r: Result<seq<string>, Fault>)
    ensures r != Err(Cycle)
    ensures r.Ok? && x != "" ==>
      r.value != [] && Ends(Build(cs), x, r.value) && Build(cs)[r.value[|r.value| - 1]].None?
    ensures r.Err? && x in Build(cs) ==> r == Err(TooDeep)
  {
    var t := Build(cs);
    ghost var age := BuiltIsOrdered(cs);
    r := Ancestors(t, x);
    forall c | Climb(t, x, c) && c != [] && Onward(t, x, c).Some?
      ensures Onward(t, x, c).value in t && Onward(t, x, c).value !in c
    {
      NoClimbCloses(t, age, x, c);
    }
    assert !exists c :: Closes(t, x, c);
    if r.Ok? && x != "" {
      var last := r.value[|r.value| - 1];
      assert Onward(t, x, r.value) == Parent(t, last) && last in t;
    }
    FaultCases(r);
  }

  function Name(i: nat): (id: string)
    ensures |id| == i + 1
  {
    seq(i + 1, _ => 'u')
  }

  /** Create a root, then each unit below the one before it. */
  function Nested(n: nat): (cs: seq<Creation>) {
    seq(n, i requires 0 <= i < n => Creation(Name(i), if i == 0 then None else Some(Name(i - 1)), true))
  }

  predicate HasUnit(t: Table, i: nat) {
    Name(i) in t && t[Name(i)] == if i == 0 then None else Some(Name(i - 1))
  }

  lemma {:induction false} NestedTable(n: nat)
    ensures forall id <- Build(Nested(n)) :: |id| <= n
    ensures forall i: nat | i < n :: HasUnit(Build(Nested(n)), i)
  {
    if n > 0 {
      var t, c := Build(Nested(n - 1)), Nested(n)[n - 1];
      assert Nested(n)[..n - 1] == Nested(n - 1);
      NestedTable(n - 1);
      if n > 1 { assert HasUnit(t, n - 2); }
      assert |c.id| == n && c.id !in t;
      assert Build(Nested(n)) == t[c.id := c.parent];
      forall i: nat | i < n ensures HasUnit(Build(Nested(n)), i) {
        if i < n - 1 { assert HasUnit(t, i) && |Name(i)| < n; }
      }
    }
  }

  /** createOrg accepts 65 nested units, and the upward walk from the innermost one is too deep. */
  method TooDeepTree() returns (r: Result<seq<string>, Fault>)
    ensures r == Err(TooDeep) && Name(64) in Build(Nested(65))
  {
    var t := Build(Nested(65));
    NestedTable(65);
    r := Ancestors(t, Name(64));
    ghost var c := seq(MAX_DEPTH, i requires 0 <= i < MAX_DEPTH => Name(64 - i));
    forall i | 0 <= i < MAX_DEPTH ensures c[i] in t && |c[i]| == 65 - i && Parent(t, c[i]) == Some(Name(63 - i)) {
      assert HasUnit(t, 64 - i);
    }
    assert Onward(t, Name(64), c) == Some(Name(0)) && |Name(0)| == 1;
    assert Overflows(t, Name(64), c);
  }

  lemma FaultCases(r: Result<seq<string>, Fault>)
    ensures r.Ok? || r == Err(NotFound) || r == Err(Cycle) || r == Err(TooDeep) || r == Err(TooLarge)
  {
    if r.Err? {
      match r.error
      case NotFound =>
      case Cycle =>
      case TooDeep =>
      case TooLarge =>
    }
  }
}
