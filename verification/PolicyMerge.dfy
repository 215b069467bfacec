/**
  Governance policies (src/roles/roles.service.ts): normalizePolicy and mergePolicy.

  Inside the merge the lists of a normalized policy are sets, for an omitted deny list and an empty one act
  the same; the policy that mergePolicy returns has sorted lists and omits empty deny lists.
 */
module PolicyMerge {
  import opened Wrappers
  import opened Characters
  import opened PolicyBudget

  /** Stored policies are untrusted JSON. */
  datatype Json =
    | Null
    | Bool(b: bool)
    | Num(n: real)
    | Str(s: string)
    | Arr(items: seq<Json>)
    | Obj(fields: map<string, Json>)

  datatype Policy = Policy(modelDeny: set<string>, toolDeny: set<string>, modelAllow: Option<set<string>>,
                           requireApproval: bool, allowPersonal: Option<bool>, budget: Option<Budget>)

  const NEUTRAL := Policy({}, {}, None, false, None, None)

  datatype Fault = NotAnObject | UnsupportedField | ApprovalNotBoolean | PersonalNotBoolean
                 | BadModelDeny | BadModelAllow | BadToolDeny | BadBudget

  const SUPPORTED := {"modelAllow", "modelDeny", "toolDeny", "requireApprovalForWrites",
                      "allowPersonalModelConnections", "budget"}

  // ---------------------------------------------------------------- normalization

  predicate GoodEntry(j: Json) {
    j.Str? && Trim(j.s) != [] && Units(j.s) <= 256 && forall c <- j.s :: !IsControl(c)
  }

  predicate GoodList(j: Json) {
    j.Arr? && |j.items| <= 128 && forall e <- j.items :: GoodEntry(e)
  }

  function Names(j: Json): (ns: set<string>)
    requires GoodList(j)
  {
    set i | 0 <= i < |j.items| :: assert GoodEntry(j.items[i]); Trim(j.items[i].s)
  }

  predicate Alphanumeric(c: char) {
    'A' <= c <= 'Z' || 'a' <= c <= 'z' || '0' <= c <= '9'
  }

  predicate GoodDimension(k: string) {
    1 <= |k| <= 64 && Alphanumeric(k[0]) && forall c <- k[1..] :: Alphanumeric(c) || c in "._-"
  }

  predicate GoodBudget(j: Json, depth: nat) {
    match j
    case Num(n) => n >= 0.0
    case Obj(fs) => depth < 4 && |fs| <= 32 && forall k | k in fs :: GoodDimension(k) && GoodBudget(fs[k], depth + 1)
    case _ => false
  }

  function ToBudget(j: Json, depth: nat): (b: Budget)
    requires GoodBudget(j, depth)
    ensures Clean(b)
  {
    match j
    case Num(n) => Limit(n)
    case Obj(fs) => Table(map k | k in fs :: ToBudget(fs[k], depth + 1))
  }

  function Flag(fs: map<string, Json>, k: string): (b: Option<bool>) {
    if k in fs && fs[k].Bool? then Some(fs[k].b) else None
  }

  function ListFault(fs: map<string, Json>, k: string): (bad: bool) {
    k in fs && !GoodList(fs[k])
  }

  function List(fs: map<string, Json>, k: string): (ns: Option<set<string>>)
    requires !ListFault(fs, k)
  {
    if k in fs then Some(Names(fs[k])) else None
  }

  function Or(ns: Option<set<string>>): (s: set<string>) {
    if ns.Some? then ns.value else {}
  }

  function Normalize(j: Json): (r: Result<Policy, Fault>)
    ensures r.Ok? && r.value.budget.Some? ==> Clean(r.value.budget.value)
  {
    if !j.Obj? then Err(NotAnObject)
    else
      var fs := j.fields;
      if !(fs.Keys <= SUPPORTED) then Err(UnsupportedField)
      else if "requireApprovalForWrites" in fs && !fs["requireApprovalForWrites"].Bool? then Err(ApprovalNotBoolean)
      else if "allowPersonalModelConnections" in fs && !fs["allowPersonalModelConnections"].Bool? then
        Err(PersonalNotBoolean)
      else if ListFault(fs, "modelDeny") then Err(BadModelDeny)
      else if ListFault(fs, "modelAllow") then Err(BadModelAllow)
      else if ListFault(fs, "toolDeny") then Err(BadToolDeny)
      else if "budget" in fs && !GoodBudget(fs["budget"], 0) then Err(BadBudget)
      else Ok(Policy(Or(List(fs, "modelDeny")), Or(List(fs, "toolDeny")), List(fs, "modelAllow"),
                     Flag(fs, "requireApprovalForWrites") == Some(true), Flag(fs, "allowPersonalModelConnections"),
                     if "budget" in fs then Some(ToBudget(fs["budget"], 0)) else None))
  }

  /** Every name that survives normalization is trimmed, visible, short, and its own normal form. */
  lemma {:induction false} NamesAreClean(j: Json, n: string)
    requires GoodList(j) && n in Names(j)
    ensures n != [] && Units(n) <= 256 && !IsSpace(n[0]) && !IsSpace(n[|n| - 1]) && Trim(n) == n
    ensures forall c <- n :: !IsControl(c)
    ensures GoodEntry(Str(n))
  {
    assert forall i | 0 <= i < |j.items| :: GoodEntry(j.items[i]);
    var i :| 0 <= i < |j.items| && GoodEntry(j.items[i]) && n == Trim(j.items[i].s);
    TrimFacts(j.items[i].s);
    TrimUnits(j.items[i].s);
  }

  // ---------------------------------------------------------------- what a layer says

  predicate HasList(l: Option<Json>, key: string) {
    l.Some? && l.value.Obj? && key in l.value.fields && l.value.fields[key].Arr?
  }

  /** The layer's list under `key` has a string that trims to x. */
  predicate Mentions(l: Option<Json>, key: string, x: string) {
    HasList(l, key) &&
    var items := l.value.fields[key].items;
    exists i | 0 <= i < |items| :: items[i].Str? && Trim(items[i].s) == x
  }

  predicate Says(l: Option<Json>, key: string, b: bool) {
    l.Some? && l.value.Obj? && key in l.value.fields && l.value.fields[key] == Bool(b)
  }

  predicate HasBudget(l: Option<Json>) {
    l.Some? && l.value.Obj? && "budget" in l.value.fields
  }

  /** The number or the table that JSON has at a path of dimensions. */
  function Look(j: Json, path: seq<string>): (l: PolicyBudget.Look)
    decreases |path|
  {
    if path == [] then (match j case Num(n) => Leaf(n) case Obj(_) => Inner case _ => Junk)
    else if j.Obj? && path[0] in j.fields then Look(j.fields[path[0]], path[1..])
    else Absent
  }

  /** A layer that may take part, said from its fields. */
  predicate WellFormed(j: Json) {
    && j.Obj?
    && (forall k | k in j.fields :: k in SUPPORTED)
    && (forall k | k in j.fields && k in ["requireApprovalForWrites", "allowPersonalModelConnections"] ::
          j.fields[k].Bool?)
    && (forall k | k in j.fields && k in ["modelDeny", "modelAllow", "toolDeny"] :: GoodList(j.fields[k]))
    && ("budget" in j.fields ==> GoodBudget(j.fields["budget"], 0))
  }

  predicate Has(j: Json, key: string) {
    j.Obj? && key in j.fields
  }

  /** The fault names something that is wrong with the layer. */
  predicate Blames(j: Json, e: Fault) {
    if e.NotAnObject? then !j.Obj?
    else
      && j.Obj?
      && match e
         case UnsupportedField => exists k | k in j.fields :: k !in SUPPORTED
         case ApprovalNotBoolean => Has(j, "requireApprovalForWrites") && !j.fields["requireApprovalForWrites"].Bool?
         case PersonalNotBoolean =>
           Has(j, "allowPersonalModelConnections") && !j.fields["allowPersonalModelConnections"].Bool?
         case BadModelDeny => Has(j, "modelDeny") && !GoodList(j.fields["modelDeny"])
         case BadModelAllow => Has(j, "modelAllow") && !GoodList(j.fields["modelAllow"])
         case BadToolDeny => Has(j, "toolDeny") && !GoodList(j.fields["toolDeny"])
         case BadBudget => Has(j, "budget") && !GoodBudget(j.fields["budget"], 0)
  }

  lemma {:induction false} BudgetReads(j: Json, depth: nat, path: seq<string>)
    requires GoodBudget(j, depth)
    ensures LookAt(ToBudget(j, depth), path) == Look(j, path)
    decreases |path|
  {
    if path != [] && j.Obj? && path[0] in j.fields { BudgetReads(j.fields[path[0]], depth + 1, path[1..]); }
  }

  lemma NormalizedList(j: Json, key: string, x: string)
    requires j.Obj? && !ListFault(j.fields, key)
    ensures List(j.fields, key).Some? <==> HasList(Some(j), key)
    ensures x in Or(List(j.fields, key)) <==> Mentions(Some(j), key, x)
  {
    if key in j.fields {
      var items := j.fields[key].items;
      forall i | 0 <= i < |items| ensures GoodEntry(items[i]) { assert items[i] in items; }
      if Mentions(Some(j), key, x) {
        var i :| 0 <= i < |items| && items[i].Str? && Trim(items[i].s) == x;
        assert GoodEntry(items[i]);
      }
    }
  }

  /** Normalizing succeeds on well-formed layers only, and the policy says what the layer says. */
  lemma {:induction false} NormalizeReads(j: Json, x: string, path: seq<string>)
    ensures Normalize(j).Ok? <==> WellFormed(j)
    ensures Normalize(j).Err? ==> Blames(j, Normalize(j).error)
    ensures Normalize(j).Ok? ==>
              var p, l := Normalize(j).value, Some(j);
              && (x in p.modelDeny <==> Mentions(l, "modelDeny", x))
              && (x in p.toolDeny <==> Mentions(l, "toolDeny", x))
              && (p.modelAllow.Some? <==> HasList(l, "modelAllow"))
              && (p.modelAllow.Some? ==> (x in p.modelAllow.value <==> Mentions(l, "modelAllow", x)))
              && (p.requireApproval <==> Says(l, "requireApprovalForWrites", true))
              && (p.allowPersonal == Some(true) <==> Says(l, "allowPersonalModelConnections", true))
              && (p.allowPersonal == Some(false) <==> Says(l, "allowPersonalModelConnections", false))
              && (p.budget.Some? <==> HasBudget(l))
              && (p.budget.Some? ==> LookAt(p.budget.value, path) == Look(j.fields["budget"], path))
  {
    if j.Obj? {
      assert j.fields.Keys <= SUPPORTED <==> forall k | k in j.fields :: k in SUPPORTED;
      if Normalize(j).Ok? {
        NormalizedList(j, "modelDeny", x);
        NormalizedList(j, "toolDeny", x);
        NormalizedList(j, "modelAllow", x);
        if HasBudget(Some(j)) { BudgetReads(j.fields["budget"], 0, path); }
      }
    }
  }

  // ---------------------------------------------------------------- merging

  function Narrow(a: Option<set<string>>, b: Option<set<string>>): (c: Option<set<string>>) {
    if b.None? then a else if a.None? then b else Some(a.value * b.value)
  }

  function Both(a: Option<bool>, b: Option<bool>): (c: Option<bool>) {
    if b.None? then a else if a.None? then b else Some(a.value && b.value)
  }

  /** One more layer. */
  function Add(m: Policy, p: Policy): (q: Policy) {
    Policy(m.modelDeny + p.modelDeny, m.toolDeny + p.toolDeny, Narrow(m.modelAllow, p.modelAllow),
           m.requireApproval || p.requireApproval, Both(m.allowPersonal, p.allowPersonal),
           RestrictBoth(m.budget, p.budget))
  }

  /** Layers added to m in order. */
  function AddAll(m: Policy, ps: seq<Policy>): (q: Policy) {
    if ps == [] then m else Add(AddAll(m, ps[..|ps| - 1]), ps[|ps| - 1])
  }

  function Merge(ps: seq<Policy>): (q: Policy) {
    AddAll(NEUTRAL, ps)
  }

  predicate Falsy(j: Json) {
    j == Null || j == Bool(false) || j == Num(0.0) || j == Str("")
  }

  /** The layers that take part: the ones given, present and truthy. */
  function Present(layers: seq<Option<Json>>): (js: seq<Json>) {
    if layers == [] then []
    else
      var last := layers[|layers| - 1];
      Present(layers[..|layers| - 1]) + (if last.None? || Falsy(last.value) then [] else [last.value])
  }

  predicate AllValid(js: seq<Json>) {
    forall j <- js :: Normalize(j).Ok?
  }

  function Normalized(js: seq<Json>): (ps: seq<Policy>)
    requires AllValid(js)
    ensures |ps| == |js| && forall i | 0 <= i < |js| :: Ok(ps[i]) == Normalize(js[i])
  {
    seq(|js|, i requires 0 <= i < |js| => assert js[i] in js; Normalize(js[i]).value)
  }

  /** What mergePolicy returns. */
  datatype Output = Output(modelDeny: Option<seq<string>>, toolDeny: Option<seq<string>>,
                           modelAllow: Option<seq<string>>, requireApproval: bool, allowPersonal: Option<bool>,
                           budget: Option<Budget>)

  ghost predicate RendersDeny(l: Option<seq<string>>, names: set<string>) {
    if names == {} then l.None? else l.Some? && Lists(l.value, names)
  }

  ghost predicate Renders(o: Output, p: Policy) {
    && RendersDeny(o.modelDeny, p.modelDeny) && RendersDeny(o.toolDeny, p.toolDeny)
    && (if p.modelAllow.None? then o.modelAllow.None?
        else o.modelAllow.Some? && Lists(o.modelAllow.value, p.modelAllow.value))
    && o.requireApproval == p.requireApproval && o.allowPersonal == p.allowPersonal && o.budget == p.budget
  }

  /** A merged policy is written down in one way only. */
  lemma OneRendering(o: Output, o': Output, p: Policy)
    requires Renders(o, p) && Renders(o', p)
    ensures o == o'
  {
    if p.modelDeny != {} { OneList(o.modelDeny.value, o'.modelDeny.value, p.modelDeny); }
    if p.toolDeny != {} { OneList(o.toolDeny.value, o'.toolDeny.value, p.toolDeny); }
    if p.modelAllow.Some? { OneList(o.modelAllow.value, o'.modelAllow.value, p.modelAllow.value); }
  }

  method RenderDeny(names: set<string>) returns (l: Option<seq<string>>)
    ensures RendersDeny(l, names)
  {
    if names == {} { return None; }
    var list := ListOf(names);
    return Some(list);
  }

  method Render(p: Policy) returns (o: Output)
    ensures Renders(o, p)
  {
    var modelDeny := RenderDeny(p.modelDeny);
    var toolDeny := RenderDeny(p.toolDeny);
    var modelAllow: Option<seq<string>> := None;
    if p.modelAllow.Some? {
      var list := ListOf(p.modelAllow.value);
      modelAllow := Some(list);
    }
    return Output(modelDeny, toolDeny, modelAllow, p.requireApproval, p.allowPersonal, p.budget);
  }

  /** What the output denies, said from the layers; an empty deny list is omitted. */
  ghost predicate DenyMeans(layers: seq<Option<Json>>, key: string, l: Option<seq<string>>) {
    l != Some([]) && forall x :: (l.Some? && x in l.value) <==> Mentioned(layers, key, x)
  }

  predicate Mentioned(layers: seq<Option<Json>>, key: string, x: string) {
    exists i | 0 <= i < |layers| :: Mentions(layers[i], key, x)
  }

  predicate Restricted(layers: seq<Option<Json>>) {
    exists i | 0 <= i < |layers| :: HasList(layers[i], "modelAllow")
  }

  predicate Allowed(layers: seq<Option<Json>>, x: string) {
    forall i | 0 <= i < |layers| && HasList(layers[i], "modelAllow") :: Mentions(layers[i], "modelAllow", x)
  }

  /** The allow list, if there is one, has the names that every layer with an allow list has. */
  ghost predicate AllowMeans(layers: seq<Option<Json>>, l: Option<seq<string>>) {
    (l.Some? <==> Restricted(layers)) && (l.Some? ==> forall x :: x in l.value <==> Allowed(layers, x))
  }

  predicate SomeSays(layers: seq<Option<Json>>, key: string, b: bool) {
    exists i | 0 <= i < |layers| :: Says(layers[i], key, b)
  }

  /** Consent is withheld if some layer withholds it, given if some layer gives it and none withholds it, and open
      if no layer mentions it. */
  predicate ConsentMeans(layers: seq<Option<Json>>, consent: Option<bool>) {
    && (consent == Some(false) <==> SomeSays(layers, "allowPersonalModelConnections", false))
    && (consent == Some(true) <==> SomeSays(layers, "allowPersonalModelConnections", true)
                                   && !SomeSays(layers, "allowPersonalModelConnections", false))
  }

  /** The budgets that the layers have, in order. */
  function BudgetsOf(layers: seq<Option<Json>>): (js: seq<Json>) {
    if layers == [] then []
    else
      var last := layers[|layers| - 1];
      BudgetsOf(layers[..|layers| - 1]) + (if HasBudget(last) then [last.value.fields["budget"]] else [])
  }

  /** The budget has, at every path, the number or table that the JSON has there, and nothing else. */
  ghost predicate Reads(b: Budget, j: Json) {
    Clean(b) && forall path :: LookAt(b, path) == Look(j, path)
  }

  ghost predicate ReadsAll(bs: seq<Budget>, js: seq<Json>) {
    |bs| == |js| && forall i | 0 <= i < |bs| :: Reads(bs[i], js[i])
  }

  ghost predicate BudgetMeans(layers: seq<Option<Json>>, b: Option<Budget>) {
    exists bs | ReadsAll(bs, BudgetsOf(layers)) :: b == if bs == [] then None else Some(RestrictAll(bs))
  }

  /** What mergePolicy promises about its output, said from the layers alone. */
  ghost predicate Governs(layers: seq<Option<Json>>, o: Output) {
    && DenyMeans(layers, "modelDeny", o.modelDeny)
    && DenyMeans(layers, "toolDeny", o.toolDeny)
    && AllowMeans(layers, o.modelAllow)
    && (o.requireApproval <==> SomeSays(layers, "requireApprovalForWrites", true))
    && ConsentMeans(layers, o.allowPersonal)
    && BudgetMeans(layers, o.budget)
  }

  predicate Valid(layers: seq<Option<Json>>) {
    forall i | 0 <= i < |layers| && layers[i].Some? && !Falsy(layers[i].value) :: WellFormed(layers[i].value)
  }

  lemma {:induction false} PresentMembers(layers: seq<Option<Json>>, j: Json)
    ensures j in Present(layers) <==> Some(j) in layers && !Falsy(j)
  {
    if layers != [] {
      var n := |layers| - 1;
      PresentMembers(layers[..n], j);
      assert layers == layers[..n] + [layers[n]];
    }
  }

  lemma {:induction false} AllValidIsValid(layers: seq<Option<Json>>)
    ensures AllValid(Present(layers)) <==> Valid(layers)
  {
    forall j ensures j in Present(layers) <==> Some(j) in layers && !Falsy(j) { PresentMembers(layers, j); }
    forall j ensures Normalize(j).Ok? <==> WellFormed(j) { NormalizeReads(j, "", []); }
    if Valid(layers) {
      forall j <- Present(layers) ensures Normalize(j).Ok? {
        var i :| 0 <= i < |layers| && layers[i] == Some(j);
      }
    } else {
      var i :| 0 <= i < |layers| && layers[i].Some? && !Falsy(layers[i].value) && !WellFormed(layers[i].value);
      assert layers[i].value in Present(layers);
    }
  }

  // What one more layer adds to each of these.

  lemma MentionsSnoc(layers: seq<Option<Json>>, l: Option<Json>, key: string, x: string)
    ensures Mentioned(layers + [l], key, x) <==> Mentioned(layers, key, x) || Mentions(l, key, x)
  {
    assert forall i | 0 <= i < |layers| :: (layers + [l])[i] == layers[i];
    if Mentions(l, key, x) { assert Mentions((layers + [l])[|layers|], key, x); }
    if Mentioned(layers, key, x) {
      var i :| 0 <= i < |layers| && Mentions(layers[i], key, x);
      assert Mentions((layers + [l])[i], key, x);
    }
  }

  lemma SaysSnoc(layers: seq<Option<Json>>, l: Option<Json>, key: string, b: bool)
    ensures SomeSays(layers + [l], key, b) <==> SomeSays(layers, key, b) || Says(l, key, b)
  {
    assert forall i | 0 <= i < |layers| :: (layers + [l])[i] == layers[i];
    if Says(l, key, b) { assert Says((layers + [l])[|layers|], key, b); }
    if SomeSays(layers, key, b) {
      var i :| 0 <= i < |layers| && Says(layers[i], key, b);
      assert Says((layers + [l])[i], key, b);
    }
  }

  lemma AllowedSnoc(layers: seq<Option<Json>>, l: Option<Json>, x: string)
    ensures Restricted(layers + [l]) <==> Restricted(layers) || HasList(l, "modelAllow")
    ensures Allowed(layers + [l], x) <==>
              Allowed(layers, x) && (HasList(l, "modelAllow") ==> Mentions(l, "modelAllow", x))
  {
    assert forall i | 0 <= i < |layers| :: (layers + [l])[i] == layers[i];
    assert (layers + [l])[|layers|] == l;
    if Restricted(layers) {
      var i :| 0 <= i < |layers| && HasList(layers[i], "modelAllow");
      assert HasList((layers + [l])[i], "modelAllow");
    }
    if Allowed(layers + [l], x) {
      forall i | 0 <= i < |layers| && HasList(layers[i], "modelAllow") ensures Mentions(layers[i], "modelAllow", x) {
        assert HasList((layers + [l])[i], "modelAllow");
      }
    }
  }

  lemma BudgetSnoc(layers: seq<Option<Json>>, l: Option<Json>, b: Option<Budget>, next: Option<Budget>)
    requires BudgetMeans(layers, b) && (next.Some? <==> HasBudget(l))
    requires next.Some? ==> Reads(next.value, l.value.fields["budget"])
    ensures BudgetMeans(layers + [l], RestrictBoth(b, next))
  {
    assert (layers + [l])[..|layers|] == layers;
    var bs :| ReadsAll(bs, BudgetsOf(layers)) && b == if bs == [] then None else Some(RestrictAll(bs));
    if next.Some? {
      var more := bs + [next.value];
      assert more[..|more| - 1] == bs;
      assert ReadsAll(more, BudgetsOf(layers + [l]));
    } else {
      assert BudgetsOf(layers + [l]) == BudgetsOf(layers);
    }
  }

  /** The merged policy says what the layers say. */
  ghost predicate Gathers(layers: seq<Option<Json>>, m: Policy) {
    && (forall x :: x in m.modelDeny <==> Mentioned(layers, "modelDeny", x))
    && (forall x :: x in m.toolDeny <==> Mentioned(layers, "toolDeny", x))
    && (m.modelAllow.Some? <==> Restricted(layers))
    && (m.modelAllow.Some? ==> forall x :: x in m.modelAllow.value <==> Allowed(layers, x))
    && (m.requireApproval <==> SomeSays(layers, "requireApprovalForWrites", true))
    && ConsentMeans(layers, m.allowPersonal)
    && BudgetMeans(layers, m.budget)
  }

  lemma GathersSnoc(layers: seq<Option<Json>>, j: Json, m: Policy)
    requires Gathers(layers, m) && Normalize(j).Ok?
    ensures Gathers(layers + [Some(j)], Add(m, Normalize(j).value))
  {
    var l, p := Some(j), Normalize(j).value;
    var q := Add(m, p);
    forall x ensures x in q.modelDeny <==> Mentioned(layers + [l], "modelDeny", x) {
      NormalizeReads(j, x, []);
      MentionsSnoc(layers, l, "modelDeny", x);
    }
    forall x ensures x in q.toolDeny <==> Mentioned(layers + [l], "toolDeny", x) {
      NormalizeReads(j, x, []);
      MentionsSnoc(layers, l, "toolDeny", x);
    }
    NormalizeReads(j, "", []);
    AllowedSnoc(layers, l, "");
    if q.modelAllow.Some? {
      forall x ensures x in q.modelAllow.value <==> Allowed(layers + [l], x) {
        NormalizeReads(j, x, []);
        AllowedSnoc(layers, l, x);
      }
    }
    SaysSnoc(layers, l, "requireApprovalForWrites", true);
    SaysSnoc(layers, l, "allowPersonalModelConnections", true);
    SaysSnoc(layers, l, "allowPersonalModelConnections", false);
    forall path ensures p.budget.Some? ==> LookAt(p.budget.value, path) == Look(j.fields["budget"], path) {
      NormalizeReads(j, "", path);
    }
    BudgetSnoc(layers, l, m.budget, p.budget);
  }

  /** A layer that is absent or no object says nothing. */
  lemma GathersNothing(layers: seq<Option<Json>>, l: Option<Json>, m: Policy)
    requires Gathers(layers, m) && (l.None? || !l.value.Obj?)
    ensures Gathers(layers + [l], m)
  {
    forall x ensures x in m.modelDeny <==> Mentioned(layers + [l], "modelDeny", x) {
      MentionsSnoc(layers, l, "modelDeny", x);
    }
    forall x ensures x in m.toolDeny <==> Mentioned(layers + [l], "toolDeny", x) {
      MentionsSnoc(layers, l, "toolDeny", x);
    }
    forall x ensures Allowed(layers + [l], x) <==> Allowed(layers, x) { AllowedSnoc(layers, l, x); }
    AllowedSnoc(layers, l, "");
    SaysSnoc(layers, l, "requireApprovalForWrites", true);
    SaysSnoc(layers, l, "allowPersonalModelConnections", true);
    SaysSnoc(layers, l, "allowPersonalModelConnections", false);
    BudgetSnoc(layers, l, m.budget, None);
  }

  lemma NothingGathers()
    ensures Gathers([], NEUTRAL)
  {
    assert ReadsAll([], BudgetsOf([]));
  }

  /** If one layer alone has a budget, the output has that very budget. */
  lemma {:induction false} SingleBudget(layers: seq<Option<Json>>, o: Output, j: Json)
    requires Governs(layers, o) && BudgetsOf(layers) == [j]
    ensures o.budget.Some? && Reads(o.budget.value, j)
  {
    var bs :| ReadsAll(bs, BudgetsOf(layers)) && o.budget == if bs == [] then None else Some(RestrictAll(bs));
    assert Reads(bs[0], [j][0]);
  }

  /** If several do, the output has at every path the least number that any of them has there, a table where one has
      a table, and nothing else, exactly on the condition of LeafMinimumOfLayers. */
  lemma {:induction false} SeveralBudgets(layers: seq<Option<Json>>, o: Output)
    requires Governs(layers, o) && BudgetsOf(layers) != []
    ensures exists bs | ReadsAll(bs, BudgetsOf(layers)) ::
              && bs != [] && o.budget.Some?
              && ((forall path :: Combined(bs, path, LookAt(o.budget.value, path))) <==>
                  OneShape(bs) && NothingHidden(bs))
  {
    var bs :| ReadsAll(bs, BudgetsOf(layers)) && o.budget == if bs == [] then None else Some(RestrictAll(bs));
    forall b <- bs ensures Clean(b) {
      var i :| 0 <= i < |bs| && bs[i] == b;
      assert Reads(bs[i], BudgetsOf(layers)[i]);
    }
    LeafMinimumOfLayers(bs);
  }

  /** Writing the merged policy down keeps what it says. */
  lemma RenderedGoverns(layers: seq<Option<Json>>, m: Policy, o: Output)
    requires Gathers(layers, m) && Renders(o, m)
    ensures Governs(layers, o)
  {
  }

  /** m is the merge of the first i layers. */
  ghost predicate MergedUpTo(layers: seq<Option<Json>>, i: nat, m: Policy)
    requires i <= |layers|
  {
    && AllValid(Present(layers[..i])) && m == Merge(Normalized(Present(layers[..i])))
    && Gathers(layers[..i], m)
  }

  lemma SkipsLayer(layers: seq<Option<Json>>, i: nat, m: Policy)
    requires i < |layers| && MergedUpTo(layers, i, m) && (layers[i].None? || Falsy(layers[i].value))
    ensures MergedUpTo(layers, i + 1, m)
  {
    PresentSnoc(layers, i);
    assert layers[..i + 1] == layers[..i] + [layers[i]];
    GathersNothing(layers[..i], layers[i], m);
  }

  lemma AddsLayer(layers: seq<Option<Json>>, i: nat, m: Policy, p: Policy)
    requires i < |layers| && MergedUpTo(layers, i, m) && layers[i].Some? && !Falsy(layers[i].value)
    requires Normalize(layers[i].value) == Ok(p)
    ensures MergedUpTo(layers, i + 1, Add(m, p))
  {
    PresentSnoc(layers, i);
    assert layers[..i + 1] == layers[..i] + [layers[i]];
    NormalizedSnoc(Present(layers[..i]), layers[i].value);
    GathersSnoc(layers[..i], layers[i].value, m);
  }

  /** The program: one loop over the layers; the first invalid one is reported and no layer is skipped
      because of its content. */
  method MergePolicy(layers: seq<Option<Json>>) returns (r: Result<Output, Fault>)
    ensures r.Ok? <==> Valid(layers)
    ensures r.Ok? ==> Governs(layers, r.value)
    ensures r.Err? ==>
      exists i | 0 <= i < |layers| && Valid(layers[..i]) :: layers[i].Some? && Blames(layers[i].value, r.error)
    ensures r.Ok? <==> AllValid(Present(layers))
    ensures r.Ok? ==> Renders(r.value, Merge(Normalized(Present(layers))))
    ensures r.Err? ==>
      exists i :: 0 <= i < |Present(layers)| && AllValid(Present(layers)[..i])
                  && Normalize(Present(layers)[i]) == Err(r.error)
  {
    AllValidIsValid(layers);
    NothingGathers();
    var merged := NEUTRAL;
    for i := 0 to |layers|
      invariant MergedUpTo(layers, i, merged)
    {
      if layers[i].None? || Falsy(layers[i].value) {
        SkipsLayer(layers, i, merged);
        continue;
      }
      var n := Normalize(layers[i].value);
      if n.Err? {
        PresentPrefix(layers, i + 1);
        FirstFault(layers, i, n.error);
        AllValidIsValid(layers[..i]);
        NormalizeReads(layers[i].value, "", []);
        return Err(n.error);
      }
      AddsLayer(layers, i, merged, n.value);
      merged := AddLayer(merged, n.value);
    }
    assert layers[..|layers|] == layers;
    var out := Render(merged);
    RenderedGoverns(layers, merged, out);
    return Ok(out);
  }

  /** The body of the loop, for a layer that takes part. */
  method AddLayer(m: Policy, p: Policy) returns (q: Policy)
    ensures q == Add(m, p)
  {
    q := m.(modelDeny := m.modelDeny + p.modelDeny, toolDeny := m.toolDeny + p.toolDeny);
    if p.modelAllow.Some? {
      if m.modelAllow.None? {
        q := q.(modelAllow := p.modelAllow);
      } else {
        var narrowed := set x | x in m.modelAllow.value && x in p.modelAllow.value;
        assert narrowed == m.modelAllow.value * p.modelAllow.value;
        q := q.(modelAllow := Some(narrowed));
      }
    }
    if p.requireApproval { q := q.(requireApproval := true); }
    if p.allowPersonal.Some? {
      q := q.(allowPersonal := if m.allowPersonal.None? then p.allowPersonal
                               else Some(m.allowPersonal.value && p.allowPersonal.value));
    }
    var budget := RestrictiveBudget(m.budget, p.budget);
    q := q.(budget := budget);
  }

  lemma PresentSnoc(layers: seq<Option<Json>>, i: nat)
    requires i < |layers|
    ensures Present(layers[..i + 1]) ==
            if layers[i].None? || Falsy(layers[i].value) then Present(layers[..i])
            else Present(layers[..i]) + [layers[i].value]
  {
    assert layers[..i + 1][..i] == layers[..i];
  }

  lemma {:induction false} PresentPrefix(layers: seq<Option<Json>>, i: nat)
    requires i <= |layers|
    ensures Present(layers[..i]) <= Present(layers)
    decreases |layers| - i
  {
    if i < |layers| {
      PresentSnoc(layers, i);
      PresentPrefix(layers, i + 1);
    } else {
      assert layers[..i] == layers;
    }
  }

  lemma {:induction false} FirstFault(layers: seq<Option<Json>>, i: nat, e: Fault)
    requires i < |layers| && layers[i].Some? && !Falsy(layers[i].value) && Normalize(layers[i].value) == Err(e)
    requires AllValid(Present(layers[..i])) && Present(layers[..i + 1]) <= Present(layers)
    ensures exists j :: 0 <= j < |Present(layers)| && AllValid(Present(layers)[..j])
                        && Normalize(Present(layers)[j]) == Err(e)
  {
    PresentSnoc(layers, i);
    var j := |Present(layers[..i])|;
    assert Present(layers)[..j] == Present(layers[..i]);
    assert Present(layers)[j] == Present(layers[..i + 1])[j] == layers[i].value;
  }

  lemma NormalizedSnoc(js: seq<Json>, j: Json)
    requires AllValid(js) && Normalize(j).Ok?
    ensures AllValid(js + [j]) && Normalized(js + [j]) == Normalized(js) + [Normalize(j).value]
    ensures Merge(Normalized(js + [j])) == Add(Merge(Normalized(js)), Normalize(j).value)
  {
    var ps := Normalized(js) + [Normalize(j).value];
    assert Normalized(js + [j]) == ps;
    assert ps[..|ps| - 1] == Normalized(js);
  }

  // ---------------------------------------------------------------- layers only tighten

  ghost predicate BudgetTightened(before: Option<Budget>, after: Option<Budget>) {
    before.Some? ==>
      && after.Some?
      && forall path :: LookAt(before.value, path).Leaf? ==>
           LookAt(after.value, path).Leaf? && LookAt(after.value, path).n <= LookAt(before.value, path).n
  }

  /** Everything but consent to personal model connections is at least as strict. */
  ghost predicate Tightened(before: Policy, after: Policy) {
    && before.modelDeny <= after.modelDeny
    && before.toolDeny <= after.toolDeny
    && (before.modelAllow.Some? ==> after.modelAllow.Some? && after.modelAllow.value <= before.modelAllow.value)
    && (before.requireApproval ==> after.requireApproval)
    && BudgetTightened(before.budget, after.budget)
  }

  /** An omitted consent is a denial. */
  predicate Consents(p: Policy) {
    p.allowPersonal == Some(true)
  }

  lemma AddTightens(m: Policy, p: Policy)
    ensures Tightened(m, Add(m, p))
  {
    if m.budget.Some? && p.budget.Some? {
      var b, c := m.budget.value, p.budget.value;
      forall path | LookAt(b, path).Leaf?
        ensures LookAt(Restrict(b, c), path).Leaf? && LookAt(Restrict(b, c), path).n <= LookAt(b, path).n
      {
        LeafNeverRises(b, c, path);
      }
    }
  }

  predicate Denies(p: Policy) {
    p.allowPersonal == Some(false)
  }

  lemma Trichotomy(p: Policy)
    ensures p.allowPersonal.None? || Consents(p) || Denies(p)
    ensures Consents(p) ==> !Denies(p)
  {
    match p.allowPersonal
    case None =>
    case Some(b) => if b { assert Consents(p); } else { assert Denies(p); }
  }

  lemma {:induction false} ConsentOf(m: Policy, ps: seq<Policy>)
    ensures Denies(AddAll(m, ps)) <==> Denies(m) || exists p <- ps :: Denies(p)
    ensures Consents(AddAll(m, ps)) || Denies(AddAll(m, ps)) <==>
            Consents(m) || Denies(m) || exists p <- ps :: Consents(p) || Denies(p)
  {
    if ps != [] {
      var n := |ps| - 1;
      var a, p := AddAll(m, ps[..n]), ps[n];
      ConsentOf(m, ps[..n]);
      assert ps == ps[..n] + [p];
      assert p in ps && forall q <- ps[..n] :: q in ps;
      assert Denies(Add(a, p)) <==> Denies(a) || Denies(p);
    }
  }

  /** Appending layers never loosens the merged policy, except in one case: consent that was omitted so far
      is given by a later layer and denied by none. */
  lemma {:induction false} LayersOnlyTighten(m: Policy, ps: seq<Policy>)
    ensures Tightened(m, AddAll(m, ps))
    ensures (Consents(AddAll(m, ps)) ==> Consents(m)) <==>
            !(m.allowPersonal.None? && (exists p <- ps :: Consents(p)) && forall p <- ps :: !Denies(p))
  {
    ConsentOf(m, ps);
    Trichotomy(m);
    Trichotomy(AddAll(m, ps));
    if ps != [] {
      LayersOnlyTighten(m, ps[..|ps| - 1]);
      AddTightens(AddAll(m, ps[..|ps| - 1]), ps[|ps| - 1]);
      TightenedTransitive(m, AddAll(m, ps[..|ps| - 1]), AddAll(m, ps));
    }
  }

  lemma TightenedTransitive(p: Policy, q: Policy, r: Policy)
    requires Tightened(p, q) && Tightened(q, r)
    ensures Tightened(p, r)
  {
    if p.budget.Some? {
      forall path | LookAt(p.budget.value, path).Leaf?
        ensures LookAt(r.budget.value, path).Leaf? && LookAt(r.budget.value, path).n <= LookAt(p.budget.value, path).n
      {
        assert LookAt(q.budget.value, path).Leaf?;
      }
    }
  }

  /** Merging more layers is adding them to the merge of the first ones. */
  lemma {:induction false} MergeAppends(ps: seq<Policy>, qs: seq<Policy>)
    ensures Merge(ps + qs) == AddAll(Merge(ps), qs)
  {
    if qs == [] {
      assert ps + qs == ps;
    } else {
      var n := |qs| - 1;
      assert (ps + qs)[..|ps + qs| - 1] == ps + qs[..n];
      MergeAppends(ps, qs[..n]);
    }
  }

  /** An assignment may grant what neither the organization nor the team mentioned. */
  lemma OmittedConsentIsGrantedLater()
    ensures var layer := NEUTRAL.(allowPersonal := Some(true));
            !Consents(Merge([NEUTRAL])) && Consents(Merge([NEUTRAL, layer]))
  {
    var layer := NEUTRAL.(allowPersonal := Some(true));
    assert [NEUTRAL][..0] == [] && [NEUTRAL, layer][..1] == [NEUTRAL];
    assert Merge([NEUTRAL]) == Add(Merge([]), NEUTRAL);
    assert Merge([NEUTRAL, layer]) == Add(Merge([NEUTRAL]), layer);
  }

  // ---------------------------------------------------------------- order of layers

  function Budgets(ps: seq<Policy>): (bs: seq<Budget>) {
    if ps == [] then []
    else
      var last := ps[|ps| - 1].budget;
      Budgets(ps[..|ps| - 1]) + (if last.Some? then [last.value] else [])
  }

  lemma {:induction false} BudgetsMembers(ps: seq<Policy>, b: Budget)
    ensures b in Budgets(ps) <==> exists p <- ps :: p.budget == Some(b)
  {
    if ps != [] {
      var n := |ps| - 1;
      BudgetsMembers(ps[..n], b);
      assert ps == ps[..n] + [ps[n]];
    }
  }

  lemma {:induction false} MergedBudget(ps: seq<Policy>)
    ensures Merge(ps).budget == if Budgets(ps) == [] then None else Some(RestrictAll(Budgets(ps)))
  {
    if ps != [] {
      var n := |ps| - 1;
      MergedBudget(ps[..n]);
      if ps[n].budget.Some? {
        assert Budgets(ps)[..|Budgets(ps)| - 1] == Budgets(ps[..n]);
      } else {
        assert Budgets(ps) == Budgets(ps[..n]);
      }
    }
  }

  /** What the merged policy says, without any order: a name is denied if some layer denies it and allowed
      unless some layer's allow list lacks it. */
  lemma {:induction false} MergeMeans(ps: seq<Policy>)
    ensures forall x :: x in Merge(ps).modelDeny <==> exists p <- ps :: x in p.modelDeny
    ensures forall x :: x in Merge(ps).toolDeny <==> exists p <- ps :: x in p.toolDeny
    ensures Merge(ps).modelAllow.Some? <==> exists p <- ps :: p.modelAllow.Some?
    ensures Merge(ps).modelAllow.Some? ==>
      forall x :: x in Merge(ps).modelAllow.value <==> forall p <- ps :: p.modelAllow.Some? ==> x in p.modelAllow.value
    ensures Merge(ps).requireApproval <==> exists p <- ps :: p.requireApproval
  {
    if ps != [] {
      var n := |ps| - 1;
      MergeMeans(ps[..n]);
      assert ps == ps[..n] + [ps[n]];
    }
  }

  predicate CleanBudgets(ps: seq<Policy>) {
    forall p <- ps :: p.budget.Some? ==> Clean(p.budget.value)
  }

  /** Another order of the same normalized layers, or repeating some, changes nothing exactly when their
      budgets fit in that order too; everything but the budget is the same in any case. */
  lemma {:induction false} OrderIrrelevant(ps: seq<Policy>, qs: seq<Policy>)
    requires (forall p :: p in ps <==> p in qs) && CleanBudgets(ps) && FitsAll(Budgets(ps))
    ensures Merge(ps) == Merge(qs) <==> FitsAll(Budgets(qs))
    ensures Merge(ps).(budget := None) == Merge(qs).(budget := None)
  {
    MergeMeans(ps);
    MergeMeans(qs);
    SameConsent(ps, qs);
    SameBudgets(ps, qs);
    assert Merge(ps).modelDeny == Merge(qs).modelDeny;
    assert Merge(ps).toolDeny == Merge(qs).toolDeny;
    if Merge(ps).modelAllow.Some? { assert Merge(ps).modelAllow.value == Merge(qs).modelAllow.value; }
  }

  lemma SameConsent(ps: seq<Policy>, qs: seq<Policy>)
    requires forall p :: p in ps <==> p in qs
    ensures Merge(ps).allowPersonal == Merge(qs).allowPersonal
  {
    ConsentOf(NEUTRAL, ps);
    ConsentOf(NEUTRAL, qs);
    Trichotomy(Merge(ps));
    Trichotomy(Merge(qs));
    assert (exists p <- ps :: Denies(p)) <==> (exists p <- qs :: Denies(p));
    assert (exists p <- ps :: Consents(p) || Denies(p)) <==> (exists p <- qs :: Consents(p) || Denies(p));
  }

  lemma NoMembers(bs: seq<Budget>)
    ensures bs == [] <==> forall b :: b !in bs
  {
    if bs != [] { assert bs[0] in bs; }
  }

  lemma {:induction false} SameBudgets(ps: seq<Policy>, qs: seq<Policy>)
    requires (forall p :: p in ps <==> p in qs) && CleanBudgets(ps) && FitsAll(Budgets(ps))
    ensures Merge(ps).budget == Merge(qs).budget <==> FitsAll(Budgets(qs))
  {
    forall b ensures b in Budgets(ps) <==> b in Budgets(qs) {
      BudgetsMembers(ps, b);
      BudgetsMembers(qs, b);
    }
    forall b <- Budgets(ps) ensures Clean(b) { BudgetsMembers(ps, b); }
    MergedBudget(ps);
    MergedBudget(qs);
    NoMembers(Budgets(ps));
    NoMembers(Budgets(qs));
    if Budgets(ps) != [] { BudgetOrderIrrelevant(Budgets(ps), Budgets(qs)); }
  }
}
