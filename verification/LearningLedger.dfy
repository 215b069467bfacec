/**
  Organization learnings (src/learnings/learnings.service.ts): device submissions, administrator reviews
  and the versioned bundle of approved learnings.

  Each submission and each review is one serializable transaction, hence one step; a bundle reads one
  snapshot. A candidate is found by its unique key. Submitted text is taken after safeText: a summary is
  never empty, a blank rationale is absent.
 */
module LearningLedger {
  import opened Wrappers
  import Characters

  type Org = nat
  type Id = nat
  type Time = int

  const MAX_OBSERVATIONS := 5000
  const RECURRENCE_WINDOW := 30 * 24 * 60 * 60 * 1000
  const FUTURE_CLOCK_SKEW := 5 * 60 * 1000

  datatype Key = Key(org: Org, patternKey: string, kind: string)
  datatype Status = Pending | Approved | Rejected | Revoked
  datatype Candidate = Candidate(id: Id, summary: string, rationale: Option<string>, pendingSummary: Option<string>,
                                 pendingRationale: Option<string>, pendingAt: Option<Time>, status: Status,
                                 occurrences: nat, distinctTasks: nat, sourceVersion: string, revision: nat,
                                 reviewedAt: Option<Time>, reviewedBy: Option<string>, reviewNote: Option<string>)

  /** What makes an evidence receipt unique. */
  datatype Receipt = Receipt(device: Id, client: string, fingerprint: string)

  datatype Observation = Observation(key: Key, taskHash: string, observedAt: Time)
  datatype Evidence = Evidence(receipt: Receipt, taskHash: string, observedAt: Time)

  datatype State = State(candidates: map<Key, Candidate>, versions: map<Org, nat>,
                         observations: map<Receipt, Observation>)

  datatype Decision = Approve | Reject | Revoke
  /** Who reviews, when, and the note as it was given. */
  datatype Signature = Signature(signer: string, at: Time, note: Option<string>)

  datatype Fault = FutureEvidence | EvidenceFull | NotFound | StaleRevision | NothingPending | NotApproved

  /** `id` is what a new candidate would be called; the last three fields are the clock when the request is
      checked, when a proposal is stored and when recurrences are counted. */
  datatype Submission = Submission(key: Key, id: Id, summary: string, rationale: Option<string>,
                                   sourceVersion: string, evidence: seq<Evidence>, checkedAt: Time,
                                   proposedAt: Time, countedAt: Time)

  // ---------------------------------------------------------------- submissions

  function Of(observations: map<Receipt, Observation>, key: Key): (rs: set<Receipt>) {
    set r | r in observations && observations[r].key == key
  }

  /** The receipts of the last thirty days, and the tasks they come from. */
  function Recent(observations: map<Receipt, Observation>, key: Key, at: Time): (rs: set<Receipt>) {
    set r | r in observations && observations[r].key == key && observations[r].observedAt >= at - RECURRENCE_WINDOW
  }

  function Tasks(observations: map<Receipt, Observation>, rs: set<Receipt>): (ts: set<string>) {
    set r | r in rs && r in observations :: observations[r].taskHash
  }

  predicate FromTheFuture(q: Submission) {
    exists e <- q.evidence :: e.observedAt > q.checkedAt + FUTURE_CLOCK_SKEW
  }

  /** createMany with skipDuplicates. */
  function Insert(observations: map<Receipt, Observation>, key: Key, es: seq<Evidence>)
    : (o: map<Receipt, Observation>)
    decreases |es|
  {
    if es == [] then observations else Insert(Add(observations, key, es[0]), key, es[1..])
  }

  function Add(observations: map<Receipt, Observation>, key: Key, e: Evidence): (o: map<Receipt, Observation>) {
    if e.receipt in observations then observations
    else observations[e.receipt := Observation(key, e.taskHash, e.observedAt)]
  }

  lemma {:induction false} InsertAddsAtMost(observations: map<Receipt, Observation>, key: Key, es: seq<Evidence>)
    ensures |Of(Insert(observations, key, es), key)| <= |Of(observations, key)| + |es|
    ensures forall k | k != key :: Of(Insert(observations, key, es), k) == Of(observations, k)
    decreases |es|
  {
    if es != [] {
      var o := Add(observations, key, es[0]);
      InsertAddsAtMost(o, key, es[1..]);
      assert Of(o, key) <= Of(observations, key) + {es[0].receipt};
      Within(Of(o, key), Of(observations, key), es[0].receipt);
      forall k | k != key ensures Of(o, k) == Of(observations, k) {}
    }
  }

  lemma Within(s: set<Receipt>, t: set<Receipt>, r: Receipt)
    requires s <= t + {r}
    ensures |s| <= |t| + 1
  {
    Smaller(s - {r}, t);
    if r in s { assert s == (s - {r}) + {r}; } else { assert s == s - {r}; }
  }

  lemma {:induction false} Smaller(s: set<Receipt>, t: set<Receipt>)
    requires s <= t
    ensures |s| <= |t|
    decreases |s|
  {
    if s != {} {
      var x :| x in s;
      Smaller(s - {x}, t - {x});
    }
  }

  function Take(es: seq<Evidence>, n: nat): (t: seq<Evidence>)
    ensures |t| <= n
  {
    if |es| <= n then es else es[..n]
  }

  /** The candidate with the new proposal: text of a pending candidate is replaced, any other candidate keeps
      its text and remembers the proposal. */
  function Proposed(c: Candidate, q: Submission): (c': Candidate) {
    if c.summary == q.summary && c.rationale == q.rationale then c
    else if c.status.Pending? then c.(summary := q.summary, rationale := q.rationale)
    else c.(pendingSummary := Some(q.summary), pendingRationale := q.rationale, pendingAt := Some(q.proposedAt))
  }

  function Current(s: State, q: Submission): (c: Candidate) {
    if q.key in s.candidates then s.candidates[q.key]
    else Candidate(q.id, q.summary, q.rationale, None, None, None, Pending, 0, 0, q.sourceVersion, 1,
                   None, None, None)
  }

  function SubmitFault(s: State, q: Submission): (f: Option<Fault>) {
    if FromTheFuture(q) then Some(FutureEvidence)
    else if |Of(s.observations, q.key)| >= MAX_OBSERVATIONS then Some(EvidenceFull) else None
  }

  /** The candidate with its recurrences counted anew. */
  function Counted(c: Candidate, o: map<Receipt, Observation>, q: Submission): (c': Candidate) {
    var recent := Recent(o, q.key, q.countedAt);
    c.(occurrences := |recent|, distinctTasks := |Tasks(o, recent)|, sourceVersion := q.sourceVersion)
  }

  function Submitted(s: State, q: Submission): (s': State) {
    if SubmitFault(s, q).Some? then s
    else
      var o := Insert(s.observations, q.key, Take(q.evidence, MAX_OBSERVATIONS - |Of(s.observations, q.key)|));
      s.(candidates := s.candidates[q.key := Counted(Proposed(Current(s, q), q), o, q)], observations := o)
  }

  // ---------------------------------------------------------------- reviews

  predicate Truthy(t: Option<string>) {
    t.Some? && t.value != ""
  }

  function ReviewFault(s: State, key: Key, expected: nat, d: Decision): (f: Option<Fault>) {
    if key !in s.candidates then Some(NotFound)
    else
      var c := s.candidates[key];
      if c.revision != expected then Some(StaleRevision)
      else if d.Reject? && c.status.Approved? && !Truthy(c.pendingSummary) then Some(NothingPending)
      else if d.Revoke? && !c.status.Approved? then Some(NotApproved)
      else None
  }

  /** A note is trimmed, and a blank one is none. */
  function NoteOf(note: Option<string>): (n: Option<string>) {
    if note.None? || Characters.Trim(note.value) == "" then None else Some(Characters.Trim(note.value))
  }

  function Decided(c: Candidate, d: Decision, sig: Signature): (c': Candidate) {
    var settled := c.(pendingSummary := None, pendingRationale := None, pendingAt := None, revision := c.revision + 1,
                      reviewedAt := Some(sig.at), reviewedBy := Some(sig.signer), reviewNote := NoteOf(sig.note));
    match d
    case Approve =>
      settled.(status := Approved, summary := if c.pendingSummary.Some? then c.pendingSummary.value else c.summary,
               rationale := if Truthy(c.pendingSummary) then c.pendingRationale else c.rationale)
    case Reject => if c.status.Approved? then settled else settled.(status := Rejected)
    case Revoke => settled.(status := Revoked)
  }

  /** What a member of the bundle is, beside its counters. */
  datatype Learning = Learning(id: Id, patternKey: string, kind: string, summary: string, rationale: Option<string>)

  function LearningOf(k: Key, c: Candidate): (l: Learning) {
    Learning(c.id, k.patternKey, k.kind, c.summary, c.rationale)
  }

  function Bundle(s: State, org: Org): (ls: set<Learning>) {
    set k | k in s.candidates && k.org == org && s.candidates[k].status.Approved? :: LearningOf(k, s.candidates[k])
  }

  function Version(s: State, org: Org): (v: nat) {
    if org in s.versions then s.versions[org] else 0
  }

  function Reviewed(s: State, key: Key, expected: nat, d: Decision, sig: Signature): (s': State) {
    if ReviewFault(s, key, expected, d).Some? then s
    else
      var c, c' := s.candidates[key], Decided(s.candidates[key], d, sig);
      var active := match d
        case Approve => !c.status.Approved? || c'.summary != c.summary || c'.rationale != c.rationale
        case Reject => false
        case Revoke => true;
      s.(candidates := s.candidates[key := c'],
         versions := if active then s.versions[key.org := Version(s, key.org) + 1] else s.versions)
  }

  // ---------------------------------------------------------------- the tables, updated in place

  class Ledger {
    var candidates: map<Key, Candidate>
    var versions: map<Org, nat>
    var observations: map<Receipt, Observation>

    constructor ()
      ensures Value() == State(map[], map[], map[])
    {
      candidates, versions, observations := map[], map[], map[];
    }

    ghost function Value(): (s: State) reads this {
      State(candidates, versions, observations)
    }

    method Submit(q: Submission) returns (fault: Option<Fault>)
      modifies this
      ensures fault == SubmitFault(old(Value()), q)
      ensures Value() == Submitted(old(Value()), q)
    {
      if FromTheFuture(q) { return Some(FutureEvidence); }
      var existing := |Of(observations, q.key)|;
      if existing >= MAX_OBSERVATIONS { return Some(EvidenceFull); }
      var current := Propose(q);
      Record(q.key, Take(q.evidence, MAX_OBSERVATIONS - existing));
      var recent := Recent(observations, q.key, q.countedAt);
      current := current.(occurrences := |recent|, distinctTasks := |Tasks(observations, recent)|,
                          sourceVersion := q.sourceVersion);
      candidates := candidates[q.key := current];
      return None;
    }

    /** The upsert and the update of the proposal. */
    method Propose(q: Submission) returns (current: Candidate)
      modifies this`candidates
      ensures current.(sourceVersion := "") == Proposed(Current(old(Value()), q), q).(sourceVersion := "")
      ensures candidates == old(candidates)[q.key := current]
    {
      if q.key !in candidates {
        candidates := candidates[q.key := Candidate(q.id, q.summary, q.rationale, None, None, None, Pending, 0, 0,
                                                    q.sourceVersion, 1, None, None, None)];
      }
      current := candidates[q.key];
      if current.summary != q.summary || current.rationale != q.rationale {
        if current.status.Pending? {
          current := current.(summary := q.summary, rationale := q.rationale, sourceVersion := q.sourceVersion);
        } else {
          current := current.(pendingSummary := Some(q.summary), pendingRationale := q.rationale,
                              pendingAt := Some(q.proposedAt), sourceVersion := q.sourceVersion);
        }
        candidates := candidates[q.key := current];
      }
    }

    /** createMany with skipDuplicates. */
    method Record(key: Key, es: seq<Evidence>)
      modifies this`observations
      ensures observations == Insert(old(observations), key, es)
    {
      for i := 0 to |es|
        invariant Insert(old(observations), key, es) == Insert(observations, key, es[i..])
      {
        var e := es[i];
        if e.receipt !in observations {
          observations := observations[e.receipt := Observation(key, e.taskHash, e.observedAt)];
        }
        assert es[i..][1..] == es[i + 1..];
      }
    }

    method Review(key: Key, expected: nat, d: Decision, sig: Signature) returns (fault: Option<Fault>)
      modifies this
      ensures fault == ReviewFault(old(Value()), key, expected, d)
      ensures Value() == Reviewed(old(Value()), key, expected, d, sig)
    {
      if key !in candidates { return Some(NotFound); }
      var current := candidates[key];
      if current.revision != expected { return Some(StaleRevision); }
      var data := current.(pendingSummary := None, pendingRationale := None, pendingAt := None);
      var activeChanged := false;
      if d.Approve? {
        var summary := if current.pendingSummary.Some? then current.pendingSummary.value else current.summary;
        var rationale := if Truthy(current.pendingSummary) then current.pendingRationale else current.rationale;
        activeChanged := !current.status.Approved? || summary != current.summary || rationale != current.rationale;
        data := data.(status := Approved, summary := summary, rationale := rationale);
      } else if d.Reject? {
        if current.status.Approved? {
          if !Truthy(current.pendingSummary) { return Some(NothingPending); }
        } else {
          data := data.(status := Rejected);
        }
      } else {
        if !current.status.Approved? { return Some(NotApproved); }
        activeChanged := true;
        data := data.(status := Revoked);
      }
      candidates := candidates[key := data.(revision := current.revision + 1, reviewedAt := Some(sig.at),
                                            reviewedBy := Some(sig.signer), reviewNote := NoteOf(sig.note))];
      if activeChanged {
        versions := versions[key.org := (if key.org in versions then versions[key.org] else 0) + 1];
      }
      return None;
    }
  }

  // ---------------------------------------------------------------- runs

  datatype Step = Submit(q: Submission) | Review(key: Key, expected: nat, d: Decision, sig: Signature)

  function Apply(s: State, step: Step): (s': State) {
    match step
    case Submit(q) => Submitted(s, q)
    case Review(key, expected, d, sig) => Reviewed(s, key, expected, d, sig)
  }

  function Run(s: State, steps: seq<Step>): (s': State)
    decreases |steps|
  {
    if steps == [] then s else Run(Apply(s, steps[0]), steps[1..])
  }

  /** Replacing a candidate that is approved neither before nor after leaves the bundle alone, as does
      replacing one whose learning stays the same. */
  lemma SameBundle(s: State, s': State, key: Key, org: Org)
    requires key in s'.candidates && s'.candidates == s.candidates[key := s'.candidates[key]]
    requires key in s.candidates && s.candidates[key].status.Approved? ==>
               s'.candidates[key].status.Approved?
               && LearningOf(key, s'.candidates[key]) == LearningOf(key, s.candidates[key])
    requires s'.candidates[key].status.Approved? ==> key in s.candidates && s.candidates[key].status.Approved?
    ensures Bundle(s', org) == Bundle(s, org)
  {
    forall k | k in s'.candidates && k != key ensures k in s.candidates && s'.candidates[k] == s.candidates[k] {}
    forall l <- Bundle(s, org) ensures l in Bundle(s', org) {
      var k :| k in s.candidates && k.org == org && s.candidates[k].status.Approved?
               && l == LearningOf(k, s.candidates[k]);
      assert k in s'.candidates && s'.candidates[k].status.Approved? && l == LearningOf(k, s'.candidates[k]);
    }
    forall l <- Bundle(s', org) ensures l in Bundle(s, org) {
      var k :| k in s'.candidates && k.org == org && s'.candidates[k].status.Approved?
               && l == LearningOf(k, s'.candidates[k]);
      assert k in s.candidates && s.candidates[k].status.Approved? && l == LearningOf(k, s.candidates[k]);
    }
  }

  /** A learning is in the bundle only as its own candidate says. */
  lemma BundleOwn(s: State, k: Key, l: Learning)
    requires l in Bundle(s, k.org) && l.patternKey == k.patternKey && l.kind == k.kind
    ensures k in s.candidates && s.candidates[k].status.Approved? && l == LearningOf(k, s.candidates[k])
  {
    var j :| j in s.candidates && j.org == k.org && s.candidates[j].status.Approved?
             && l == LearningOf(j, s.candidates[j]);
    assert j == k;
  }

  lemma SubmitKeepsBundle(s: State, q: Submission, org: Org)
    ensures Bundle(Submitted(s, q), org) == Bundle(s, org) && Version(Submitted(s, q), org) == Version(s, org)
  {
    if SubmitFault(s, q).None? { SameBundle(s, Submitted(s, q), q.key, org); }
  }

  /** No sequence of device submissions changes what is approved, or the version. */
  lemma {:induction false} SubmissionsKeepBundle(s: State, steps: seq<Step>, org: Org)
    requires forall step <- steps :: step.Submit?
    ensures Bundle(Run(s, steps), org) == Bundle(s, org) && Version(Run(s, steps), org) == Version(s, org)
    decreases |steps|
  {
    if steps != [] {
      SubmitKeepsBundle(s, steps[0].q, org);
      SubmissionsKeepBundle(Apply(s, steps[0]), steps[1..], org);
    }
  }

  lemma ReviewChangesBundle(s: State, key: Key, expected: nat, d: Decision, sig: Signature)
    requires Version(Reviewed(s, key, expected, d, sig), key.org) != Version(s, key.org)
    ensures Bundle(Reviewed(s, key, expected, d, sig), key.org) != Bundle(s, key.org)
  {
    var s' := Reviewed(s, key, expected, d, sig);
    var l, l' := LearningOf(key, s.candidates[key]), LearningOf(key, s'.candidates[key]);
    if d.Approve? {
      assert l' in Bundle(s', key.org);
      if l' in Bundle(s, key.org) { BundleOwn(s, key, l'); }
    } else {
      assert l in Bundle(s, key.org);
      if l in Bundle(s', key.org) { BundleOwn(s', key, l); }
    }
  }

  lemma OtherBundles(s: State, key: Key, expected: nat, d: Decision, sig: Signature, org: Org)
    requires org != key.org
    ensures Bundle(Reviewed(s, key, expected, d, sig), org) == Bundle(s, org)
    ensures Version(Reviewed(s, key, expected, d, sig), org) == Version(s, org)
  {
    var s' := Reviewed(s, key, expected, d, sig);
    forall k: Key | k.org == org ensures k in s'.candidates <==> k in s.candidates {}
    forall k: Key | k.org == org && k in s.candidates ensures s'.candidates[k] == s.candidates[k] {}
  }

  /** One step moves the version by one if it changes the approved set, and leaves it otherwise. */
  lemma VersionMarksChange(s: State, step: Step, org: Org)
    ensures Version(Apply(s, step), org) ==
            Version(s, org) + if Bundle(Apply(s, step), org) == Bundle(s, org) then 0 else 1
  {
    match step
    case Submit(q) => SubmitKeepsBundle(s, q, org);
    case Review(key, expected, d, sig) =>
      if org != key.org {
        OtherBundles(s, key, expected, d, sig, org);
      } else if Version(Apply(s, step), org) != Version(s, org) {
        ReviewChangesBundle(s, key, expected, d, sig);
      } else if ReviewFault(s, key, expected, d).None? {
        SameBundle(s, Apply(s, step), key, org);
      }
  }

  /** The version never decreases, and two snapshots with the same version hold the same learnings. */
  lemma {:induction false} SameVersionSameBundle(s: State, steps: seq<Step>, org: Org)
    ensures Version(Run(s, steps), org) >= Version(s, org)
    ensures Version(Run(s, steps), org) == Version(s, org) ==> Bundle(Run(s, steps), org) == Bundle(s, org)
    decreases |steps|
  {
    if steps != [] {
      VersionMarksChange(s, steps[0], org);
      SameVersionSameBundle(Apply(s, steps[0]), steps[1..], org);
    }
  }

  lemma {:induction false} RevisionsRise(s: State, steps: seq<Step>, key: Key)
    requires key in s.candidates
    ensures key in Run(s, steps).candidates
    ensures Run(s, steps).candidates[key].revision >= s.candidates[key].revision
    decreases |steps|
  {
    if steps != [] { RevisionsRise(Apply(s, steps[0]), steps[1..], key); }
  }

  /** A revision is reviewed at most once: after a review that took effect, every later review that expects
      the same revision is refused. */
  lemma {:induction false} RevisionIsReviewedOnce(s: State, key: Key, r: nat, d: Decision, sig: Signature,
                                                  steps: seq<Step>, e: Decision)
    requires ReviewFault(s, key, r, d).None?
    ensures ReviewFault(Run(Reviewed(s, key, r, d, sig), steps), key, r, e) == Some(StaleRevision)
  {
    RevisionsRise(Reviewed(s, key, r, d, sig), steps, key);
  }

  ghost predicate Bounded(s: State) {
    forall k :: |Of(s.observations, k)| <= MAX_OBSERVATIONS
  }

  lemma StepKeepsBounded(s: State, step: Step)
    requires Bounded(s)
    ensures Bounded(Apply(s, step))
  {
    if step.Submit? && SubmitFault(s, step.q).None? {
      var q := step.q;
      var n := |Of(s.observations, q.key)|;
      var taken := Take(q.evidence, MAX_OBSERVATIONS - n);
      InsertAddsAtMost(s.observations, q.key, taken);
      forall k ensures |Of(Apply(s, step).observations, k)| <= MAX_OBSERVATIONS {
        if k != q.key { assert Of(Insert(s.observations, q.key, taken), k) == Of(s.observations, k); }
      }
    }
  }

  lemma {:induction false} FewerTasks(o: map<Receipt, Observation>, rs: set<Receipt>)
    ensures |Tasks(o, rs)| <= |rs|
    decreases |rs|
  {
    if r :| r in rs {
      FewerTasks(o, rs - {r});
      if r in o {
        assert Tasks(o, rs) == Tasks(o, rs - {r}) + {o[r].taskHash};
      } else {
        assert Tasks(o, rs) == Tasks(o, rs - {r});
      }
    } else {
      assert Tasks(o, rs) == {};
    }
  }

  /** The counters of every candidate are in order. */
  predicate CountsOk(s: State) {
    forall k <- s.candidates :: s.candidates[k].distinctTasks <= s.candidates[k].occurrences <= MAX_OBSERVATIONS
  }

  lemma StepKeepsCounts(s: State, step: Step)
    requires Bounded(s) && CountsOk(s)
    ensures CountsOk(Apply(s, step))
  {
    if step.Submit? && SubmitFault(s, step.q).None? {
      var o, key := Apply(s, step).observations, step.q.key;
      var recent := Recent(o, key, step.q.countedAt);
      StepKeepsBounded(s, step);
      assert |Of(o, key)| <= MAX_OBSERVATIONS;
      Smaller(recent, Of(o, key));
      FewerTasks(o, recent);
    }
  }

  /** In every run no candidate counts more tasks than occurrences, or more occurrences than receipts. */
  lemma {:induction false} CountsAreBounded(s: State, steps: seq<Step>)
    requires Bounded(s) && CountsOk(s)
    ensures CountsOk(Run(s, steps))
    decreases |steps|
  {
    if steps != [] {
      StepKeepsBounded(s, steps[0]);
      StepKeepsCounts(s, steps[0]);
      CountsAreBounded(Apply(s, steps[0]), steps[1..]);
    }
  }

  /** No candidate ever has more than 5000 evidence receipts. */
  lemma {:induction false} EvidenceIsBounded(s: State, steps: seq<Step>, key: Key)
    requires Bounded(s)
    ensures |Of(Run(s, steps).observations, key)| <= MAX_OBSERVATIONS
    decreases |steps|
  {
    if steps != [] {
      StepKeepsBounded(s, steps[0]);
      EvidenceIsBounded(Apply(s, steps[0]), steps[1..], key);
    }
  }
}
