/** What submissions and reviews of learnings do (src/learnings/learnings.service.ts), said from the tables before the
    step, and where the text of an approved learning comes from. */
module LearningEffects {
  import opened Wrappers
  import opened LearningLedger

  // ---------------------------------------------------------------- one review

  /** The text that an approval puts in force: the pending one, or else the candidate's own. */
  predicate ApprovedText(c: Candidate, summary: string, rationale: Option<string>) {
    match c.pendingSummary
    case Some(text) => summary == text && (text != "" ==> rationale == c.pendingRationale)
    case None => summary == c.summary && rationale == c.rationale
  }

  /** No learning with this key is in force. */
  ghost predicate Absent(s: State, key: Key) {
    forall l <- Bundle(s, key.org) :: l.patternKey != key.patternKey || l.kind != key.kind
  }

  /** After an approval the bundle has the pending text under this key, if there was any, and otherwise the
      candidate's own; after a rejection it has what it had; after a revocation it has nothing. In each case the
      proposal is gone and the revision is signed and counted. */
  lemma ReviewOutcome(s: State, key: Key, expected: nat, d: Decision, sig: Signature)
    requires ReviewFault(s, key, expected, d).None?
    ensures key in s.candidates && key in Reviewed(s, key, expected, d, sig).candidates
    ensures var c, s' := s.candidates[key], Reviewed(s, key, expected, d, sig);
            var c' := s'.candidates[key];
            && c'.id == c.id && c'.revision == expected + 1 && c.revision == expected
            && c'.pendingSummary.None? && c'.pendingRationale.None? && c'.pendingAt.None?
            && c'.reviewedAt == Some(sig.at) && c'.reviewedBy == Some(sig.signer)
            && c'.occurrences == c.occurrences && c'.distinctTasks == c.distinctTasks
            && s'.observations == s.observations && s'.candidates == s.candidates[key := c']
    ensures var c, s' := s.candidates[key], Reviewed(s, key, expected, d, sig);
            match d
            case Approve =>
              ApprovedText(c, s'.candidates[key].summary, s'.candidates[key].rationale)
              && Learning(c.id, key.patternKey, key.kind, s'.candidates[key].summary, s'.candidates[key].rationale)
                 in Bundle(s', key.org)
            case Reject =>
              && Bundle(s', key.org) == Bundle(s, key.org)
              && (c.status.Approved? ==> c.pendingSummary.Some? && s'.candidates[key].status.Approved?)
              && (!c.status.Approved? ==> s'.candidates[key].status.Rejected? && Absent(s', key))
            case Revoke => c.status.Approved? && s'.candidates[key].status.Revoked? && Absent(s', key)
  {
    var s' := Reviewed(s, key, expected, d, sig);
    match d
    case Approve => assert s'.candidates[key].status.Approved?;
    case _ =>
      if d.Reject? { SameBundle(s, s', key, key.org); }
      if !s'.candidates[key].status.Approved? {
        forall l <- Bundle(s', key.org) ensures l.patternKey != key.patternKey || l.kind != key.kind {
          if l.patternKey == key.patternKey && l.kind == key.kind { BundleOwn(s', key, l); }
        }
      }
  }

  // ---------------------------------------------------------------- one submission

  /** The receipts of a candidate from the last thirty days before `at`. */
  function Counting(o: map<Receipt, Observation>, key: Key, at: Time): (rs: set<Receipt>) {
    set r | r in o && o[r].key == key && at - o[r].observedAt <= 2_592_000_000
  }

  /** No receipt is forgotten or altered; new ones are of this candidate and as they were sent. */
  ghost predicate Extends(o: map<Receipt, Observation>, o': map<Receipt, Observation>, key: Key, es: seq<Evidence>) {
    && (forall r <- o :: r in o' && o'[r] == o[r])
    && (forall r <- o' ::
          r in o || exists e <- es :: e.receipt == r && o'[r] == Observation(key, e.taskHash, e.observedAt))
  }

  lemma {:induction false} InsertExtends(o: map<Receipt, Observation>, key: Key, es: seq<Evidence>)
    ensures Extends(o, Insert(o, key, es), key, es)
    ensures forall e <- es :: e.receipt in Insert(o, key, es)
    decreases |es|
  {
    if es != [] {
      var first, rest := Add(o, key, es[0]), es[1..];
      InsertExtends(first, key, rest);
      assert es == [es[0]] + rest;
      forall r | r in Insert(o, key, es) && r !in o
        ensures exists e <- es :: e.receipt == r && Insert(o, key, es)[r] == Observation(key, e.taskHash, e.observedAt)
      {
        if r in first {
          assert es[0] in es && es[0].receipt == r;
        } else {
          var e :| e in rest && e.receipt == r
                   && Insert(first, key, rest)[r] == Observation(key, e.taskHash, e.observedAt);
          assert e in es;
        }
      }
    }
  }

  /** What a proposal does to a candidate that exists: a pending text is replaced; any other candidate keeps its text
      and status and remembers the proposal, unless it says the same already. */
  predicate Proposes(c: Candidate, c': Candidate, q: Submission) {
    && c'.id == c.id && c'.status == c.status && c'.revision == c.revision && c'.reviewedAt == c.reviewedAt
    && (if c.status.Pending? || (c.summary == q.summary && c.rationale == q.rationale) then
          && c'.summary == q.summary && c'.rationale == q.rationale
          && c'.pendingSummary == c.pendingSummary && c'.pendingRationale == c.pendingRationale
        else
          && c'.summary == c.summary && c'.rationale == c.rationale
          && c'.pendingSummary == Some(q.summary) && c'.pendingRationale == q.rationale
          && c'.pendingAt == Some(q.proposedAt))
  }

  /** A submission is refused exactly for evidence more than five minutes in the future or a full candidate, and then
      it changes nothing. */
  lemma SubmissionIsRefused(s: State, q: Submission)
    ensures SubmitFault(s, q).None? <==>
              (forall e <- q.evidence :: e.observedAt <= q.checkedAt + 300_000) && |Of(s.observations, q.key)| < 5000
    ensures SubmitFault(s, q).Some? ==> Submitted(s, q) == s
  {
  }

  /** An accepted one stores its evidence, as far as there is room for it, once per receipt. */
  lemma EvidenceIsRecorded(s: State, q: Submission)
    requires SubmitFault(s, q).None?
    ensures var room := 5000 - |Of(s.observations, q.key)|;
            var es := if |q.evidence| <= room then q.evidence else q.evidence[..room];
            && Extends(s.observations, Submitted(s, q).observations, q.key, es)
            && forall e <- es :: e.receipt in Submitted(s, q).observations
  {
    InsertExtends(s.observations, q.key, Take(q.evidence, MAX_OBSERVATIONS - |Of(s.observations, q.key)|));
  }

  /** It stores its proposal and touches no other candidate and no version. */
  lemma ProposalIsStored(s: State, q: Submission)
    requires SubmitFault(s, q).None?
    ensures var s' := Submitted(s, q);
            && q.key in s'.candidates && s'.candidates == s.candidates[q.key := s'.candidates[q.key]]
            && s'.versions == s.versions && s'.candidates[q.key].sourceVersion == q.sourceVersion
            && (q.key in s.candidates ==> Proposes(s.candidates[q.key], s'.candidates[q.key], q))
            && (q.key !in s.candidates ==>
                  var c' := s'.candidates[q.key];
                  && c'.status.Pending? && c'.id == q.id && c'.summary == q.summary && c'.rationale == q.rationale
                  && c'.revision == 1 && c'.pendingSummary.None?)
  {
  }

  /** And it counts the receipts of the last thirty days, and the tasks they come from. */
  lemma RecurrencesAreCounted(s: State, q: Submission)
    requires SubmitFault(s, q).None?
    ensures var s' := Submitted(s, q);
            var counting := Counting(s'.observations, q.key, q.countedAt);
            && s'.candidates[q.key].occurrences == |counting|
            && s'.candidates[q.key].distinctTasks == |set r | r in counting :: s'.observations[r].taskHash|
  {
    var o := Submitted(s, q).observations;
    var recent := Recent(o, q.key, q.countedAt);
    assert recent == Counting(o, q.key, q.countedAt);
    assert Tasks(o, recent) == set r | r in recent :: o[r].taskHash;
  }

  // ---------------------------------------------------------------- where approved text comes from

  datatype Proposal = Proposal(key: Key, summary: string, rationale: Option<string>)

  function ProposalsOf(steps: seq<Step>): (ps: set<Proposal>) {
    set step | step in steps && step.Submit? :: Proposal(step.q.key, step.q.summary, step.q.rationale)
  }

  function ApprovalsOf(steps: seq<Step>): (ks: set<Key>) {
    set step | step in steps && step.Review? && step.d.Approve? :: step.key
  }

  /** Every text in the tables was proposed by some device, and whatever is approved was approved by a review. */
  ghost predicate Grounded(s: State, proposals: set<Proposal>, approvals: set<Key>) {
    forall k | k in s.candidates ::
      var c := s.candidates[k];
      && Proposal(k, c.summary, c.rationale) in proposals
      && (c.pendingSummary.Some? ==>
            c.pendingSummary.value != "" && Proposal(k, c.pendingSummary.value, c.pendingRationale) in proposals)
      && (c.status.Approved? ==> k in approvals)
  }

  predicate TextGiven(step: Step) {
    step.Submit? ==> step.q.summary != ""
  }

  lemma StepStaysGrounded(s: State, step: Step, proposals: set<Proposal>, approvals: set<Key>)
    requires Grounded(s, proposals, approvals) && TextGiven(step)
    ensures Grounded(Apply(s, step), proposals + ProposalsOf([step]), approvals + ApprovalsOf([step]))
  {
    match step
    case Submit(q) => assert step in [step] && Proposal(q.key, q.summary, q.rationale) in ProposalsOf([step]);
    case Review(key, _, d, _) => assert d.Approve? ==> step in [step] && key in ApprovalsOf([step]);
  }

  lemma {:induction false} RunStaysGrounded(s: State, steps: seq<Step>, proposals: set<Proposal>, approvals: set<Key>)
    requires Grounded(s, proposals, approvals) && forall step <- steps :: TextGiven(step)
    ensures Grounded(Run(s, steps), proposals + ProposalsOf(steps), approvals + ApprovalsOf(steps))
    decreases |steps|
  {
    if steps == [] {
      assert Run(s, steps) == s;
    } else {
      var rest := steps[1..];
      assert steps == [steps[0]] + rest;
      StepStaysGrounded(s, steps[0], proposals, approvals);
      RunStaysGrounded(Apply(s, steps[0]), rest, proposals + ProposalsOf([steps[0]]),
                       approvals + ApprovalsOf([steps[0]]));
      assert ProposalsOf(steps) == ProposalsOf([steps[0]]) + ProposalsOf(rest);
      assert ApprovalsOf(steps) == ApprovalsOf([steps[0]]) + ApprovalsOf(rest);
    }
  }

  /** In every run from empty tables, each learning in a bundle carries, word for word, the summary and rationale of
      one submission under its key, and its key has been approved by a review. */
  lemma {:induction false} BundleIsGrounded(steps: seq<Step>, org: Org, l: Learning)
    requires forall step <- steps :: TextGiven(step)
    requires l in Bundle(Run(State(map[], map[], map[]), steps), org)
    ensures var key := Key(org, l.patternKey, l.kind);
            && (exists step <- steps ::
                  step.Submit? && step.q.key == key && step.q.summary == l.summary && step.q.rationale == l.rationale)
            && (exists step <- steps :: step.Review? && step.d.Approve? && step.key == key)
  {
    var s0 := State(map[], map[], map[]);
    RunStaysGrounded(s0, steps, {}, {});
    var s := Run(s0, steps);
    var k :| k in s.candidates && k.org == org && s.candidates[k].status.Approved?
             && l == LearningOf(k, s.candidates[k]);
    assert k == Key(org, l.patternKey, l.kind);
    assert Proposal(k, l.summary, l.rationale) in ProposalsOf(steps);
  }
}
