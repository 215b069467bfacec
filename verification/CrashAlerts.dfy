/**
  Delivery of crash alerts (src/crash-reports/crash-alerts.service.ts, processOne) together with the
  operations that reset an alert (src/crash-reports/crash-reports.service.ts: the reopen branch of submit,
  retryAlert, retention).

  Any number of workers run processOne at once and every database statement is one action. A run is named
  after its own `now`, so claim timestamps are distinct. A worker that dies takes no further action. A
  worker's update is confirmed, refused without effect, or lost: it took effect but the worker sees an error.
 */
module CrashAlerts {
  import opened Wrappers
  import opened Powers

  type Time = nat
  type Id = nat

  const MAX_ATTEMPTS := 8
  const CLAIM_TIMEOUT := 5 * 60 * 1000
  const MAX_BACKOFF := 60 * 60 * 1000

  datatype Alert = Pending | Sending | Sent | Failed

  /** `sentUnder` is history, the claim under which the alert was recorded as sent. No action reads it. */
  datatype Row = Row(resolved: bool, alert: Alert, generation: nat, attempts: nat, nextAttemptAt: Time,
                     claimedAt: Option<Time>, sentUnder: Option<Time>)

  datatype Report = Report(generation: nat, attempts: nat)
  datatype Pc =
    Picked | Claimed | Delivering(report: Report) | Delivered(report: Report) | Undelivered(report: Report) | Ended
  datatype Worker = Worker(id: Id, pc: Pc)

  datatype RetryPc = Allowed | RetryEnded
  datatype Retry = Retry(id: Id, pc: RetryPc)

  /** A send that returned without an error. */
  datatype Send = Send(id: Id, generation: nat, claim: Time)

  datatype State = State(rows: map<Id, Row>, workers: map<Time, Worker>, retries: map<Id, Retry>, sends: set<Send>)

  datatype Action =
    | Submit(id: Id, at: Time)
    | Review(id: Id, resolved: bool)
    | Reopen(id: Id, at: Time)
    | Expire(id: Id)
    | CheckRetry(q: Id, id: Id)
    | WriteRetry(q: Id, at: Time)
    | Pick(now: Time, id: Id)
    | Claim(now: Time, outcome: Outcome)
    | Load(now: Time, ok: bool)
    | Deliver(now: Time, success: bool)
    | RecordSent(now: Time, outcome: Outcome)
    | RecordFailure(now: Time, outcome: Outcome)

  predicate Ready(row: Row, now: Time) {
    && row.attempts < MAX_ATTEMPTS
    && ((row.alert.Pending? && row.nextAttemptAt <= now)
        || (row.alert.Sending? && row.claimedAt.Some? && row.claimedAt.value + CLAIM_TIMEOUT <= now))
  }

  function Backoff(attempts: nat): (ms: nat) {
    var ms := 30_000 * Pow2(if attempts >= 1 then attempts - 1 else 0);
    if ms < MAX_BACKOFF then ms else MAX_BACKOFF
  }

  predicate Enabled(s: State, a: Action) {
    match a
    case Submit(id, _) => id !in s.rows
    case Review(id, _) => id in s.rows
    case Reopen(id, _) => id in s.rows && s.rows[id].resolved
    case Expire(id) => id in s.rows
    case CheckRetry(q, id) => q !in s.retries && id in s.rows && s.rows[id].alert.Failed?
    case WriteRetry(q, _) => q in s.retries && s.retries[q].pc.Allowed?
    case Pick(now, id) => now !in s.workers && id in s.rows && Ready(s.rows[id], now)
    case Claim(now, _) => now in s.workers && s.workers[now].pc.Picked?
    case Load(now, _) => now in s.workers && s.workers[now].pc.Claimed?
    case Deliver(now, _) => now in s.workers && s.workers[now].pc.Delivering?
    case RecordSent(now, _) => now in s.workers && s.workers[now].pc.Delivered?
    case RecordFailure(now, _) => now in s.workers && s.workers[now].pc.Undelivered?
  }

  function Put(s: State, id: Id, row: Row): (s': State) {
    s.(rows := s.rows[id := row])
  }

  function Go(s: State, now: Time, pc: Pc): (s': State)
    requires now in s.workers
  {
    s.(workers := s.workers[now := s.workers[now].(pc := pc)])
  }

  /** Whether the guarded update of a run finds its row. */
  predicate HoldsClaim(s: State, now: Time)
    requires now in s.workers
  {
    var id := s.workers[now].id;
    id in s.rows && s.rows[id].alert.Sending? && s.rows[id].claimedAt == Some(now)
  }

  function Apply(s: State, a: Action): (s': State)
    requires Enabled(s, a)
  {
    match a
    case Submit(id, at) => Put(s, id, Row(false, Pending, 1, 0, at, None, None))
    case Review(id, resolved) => Put(s, id, s.rows[id].(resolved := resolved))
    case Reopen(id, at) => Put(s, id, Row(false, Pending, s.rows[id].generation + 1, 0, at, None, None))
    case Expire(id) => s.(rows := s.rows - {id})
    case CheckRetry(q, id) => s.(retries := s.retries[q := Retry(id, Allowed)])
    case WriteRetry(q, at) =>
      var id := s.retries[q].id;
      var done := s.(retries := s.retries[q := Retry(id, RetryEnded)]);
      if id !in s.rows then done
      else Put(done, id, s.rows[id].(alert := Pending, attempts := 0, nextAttemptAt := at, claimedAt := None))
    case Pick(now, id) => s.(workers := s.workers[now := Worker(id, Picked)])
    case Claim(now, outcome) =>
      var id := s.workers[now].id;
      if outcome.Refused? || id !in s.rows || !Ready(s.rows[id], now) then Go(s, now, Ended)
      else
        var row := s.rows[id];
        Go(Put(s, id, row.(alert := Sending, attempts := row.attempts + 1, claimedAt := Some(now))), now,
           if outcome.Lost? then Ended else Claimed)
    case Load(now, ok) =>
      var id := s.workers[now].id;
      if !ok || id !in s.rows then Go(s, now, Ended)
      else Go(s, now, Delivering(Report(s.rows[id].generation, s.rows[id].attempts)))
    case Deliver(now, success) =>
      var w := s.workers[now];
      if success then Go(s, now, Delivered(w.pc.report)).(sends := s.sends + {Send(w.id, w.pc.report.generation, now)})
      else Go(s, now, Undelivered(w.pc.report))
    case RecordSent(now, outcome) =>
      var w := s.workers[now];
      var next := if outcome.Confirmed? then Ended else Undelivered(w.pc.report);
      if outcome.Refused? || !HoldsClaim(s, now) then Go(s, now, next)
      else Go(Put(s, w.id, s.rows[w.id].(alert := Sent, claimedAt := None, sentUnder := Some(now))), now, next)
    case RecordFailure(now, outcome) =>
      var w := s.workers[now];
      if outcome.Refused? || !HoldsClaim(s, now) then Go(s, now, Ended)
      else
        var attempts := w.pc.report.attempts;
        Go(Put(s, w.id, s.rows[w.id].(alert := if attempts >= MAX_ATTEMPTS then Failed else Pending,
                                      nextAttemptAt := now + Backoff(attempts), claimedAt := None)), now, Ended)
  }

  ghost predicate Init(s: State) {
    s == State(map[], map[], map[], {})
  }

  // ---------------------------------------------------------------- invariant

  ghost predicate RowOk(s: State, id: Id)
    requires id in s.rows
  {
    var row := s.rows[id];
    && row.attempts <= MAX_ATTEMPTS
    && (row.alert.Pending? ==> row.attempts < MAX_ATTEMPTS)
    && (row.alert.Failed? ==> row.attempts == MAX_ATTEMPTS)
    && (row.alert.Sending? ==> row.attempts >= 1)
    && (row.alert.Sending? <==> row.claimedAt.Some?)
    && (row.claimedAt.Some? ==>
          var c := row.claimedAt.value;
          c in s.workers && s.workers[c].id == id && !s.workers[c].pc.Picked?)
    && (row.alert.Sent? ==> row.sentUnder.Some? && Send(id, row.generation, row.sentUnder.value) in s.sends)
  }

  /** A run that still holds its claim has read the row as it is now. */
  ghost predicate WorkerOk(s: State, now: Time)
    requires now in s.workers
  {
    var w := s.workers[now];
    && (w.pc.Delivered? ==> Send(w.id, w.pc.report.generation, now) in s.sends)
    && (HoldsClaim(s, now) && (w.pc.Delivering? || w.pc.Delivered? || w.pc.Undelivered?) ==>
          w.pc.report == Report(s.rows[w.id].generation, s.rows[w.id].attempts))
  }

  ghost predicate Inv(s: State) {
    && (forall id {:trigger RowOk(s, id)} | id in s.rows :: RowOk(s, id))
    && (forall now {:trigger WorkerOk(s, now)} | now in s.workers :: WorkerOk(s, now))
  }

  predicate RunStep(a: Action) {
    a.Claim? || a.Load? || a.Deliver? || a.RecordSent? || a.RecordFailure?
  }

  lemma RunStepKeepsRow(s: State, a: Action, id: Id)
    requires Inv(s) && Enabled(s, a) && RunStep(a) && id in Apply(s, a).rows
    ensures RowOk(Apply(s, a), id)
  {
    assert RowOk(s, id) && WorkerOk(s, a.now);
  }

  lemma StepKeepsRow(s: State, a: Action, id: Id)
    requires Inv(s) && Enabled(s, a) && id in Apply(s, a).rows
    ensures RowOk(Apply(s, a), id)
  {
    if RunStep(a) { RunStepKeepsRow(s, a, id); } else { assert id in s.rows ==> RowOk(s, id); }
  }

  lemma RunStepKeepsWorker(s: State, a: Action, now: Time)
    requires Inv(s) && Enabled(s, a) && RunStep(a) && now in s.workers
    ensures WorkerOk(Apply(s, a), now)
  {
    assert WorkerOk(s, now) && WorkerOk(s, a.now);
    if s.workers[now].id in s.rows { assert RowOk(s, s.workers[now].id); }
  }

  lemma StepKeepsWorker(s: State, a: Action, now: Time)
    requires Inv(s) && Enabled(s, a) && now in Apply(s, a).workers
    ensures WorkerOk(Apply(s, a), now)
  {
    if RunStep(a) {
      RunStepKeepsWorker(s, a, now);
    } else if now in s.workers {
      assert WorkerOk(s, now);
      if s.workers[now].id in s.rows { assert RowOk(s, s.workers[now].id); }
    }
  }

  lemma StepKeepsInv(s: State, a: Action)
    requires Inv(s) && Enabled(s, a)
    ensures Inv(Apply(s, a))
  {
    var s' := Apply(s, a);
    forall id <- s'.rows ensures RowOk(s', id) { StepKeepsRow(s, a, id); }
    forall now <- s'.workers ensures WorkerOk(s', now) { StepKeepsWorker(s, a, now); }
  }

  // ---------------------------------------------------------------- runs

  predicate Legal(s: State, actions: seq<Action>)
    decreases |actions|
  {
    actions == [] || (Enabled(s, actions[0]) && Legal(Apply(s, actions[0]), actions[1..]))
  }

  function Run(s: State, actions: seq<Action>): (s': State)
    requires Legal(s, actions)
    decreases |actions|
  {
    if actions == [] then s else Run(Apply(s, actions[0]), actions[1..])
  }

  lemma {:induction false} RunKeepsInv(s: State, actions: seq<Action>)
    requires Inv(s) && Legal(s, actions)
    ensures Inv(Run(s, actions))
    decreases |actions|
  {
    if actions != [] {
      StepKeepsInv(s, actions[0]);
      RunKeepsInv(Apply(s, actions[0]), actions[1..]);
    }
  }

  /** For any workers, deaths, recurrences and manual retries: attempts are bounded, a pending alert has
      attempts left, an alert is given up only after all of them, and an alert recorded as sent in some generation was
      sent in that generation. */
  lemma {:induction false} AlertsAreSound(s: State, actions: seq<Action>, id: Id)
    requires Init(s) && Legal(s, actions) && id in Run(s, actions).rows
    ensures var row := Run(s, actions).rows[id];
            && row.attempts <= MAX_ATTEMPTS
            && (row.alert.Pending? ==> row.attempts < MAX_ATTEMPTS)
            && (row.alert.Failed? ==> row.attempts == MAX_ATTEMPTS)
            && (row.alert.Sent? ==>
                  row.sentUnder.Some? && Send(id, row.generation, row.sentUnder.value) in Run(s, actions).sends)
  {
    RunKeepsInv(s, actions);
    assert RowOk(Run(s, actions), id);
  }

  /** An alert becomes Sent only by the run whose claim is current at that moment, and that run has
      delivered the generation being recorded. */
  lemma SentUnderCurrentClaim(s: State, a: Action, id: Id)
    requires Inv(s) && Enabled(s, a) && id in Apply(s, a).rows && Apply(s, a).rows[id].alert.Sent?
    requires id !in s.rows || !s.rows[id].alert.Sent?
    ensures a.RecordSent? && s.workers[a.now].id == id && s.rows[id].claimedAt == Some(a.now)
    ensures Send(id, s.rows[id].generation, a.now) in s.sends
    ensures Apply(s, a).rows[id].generation == s.rows[id].generation
  {
    if a.RecordSent? { assert WorkerOk(s, a.now); }
  }

  /** A claim is taken over only by a run that starts at least five minutes later, and that counts as one
      more attempt. */
  lemma ClaimOutlivesTimeout(s: State, a: Action, id: Id)
    requires Inv(s) && Enabled(s, a) && id in s.rows && id in Apply(s, a).rows
    requires s.rows[id].claimedAt.Some? && Apply(s, a).rows[id].claimedAt.Some?
    requires Apply(s, a).rows[id].claimedAt != s.rows[id].claimedAt
    ensures a.Claim? && Apply(s, a).rows[id].claimedAt == Some(a.now)
    ensures s.rows[id].claimedAt.value + CLAIM_TIMEOUT <= a.now
    ensures Apply(s, a).rows[id].attempts == s.rows[id].attempts + 1
  {
    assert RowOk(s, id);
  }

  /** Retries are spaced between 30 seconds and one hour, never closer after more attempts. */
  lemma BackoffGrows(m: nat, n: nat)
    requires m <= n
    ensures 30_000 <= Backoff(m) <= Backoff(n) <= MAX_BACKOFF
  {
    Pow2Grows(if m >= 1 then m - 1 else 0, if n >= 1 then n - 1 else 0);
  }

  // ---------------------------------------------------------------- what single steps do

  /** The delay after each failed attempt, in milliseconds: doubled from half a minute, at most an hour. */
  const DELAYS := [30_000, 60_000, 120_000, 240_000, 480_000, 960_000, 1_920_000, 3_600_000]

  lemma BackoffIs(attempt: nat)
    requires 1 <= attempt <= 8
    ensures Backoff(attempt) == DELAYS[attempt - 1]
  {
    assert Pow2(1) == 2 && Pow2(2) == 4 && Pow2(3) == 8 && Pow2(4) == 16;
    assert Pow2(5) == 2 * Pow2(4) && Pow2(6) == 2 * Pow2(5) && Pow2(7) == 2 * Pow2(6);
  }

  /** Every other row is as it was. */
  ghost predicate OthersKept(s: State, s': State, id: Id) {
    forall k | k != id :: (k in s'.rows <==> k in s.rows) && (k in s.rows ==> s'.rows[k] == s.rows[k])
  }

  /** A recorded failure gives the alert up exactly at its eighth attempt; before that it is pending again after
      the delay of that attempt. A run whose claim was taken over changes nothing. */
  lemma FailureOutcome(s: State, now: Time, outcome: Outcome)
    requires Inv(s) && Enabled(s, RecordFailure(now, outcome)) && !outcome.Refused?
    ensures var s', id := Apply(s, RecordFailure(now, outcome)), s.workers[now].id;
            if id in s.rows && s.rows[id].alert.Sending? && s.rows[id].claimedAt == Some(now) then
              var row := s.rows[id];
              && id in s'.rows && OthersKept(s, s', id)
              && (s'.rows[id].alert.Failed? <==> row.attempts == 8)
              && (s'.rows[id].alert.Pending? <==> row.attempts < 8)
              && 1 <= row.attempts <= 8 && s'.rows[id].nextAttemptAt == now + DELAYS[row.attempts - 1]
              && s'.rows[id].attempts == row.attempts && s'.rows[id].generation == row.generation
              && s'.rows[id].claimedAt.None?
            else
              s'.rows == s.rows
  {
    var id := s.workers[now].id;
    assert WorkerOk(s, now);
    if id in s.rows {
      assert RowOk(s, id);
      if s.rows[id].attempts >= 1 { BackoffIs(s.rows[id].attempts); }
    }
  }

  /** The alert may be claimed: it has attempts left, and it is due, or its claim is at least five minutes old. */
  predicate Due(row: Row, now: Time) {
    && row.attempts < 8
    && (match row.alert
        case Pending => row.nextAttemptAt <= now
        case Sending => row.claimedAt.Some? && now - row.claimedAt.value >= 300_000
        case _ => false)
  }

  /** A claim that reaches the database takes the row exactly if it is still due, as one more attempt; a run looks only
      at rows that are. */
  lemma ClaimOutcome(s: State, now: Time, outcome: Outcome)
    requires Enabled(s, Claim(now, outcome)) && !outcome.Refused?
    ensures var s', id := Apply(s, Claim(now, outcome)), s.workers[now].id;
            && s'.sends == s.sends
            && (if id in s.rows && Due(s.rows[id], now) then
                  && s'.rows == s.rows[id := s'.rows[id]] && s'.rows[id].alert.Sending?
                  && s'.rows[id].attempts == s.rows[id].attempts + 1 && s'.rows[id].claimedAt == Some(now)
                  && s'.rows[id].generation == s.rows[id].generation && s'.rows[id].resolved == s.rows[id].resolved
                else
                  s'.rows == s.rows && s'.workers[now].pc.Ended?)
    ensures forall t, id :: Enabled(s, Pick(t, id)) <==> t !in s.workers && id in s.rows && Due(s.rows[id], t)
  {
  }

  /** The row is waiting for its first attempt, due at the given time. */
  predicate Renewed(row: Row, at: Time, generation: nat) {
    && row.alert.Pending? && row.attempts == 0 && row.nextAttemptAt == at && row.claimedAt.None?
    && row.generation == generation
  }

  /** A new report, a recurrence after resolution and a manual retry each put the alert back to its beginning; a
      recurrence is a new generation to be delivered, a retry is not. */
  lemma ResetOutcome(s: State, a: Action)
    requires Enabled(s, a) && (a.Submit? || a.Reopen? || a.WriteRetry?)
    ensures var s' := Apply(s, a);
            match a
            case Submit(id, at) =>
              OthersKept(s, s', id) && id in s'.rows && Renewed(s'.rows[id], at, 1) && !s'.rows[id].resolved
            case Reopen(id, at) =>
              && OthersKept(s, s', id) && id in s'.rows && Renewed(s'.rows[id], at, s.rows[id].generation + 1)
              && !s'.rows[id].resolved
            case WriteRetry(q, at) =>
              var id := s.retries[q].id;
              && OthersKept(s, s', id) && (id in s'.rows <==> id in s.rows)
              && (id in s.rows ==>
                    Renewed(s'.rows[id], at, s.rows[id].generation) && s'.rows[id].resolved == s.rows[id].resolved)
            case _ => true
  {
  }

  // ---------------------------------------------------------------- delivery

  lemma {:induction false} RunSnoc(s: State, actions: seq<Action>, a: Action)
    requires Legal(s, actions) && Enabled(Run(s, actions), a)
    ensures Legal(s, actions + [a]) && Run(s, actions + [a]) == Apply(Run(s, actions), a)
    decreases |actions|
  {
    if actions == [] {
      var s' := Apply(s, a);
      assert ([] + [a])[1..] == [] && Legal(s', []) && Run(s', []) == s';
    } else {
      assert (actions + [a])[1..] == actions[1..] + [a];
      RunSnoc(Apply(s, actions[0]), actions[1..], a);
    }
  }

  ghost predicate Reaches(s: State, actions: seq<Action>, s': State) {
    Legal(s, actions) && Run(s, actions) == s'
  }

  lemma Then(s: State, actions: seq<Action>, s1: State, a: Action) returns (more: seq<Action>, s': State)
    requires Reaches(s, actions, s1) && Enabled(s1, a)
    ensures Reaches(s, more, s') && s' == Apply(s1, a)
  {
    RunSnoc(s, actions, a);
    more, s' := actions + [a], Apply(s1, a);
  }

  /** The row with one more attempt, claimed by this run. */
  function ClaimedBy(row: Row, now: Time): (row': Row) {
    row.(alert := Sending, attempts := row.attempts + 1, claimedAt := Some(now))
  }

  lemma DueAlertIsClaimed(s: State, id: Id, now: Time) returns (actions: seq<Action>, s': State)
    requires id in s.rows && Due(s.rows[id], now) && now !in s.workers
    ensures Reaches(s, actions, s') && s'.rows == s.rows[id := ClaimedBy(s.rows[id], now)]
    ensures now in s'.workers && s'.workers[now] == Worker(id, Claimed) && s'.sends == s.sends
  {
    actions, s' := [], s;
    actions, s' := Then(s, actions, s', Pick(now, id));
    actions, s' := Then(s, actions, s', Claim(now, Confirmed));
  }

  lemma ClaimedAlertIsSent(s: State, actions: seq<Action>, s1: State, id: Id, now: Time)
    returns (more: seq<Action>, s': State)
    requires Reaches(s, actions, s1) && now in s1.workers && s1.workers[now] == Worker(id, Claimed)
    requires id in s1.rows && s1.rows[id].alert.Sending? && s1.rows[id].claimedAt == Some(now)
    ensures Reaches(s, more, s')
    ensures s'.rows == s1.rows[id := s1.rows[id].(alert := Sent, claimedAt := None, sentUnder := Some(now))]
    ensures s'.sends == s1.sends + {Send(id, s1.rows[id].generation, now)}
  {
    more, s' := Then(s, actions, s1, Load(now, true));
    assert s'.rows == s1.rows && s'.sends == s1.sends;
    more, s' := Then(s, more, s', Deliver(now, true));
    more, s' := Then(s, more, s', RecordSent(now, Confirmed));
  }

  /** Any alert that is due, after whatever failures, also one whose worker has died with attempts left, is delivered
      by a run that nothing goes wrong in. */
  lemma DueAlertIsDelivered(s: State, id: Id, now: Time) returns (actions: seq<Action>, s': State)
    requires id in s.rows && Due(s.rows[id], now) && now !in s.workers
    ensures Reaches(s, actions, s') && id in s'.rows && OthersKept(s, s', id)
    ensures s'.rows[id].alert.Sent? && s'.rows[id].generation == s.rows[id].generation
    ensures s'.rows[id].attempts == s.rows[id].attempts + 1
    ensures s'.sends == s.sends + {Send(id, s.rows[id].generation, now)}
  {
    actions, s' := DueAlertIsClaimed(s, id, now);
    actions, s' := ClaimedAlertIsSent(s, actions, s', id, now);
  }
}
