/**
  The crash-prone work queue of the Feishu monitor (scripts/hara-feishu-monitor.py).

  One message is followed through the four directories. The poll thread enqueues it, the worker thread
  processes it, and the two interleave at every durable write. A crash, or an exception that leaves
  process_record, may come between any two of them. Reading an existing file succeeds. The nextAttemptAt
  delays are left to chance, and so are the answers of every backend.
 */
module FeishuMonitor {
  import opened Wrappers

  const MAX_ATTEMPTS := 3

  datatype Dir = Done | Failed | Skipped
  datatype Transition = BeforeWorker(attempt: nat) | Terminal(dir: Dir)
  datatype Record = Record(attempts: nat, ready: nat, pending: Option<Transition>)

  const FRESH := Record(0, 0, None)

  /** Where the worker thread is, with the record it holds in memory. */
  datatype Pc =
    | Idle
    | Continuing
    | Checking(r: Record)
    | Applying(r: Record, resume: Option<nat>)
    | Resuming(attempt: nat)
    | Starting(r: Record, attempt: nat)
    | Launching(r: Record, attempt: nat)
    | Running(r: Record, attempt: nat)
    | Exited(attempt: nat, success: bool)
    | Reporting(r: Record, attempt: nat, success: bool)
    | Finishing(dir: Dir)
    | Unlinking(dir: Dir)

  /** `rewrites` is how often enqueue saves its record again, once per configured backend; `left` how often
      it still will. The other fields are history since the message was enqueued: the attempts launched, the
      interruptions, whether a terminal transition was stored. No action reads them. */
  datatype State = State(rewrites: nat, queue: Option<Record>, finished: set<Dir>, left: nat, worker: Pc,
                         enqueued: bool, launches: seq<nat>, crashes: nat, terminal: bool)

  datatype Action =
    | Enqueue
    | Rewrite
    | StoreSkipped
    | Prune(dir: Dir)
    | Crash
    | Raise
    | Quarantine
    | Load
    | Continue
    | Leave
    | Save
    | Settle
    | Link
    | Start
    | Sync(ok: bool)
    | Resume
    | Begin
    | Launch(ok: bool)
    | Heartbeat
    | Exit(success: bool)
    | Reload
    | Report
    | WriteCopy
    | Unlink

  predicate Exists(s: State) {
    s.queue.Some? || s.finished != {}
  }

  predicate Enabled(s: State, a: Action) {
    match a
    case Enqueue => s.left == 0
    case Rewrite => s.left > 0
    case StoreSkipped => s.left == 0
    case Prune(dir) => s.worker.Idle? && dir in s.finished
    case Crash => true
    case Raise => true
    case Quarantine => s.worker.Idle? && s.queue.Some?
    case Load => s.worker.Idle? && s.queue.Some?
    case Continue => s.worker.Continuing? && s.queue.Some?
    case Leave => s.worker.Checking?
    case Save => s.worker.Checking?
    case Settle => s.worker.Checking?
    case Link => s.worker.Checking?
    case Start => s.worker.Checking?
    case Sync(_) => s.worker.Applying? && s.worker.r.pending.Some?
    case Resume => s.worker.Resuming? && s.queue.Some?
    case Begin => s.worker.Starting?
    case Launch(_) => s.worker.Launching?
    case Heartbeat => s.worker.Running?
    case Exit(_) => s.worker.Running?
    case Reload => s.worker.Exited? && s.queue.Some?
    case Report => s.worker.Reporting?
    case WriteCopy => s.worker.Finishing?
    case Unlink => s.worker.Unlinking?
  }

  /** Save the record in the queue directory and go on. */
  function Write(s: State, r: Record, pc: Pc): (s': State) {
    s.(queue := Some(r), worker := pc, enqueued := true,
       terminal := s.terminal || (r.pending.Some? && r.pending.value.Terminal?))
  }

  function At(s: State, pc: Pc): (s': State) {
    s.(worker := pc)
  }

  /** Retry one durable transition at the backends. */
  function Synced(s: State, r: Record, resume: Option<nat>, ok: bool): (s': State)
    requires r.pending.Some?
  {
    if !ok then Write(s, r, Idle)
    else
      match r.pending.value
      case BeforeWorker(attempt) =>
        Write(s, r.(pending := None, ready := attempt), if resume.Some? then Resuming(resume.value) else Continuing)
      case Terminal(dir) => At(s, Finishing(dir))
  }

  function Begun(s: State, r: Record): (s': State) {
    if r.ready != 0 then At(s, Starting(r.(ready := 0), r.ready))
    else
      var attempt := r.attempts + 1;
      var r' := r.(pending := Some(BeforeWorker(attempt)));
      Write(s, r', Applying(r', Some(attempt)))
  }

  function Reported(s: State, r: Record, attempt: nat, success: bool): (s': State) {
    if success || attempt >= MAX_ATTEMPTS then
      var r' := r.(pending := Some(Terminal(if success then Done else Failed)));
      Write(s, r', Applying(r', None))
    else
      Write(s, r, Idle)
  }

  function Apply(s: State, a: Action): (s': State)
    requires Enabled(s, a)
  {
    match a
    case Enqueue =>
      if Exists(s) then s
      else
        s.(queue := Some(FRESH), left := s.rewrites, enqueued := true, launches := [], crashes := 0, terminal := false)
    case Rewrite => s.(queue := Some(FRESH), left := s.left - 1, enqueued := true)
    case StoreSkipped => if Exists(s) then s else s.(finished := {Skipped}, enqueued := true)
    case Prune(dir) =>
      var rest := s.finished - {dir};
      s.(finished := rest, enqueued := s.queue.Some? || rest != {})
    case Crash => s.(worker := Idle, left := 0, crashes := s.crashes + 1)
    case Raise => s.(worker := Idle, crashes := s.crashes + 1)
    case Quarantine => At(s, Finishing(Skipped))
    case Load => At(s, if s.queue.value.pending.Some? then Applying(s.queue.value, None) else Continuing)
    case Continue => At(s, Checking(s.queue.value))
    case Leave => At(s, Idle)
    case Save => Write(s, s.worker.r, s.worker)
    case Settle => At(s, Finishing(Done))
    case Link =>
      var r' := s.worker.r.(pending := Some(Terminal(Done)));
      Write(s, r', Applying(r', None))
    case Start => Begun(s, s.worker.r)
    case Sync(ok) => Synced(s, s.worker.r, s.worker.resume, ok)
    case Resume =>
      var r, attempt := s.queue.value, s.worker.attempt;
      At(s, if r.ready == attempt then Starting(r.(ready := 0), attempt) else Finishing(Failed))
    case Begin =>
      var r' := s.worker.r.(attempts := s.worker.attempt);
      Write(s, r', Launching(r', s.worker.attempt))
    case Launch(ok) =>
      if ok then At(s, Running(s.worker.r, s.worker.attempt)).(launches := s.launches + [s.worker.attempt])
      else At(s, Exited(s.worker.attempt, false))
    case Heartbeat => Write(s, s.worker.r, s.worker)
    case Exit(success) => At(s, Exited(s.worker.attempt, success))
    case Reload => At(s, Reporting(s.queue.value, s.worker.attempt, s.worker.success))
    case Report => Reported(s, s.worker.r, s.worker.attempt, s.worker.success)
    case WriteCopy => At(s, Unlinking(s.worker.dir)).(finished := s.finished + {s.worker.dir})
    case Unlink => At(s, Idle).(queue := None)
  }

  ghost predicate Init(s: State) {
    s == State(s.rewrites, None, {}, 0, Idle, false, [], 0, false)
  }

  predicate Legal(s: State, actions: seq<Action>)
    decreases |actions|
  {
    actions == [] || (Enabled(s, actions[0]) && Legal(Apply(s, actions[0]), actions[1..]))
  }

  function Run(s: State, actions: seq<Action>): (s': State)
    requires Legal(s, actions)
    decreases |actions|
  {
    if actions == [] then s else Run(Apply(s, actions[0]), actions[1..])
  }

  // ---------------------------------------------------------------- never lost

  ghost predicate Kept(s: State) {
    && (s.enqueued ==> Exists(s))
    && (s.worker.Unlinking? ==> s.worker.dir in s.finished)
  }

  lemma {:induction false} RecordIsNeverLost(s: State, actions: seq<Action>)
    requires Kept(s) && Legal(s, actions)
    ensures Kept(Run(s, actions))
    decreases |actions|
  {
    if actions != [] {
      var s' := Apply(s, actions[0]);
      if actions[0].WriteCopy? { assert s.worker.dir in s'.finished; }
      if actions[0].StoreSkipped? { assert Skipped in s'.finished || s' == s; }
      RecordIsNeverLost(s', actions[1..]);
    }
  }

  /** In every interleaving and with crashes anywhere, an enqueued message is in at least one directory
      until it is pruned from the last one. */
  lemma {:induction false} AlwaysInSomeDirectory(s: State, actions: seq<Action>)
    requires Init(s) && Legal(s, actions) && Run(s, actions).enqueued
    ensures Exists(Run(s, actions))
  {
    RecordIsNeverLost(s, actions);
  }

  // ---------------------------------------------------------------- attempts

  /** The worker leaves a message alone while its enqueue call still has to save it. */
  predicate Patient(s: State, a: Action) {
    a.Load? || a.Quarantine? ==> s.left == 0
  }

  ghost predicate AllPatient(s: State, actions: seq<Action>)
    requires Legal(s, actions)
    decreases |actions|
  {
    actions == [] || (Patient(s, actions[0]) && AllPatient(Apply(s, actions[0]), actions[1..]))
  }

  predicate Increasing(xs: seq<nat>) {
    forall i, j | 0 <= i < j < |xs| :: xs[i] < xs[j]
  }

  predicate AtMost(xs: seq<nat>, n: nat) {
    forall x <- xs :: x <= n
  }

  /** A stored record: a waiting or granted attempt is the next one. */
  ghost predicate RecordOk(r: Record) {
    && (r.ready == 0 || r.ready == r.attempts + 1)
    && (r.pending.Some? && r.pending.value.BeforeWorker? ==> r.pending.value.attempt == r.attempts + 1)
  }

  /** No attempt is waiting or granted. */
  ghost predicate Plain(r: Record) {
    r.ready == 0 && r.pending.None?
  }

  predicate InFlight(pc: Pc) {
    pc.Launching? || pc.Running? || pc.Exited? || pc.Reporting?
  }

  /** What the worker holds in memory agrees with the file. */
  ghost predicate WorkerOk(s: State, q: Record) {
    match s.worker
    case Idle => true
    case Continuing => q.pending.None?
    case Checking(r) => q == r && r.pending.None?
    case Applying(r, resume) =>
      && q == r && r.pending.Some?
      && (r.pending.value.BeforeWorker? && resume.Some? ==> resume.value == r.attempts + 1)
    case Resuming(attempt) => q.pending.None? && q.ready == attempt && attempt == q.attempts + 1
    case Starting(r, attempt) => Plain(r) && attempt == r.attempts + 1 && q.attempts == r.attempts && q.pending.None?
    case Launching(r, attempt) => q == r && Plain(r) && r.attempts == attempt > 0
    case Running(r, attempt) => q == r && Plain(r) && r.attempts == attempt
    case Exited(attempt, _) => Plain(q) && q.attempts == attempt
    case Reporting(r, attempt, _) => q == r && Plain(r) && r.attempts == attempt
    case Finishing(_) => true
    case Unlinking(_) => true
  }

  ghost predicate QueueOk(s: State, q: Record) {
    && RecordOk(q) && WorkerOk(s, q)
    && AtMost(s.launches, q.attempts)
    && (s.worker.Launching? ==> forall x <- s.launches :: x < q.attempts)
    && (q.pending == None || q.pending.value.BeforeWorker? ==> !s.terminal)
    && q.attempts <= MAX_ATTEMPTS + s.crashes
    && (!s.terminal && !InFlight(s.worker) ==> q.attempts < MAX_ATTEMPTS + s.crashes)
  }

  ghost predicate Inv(s: State) {
    && Increasing(s.launches) && (forall x <- s.launches :: x > 0)
    && AtMost(s.launches, MAX_ATTEMPTS + s.crashes)
    && (s.queue.Some? ==> QueueOk(s, s.queue.value))
    && (s.queue.None? ==> s.worker.Idle?)
    && (s.left > 0 ==> s.worker.Idle? && s.queue == Some(FRESH) && s.launches == [])
  }

  lemma PollKeepsInv(s: State, a: Action)
    requires Inv(s) && Enabled(s, a) && Patient(s, a)
    requires a.Enqueue? || a.Rewrite? || a.StoreSkipped? || a.Prune? || a.Crash? || a.Raise? || a.Quarantine?
    ensures Inv(Apply(s, a))
    ensures s.terminal && Apply(s, a).terminal ==> Apply(s, a).launches == s.launches
  {
  }

  lemma CheckKeepsInv(s: State, a: Action)
    requires Inv(s) && Enabled(s, a) && Patient(s, a)
    requires a.Load? || a.Continue? || a.Leave? || a.Save? || a.Settle? || a.Link? || a.Start? || a.WriteCopy?
             || a.Unlink?
    ensures Inv(Apply(s, a))
    ensures s.terminal && Apply(s, a).terminal ==> Apply(s, a).launches == s.launches
  {
  }

  lemma AttemptKeepsInv(s: State, a: Action)
    requires Inv(s) && Enabled(s, a) && Patient(s, a)
    requires a.Heartbeat? || a.Exit? || a.Reload? || a.Report?
    ensures Inv(Apply(s, a))
    ensures s.terminal && Apply(s, a).terminal ==> Apply(s, a).launches == s.launches
  {
  }

  lemma StartKeepsInv(s: State, a: Action)
    requires Inv(s) && Enabled(s, a) && Patient(s, a)
    requires a.Sync? || a.Resume? || a.Begin?
    ensures Inv(Apply(s, a))
    ensures s.terminal && Apply(s, a).terminal ==> Apply(s, a).launches == s.launches
  {
  }

  lemma LaunchKeepsInv(s: State, a: Action)
    requires Inv(s) && Enabled(s, a) && Patient(s, a)
    requires a.Launch?
    ensures Inv(Apply(s, a))
    ensures s.terminal && Apply(s, a).terminal ==> Apply(s, a).launches == s.launches
  {
    var attempt := s.worker.attempt;
    var xs := s.launches + [attempt];
    assert s.queue.Some?;
    assert forall i | 0 <= i < |s.launches| :: s.launches[i] in s.launches;
    assert Increasing(xs);
    assert forall x <- xs :: x in s.launches || x == attempt;
  }

  lemma StepKeepsInv(s: State, a: Action)
    requires Inv(s) && Enabled(s, a) && Patient(s, a)
    ensures Inv(Apply(s, a))
    ensures s.terminal && Apply(s, a).terminal ==> Apply(s, a).launches == s.launches
  {
    match a
    case Enqueue | Rewrite | StoreSkipped | Prune(_) | Crash | Raise | Quarantine => PollKeepsInv(s, a);
    case Launch(_) => LaunchKeepsInv(s, a);
    case Sync(_) | Resume | Begin => StartKeepsInv(s, a);
    case Heartbeat | Exit(_) | Reload | Report => AttemptKeepsInv(s, a);
    case _ => CheckKeepsInv(s, a);
  }

  lemma {:induction false} RunKeepsInv(s: State, actions: seq<Action>)
    requires Inv(s) && Legal(s, actions) && AllPatient(s, actions)
    ensures Inv(Run(s, actions))
    decreases |actions|
  {
    if actions != [] {
      StepKeepsInv(s, actions[0]);
      RunKeepsInv(Apply(s, actions[0]), actions[1..]);
    }
  }

  /** The three rules: attempts are launched in strictly increasing order; there are at most three launches
      plus one per interruption; and no launch is possible once a terminal transition is stored, short of a
      new enqueue of a pruned message. */
  predicate InOrder(s: State) {
    Increasing(s.launches)
  }

  predicate Few(s: State) {
    |s.launches| <= MAX_ATTEMPTS + s.crashes
  }

  predicate Settled(s: State) {
    s.terminal ==> !s.worker.Launching?
  }

  lemma {:induction false} IncreasingFrom(xs: seq<nat>, i: nat)
    requires Increasing(xs) && (forall x <- xs :: x > 0) && i < |xs|
    ensures xs[i] > i
  {
    assert xs[i] in xs;
    if i > 0 { IncreasingFrom(xs, i - 1); }
  }

  lemma IncreasingIsShort(xs: seq<nat>, n: nat)
    requires Increasing(xs) && AtMost(xs, n) && forall x <- xs :: x > 0
    ensures |xs| <= n
  {
    if xs != [] {
      IncreasingFrom(xs, |xs| - 1);
      assert xs[|xs| - 1] in xs;
    }
  }

  /** If the worker is patient, all three rules hold, whatever crashes and whichever backends answer. */
  lemma {:induction false} PatientRunsAreDisciplined(s: State, actions: seq<Action>)
    requires Init(s) && Legal(s, actions) && AllPatient(s, actions)
    ensures InOrder(Run(s, actions)) && Few(Run(s, actions)) && Settled(Run(s, actions))
  {
    RunKeepsInv(s, actions);
    var s' := Run(s, actions);
    IncreasingIsShort(s'.launches, MAX_ATTEMPTS + s'.crashes);
  }

  lemma {:induction false} NothingToWaitFor(s: State, actions: seq<Action>)
    requires s.rewrites == 0 && s.left == 0 && Legal(s, actions)
    ensures AllPatient(s, actions)
    decreases |actions|
  {
    if actions != [] { NothingToWaitFor(Apply(s, actions[0]), actions[1..]); }
  }

  // ---------------------------------------------------------------- when enqueue saves more than once

  /** The worker's steps from an idle start to a running attempt, when every backend answers. */
  const GRANT := [Load, Continue, Start, Sync(true)]
  const BEGIN := [Resume, Begin]
  const ATTEMPT := GRANT + BEGIN + [Launch(true)]

  lemma {:induction false} RunAppend(s: State, xs: seq<Action>, ys: seq<Action>)
    requires Legal(s, xs) && Legal(Run(s, xs), ys)
    ensures Legal(s, xs + ys) && Run(s, xs + ys) == Run(Run(s, xs), ys)
    decreases |xs|
  {
    if xs == [] {
      assert xs + ys == ys;
    } else {
      assert (xs + ys)[1..] == xs[1..] + ys;
      RunAppend(Apply(s, xs[0]), xs[1..], ys);
    }
  }

  lemma Granted(s: State, n: nat)
    requires Waiting(s, n)
    ensures Leads(s, GRANT, s.(queue := Some(Record(n, n + 1, None)), worker := Resuming(n + 1)))
  {
    var s1 := Apply(s, Load);
    var s2 := Apply(s1, Continue);
    var s3 := Apply(s2, Start);
    var s4 := Apply(s3, Sync(true));
    assert Legal(s4, []) && Run(s4, []) == s4;
    Prefix(s3, [Sync(true)]);
    Prefix(s2, [Start, Sync(true)]);
    Prefix(s1, [Continue, Start, Sync(true)]);
    Prefix(s, GRANT);
  }

  lemma Begins(s: State, n: nat)
    requires s.worker == Resuming(n + 1) && s.queue == Some(Record(n, n + 1, None)) && s.enqueued
    ensures var r := Record(n + 1, 0, None);
            Leads(s, BEGIN, s.(queue := Some(r), worker := Launching(r, n + 1)))
  {
    var s1 := Apply(s, Resume);
    var s2 := Apply(s1, Begin);
    assert Legal(s2, []) && Run(s2, []) == s2;
    Prefix(s1, [Begin]);
    Prefix(s, BEGIN);
  }

  lemma NextAttempt(s: State, n: nat)
    requires Waiting(s, n)
    ensures var r := Record(n + 1, 0, None);
            Leads(s, ATTEMPT, s.(queue := Some(r), worker := Running(r, n + 1), launches := s.launches + [n + 1]))
  {
    Granted(s, n);
    var s1 := Run(s, GRANT);
    Begins(s1, n);
    var s2 := Run(s1, BEGIN);
    Joined(s, GRANT, s1, BEGIN, s2);
    var s3 := Apply(s2, Launch(true));
    assert Legal(s3, []) && Run(s3, []) == s3;
    Prefix(s2, [Launch(true)]);
    Joined(s, GRANT + BEGIN, s2, [Launch(true)], s3);
  }

  lemma {:induction false} Prefix(s: State, actions: seq<Action>)
    requires actions != [] && Enabled(s, actions[0]) && Legal(Apply(s, actions[0]), actions[1..])
    ensures Legal(s, actions) && Run(s, actions) == Run(Apply(s, actions[0]), actions[1..])
  {
  }

  const INTERLUDE := [Rewrite, Exit(false), Reload, Report]

  /** The first attempt fails, but enqueue has meanwhile put the fresh record back. */
  lemma {:induction false} Overwritten(s: State)
    requires s.worker == Running(Record(1, 0, None), 1) && s.queue.Some? && s.left > 0 && s.enqueued
    ensures Legal(s, INTERLUDE)
    ensures Run(s, INTERLUDE) == s.(queue := Some(FRESH), worker := Idle, left := s.left - 1)
  {
    var s1 := Apply(s, Rewrite);
    var s2 := Apply(s1, Exit(false));
    var s3 := Apply(s2, Reload);
    var s4 := Apply(s3, Report);
    assert Legal(s4, []) && Run(s4, []) == s4;
    Prefix(s3, [Report]);
    Prefix(s2, [Reload, Report]);
    Prefix(s1, [Exit(false), Reload, Report]);
    Prefix(s, INTERLUDE);
  }

  /** The record with n finished attempts, in the hands of an idle worker or of the next attempt. */
  predicate Waiting(s: State, n: nat) {
    s.worker.Idle? && s.queue == Some(Record(n, 0, None)) && s.enqueued
  }

  /** xs leads from s to s'. */
  predicate Leads(s: State, xs: seq<Action>, s': State) {
    Legal(s, xs) && Run(s, xs) == s'
  }

  lemma Joined(s: State, xs: seq<Action>, s1: State, ys: seq<Action>, s2: State)
    requires Leads(s, xs, s1) && Leads(s1, ys, s2)
    ensures Leads(s, xs + ys, s2)
  {
    RunAppend(s, xs, ys);
  }

  /** With a backend configured, an impatient worker can launch the first attempt twice without any crash. */
  lemma AttemptRepeats(s: State) returns (actions: seq<Action>, s': State)
    requires Init(s) && s.rewrites > 0
    ensures Leads(s, actions, s') && s'.launches == [1, 1] && s'.crashes == 0
    ensures s'.worker == Running(Record(1, 0, None), 1) && s'.queue == Some(Record(1, 0, None)) && s'.enqueued
  {
    var s1 := Apply(s, Enqueue);
    assert Legal(s1, []) && Run(s1, []) == s1;
    Prefix(s, [Enqueue]);
    NextAttempt(s1, 0);
    Joined(s, [Enqueue], s1, ATTEMPT, Run(s1, ATTEMPT));
    var s2 := Run(s1, ATTEMPT);
    Overwritten(s2);
    Joined(s, [Enqueue] + ATTEMPT, s2, INTERLUDE, Run(s2, INTERLUDE));
    var s3 := Run(s2, INTERLUDE);
    NextAttempt(s3, 0);
    Joined(s, [Enqueue] + ATTEMPT + INTERLUDE, s3, ATTEMPT, Run(s3, ATTEMPT));
    actions, s' := [Enqueue] + ATTEMPT + INTERLUDE + ATTEMPT, Run(s3, ATTEMPT);
    assert s1.launches == [];
  }

  const FAILURE := [Exit(false), Reload, Report]

  lemma AttemptFails(s: State, n: nat)
    requires n < MAX_ATTEMPTS && s.worker == Running(Record(n, 0, None), n) && s.queue == Some(Record(n, 0, None))
    requires s.enqueued
    ensures Leads(s, FAILURE, s.(worker := Idle))
  {
    var s1 := Apply(s, Exit(false));
    var s2 := Apply(s1, Reload);
    var s3 := Apply(s2, Report);
    assert Legal(s3, []) && Run(s3, []) == s3;
    Prefix(s2, [Report]);
    Prefix(s1, [Reload, Report]);
    Prefix(s, FAILURE);
  }

  /** From there two more attempts follow: four launches, no crash. */
  lemma FourLaunches(s: State) returns (actions: seq<Action>, s': State)
    requires Init(s) && s.rewrites > 0
    ensures Leads(s, actions, s') && |s'.launches| == 4 && s'.crashes == 0
  {
    actions, s' := AttemptRepeats(s);
    AttemptFails(s', 1);
    Joined(s, actions, s', FAILURE, s'.(worker := Idle));
    actions, s' := actions + FAILURE, s'.(worker := Idle);
    NextAttempt(s', 1);
    Joined(s, actions, s', ATTEMPT, Run(s', ATTEMPT));
    actions, s' := actions + ATTEMPT, Run(s', ATTEMPT);
    AttemptFails(s', 2);
    Joined(s, actions, s', FAILURE, s'.(worker := Idle));
    actions, s' := actions + FAILURE, s'.(worker := Idle);
    NextAttempt(s', 2);
    Joined(s, actions, s', ATTEMPT, Run(s', ATTEMPT));
    actions, s' := actions + ATTEMPT, Run(s', ATTEMPT);
  }

  const SUCCESS := [Exit(true), Reload, Report, Sync(false), Rewrite]

  /** A successful attempt stores its terminal transition, the backend is away, and enqueue puts the fresh
      record back. */
  lemma Undone(s: State)
    requires s.worker == Running(Record(1, 0, None), 1) && s.queue.Some? && s.queue.value.attempts == 1
    requires s.left > 0 && s.enqueued
    ensures Leads(s, SUCCESS, s.(queue := Some(FRESH), worker := Idle, left := s.left - 1, terminal := true))
  {
    var s1 := Apply(s, Exit(true));
    var s2 := Apply(s1, Reload);
    var s3 := Apply(s2, Report);
    var s4 := Apply(s3, Sync(false));
    var s5 := Apply(s4, Rewrite);
    assert Legal(s5, []) && Run(s5, []) == s5;
    Prefix(s4, [Rewrite]);
    Prefix(s3, [Sync(false), Rewrite]);
    Prefix(s2, [Report, Sync(false), Rewrite]);
    Prefix(s1, [Reload, Report, Sync(false), Rewrite]);
    Prefix(s, SUCCESS);
  }

  lemma FinishedThenFresh(s: State) returns (actions: seq<Action>, s': State)
    requires Init(s) && s.rewrites > 0
    ensures Leads(s, actions, s') && Waiting(s', 0) && s'.terminal && s'.crashes == 0
  {
    var s1 := Apply(s, Enqueue);
    assert Legal(s1, []) && Run(s1, []) == s1;
    Prefix(s, [Enqueue]);
    NextAttempt(s1, 0);
    var s2 := Run(s1, ATTEMPT);
    Joined(s, [Enqueue], s1, ATTEMPT, s2);
    Undone(s2);
    s' := Run(s2, SUCCESS);
    actions := [Enqueue] + ATTEMPT + SUCCESS;
    Joined(s, [Enqueue] + ATTEMPT, s2, SUCCESS, s');
  }

  /** So an impatient worker can be about to launch after a terminal transition was stored. */
  lemma LaunchAfterTerminal(s: State) returns (actions: seq<Action>, s': State)
    requires Init(s) && s.rewrites > 0
    ensures Leads(s, actions, s') && s'.terminal && Enabled(s', Launch(true)) && s'.crashes == 0
  {
    var xs, s1 := FinishedThenFresh(s);
    Granted(s1, 0);
    var s2 := Run(s1, GRANT);
    Joined(s, xs, s1, GRANT, s2);
    Begins(s2, 0);
    s' := Run(s2, BEGIN);
    Joined(s, xs + GRANT, s2, BEGIN, s');
    actions := xs + GRANT + BEGIN;
  }

  /** The rule holds in every state of every run with that many later saves, patient worker or not. */
  ghost predicate Always(rule: State -> bool, rewrites: nat) {
    forall s, actions {:trigger Run(s, actions)} |
      Init(s) && s.rewrites == rewrites && Legal(s, actions) :: rule(Run(s, actions))
  }

  function Initial(rewrites: nat): (s: State)
    ensures Init(s) && s.rewrites == rewrites
  {
    State(rewrites, None, {}, 0, Idle, false, [], 0, false)
  }

  /** Without any assumption on the worker each of the three rules holds exactly when no backend is
      configured, so that enqueue saves its record once. */
  lemma DisciplineNeedsOneWrite(rewrites: nat)
    ensures Always(InOrder, rewrites) <==> rewrites == 0
    ensures Always(Few, rewrites) <==> rewrites == 0
    ensures Always(Settled, rewrites) <==> rewrites == 0
  {
    if rewrites == 0 {
      forall s, actions | Init(s) && s.rewrites == rewrites && Legal(s, actions)
        ensures InOrder(Run(s, actions)) && Few(Run(s, actions)) && Settled(Run(s, actions))
      {
        NothingToWaitFor(s, actions);
        PatientRunsAreDisciplined(s, actions);
      }
    } else {
      var s := Initial(rewrites);
      var xs, s1 := AttemptRepeats(s);
      assert s1.launches[0] == s1.launches[1] && !InOrder(Run(s, xs));
      var ys, s2 := FourLaunches(s);
      assert !Few(Run(s, ys));
      var zs, s3 := LaunchAfterTerminal(s);
      assert !Settled(Run(s, zs));
    }
  }

  // ---------------------------------------------------------------- attempt numbers

  /** A stored record leaves room for its next attempt, unless it only waits to be moved away. */
  ghost predicate Room(r: Record, n: nat) {
    if r.pending.Some? && r.pending.value.Terminal? then r.attempts <= n else RecordOk(r) && r.attempts < n
  }

  ghost predicate Attempting(q: Record, attempt: nat, n: nat) {
    Plain(q) && q.attempts <= attempt <= n
  }

  ghost predicate MemoryOk(pc: Pc, q: Record, n: nat) {
    match pc
    case Continuing => q.pending.None? && Room(q, n)
    case Checking(r) => r.pending.None? && Room(r, n) && Room(q, n)
    case Applying(r, _) => r.pending.Some? && Room(r, n) && Room(q, n)
    case Resuming(_) => q.pending.None? && Room(q, n)
    case Starting(r, attempt) => Plain(r) && attempt <= n && Room(q, n)
    case Launching(r, attempt) => Plain(r) && r.attempts == attempt && Attempting(q, attempt, n)
    case Running(r, attempt) => Plain(r) && r.attempts == attempt && Attempting(q, attempt, n)
    case Exited(attempt, _) => Attempting(q, attempt, n)
    case Reporting(r, attempt, _) => Attempting(r, attempt, n) && Attempting(q, attempt, n)
    case _ => Room(q, n)
  }

  ghost predicate Numbered(s: State) {
    && AtMost(s.launches, MAX_ATTEMPTS + s.crashes)
    && (s.queue.Some? ==> MemoryOk(s.worker, s.queue.value, MAX_ATTEMPTS + s.crashes))
    && (s.queue.None? ==> s.worker.Idle?)
  }

  lemma PollKeepsNumbers(s: State, a: Action)
    requires Numbered(s) && Enabled(s, a)
    requires a.Enqueue? || a.Rewrite? || a.StoreSkipped? || a.Prune? || a.Crash? || a.Raise? || a.Quarantine?
    ensures Numbered(Apply(s, a))
  {
  }

  lemma CheckKeepsNumbers(s: State, a: Action)
    requires Numbered(s) && Enabled(s, a)
    requires a.Load? || a.Continue? || a.Leave? || a.Save? || a.Settle? || a.Link? || a.Start? || a.WriteCopy?
             || a.Unlink?
    ensures Numbered(Apply(s, a))
  {
  }

  lemma AttemptKeepsNumbers(s: State, a: Action)
    requires Numbered(s) && Enabled(s, a)
    requires a.Heartbeat? || a.Exit? || a.Reload? || a.Report?
    ensures Numbered(Apply(s, a))
  {
  }

  lemma SyncKeepsNumbers(s: State, a: Action)
    requires Numbered(s) && Enabled(s, a) && (a.Sync? || a.Resume?)
    ensures Numbered(Apply(s, a))
  {
  }

  lemma LaunchKeepsNumbers(s: State, a: Action)
    requires Numbered(s) && Enabled(s, a) && (a.Begin? || a.Launch?)
    ensures Numbered(Apply(s, a))
  {
  }

  lemma StepKeepsNumbers(s: State, a: Action)
    requires Numbered(s) && Enabled(s, a)
    ensures Numbered(Apply(s, a))
  {
    match a
    case Enqueue | Rewrite | StoreSkipped | Prune(_) | Crash | Raise | Quarantine => PollKeepsNumbers(s, a);
    case Sync(_) | Resume => SyncKeepsNumbers(s, a);
    case Begin | Launch(_) => LaunchKeepsNumbers(s, a);
    case Heartbeat | Exit(_) | Reload | Report => AttemptKeepsNumbers(s, a);
    case _ => CheckKeepsNumbers(s, a);
  }

  lemma {:induction false} RunKeepsNumbers(s: State, actions: seq<Action>)
    requires Numbered(s) && Legal(s, actions)
    ensures Numbered(Run(s, actions))
    decreases |actions|
  {
    if actions != [] {
      StepKeepsNumbers(s, actions[0]);
      RunKeepsNumbers(Apply(s, actions[0]), actions[1..]);
    }
  }

  /** In every run, patient worker or not, no launched attempt has a number above three plus the number of
      interruptions. */
  lemma {:induction false} AttemptNumbersAreBounded(s: State, actions: seq<Action>)
    requires Init(s) && Legal(s, actions)
    ensures AtMost(Run(s, actions).launches, MAX_ATTEMPTS + Run(s, actions).crashes)
  {
    RunKeepsNumbers(s, actions);
  }
}
