/** Where a message of the Feishu monitor ends up and how it is tried again (process_record in
    scripts/hara-feishu-monitor.py). */
module MonitorOutcomes {
  import opened Wrappers
  import opened FeishuMonitor

  // ---------------------------------------------------------------- what decides

  predicate Stored(s: State, dir: Dir) {
    s.queue.Some? && s.queue.value.pending == Some(Terminal(dir))
  }

  /** A message is marked as done only after its worker succeeded or because it is linked to another task, as failed
      only after a worker failed in the third attempt or later, and as skipped never. */
  lemma TerminalIsEarned(s: State, a: Action, dir: Dir)
    requires Enabled(s, a) && Stored(Apply(s, a), dir) && !Stored(s, dir)
    requires forall r <- Held(s.worker) :: r.pending != Some(Terminal(dir))
    ensures match dir
            case Done => a.Link? || (a.Report? && s.worker.success)
            case Failed => a.Report? && !s.worker.success && s.worker.attempt >= 3
            case Skipped => false
  {
  }

  /** The record that the worker has in memory, if it has one. */
  function Held(pc: Pc): (rs: set<Record>) {
    match pc
    case Checking(r) => {r}
    case Applying(r, _) => {r}
    case Starting(r, _) => {r}
    case Launching(r, _) => {r}
    case Running(r, _) => {r}
    case Reporting(r, _, _) => {r}
    case _ => {}
  }

  /** The worker turns to filing the message only for these reasons, each into its own directory. */
  lemma FilingIsEarned(s: State, a: Action, dir: Dir)
    requires Enabled(s, a) && Apply(s, a).worker == Finishing(dir) && s.worker != Finishing(dir)
    ensures match dir
            case Done => a.Settle? || (a == Sync(true) && s.worker.r.pending == Some(Terminal(Done)))
            case Failed =>
              || (a == Sync(true) && s.worker.r.pending == Some(Terminal(Failed)))
              || (a.Resume? && s.queue.value.ready != s.worker.attempt)
            case Skipped => a.Quarantine? || (a == Sync(true) && s.worker.r.pending == Some(Terminal(Skipped)))
  {
  }

  /** A message that is in any directory is not taken in again; any other one starts afresh. */
  lemma EnqueueOutcome(s: State)
    requires Enabled(s, Enqueue)
    ensures var s' := Apply(s, Enqueue);
            if s.queue.Some? || s.finished != {} then s' == s
            else
              && s'.queue.Some? && s'.queue.value.attempts == 0 && s'.queue.value.ready == 0
              && s'.queue.value.pending.None? && s'.finished == {} && s'.worker == s.worker
              && s'.left == s.rewrites
  {
  }

  // ---------------------------------------------------------------- runs of the worker alone

  ghost predicate Reaches(s: State, actions: seq<Action>, s': State) {
    Legal(s, actions) && Run(s, actions) == s'
  }

  lemma One(s: State, a: Action)
    requires Enabled(s, a)
    ensures Reaches(s, [a], Apply(s, a))
  {
    assert [a][1..] == [] && Legal(Apply(s, a), []) && Run(Apply(s, a), []) == Apply(s, a);
  }

  lemma Then(s: State, actions: seq<Action>, s1: State, a: Action) returns (more: seq<Action>, s': State)
    requires Reaches(s, actions, s1) && Enabled(s1, a)
    ensures Reaches(s, more, s') && s' == Apply(s1, a) && more == actions + [a]
  {
    One(s1, a);
    RunAppend(s, actions, [a]);
    more, s' := actions + [a], Apply(s1, a);
  }

  /** From a stored terminal transition the message goes to its directory and leaves the queue. */
  lemma TerminalIsFiled(s: State, actions: seq<Action>, s1: State, dir: Dir) returns (more: seq<Action>, s': State)
    requires Reaches(s, actions, s1) && s1.worker.Applying? && s1.worker.r.pending == Some(Terminal(dir))
    ensures Reaches(s, more, s') && s'.queue.None? && s'.finished == s1.finished + {dir} && s'.worker.Idle?
    ensures s'.launches == s1.launches && more == actions + [Sync(true)] + [WriteCopy] + [Unlink]
  {
    more, s' := Then(s, actions, s1, Sync(true));
    more, s' := Then(s, more, s', WriteCopy);
    more, s' := Then(s, more, s', Unlink);
  }

  /** When the worker has exited and nothing goes wrong afterwards: a success ends in the directory of finished
      messages, a failure in the third attempt or later in that of failed ones, and nowhere else; an earlier failure
      leaves the message in the queue with its attempts counted. */
  lemma ExitIsFiled(s: State) returns (actions: seq<Action>, s': State)
    requires s.worker.Exited? && s.queue.Some?
    ensures Reaches(s, actions, s') && s'.worker.Idle? && s'.launches == s.launches
    ensures s.worker.success ==> s'.queue.None? && s'.finished == s.finished + {Done}
    ensures !s.worker.success && s.worker.attempt >= 3 ==> s'.queue.None? && s'.finished == s.finished + {Failed}
    ensures !s.worker.success && s.worker.attempt < 3 ==> s'.queue == s.queue && s'.finished == s.finished
  {
    One(s, Reload);
    var s1 := Apply(s, Reload);
    actions, s' := Then(s, [Reload], s1, Report);
    if s.worker.success {
      actions, s' := TerminalIsFiled(s, actions, s', Done);
    } else if s.worker.attempt >= 3 {
      actions, s' := TerminalIsFiled(s, actions, s', Failed);
    }
  }

  /** A queued message that no transition or grant is stored for. */
  predicate Waiting(s: State) {
    s.worker.Idle? && s.queue.Some? && s.queue.value.pending.None? && s.queue.value.ready == 0
  }

  lemma NextAttemptIsGranted(s: State) returns (actions: seq<Action>, s': State)
    requires Waiting(s)
    ensures var n := s.queue.value.attempts + 1;
            && Reaches(s, actions, s') && s'.worker == Resuming(n) && s'.finished == s.finished
            && s'.launches == s.launches && s'.queue == Some(s.queue.value.(ready := n))
  {
    One(s, Load);
    actions, s' := Then(s, [Load], Apply(s, Load), Continue);
    actions, s' := Then(s, actions, s', Start);
    actions, s' := Then(s, actions, s', Sync(true));
  }

  lemma GrantedAttemptIsLaunched(s: State, actions: seq<Action>, s1: State) returns (more: seq<Action>, s': State)
    requires Reaches(s, actions, s1) && s1.queue.Some? && s1.queue.value.pending.None?
    requires s1.worker == Resuming(s1.queue.value.ready)
    ensures var n := s1.queue.value.ready;
            && Reaches(s, more, s') && s'.worker.Running? && s'.worker.attempt == n && s'.finished == s1.finished
            && s'.launches == s1.launches + [n] && s'.queue == Some(s1.queue.value.(ready := 0, attempts := n))
  {
    more, s' := Then(s, actions, s1, Resume);
    more, s' := Then(s, more, s', Begin);
    more, s' := Then(s, more, s', Launch(true));
  }

  /** A waiting message is tried again with the next number, which is saved with it. */
  lemma NextAttemptIsLaunched(s: State) returns (actions: seq<Action>, s': State)
    requires Waiting(s)
    ensures var n := s.queue.value.attempts + 1;
            && Reaches(s, actions, s') && s'.worker.Running? && s'.worker.attempt == n && s'.finished == s.finished
            && s'.launches == s.launches + [n] && s'.queue == Some(s.queue.value.(attempts := n))
  {
    actions, s' := NextAttemptIsGranted(s);
    actions, s' := GrantedAttemptIsLaunched(s, actions, s');
  }

  /** The numbers after n up to three. */
  function Rest(n: nat): (ns: seq<nat>)
    decreases 3 - n
  {
    if n >= 3 then [] else [n + 1] + Rest(n + 1)
  }

  lemma AttemptFails(s: State) returns (actions: seq<Action>, s': State)
    requires Waiting(s)
    ensures var n := s.queue.value.attempts + 1;
            && Reaches(s, actions, s') && s'.launches == s.launches + [n] && s'.worker.Idle?
            && (n < 3 ==> s'.queue == Some(s.queue.value.(attempts := n)) && s'.finished == s.finished)
            && (n >= 3 ==> s'.queue.None? && s'.finished == s.finished + {Failed})
  {
    var first, s1 := NextAttemptIsLaunched(s);
    first, s1 := Then(s, first, s1, Exit(false));
    var rest;
    rest, s' := ExitIsFiled(s1);
    RunAppend(s, first, rest);
    actions := first + rest;
  }

  /** A worker that keeps failing is launched with every number up to three, in order; then the message is failed. */
  lemma {:induction false} FailuresEndInFailed(s: State) returns (actions: seq<Action>, s': State)
    requires Waiting(s) && s.queue.value.attempts < 3
    ensures Reaches(s, actions, s') && s'.queue.None? && s'.finished == s.finished + {Failed}
    ensures s'.launches == s.launches + Rest(s.queue.value.attempts)
    decreases 3 - s.queue.value.attempts
  {
    var n := s.queue.value.attempts + 1;
    actions, s' := AttemptFails(s);
    if n < 3 {
      var rest;
      var s1 := s';
      rest, s' := FailuresEndInFailed(s1);
      RunAppend(s, actions, rest);
      actions := actions + rest;
      assert s.launches + [n] + Rest(n) == s.launches + ([n] + Rest(n));
    }
  }
}
