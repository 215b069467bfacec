/**
  Feedback tickets (src/feedback-tickets/feedback-tickets.service.ts): intake with leases, updates under a
  lease, and the status transitions.

  Tickets do not influence one another, so one ticket is modelled, with any number of concurrent intakes and
  updates of it. The stored hash of a claim token stands for the token, and a token is named after the
  intake that drew it. `transition` is one atomic action; the claim check before it is another. Free text is
  taken after sanitization. The clock never runs backwards, but an intake goes on using the time it read when
  it started.
 */
module FeedbackTickets {
  import opened Wrappers

  type Time = nat
  type Id = nat

  const LEASE := 15 * 60 * 1000

  datatype Status =
    Received | Acknowledged | InProgress | WaitingRelease | WaitingVerification | Closed | Blocked | Rejected
  datatype Priority = Urgent | High | Normal | Low

  predicate Terminal(s: Status) {
    s.Closed? || s.Rejected?
  }

  predicate Started(s: Status) {
    s.InProgress? || s.WaitingRelease? || s.WaitingVerification? || s.Closed?
  }

  predicate Released(s: Status) {
    s.WaitingVerification? || s.Closed?
  }

  function Allowed(from: Status): (to: set<Status>) {
    match from
    case Received => {Acknowledged, InProgress, Blocked, Rejected}
    case Acknowledged => {InProgress, Blocked, Rejected}
    case InProgress => {WaitingRelease, Blocked, Rejected}
    case WaitingRelease => {InProgress, WaitingVerification, Blocked}
    case WaitingVerification => {InProgress, Closed, Blocked}
    case Closed => {InProgress}
    case Blocked => {InProgress, Rejected}
    case Rejected => {InProgress}
  }

  predicate Edge(from: Status, to: Status) {
    from == to || to in Allowed(from)
  }

  datatype Lease = NoLease | Lease(owner: string, token: Id, expiresAt: Time)

  datatype Ticket = Ticket(status: Status, priority: Priority, assignee: string, fixVersion: string,
                           verificationSteps: string, lease: Lease, acknowledgedAt: Option<Time>,
                           startedAt: Option<Time>, releasedAt: Option<Time>, closedAt: Option<Time>)

  datatype Kind = Created | Note | StatusChanged | AcknowledgedEvent | ReleasedEvent | ClosedEvent
  datatype Event = Event(kind: Kind, from: Option<Status>, to: Status, note: string, actor: string)

  datatype Change = Change(status: Status, note: string, priority: Option<Priority>, assignee: Option<string>,
                           fixVersion: Option<string>, verificationSteps: Option<string>)
  datatype Fault = InvalidTransition | ReasonRequired | ReleaseRequired

  // ---------------------------------------------------------------- one transition

  function Given<T>(x: Option<T>, otherwise: T): (y: T) {
    if x.Some? then x.value else otherwise
  }

  function Refusal(t: Ticket, c: Change): (f: Option<Fault>) {
    if !Edge(t.status, c.status) then Some(InvalidTransition)
    else if c.status == Blocked && c.note == "" then Some(ReasonRequired)
    else if Released(c.status)
            && (Given(c.fixVersion, t.fixVersion) == "" || Given(c.verificationSteps, t.verificationSteps) == "") then
      Some(ReleaseRequired)
    else None
  }

  function KindOf(from: Status, to: Status): (k: Kind) {
    match to
    case Acknowledged => AcknowledgedEvent
    case WaitingVerification => ReleasedEvent
    case Closed => ClosedEvent
    case _ => if from == to then Note else StatusChanged
  }

  function First(at: Option<Time>, reached: bool, now: Time): (r: Option<Time>) {
    if at.None? && reached then Some(now) else at
  }

  function Changed(t: Ticket, c: Change, now: Time): (t': Ticket) {
    Ticket(c.status, Given(c.priority, t.priority), Given(c.assignee, t.assignee),
           Given(c.fixVersion, t.fixVersion), Given(c.verificationSteps, t.verificationSteps),
           if c.status == WaitingRelease || Terminal(c.status) then NoLease else t.lease,
           First(t.acknowledgedAt, c.status != Received, now), First(t.startedAt, Started(c.status), now),
           if c.status == WaitingVerification then Some(now) else t.releasedAt,
           if c.status == Closed then Some(now) else if t.status == Closed then None else t.closedAt)
  }

  function EventOf(t: Ticket, c: Change, actor: string): (e: Event) {
    Event(KindOf(t.status, c.status), Some(t.status), c.status, c.note, actor)
  }

  /** A field that the request sets has the value it asks for; any other one keeps its value. */
  predicate Fills<T(==)>(asked: Option<T>, was: T, got: T) {
    (asked.Some? ==> got == asked.value) && (asked.None? ==> got == was)
  }

  /** What a transition may be asked for. */
  predicate Acceptable(t: Ticket, c: Change) {
    && (c.status == t.status || c.status in Allowed(t.status))
    && (c.status.Blocked? ==> c.note != "")
    && (c.status.WaitingVerification? || c.status.Closed? ==>
          && (if c.fixVersion.Some? then c.fixVersion.value != "" else t.fixVersion != "")
          && (if c.verificationSteps.Some? then c.verificationSteps.value != "" else t.verificationSteps != ""))
  }

  /** What a transition does to each field of the row. */
  predicate Moves(t: Ticket, t': Ticket, c: Change, now: Time) {
    && t'.status == c.status
    && Fills(c.priority, t.priority, t'.priority) && Fills(c.assignee, t.assignee, t'.assignee)
    && Fills(c.fixVersion, t.fixVersion, t'.fixVersion)
    && Fills(c.verificationSteps, t.verificationSteps, t'.verificationSteps)
    && (if c.status.WaitingRelease? || c.status.Closed? || c.status.Rejected? then t'.lease.NoLease?
        else t'.lease == t.lease)
    // the first time it leaves RECEIVED, and the first time work starts
    && (t.acknowledgedAt.Some? || c.status.Received? ==> t'.acknowledgedAt == t.acknowledgedAt)
    && (t.acknowledgedAt.None? && !c.status.Received? ==> t'.acknowledgedAt == Some(now))
    && (t.startedAt.Some? ==> t'.startedAt == t.startedAt)
    && (t.startedAt.None? ==>
          t'.startedAt == match c.status
                          case Received => None
                          case Acknowledged => None
                          case Blocked => None
                          case Rejected => None
                          case _ => Some(now))
    // the last time it was released or closed; reopening takes the closing back
    && t'.releasedAt == (if c.status.WaitingVerification? then Some(now) else t.releasedAt)
    && (c.status.Closed? ==> t'.closedAt == Some(now))
    && (!c.status.Closed? && t.status.Closed? ==> t'.closedAt.None?)
    && (!c.status.Closed? && !t.status.Closed? ==> t'.closedAt == t.closedAt)
  }

  /** The event a transition leaves. */
  predicate Tells(e: Event, t: Ticket, c: Change, actor: string) {
    && e.from == Some(t.status) && e.to == c.status && e.note == c.note && e.actor == actor
    && (e.kind.AcknowledgedEvent? <==> c.status.Acknowledged?)
    && (e.kind.ReleasedEvent? <==> c.status.WaitingVerification?)
    && (e.kind.ClosedEvent? <==> c.status.Closed?)
    && (e.kind.Note? ==> c.status == t.status) && (e.kind.StatusChanged? ==> c.status != t.status)
    && !e.kind.Created?
  }

  /** The row that a transition writes: the given fields, then the times and the lease. */
  method Data(existing: Ticket, c: Change, now: Time) returns (data: Ticket)
    ensures data == Changed(existing, c, now)
  {
    data := existing.(status := c.status, priority := Given(c.priority, existing.priority),
                      assignee := Given(c.assignee, existing.assignee),
                      fixVersion := Given(c.fixVersion, existing.fixVersion),
                      verificationSteps := Given(c.verificationSteps, existing.verificationSteps));
    if existing.acknowledgedAt.None? && c.status != Received { data := data.(acknowledgedAt := Some(now)); }
    if existing.startedAt.None? && Started(c.status) { data := data.(startedAt := Some(now)); }
    if c.status == WaitingVerification { data := data.(releasedAt := Some(now)); }
    if c.status == Closed { data := data.(closedAt := Some(now)); }
    if existing.status == Closed && c.status != Closed { data := data.(closedAt := None); }
    if c.status == WaitingRelease || Terminal(c.status) { data := data.(lease := NoLease); }
  }

  /** The later assignments win. */
  method EventKind(from: Status, to: Status) returns (kind: Kind)
    ensures kind == KindOf(from, to)
  {
    kind := Note;
    if to != from { kind := StatusChanged; }
    if to == Acknowledged { kind := AcknowledgedEvent; }
    if to == WaitingVerification { kind := ReleasedEvent; }
    if to == Closed { kind := ClosedEvent; }
  }

  /** A ticket row and its timeline, changed in place. */
  class Row {
    var ticket: Ticket
    var events: seq<Event>

    constructor (t: Ticket)
      ensures ticket == t && events == []
    {
      ticket, events := t, [];
    }

    /** Either nothing changes and the first broken rule is reported, or the row takes its new value and the
        timeline grows by one event. */
    method Transition(c: Change, actor: string, now: Time) returns (fault: Option<Fault>)
      modifies this
      ensures fault == Refusal(old(ticket), c)
      ensures fault.Some? ==> ticket == old(ticket) && events == old(events)
      ensures fault.None? ==> ticket == Changed(old(ticket), c, now)
      ensures fault.None? ==> events == old(events) + [EventOf(old(ticket), c, actor)]
      ensures fault.None? <==> Acceptable(old(ticket), c)
      ensures fault.None? ==> Moves(old(ticket), ticket, c, now)
      ensures fault.None? ==> |events| == |old(events)| + 1 && events[..|old(events)|] == old(events)
      ensures fault.None? ==> Tells(events[|events| - 1], old(ticket), c, actor)
    {
      var existing := ticket;
      if c.status != existing.status && c.status !in Allowed(existing.status) { return Some(InvalidTransition); }
      if c.status == Blocked && c.note == "" { return Some(ReasonRequired); }
      var fixVersion := Given(c.fixVersion, existing.fixVersion);
      var steps := Given(c.verificationSteps, existing.verificationSteps);
      if Released(c.status) && (fixVersion == "" || steps == "") { return Some(ReleaseRequired); }
      var kind := EventKind(existing.status, c.status);
      ticket := Data(existing, c, now);
      events := events + [Event(kind, Some(existing.status), c.status, c.note, actor)];
      return None;
    }
  }

  // ---------------------------------------------------------------- concurrent intakes and updates

  datatype IntakePc = Creating | Claiming | IntakeEnded(granted: bool)
  datatype Intake = Intake(consumer: string, priority: Priority, summary: string, now: Time, pc: IntakePc)

  /** Who asks for an update: an administrator, or the bearer of a claim token. */
  datatype Caller = Admin(name: string) | Bearer(token: Id)

  /** `checked` is history: the token that passed the check, if there was one. */
  datatype UpdatePc = Checking(token: Id) | Ready(actor: string, checked: Option<Id>) | UpdateEnded
  datatype Update = Update(change: Change, pc: UpdatePc)

  datatype Grant = Grant(consumer: string, token: Id, expiresAt: Time)

  /** `grants` is history: every lease ever granted, oldest first. No action reads it. */
  datatype State = State(ticket: Option<Ticket>, events: seq<Event>, clock: Time, intakes: map<Id, Intake>,
                         updates: map<Id, Update>, grants: seq<Grant>)

  datatype Action =
    | Tick(to: Time)
    | StartIntake(i: Id, consumer: string, priority: Priority, summary: string)
    | Create(i: Id)
    | Claim(i: Id)
    | StartUpdate(u: Id, change: Change, caller: Caller)
    | Check(u: Id)
    | Transition(u: Id)

  predicate Enabled(s: State, a: Action) {
    match a
    case Tick(to) => s.clock <= to
    case StartIntake(i, consumer, _, _) => i !in s.intakes && consumer != ""
    case Create(i) => i in s.intakes && s.intakes[i].pc.Creating?
    case Claim(i) => i in s.intakes && s.intakes[i].pc.Claiming? && s.ticket.Some?
    case StartUpdate(u, _, _) => u !in s.updates && s.ticket.Some?
    case Check(u) => u in s.updates && s.updates[u].pc.Checking? && s.ticket.Some?
    case Transition(u) => u in s.updates && s.updates[u].pc.Ready? && s.ticket.Some?
  }

  function LeaseOf(s: State, i: Id): (l: Lease)
    requires i in s.intakes
  {
    Lease(s.intakes[i].consumer, i, s.intakes[i].now + LEASE)
  }

  /** Hand the lease to intake i. */
  function GrantTo(s: State, i: Id, t: Ticket): (s': State)
    requires i in s.intakes
  {
    var q := s.intakes[i];
    s.(ticket := Some(t.(lease := LeaseOf(s, i))), intakes := s.intakes[i := q.(pc := IntakeEnded(true))],
       grants := s.grants + [Grant(q.consumer, i, q.now + LEASE)])
  }

  function New(priority: Priority): (t: Ticket) {
    Ticket(Received, priority, "", "", "", NoLease, None, None, None, None)
  }

  function CreatedBy(q: Intake): (e: Event) {
    Event(Created, None, Received, q.summary, q.consumer)
  }

  /** In whose name a checked update is recorded. */
  function Actor(l: Lease): (actor: string) {
    if l.NoLease? || l.owner == "" then "feedback-monitor" else l.owner
  }

  /** Whether an existing ticket may be leased to this consumer. */
  predicate Claimable(t: Ticket, consumer: string, now: Time) {
    && !Terminal(t.status)
    && (t.lease.NoLease? || t.lease.expiresAt <= now || t.lease.owner == consumer)
  }

  predicate Passes(t: Ticket, token: Id, now: Time) {
    t.lease.Lease? && now < t.lease.expiresAt && t.lease.token == token
  }

  function Apply(s: State, a: Action): (s': State)
    requires Enabled(s, a)
  {
    match a
    case Tick(to) => s.(clock := to)
    case StartIntake(i, consumer, priority, summary) =>
      s.(intakes := s.intakes[i := Intake(consumer, priority, summary, s.clock, Creating)])
    case Create(i) =>
      if s.ticket.Some? then s.(intakes := s.intakes[i := s.intakes[i].(pc := Claiming)])
      else GrantTo(s, i, New(s.intakes[i].priority)).(events := [CreatedBy(s.intakes[i])])
    case Claim(i) =>
      if Claimable(s.ticket.value, s.intakes[i].consumer, s.intakes[i].now) then GrantTo(s, i, s.ticket.value)
      else s.(intakes := s.intakes[i := s.intakes[i].(pc := IntakeEnded(false))])
    case StartUpdate(u, change, caller) =>
      var pc := match caller
        case Admin(name) => Ready(name, None)
        case Bearer(token) => Checking(token);
      s.(updates := s.updates[u := Update(change, pc)])
    case Check(u) =>
      var t, q := s.ticket.value, s.updates[u];
      var pc := if Passes(t, q.pc.token, s.clock) then Ready(Actor(t.lease), Some(q.pc.token)) else UpdateEnded;
      s.(updates := s.updates[u := q.(pc := pc)])
    case Transition(u) =>
      var t, q := s.ticket.value, s.updates[u];
      var done := s.(updates := s.updates[u := q.(pc := UpdateEnded)]);
      if Refusal(t, q.change).Some? then done
      else
        done.(ticket := Some(Changed(t, q.change, s.clock)), events := s.events + [EventOf(t, q.change, q.pc.actor)])
  }

  ghost predicate Init(s: State) {
    s.ticket.None? && s.events == [] && s.intakes == map[] && s.updates == map[] && s.grants == []
  }

  // ---------------------------------------------------------------- invariant

  /** The timeline is a path of allowed edges from Received to the current status. */
  ghost predicate Path(events: seq<Event>, status: Status) {
    && events != [] && events[0].from.None? && events[0].to == Received
    && events[|events| - 1].to == status
    && (forall i | 0 < i < |events| ::
          events[i].from == Some(events[i - 1].to) && Edge(events[i - 1].to, events[i].to))
  }

  predicate Before(x: Option<Time>, y: Option<Time>) {
    y.Some? ==> x.Some? && x.value <= y.value
  }

  predicate Past(x: Option<Time>, clock: Time) {
    x.Some? ==> x.value <= clock
  }

  ghost predicate TicketOk(t: Ticket, clock: Time) {
    && (t.closedAt.Some? <==> t.status == Closed)
    && (Released(t.status) ==> t.fixVersion != "" && t.verificationSteps != "" && t.releasedAt.Some?)
    && (t.status != Received ==> t.acknowledgedAt.Some?)
    && (Started(t.status) ==> t.startedAt.Some?)
    && Before(t.acknowledgedAt, t.startedAt) && Before(t.startedAt, t.releasedAt) && Before(t.releasedAt, t.closedAt)
    && Past(t.acknowledgedAt, clock) && Past(t.startedAt, clock) && Past(t.releasedAt, clock) && Past(t.closedAt, clock)
    && (Terminal(t.status) ==> t.lease.NoLease?)
  }

  /** A grant went to the intake it is named after, and lasts from the time that intake read. */
  ghost predicate GrantOk(s: State, g: Grant) {
    && g.token in s.intakes && s.intakes[g.token].pc == IntakeEnded(true)
    && g.consumer == s.intakes[g.token].consumer && g.expiresAt == s.intakes[g.token].now + LEASE
  }

  /** The stored lease is the last one granted, and no token was granted twice. */
  ghost predicate GrantsOk(s: State) {
    && (s.ticket.None? ==> s.grants == [])
    && (s.ticket.Some? && s.ticket.value.lease.Lease? ==>
          var l := s.ticket.value.lease;
          s.grants != [] && s.grants[|s.grants| - 1] == Grant(l.owner, l.token, l.expiresAt))
    && (forall j | 0 <= j < |s.grants| :: GrantOk(s, s.grants[j]))
    && (forall j, k | 0 <= j < k < |s.grants| :: s.grants[j].token != s.grants[k].token)
  }

  ghost predicate Inv(s: State) {
    && (s.ticket.Some? ==> Path(s.events, s.ticket.value.status) && TicketOk(s.ticket.value, s.clock))
    && GrantsOk(s)
    && (forall i <- s.intakes :: s.intakes[i].now <= s.clock)
  }

  /** One transition keeps a ticket well formed. */
  lemma ChangedOk(t: Ticket, c: Change, clock: Time)
    requires TicketOk(t, clock) && Refusal(t, c).None?
    ensures TicketOk(Changed(t, c, clock), clock)
  {
  }

  lemma PathExtends(events: seq<Event>, t: Ticket, c: Change, actor: string)
    requires Path(events, t.status) && Refusal(t, c).None?
    ensures Path(events + [EventOf(t, c, actor)], c.status)
  {
  }

  lemma GrantKeepsInv(s: State, i: Id, t: Ticket, events: seq<Event>)
    requires Inv(s) && i in s.intakes && s.intakes[i].pc != IntakeEnded(true)
    requires Path(events, t.status) && TicketOk(t, s.clock) && !Terminal(t.status)
    ensures Inv(GrantTo(s, i, t).(events := events))
  {
    var s' := GrantTo(s, i, t);
    forall j | 0 <= j < |s.grants| ensures s.grants[j].token != i && GrantOk(s', s.grants[j]) {
      assert GrantOk(s, s.grants[j]);
    }
  }

  lemma IntakeKeepsInv(s: State, a: Action)
    requires Inv(s) && Enabled(s, a) && (a.Create? || a.Claim?)
    ensures Inv(Apply(s, a))
  {
    var s' := Apply(s, a);
    if s'.grants != s.grants {
      var t := if s.ticket.None? then New(s.intakes[a.i].priority) else s.ticket.value;
      GrantKeepsInv(s, a.i, t, s'.events);
    } else {
      forall j | 0 <= j < |s.grants| ensures GrantOk(s', s.grants[j]) { assert GrantOk(s, s.grants[j]); }
    }
  }

  lemma TransitionKeepsInv(s: State, a: Action)
    requires Inv(s) && Enabled(s, a) && a.Transition?
    ensures Inv(Apply(s, a))
  {
    var s' := Apply(s, a);
    var t, q := s.ticket.value, s.updates[a.u];
    if Refusal(t, q.change).None? {
      ChangedOk(t, q.change, s.clock);
      PathExtends(s.events, t, q.change, q.pc.actor);
    }
    forall j | 0 <= j < |s.grants| ensures GrantOk(s', s.grants[j]) { assert GrantOk(s, s.grants[j]); }
  }

  lemma StepKeepsInv(s: State, a: Action)
    requires Inv(s) && Enabled(s, a)
    ensures Inv(Apply(s, a))
  {
    match a
    case Create(_) => IntakeKeepsInv(s, a);
    case Claim(_) => IntakeKeepsInv(s, a);
    case Transition(_) => TransitionKeepsInv(s, a);
    case _ =>
      var s' := Apply(s, a);
      forall j | 0 <= j < |s.grants| ensures GrantOk(s', s.grants[j]) { assert GrantOk(s, s.grants[j]); }
  }

  // ---------------------------------------------------------------- runs

  predicate Legal(s: State, actions: seq<Action>)
    decreases |actions|
  {
    actions == [] || (Enabled(s, actions[0]) && Legal(Apply(s, actions[0]), actions[1..]))
  }

  function Run(s: State, actions: seq<Action>): (s': State)
    requires Legal(s, actions)
    decreases |actions|
  {
    if actions == [] then s else Run(Apply(s, actions[0]), actions[1..])
  }

  lemma {:induction false} RunKeepsInv(s: State, actions: seq<Action>)
    requires Inv(s) && Legal(s, actions)
    ensures Inv(Run(s, actions))
    ensures Run(s, actions).clock >= s.clock
    decreases |actions|
  {
    if actions != [] {
      StepKeepsInv(s, actions[0]);
      RunKeepsInv(Apply(s, actions[0]), actions[1..]);
    }
  }

  /** In every run the timeline is a path in the allowed graph; a ticket has a closing time exactly when it
      is Closed; a Closed or Rejected ticket has no lease; and a Closed ticket names its fix, how to verify it,
      and times in order. */
  lemma {:induction false} HistoryIsSound(s: State, actions: seq<Action>)
    requires Init(s) && Legal(s, actions) && Run(s, actions).ticket.Some?
    ensures var t := Run(s, actions).ticket.value;
            && Path(Run(s, actions).events, t.status)
            && (t.closedAt.Some? <==> t.status == Closed)
            && (t.status == Closed || t.status == Rejected ==> t.lease.NoLease?)
            && (t.status == Closed ==>
                  && t.fixVersion != "" && t.verificationSteps != ""
                  && t.acknowledgedAt.Some? && t.startedAt.Some? && t.releasedAt.Some?
                  && t.acknowledgedAt.value <= t.startedAt.value <= t.releasedAt.value <= t.closedAt.value)
  {
    RunKeepsInv(s, actions);
  }

  /** In every run, only the token granted last can pass the claim check, only before its expiry, and not at
      all on a Closed or Rejected ticket. */
  lemma {:induction false} OnlyLatestTokenPasses(s: State, actions: seq<Action>, token: Id)
    requires Init(s) && Legal(s, actions) && Run(s, actions).ticket.Some?
    requires Passes(Run(s, actions).ticket.value, token, Run(s, actions).clock)
    ensures var s' := Run(s, actions);
            && s'.grants != [] && s'.grants[|s'.grants| - 1].token == token
            && s'.clock < s'.grants[|s'.grants| - 1].expiresAt
            && (forall j | 0 <= j < |s'.grants| - 1 :: s'.grants[j].token != token)
            && !Terminal(s'.ticket.value.status)
  {
    RunKeepsInv(s, actions);
  }
}
