/** The status graph of feedback tickets and the single steps of their protocol, said without the tables
    (src/feedback-tickets/feedback-tickets.service.ts). */
module FeedbackWorkflow {
  import opened Wrappers
  import opened FeedbackTickets

  /** Where each status can be entered from. */
  lemma EnteredFrom(from: Status, to: Status)
    ensures to in Allowed(from) <==>
              match to
              case Received => false
              case Acknowledged => from == Received
              case InProgress => from != InProgress
              case WaitingRelease => from == InProgress
              case WaitingVerification => from == WaitingRelease
              case Closed => from == WaitingVerification
              case Blocked => !Terminal(from) && from != Blocked
              case Rejected => from in [Received, Acknowledged, InProgress, Blocked]
  {
  }

  predicate AllAccepted(t: Ticket, cs: seq<Change>, now: Time)
    decreases |cs|
  {
    cs == [] || (Acceptable(t, cs[0]) && AllAccepted(Changed(t, cs[0], now), cs[1..], now))
  }

  function After(t: Ticket, cs: seq<Change>, now: Time): (t': Ticket)
    decreases |cs|
  {
    if cs == [] then t else After(Changed(t, cs[0], now), cs[1..], now)
  }

  function Steps(s: Status): (n: nat) {
    match s
    case Closed => 0
    case WaitingVerification => 1
    case WaitingRelease => 2
    case InProgress => 3
    case _ => 4
  }

  /** Whatever its status, a ticket can be closed in at most four accepted changes, given a version and steps. */
  lemma {:induction false} CanBeClosed(t: Ticket, now: Time, version: string, steps: string) returns (cs: seq<Change>)
    requires version != "" && steps != ""
    ensures |cs| <= 4 && AllAccepted(t, cs, now) && After(t, cs, now).status == Closed
    ensures |cs| == Steps(t.status)
    decreases Steps(t.status)
  {
    if t.status == Closed {
      cs := [];
    } else {
      var next := match t.status
        case WaitingVerification => Closed
        case WaitingRelease => WaitingVerification
        case InProgress => WaitingRelease
        case _ => InProgress;
      var c := Change(next, "", None, None, Some(version), Some(steps));
      var rest := CanBeClosed(Changed(t, c, now), now, version, steps);
      cs := [c] + rest;
      assert cs[1..] == rest;
    }
  }

  /** An intake is handed an existing ticket exactly if it is open and free, expired at the time the intake read, or
      its own already; then it holds the lease for fifteen minutes from that time, and nothing else changes. */
  lemma ClaimOutcome(s: State, i: Id)
    requires Enabled(s, Claim(i))
    ensures var s', q, t := Apply(s, Claim(i)), s.intakes[i], s.ticket.value;
            && s'.ticket.Some? && s'.events == s.events && s'.updates == s.updates && s'.clock == s.clock
            && s'.intakes[i].pc.IntakeEnded?
            && (s'.intakes[i].pc.granted <==>
                  && t.status != Closed && t.status != Rejected
                  && (t.lease.NoLease? || t.lease.expiresAt <= q.now || t.lease.owner == q.consumer))
            && (s'.intakes[i].pc.granted ==>
                  && s'.ticket.value == t.(lease := s'.ticket.value.lease)
                  && s'.ticket.value.lease == Lease(q.consumer, i, q.now + 900_000))
            && (!s'.intakes[i].pc.granted ==> s'.ticket.value == t)
  {
  }

  /** The first intake creates the ticket as it was reported and holds its first lease. */
  lemma CreateOutcome(s: State, i: Id)
    requires Enabled(s, Create(i))
    ensures var s', q := Apply(s, Create(i)), s.intakes[i];
            if s.ticket.Some? then s'.ticket == s.ticket && s'.events == s.events && s'.intakes[i].pc.Claiming?
            else
              && s'.ticket.Some? && s'.intakes[i].pc == IntakeEnded(true)
              && s'.ticket.value.status == Received && s'.ticket.value.priority == q.priority
              && s'.ticket.value.lease == Lease(q.consumer, i, q.now + 900_000)
              && s'.ticket.value.assignee == "" && s'.ticket.value.fixVersion == ""
              && s'.ticket.value.verificationSteps == ""
              && s'.events == [Event(Created, None, Received, q.summary, q.consumer)]
  {
  }

  /** A claimed update passes its check exactly with the token of an unexpired lease, and goes on in the name of the
      lease's owner; the check itself changes nothing. */
  lemma CheckOutcome(s: State, u: Id)
    requires Enabled(s, Check(u))
    ensures var s', t, token := Apply(s, Check(u)), s.ticket.value, s.updates[u].pc.token;
            && s' == s.(updates := s'.updates) && u in s'.updates && s'.updates[u].change == s.updates[u].change
            && (s'.updates[u].pc.Ready? <==>
                  t.lease.Lease? && t.lease.token == token && s.clock < t.lease.expiresAt)
            && (s'.updates[u].pc.Ready? && t.lease.owner != "" ==> s'.updates[u].pc.actor == t.lease.owner)
            && (s'.updates[u].pc.Ready? || s'.updates[u].pc.UpdateEnded?)
  {
  }

  /** The transition of a checked or an administrator's update. */
  lemma TransitionOutcome(s: State, u: Id)
    requires Enabled(s, Transition(u))
    ensures var s', t, q := Apply(s, Transition(u)), s.ticket.value, s.updates[u];
            && s'.ticket.Some? && u in s'.updates && s'.updates[u].pc.UpdateEnded?
            && s'.intakes == s.intakes && s'.grants == s.grants && s'.clock == s.clock
            && (Acceptable(t, q.change) ==>
                  && Moves(t, s'.ticket.value, q.change, s.clock)
                  && |s'.events| == |s.events| + 1 && s'.events[..|s.events|] == s.events
                  && Tells(s'.events[|s.events|], t, q.change, q.pc.actor))
            && (!Acceptable(t, q.change) ==> s'.ticket == s.ticket && s'.events == s.events)
  {
  }
}
