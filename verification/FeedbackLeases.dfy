/**
  What a lease on a feedback ticket is worth (src/feedback-tickets/feedback-tickets.service.ts): how long it
  keeps other consumers away, and what a claim check still says when the transition it guards is applied.
 */
module FeedbackLeases {
  import opened Wrappers
  import opened FeedbackTickets

  /** The transition takes a lease away. */
  predicate Clears(s: State, a: Action)
    requires Enabled(s, a)
  {
    a.Transition? && s.ticket.value.lease.Lease? && Apply(s, a).ticket.value.lease.NoLease?
  }

  predicate NoClearing(s: State, actions: seq<Action>)
    requires Legal(s, actions)
    decreases |actions|
  {
    actions == [] || (!Clears(s, actions[0]) && NoClearing(Apply(s, actions[0]), actions[1..]))
  }

  lemma {:induction false} RunAppend(s: State, xs: seq<Action>, ys: seq<Action>)
    requires Legal(s, xs) && Legal(Run(s, xs), ys)
    ensures Legal(s, xs + ys) && Run(s, xs + ys) == Run(Run(s, xs), ys)
    ensures NoClearing(s, xs + ys) <==> NoClearing(s, xs) && NoClearing(Run(s, xs), ys)
    decreases |xs|
  {
    if xs == [] {
      assert xs + ys == ys;
    } else {
      assert (xs + ys)[1..] == xs[1..] + ys;
      RunAppend(Apply(s, xs[0]), xs[1..], ys);
    }
  }

  /** One more step at the end. */
  lemma {:induction false} RunThen(s: State, xs: seq<Action>, a: Action)
    requires Legal(s, xs) && Enabled(Run(s, xs), a)
    ensures Legal(s, xs + [a]) && Run(s, xs + [a]) == Apply(Run(s, xs), a)
    ensures NoClearing(s, xs + [a]) <==> NoClearing(s, xs) && !Clears(Run(s, xs), a)
  {
    var s' := Run(s, xs);
    assert Legal(Apply(s', a), []);
    assert Legal(s', [a]) && Run(s', [a]) == Apply(s', a);
    RunAppend(s, xs, [a]);
  }

  // ---------------------------------------------------------------- exclusivity

  predicate Holds(s: State, consumer: string, deadline: Time) {
    s.ticket.Some? && s.ticket.value.lease.Lease? && s.ticket.value.lease.owner == consumer
    && deadline < s.ticket.value.lease.expiresAt
  }

  /** An unfinished intake of the consumer that read the clock so early that its lease would end by the deadline. */
  predicate Overdue(s: State, i: Id, consumer: string, deadline: Time) {
    i in s.intakes && s.intakes[i].consumer == consumer && !s.intakes[i].pc.IntakeEnded?
    && s.intakes[i].now + LEASE <= deadline
  }

  ghost predicate HasOverdue(s: State, consumer: string, deadline: Time) {
    exists i :: Overdue(s, i, consumer, deadline)
  }

  /** Every grant after the first n is the consumer's. */
  predicate OnlyTo(grants: seq<Grant>, n: nat, consumer: string) {
    forall j | n <= j < |grants| :: grants[j].consumer == consumer
  }

  /** In every run that reaches no further than the deadline and in which no transition clears the lease,
      nobody but the consumer is granted the ticket. */
  ghost predicate Exclusive(s: State, consumer: string, deadline: Time) {
    forall actions {:trigger Run(s, actions)}
      | Legal(s, actions) && NoClearing(s, actions) && Run(s, actions).clock <= deadline ::
      OnlyTo(Run(s, actions).grants, |s.grants|, consumer)
  }

  lemma StepKeepsHolder(s: State, a: Action, consumer: string, deadline: Time)
    requires Inv(s) && Enabled(s, a) && Holds(s, consumer, deadline) && s.clock <= deadline && !Clears(s, a)
    requires !HasOverdue(s, consumer, deadline)
    ensures Holds(Apply(s, a), consumer, deadline) && !HasOverdue(Apply(s, a), consumer, deadline)
    ensures s.grants <= Apply(s, a).grants && OnlyTo(Apply(s, a).grants, |s.grants|, consumer)
  {
    var s' := Apply(s, a);
    StoredExpiry(s);
    forall i ensures !Overdue(s', i, consumer, deadline) { assert !Overdue(s, i, consumer, deadline); }
    if a.Claim? { assert !Overdue(s, a.i, consumer, deadline); }
  }

  /** No lease reaches further than a new intake's would. */
  lemma StoredExpiry(s: State)
    requires Inv(s) && s.ticket.Some? && s.ticket.value.lease.Lease?
    ensures s.ticket.value.lease.expiresAt <= s.clock + LEASE
  {
    assert GrantOk(s, s.grants[|s.grants| - 1]);
  }

  lemma {:induction false} HolderStays(s: State, actions: seq<Action>, consumer: string, deadline: Time)
    requires Inv(s) && Legal(s, actions) && NoClearing(s, actions) && !HasOverdue(s, consumer, deadline)
    requires Holds(s, consumer, deadline) && Run(s, actions).clock <= deadline
    ensures s.grants <= Run(s, actions).grants && OnlyTo(Run(s, actions).grants, |s.grants|, consumer)
    decreases |actions|
  {
    if actions != [] {
      var s1 := Apply(s, actions[0]);
      StepKeepsInv(s, actions[0]);
      RunKeepsInv(s1, actions[1..]);
      StepKeepsHolder(s, actions[0], consumer, deadline);
      HolderStays(s1, actions[1..], consumer, deadline);
      Chain(s.grants, s1.grants, Run(s, actions).grants, consumer);
    }
  }

  lemma Chain(g: seq<Grant>, g1: seq<Grant>, g2: seq<Grant>, consumer: string)
    requires g <= g1 <= g2 && OnlyTo(g1, |g|, consumer) && OnlyTo(g2, |g1|, consumer)
    ensures g <= g2 && OnlyTo(g2, |g|, consumer)
  {
    forall j | |g| <= j < |g2| ensures g2[j].consumer == consumer {
      if j < |g1| { assert g2[j] == g1[j]; }
    }
  }

  lemma {:induction false} FreshId(ids: set<Id>) returns (i: Id)
    ensures forall j <- ids :: j < i
    decreases |ids|
  {
    if ids == {} {
      i := 0;
    } else {
      var j :| j in ids;
      i := FreshId(ids - {j});
      if i <= j { i := j + 1; }
      assert forall k <- ids :: k == j || k in ids - {j};
    }
  }

  /** An overdue intake claims: the consumer's own lease gets shorter. */
  lemma OverdueClaims(s: State, i: Id, consumer: string, deadline: Time) returns (actions: seq<Action>)
    requires Inv(s) && Holds(s, consumer, deadline) && Overdue(s, i, consumer, deadline)
    ensures Legal(s, actions) && NoClearing(s, actions)
    ensures var s' := Run(s, actions);
            && s'.clock == s.clock && s'.intakes.Keys == s.intakes.Keys && |s'.grants| == |s.grants| + 1
            && s'.ticket.Some? && !Terminal(s'.ticket.value.status)
            && s'.ticket.value.lease == Lease(consumer, i, s.intakes[i].now + LEASE)
  {
    actions := [];
    var s1 := s;
    if s.intakes[i].pc.Creating? {
      RunThen(s, [], Create(i));
      actions := [] + [Create(i)];
      s1 := Apply(s, Create(i));
    }
    RunThen(s, actions, Claim(i));
    actions := actions + [Claim(i)];
  }

  /** Once a lease has run out, another consumer's intake is granted the ticket at once. */
  lemma {:induction false} Takeover(s: State, j: Id, other: string)
    requires s.ticket.Some? && !Terminal(s.ticket.value.status) && s.ticket.value.lease.Lease?
    requires s.ticket.value.lease.expiresAt <= s.clock && j !in s.intakes && other != ""
    ensures var actions := [StartIntake(j, other, Normal, ""), Create(j), Claim(j)];
            && Legal(s, actions) && NoClearing(s, actions)
            && Run(s, actions) ==
               s.(ticket := Some(s.ticket.value.(lease := Lease(other, j, s.clock + LEASE))),
                  intakes := s.intakes[j := Intake(other, Normal, "", s.clock, IntakeEnded(true))],
                  grants := s.grants + [Grant(other, j, s.clock + LEASE)])
  {
    var a := StartIntake(j, other, Normal, "");
    RunThen(s, [], a);
    RunThen(s, [a], Create(j));
    assert [a] + [Create(j)] == [a, Create(j)];
    RunThen(s, [a, Create(j)], Claim(j));
    assert [a, Create(j)] + [Claim(j)] == [a, Create(j), Claim(j)];
  }

  lemma LeaseIsLost(s: State, i: Id, consumer: string, deadline: Time)
    requires Inv(s) && Holds(s, consumer, deadline) && s.clock <= deadline && Overdue(s, i, consumer, deadline)
    ensures !Exclusive(s, consumer, deadline)
  {
    var xs := OverdueClaims(s, i, consumer, deadline);
    var s1 := Run(s, xs);
    var expiry := s.intakes[i].now + LEASE;
    var tick := Tick(if s1.clock < expiry then expiry else s1.clock);
    RunThen(s, xs, tick);
    var s2 := Apply(s1, tick);
    var j := FreshId(s.intakes.Keys);
    assert j !in s2.intakes.Keys;
    var other := consumer + "'";
    var ys := [StartIntake(j, other, Normal, ""), Create(j), Claim(j)];
    Takeover(s2, j, other);
    RunAppend(s, xs + [tick], ys);
    var grants := Run(s, xs + [tick] + ys).grants;
    assert grants[|s.grants| + 1].consumer == other;
    assert |other| == |consumer| + 1;
    assert !OnlyTo(grants, |s.grants|, consumer);
  }

  /** A lease that lasts beyond the deadline keeps everybody else away until then exactly when the holder has
      no unfinished intake that would, with the time it has already read, shorten the lease to the deadline. */
  lemma LeaseIsExclusive(s: State, consumer: string, deadline: Time)
    requires Inv(s) && Holds(s, consumer, deadline) && s.clock <= deadline
    ensures Exclusive(s, consumer, deadline) <==> !HasOverdue(s, consumer, deadline)
  {
    if i :| Overdue(s, i, consumer, deadline) {
      LeaseIsLost(s, i, consumer, deadline);
    } else {
      forall actions | Legal(s, actions) && NoClearing(s, actions) && Run(s, actions).clock <= deadline
        ensures OnlyTo(Run(s, actions).grants, |s.grants|, consumer)
      {
        HolderStays(s, actions, consumer, deadline);
      }
    }
  }

  const MINUTE := 60 * 1000

  ghost predicate Start(s: State) {
    Init(s) && s.clock == 0
  }

  /** A's second intake creates the ticket while its first one is still on its way. */
  lemma TwoIntakes(s: State) returns (actions: seq<Action>)
    requires Start(s)
    ensures Legal(s, actions) && NoClearing(s, actions)
    ensures Run(s, actions) ==
            State(Some(New(Normal).(lease := Lease("A", 2, 25 * MINUTE))), [Event(Created, None, Received, "", "A")],
                  10 * MINUTE,
                  map[1 := Intake("A", Normal, "", 0, Creating),
                      2 := Intake("A", Normal, "", 10 * MINUTE, IntakeEnded(true))],
                  map[], [Grant("A", 2, 25 * MINUTE)])
  {
    var a1, a2 := StartIntake(1, "A", Normal, ""), StartIntake(2, "A", Normal, "");
    RunThen(s, [], a1);
    actions := [] + [a1];
    RunThen(s, actions, Tick(10 * MINUTE));
    actions := actions + [Tick(10 * MINUTE)];
    RunThen(s, actions, a2);
    actions := actions + [a2];
    RunThen(s, actions, Create(2));
    actions := actions + [Create(2)];
  }

  /** Two intakes of one consumer, the later one first: the lease until minute 25 ends at minute 15, and a
      second consumer is granted the ticket at minute 16. */
  lemma LateIntakeShortensLease(s: State) returns (actions: seq<Action>)
    requires Start(s)
    ensures Legal(s, actions) && NoClearing(s, actions) && Run(s, actions).clock == 16 * MINUTE
    ensures Run(s, actions).grants ==
            [Grant("A", 2, 25 * MINUTE), Grant("A", 1, 15 * MINUTE), Grant("B", 3, 31 * MINUTE)]
  {
    actions := TwoIntakes(s);
    RunThen(s, actions, Create(1));
    actions := actions + [Create(1)];
    RunThen(s, actions, Claim(1));
    actions := actions + [Claim(1)];
    RunThen(s, actions, Tick(16 * MINUTE));
    actions := actions + [Tick(16 * MINUTE)];
    Takeover(Run(s, actions), 3, "B");
    RunAppend(s, actions, [StartIntake(3, "B", Normal, ""), Create(3), Claim(3)]);
    actions := actions + [StartIntake(3, "B", Normal, ""), Create(3), Claim(3)];
  }

  // ---------------------------------------------------------------- check, then transition

  predicate Holding(s: State, token: Id) {
    s.ticket.Some? && s.ticket.value.lease.Lease? && s.ticket.value.lease.token == token
  }

  /** A token that was granted and is not the stored one never becomes the stored one again. */
  ghost predicate Superseded(s: State, token: Id) {
    !Holding(s, token) && exists j :: 0 <= j < |s.grants| && s.grants[j].token == token
  }

  lemma {:induction false} SupersededStays(s: State, actions: seq<Action>, token: Id)
    requires Inv(s) && Legal(s, actions) && Superseded(s, token)
    ensures Superseded(Run(s, actions), token)
    decreases |actions|
  {
    if actions != [] {
      var s1 := Apply(s, actions[0]);
      var j :| 0 <= j < |s.grants| && s.grants[j].token == token;
      assert GrantOk(s, s.grants[j]);
      assert s1.grants[j].token == token;
      StepKeepsInv(s, actions[0]);
      SupersededStays(s1, actions[1..], token);
    }
  }

  /** Along any run a held token stays the stored one exactly as long as nothing is granted and no transition
      clears the lease. */
  lemma {:induction false} TokenStays(s: State, actions: seq<Action>, token: Id)
    requires Inv(s) && Legal(s, actions) && Holding(s, token)
    ensures s.grants <= Run(s, actions).grants
    ensures Holding(Run(s, actions), token) <==> Run(s, actions).grants == s.grants && NoClearing(s, actions)
    ensures Holding(Run(s, actions), token) ==> Run(s, actions).ticket.value.lease == s.ticket.value.lease
    decreases |actions|
  {
    if actions != [] {
      var s1 := Apply(s, actions[0]);
      StepKeepsInv(s, actions[0]);
      GrantsGrow(s1, actions[1..]);
      if Holding(s1, token) {
        TokenStays(s1, actions[1..], token);
      } else {
        assert s.grants[|s.grants| - 1].token == token;
        assert s1.grants[|s.grants| - 1].token == token;
        SupersededStays(s1, actions[1..], token);
      }
    }
  }

  lemma {:induction false} GrantsGrow(s: State, actions: seq<Action>)
    requires Inv(s) && Legal(s, actions)
    ensures s.grants <= Run(s, actions).grants
    decreases |actions|
  {
    if actions != [] {
      StepKeepsInv(s, actions[0]);
      GrantsGrow(Apply(s, actions[0]), actions[1..]);
    }
  }

  /** For every run between a passed check and its transition: the transition is applied under the checked
      token, unexpired, exactly when meanwhile nothing was granted, no other transition cleared the lease, and
      the lease has not run out. */
  lemma {:induction false} CheckedUpdate(s: State, u: Id, actions: seq<Action>)
    requires Inv(s) && Enabled(s, Check(u)) && Passes(s.ticket.value, s.updates[u].pc.token, s.clock)
    requires Legal(Apply(s, Check(u)), actions) && Enabled(Run(Apply(s, Check(u)), actions), Transition(u))
    ensures var s1 := Apply(s, Check(u));
            var s' := Run(s1, actions);
            Passes(s'.ticket.value, s.updates[u].pc.token, s'.clock) <==>
            s'.grants == s.grants && NoClearing(s1, actions) && s'.clock < s.ticket.value.lease.expiresAt
  {
    StepKeepsInv(s, Check(u));
    TokenStays(Apply(s, Check(u)), actions, s.updates[u].pc.token);
  }

  const REJECT := Change(Rejected, "", None, None, None, None)

  lemma CheckPassed(s: State) returns (actions: seq<Action>)
    requires Start(s)
    ensures Legal(s, actions)
    ensures Run(s, actions) ==
            State(Some(New(Normal).(lease := Lease("A", 1, 15 * MINUTE))), [Event(Created, None, Received, "", "A")], 0,
                  map[1 := Intake("A", Normal, "", 0, IntakeEnded(true))],
                  map[7 := Update(REJECT, Ready("A", Some(1)))], [Grant("A", 1, 15 * MINUTE)])
  {
    var a1, u := StartIntake(1, "A", Normal, ""), StartUpdate(7, REJECT, Bearer(1));
    RunThen(s, [], a1);
    actions := [] + [a1];
    RunThen(s, actions, Create(1));
    actions := actions + [Create(1)];
    RunThen(s, actions, u);
    actions := actions + [u];
    RunThen(s, actions, Check(7));
    actions := actions + [Check(7)];
  }

  /** At the expiry of A's lease B takes the ticket over. */
  lemma TakenOver(s: State) returns (actions: seq<Action>)
    requires Start(s)
    ensures Legal(s, actions)
    ensures var s' := Run(s, actions);
            && s'.ticket == Some(New(Normal).(lease := Lease("B", 2, 30 * MINUTE)))
            && s'.updates == map[7 := Update(REJECT, Ready("A", Some(1)))]
            && s'.events == [Event(Created, None, Received, "", "A")]
            && s'.grants == [Grant("A", 1, 15 * MINUTE), Grant("B", 2, 30 * MINUTE)]
  {
    actions := CheckPassed(s);
    RunThen(s, actions, Tick(15 * MINUTE));
    actions := actions + [Tick(15 * MINUTE)];
    Takeover(Run(s, actions), 2, "B");
    RunAppend(s, actions, [StartIntake(2, "B", Normal, ""), Create(2), Claim(2)]);
    actions := actions + [StartIntake(2, "B", Normal, ""), Create(2), Claim(2)];
  }

  /** A's update passes the check, B takes the ticket over at expiry, and A's transition still goes through:
      it ends B's lease and is recorded in A's name. */
  lemma SupersededUpdateApplies(s: State) returns (actions: seq<Action>)
    requires Start(s)
    ensures Legal(s, actions) && Run(s, actions).ticket.Some?
    ensures Run(s, actions).grants == [Grant("A", 1, 15 * MINUTE), Grant("B", 2, 30 * MINUTE)]
    ensures Run(s, actions).ticket.value.lease.NoLease? && Run(s, actions).ticket.value.status == Rejected
    ensures Run(s, actions).events ==
            [Event(Created, None, Received, "", "A"), Event(StatusChanged, Some(Received), Rejected, "", "A")]
  {
    actions := TakenOver(s);
    RunThen(s, actions, Transition(7));
    actions := actions + [Transition(7)];
  }
}
