// Rule lists that are never matched late where it shows, and so keep their meaning under every schedule.
module DnsWalkShield {
  import opened Base
  import opened DnsRules
  import opened DnsWalk
  import opened DnsReference
  import opened DnsWalkMeaning
  import opened DnsWalkTheorems
  import opened DnsWalkSpeculation

  /** Rule i shows and binds a defined tag that no rule before it waits for: only race rules bind it. */
  ghost predicate Exposed(rules: seq<Rule>, i: nat, t: Tag) {
    && i < |rules| && t in rules[i].tags && Shows(rules, i)
    && (exists j | 0 <= j < |rules| :: rules[j].Defines(t))
    && (forall b | 0 <= b < i && t in rules[b].tags :: rules[b].Races())
  }

  ghost predicate Unexposed(rules: seq<Rule>) { forall i: nat, t :: !Exposed(rules, i, t) }

  // ---- the invariant

  /** A tag that a passed rule waited for is resolved. */
  ghost predicate Awaited(q: Query, c: Schedule, s: State, n: nat) {
    forall b, t | 0 <= b < n && b < |q.rules| && t in q.rules[b].tags && !q.rules[b].Races() && t in s.named ::
      Done(c, s.named[t], s.now)
  }

  /** An armed rule that shows has every tag it binds settled. */
  ghost predicate ArmedSettled(q: Query, s: State) {
    forall a, t | a in s.armed && a.rule < |q.rules| && Shows(q.rules, a.rule) && t in q.rules[a.rule].tags
        && t in s.named ::
      s.named[t].rule in s.settled
  }

  ghost predicate Shield(q: Query, c: Schedule, s: State) {
    Awaited(q, c, s, s.index) && ArmedSettled(q, s) && !s.late
  }

  /** What is resolved when futures are settled is settled afterwards. */
  lemma SettleCatches(q: Query, c: Schedule, s: State)
    ensures var s' := Settle(q, c, s);
            && s' == s.(now := s.now + 1, responses := s'.responses, transports := s'.transports, settled := s'.settled)
            && s.settled <= s'.settled
            && forall f | f in s.futures && Done(c, f, s'.now) :: f.rule in s'.settled
  {
    hide SettleFrom;
    var s1 := s.(now := s.now + 1);
    SettleFrame(q, c, s1, 0);
    SettledSet(q, c, s1, 0);
    assert s1.futures[0..] == s1.futures;
  }

  lemma ShieldSettle(q: Query, c: Schedule, s: State)
    requires Shield(q, c, s)
    ensures Shield(q, c, Settle(q, c, s))
  {
    hide Shows, Settle;
    SettleCatches(q, c, s);
  }

  lemma ShieldTick(q: Query, c: Schedule, s: State, now: nat, blocks: nat, drained: nat)
    requires Shield(q, c, s) && s.now <= now
    ensures Shield(q, c, s.(now := now, blocks := blocks, drained := drained))
  {
    hide Shows;
  }

  lemma {:induction false} ShieldSweep(q: Query, c: Schedule, s: State, k: nat, n: nat)
    requires k <= |s.armed| && ArmedInRange(q, s) && Awaited(q, c, s, n) && ArmedSettled(q, s) && !s.late
    ensures var s' := Sweep(q, c, s, k).0; Awaited(q, c, s', n) && ArmedSettled(q, s') && !s'.late
    decreases |s.armed| - k
  {
    hide Judge, Ready, Shows, Disarm, Awaited, ArmedSettled;
    if k < |s.armed| {
      var s1 := s.(now := s.now + 1);
      AwaitedLater(q, c, s, s1, n);
      ArmedSame(q, s, s1);
      if !Ready(c, s.armed[k], s1.now) {
        ShieldSweep(q, c, s1, k + 1, n);
      } else {
        ShieldDisarm(q, c, s1, k, n);
        DisarmSize(q, c, s1, k);
        if Judge(q, c, s1, s.armed[k]).None? { ShieldSweep(q, c, Disarm(q, c, s1, k), k, n); }
      }
    }
  }

  lemma AwaitedLater(q: Query, c: Schedule, s: State, s': State, n: nat)
    requires Awaited(q, c, s, n) && s'.named == s.named && s.now <= s'.now
    ensures Awaited(q, c, s', n)
  {
  }

  lemma ArmedSame(q: Query, s: State, s': State)
    requires ArmedSettled(q, s) && s'.named == s.named && s.settled <= s'.settled && forall a | a in s'.armed ::
              a in s.armed
    ensures ArmedSettled(q, s')
  {
    hide Shows;
  }

  lemma ShieldDisarm(q: Query, c: Schedule, s: State, k: nat, n: nat)
    requires k < |s.armed| && ArmedInRange(q, s) && Awaited(q, c, s, n) && ArmedSettled(q, s) && !s.late
    ensures var s' := Disarm(q, c, s, k); Awaited(q, c, s', n) && ArmedSettled(q, s') && !s'.late
  {
    hide Judge, Shows, Awaited;
    var s', a := Disarm(q, c, s, k), s.armed[k];
    assert a in s.armed;
    AwaitedLater(q, c, s, s', n);
    ArmedSame(q, s, s');
  }

  // ---- visiting

  /** At a rule that shows, everything it binds was settled before it is matched. */
  lemma BoundSettled(q: Query, c: Schedule, s: State, s0: State)
    requires Unexposed(q.rules) && s.index < |q.rules| && Booked(q, s) && Shield(q, c, s) && s0 == Settle(q, c, s)
    requires Shows(q.rules, s.index)
    ensures forall t | t in q.rules[s.index].tags && t in s0.named :: s0.named[t].rule in s0.settled
  {
    hide Shows, Settle, Exposed;
    SettleCatches(q, c, s);
    forall t | t in q.rules[s.index].tags && t in s0.named ensures s0.named[t].rule in s0.settled {
      NamedDefined(q, s, t);
      var b := WaitedBefore(q.rules, s.index, t);
      assert Done(c, s.named[t], s.now);
    }
  }

  lemma NamedDefined(q: Query, s: State, t: Tag)
    requires Booked(q, s) && t in s.named
    ensures s.named[t] in s.futures && s.named[t].rule < |q.rules| && q.rules[s.named[t].rule].Defines(t)
  {
    assert FutureBooked(q, s, s.named[t]);
  }

  lemma WaitedBefore(rules: seq<Rule>, i: nat, t: Tag) returns (b: nat)
    requires Unexposed(rules) && i < |rules| && t in rules[i].tags && Shows(rules, i)
    requires exists j | 0 <= j < |rules| :: rules[j].Defines(t)
    ensures b < i && t in rules[b].tags && !rules[b].Races()
  {
    assert !Exposed(rules, i, t);
    b :| 0 <= b < i && t in rules[b].tags && !rules[b].Races();
  }

  /** What an action may do to the parts the shield speaks of. */
  lemma ActTouches(q: Query, c: Schedule, s: State)
    requires s.index < |q.rules|
    ensures var s' := Act(q, c, s).0;
            && s'.armed == s.armed && s'.late == s.late && s'.settled == s.settled && s.now <= s'.now
                && s'.index == s.index
            && (forall t | t in s.named && !q.rules[s.index].Defines(t) :: t in s'.named && s'.named[t] == s.named[t])
            && (forall t | t in s'.named && !q.rules[s.index].Defines(t) :: t in s.named)
  {
    hide ActEvaluate, ActRespond, ActRoute, ApplyRouteOptions;
    match q.rules[s.index].action
    case Evaluate(server, tag, speculative, own) => EvaluateTouches(q, s, server, tag, speculative, own);
    case Respond => RespondTouches(q, c, s, q.rules[s.index]);
    case Route(server, speculative, own) => RouteTouches(q, s, server, speculative, own);
    case _ =>
  }

  lemma EvaluateTouches(q: Query, s: State, server: string, tag: Tag, speculative: bool, own: RouteOptions)
    ensures var s' := ActEvaluate(q, s, server, tag, speculative, own).0;
            && s' == s.(anon := s'.anon, futures := s'.futures, named := s'.named)
            && (s'.named == s.named || (tag != "" && tag in s'.named && s'.named == s.named[tag := s'.named[tag]]))
  {
    hide ApplyRouteOptions;
  }

  lemma RespondTouches(q: Query, c: Schedule, s: State, r: Rule)
    ensures var s' := ActRespond(q, c, s, r).0; s.now <= s'.now && s' == s.(now := s'.now)
  {
    hide Named, Anonymous;
  }

  lemma RouteTouches(q: Query, s: State, server: string, speculative: bool, own: RouteOptions)
    ensures var s' := ActRoute(q, s, server, speculative, own).0;
            s' == s.(futures := s'.futures, terminal := s'.terminal)
  {
    hide ResolveRoute, RouteWith;
  }

  lemma ShieldAct(q: Query, c: Schedule, s: State, s': State, n: nat)
    requires Scoped(q.rules) && s.index < |q.rules| && n <= s.index + 1
    requires Awaited(q, c, s, n) && ArmedSettled(q, s) && !s.late && forall a | a in s.armed :: a.rule <= s.index
    requires s'.armed == s.armed && s'.late == s.late && s'.settled == s.settled && s.now <= s'.now
    requires forall t | t in s.named && !q.rules[s.index].Defines(t) :: t in s'.named && s'.named[t] == s.named[t]
    requires forall t | t in s'.named && !q.rules[s.index].Defines(t) :: t in s.named
    ensures Awaited(q, c, s', n) && ArmedSettled(q, s') && !s'.late
  {
    hide Shows, RespondScoped;
    forall b, t | 0 <= b < n && b < |q.rules| && t in q.rules[b].tags && t in s'.named
      ensures t in s.named && s'.named[t] == s.named[t]
    {
      assert !q.rules[s.index].Defines(t);
    }
    forall a, t | a in s'.armed && a.rule < |q.rules| && t in q.rules[a.rule].tags && t in s'.named
      ensures t in s.named && s'.named[t] == s.named[t]
    {
      assert !q.rules[s.index].Defines(t);
    }
  }

  /** Matching a rule whose bound futures are resolved, and settled if it shows. */
  lemma ShieldMatch(q: Query, c: Schedule, s: State)
    requires Scoped(q.rules) && s.index < |q.rules| && Shield(q, c, s) && forall a | a in s.armed :: a.rule <= s.index
    requires Shows(q.rules, s.index) ==> !Unsettled(q.rules[s.index], s)
    requires Awaited(q, c, s, s.index + 1)
    ensures var (s', turn) := MatchAndAct(q, c, s);
            !s'.late && Shield(q, c, s') && (turn.None? ==> Shield(q, c, s'.(index := s'.index + 1)))
  {
    hide Act, Matches, Shows, Unsettled, Awaited, ArmedSettled, Scoped;
    var s1 := s.(late := s.late || Misses(q, s.index, s));
    assert s1 == s;
    ActTouches(q, c, s);
    var s' := Act(q, c, s).0;
    ShieldAct(q, c, s, s', s.index);
    ShieldAct(q, c, s, s', s.index + 1);
    ShieldNext(q, c, s');
    ShieldNext(q, c, s);
  }

  lemma ShieldNext(q: Query, c: Schedule, s: State)
    requires ArmedSettled(q, s) && !s.late && Awaited(q, c, s, s.index + 1)
    ensures Shield(q, c, s.(index := s.index + 1))
  {
    hide Shows;
  }

  lemma BoundAwaited(q: Query, c: Schedule, s: State)
    requires Awaited(q, c, s, s.index) && s.index < |q.rules|
    requires q.rules[s.index].Races() || Pending(c, BoundFutures(q.rules[s.index], s), s.now) == []
    ensures Awaited(q, c, s, s.index + 1)
  {
    var r := q.rules[s.index];
    if !r.Races() {
      PendingIn(c, BoundFutures(r, s), s.now);
      TagFuturesIn(r.tags, s.named);
      forall t | t in r.tags && t in s.named ensures Done(c, s.named[t], s.now) {
        assert s.named[t] in BoundFutures(r, s);
      }
    }
  }

  lemma ShieldArm(q: Query, c: Schedule, s: State)
    requires s.index < |q.rules| && q.rules[s.index].Races() && ArmedInRange(q, s) && Shield(q, c, s)
    requires Shows(q.rules, s.index) ==>
              forall t | t in q.rules[s.index].tags && t in s.named :: s.named[t].rule in s.settled
    ensures var (s', turn) := Arm(q, c, s); !s'.late && (turn.None? ==> Shield(q, c, s'.(index := s'.index + 1)))
  {
    hide Sweep, Pending, BoundFutures, Shows, Awaited, ArmedSettled;
    var r := q.rules[s.index];
    BoundAwaited(q, c, s);
    var a := Armed(s.index, Pending(c, BoundFutures(r, s), s.now), if r.anonymous then s.anon else None, s.options);
    var s1 := s.(armed := s.armed + [a]);
    AwaitedLater(q, c, s, s1, s.index + 1);
    ArmSettled(q, s, a);
    if a.futures == [] {
      ShieldSweep(q, c, s1, 0, s.index + 1);
      SweepFrame(q, c, s1, 0);
      var s' := Sweep(q, c, s1, 0).0;
      ShieldNext(q, c, s');
    } else {
      ShieldNext(q, c, s1);
    }
  }

  lemma ArmSettled(q: Query, s: State, a: Armed)
    requires s.index < |q.rules| && ArmedSettled(q, s) && a.rule == s.index
    requires Shows(q.rules, s.index) ==>
              forall t | t in q.rules[s.index].tags && t in s.named :: s.named[t].rule in s.settled
    ensures ArmedSettled(q, s.(armed := s.armed + [a]))
  {
    hide Shows;
  }

  lemma ArmedBelow(q: Query, c: Schedule, s: State)
    requires Inv(q, c, s)
    ensures Booked(q, s) && forall a | a in s.armed :: a.rule < s.index
  {
    forall a | a in s.armed ensures a.rule < s.index { assert Held(q, s, s.index, a); }
  }

  lemma ShieldVisit(q: Query, c: Schedule, s: State)
    requires Scoped(q.rules) && Unexposed(q.rules) && Inv(q, c, s) && Sane(q, s) && s.index < |q.rules|
    requires Shield(q, c, s)
    ensures var (s', turn) := Visit(q, c, s);
            !s'.late && (turn.None? ==> Shield(q, c, s'.(index := s'.index + 1)))
            && (turn.Some? && !turn.value.Finish? && !turn.value.Send? ==> Shield(q, c, s'))
  {
    hide Inv, MatchAndAct, Arm, Pending, BoundFutures, Settle, Shows, Scoped, Unexposed, Awaited, ArmedSettled, Booked;
    var r := q.rules[s.index];
    ArmedBelow(q, c, s);
    if !r.Binds() {
      PlainAwaited(q, c, s);
      ShieldMatch(q, c, s);
    } else {
      SettleCatches(q, c, s);
      ShieldSettle(q, c, s);
      var s0 := Settle(q, c, s);
      var s1 := s0.(now := s0.now + 1);
      ShieldTick(q, c, s0, s0.now + 1, s0.blocks, s0.drained);
      if Shows(q.rules, s.index) { BoundSettled(q, c, s, s0); }
      if r.race {
        ShieldArm(q, c, s1);
        ArmTurns(q, c, s1);
      } else if Pending(c, BoundFutures(r, s1), s1.now) == [] {
        BoundAwaited(q, c, s1);
        ShieldMatch(q, c, s1);
      }
    }
  }

  lemma ArmTurns(q: Query, c: Schedule, s: State)
    requires s.index < |q.rules| && ArmedInRange(q, s)
    ensures var turn := Arm(q, c, s).1; turn.Some? ==> turn.value.Finish? || turn.value.Send?
  {
    hide Sweep, Pending, BoundFutures;
    var r := q.rules[s.index];
    var a := Armed(s.index, Pending(c, BoundFutures(r, s), s.now), if r.anonymous then s.anon else None, s.options);
    SweepFrame(q, c, s.(armed := s.armed + [a]), 0);
  }

  lemma PlainAwaited(q: Query, c: Schedule, s: State)
    requires s.index < |q.rules| && !q.rules[s.index].Binds() && Awaited(q, c, s, s.index)
    ensures Awaited(q, c, s, s.index + 1) && !Unsettled(q.rules[s.index], s)
  {
  }

  // ---- whole runs

  lemma {:induction false} ShieldWalk(q: Query, c: Schedule, s: State)
    requires Scoped(q.rules) && Unexposed(q.rules) && Inv(q, c, s) && Sane(q, s) && Shield(q, c, s)
    ensures var (s', turn) := Walk(q, c, s); !s'.late && (!turn.Finish? && !turn.Send? ==> Shield(q, c, s'))
    decreases |q.rules| - s.index
  {
    hide Inv, Sane, Visit, Shield, Unexposed, Scoped;
    SaneIndex(q, s);
    ShieldOnTime(q, c, s);
    if s.index < |q.rules| {
      VisitKeeps(q, c, s);
      VisitFrame(q, c, s);
      ShieldVisit(q, c, s);
      var (s1, turn) := Visit(q, c, s);
      if turn.None? {
        SaneNext(q, s1);
        ShieldWalk(q, c, s1.(index := s1.index + 1));
      }
    }
  }

  lemma ShieldOnTime(q: Query, c: Schedule, s: State)
    requires Shield(q, c, s)
    ensures !s.late
  {
  }

  lemma ShieldPoll(q: Query, c: Schedule, s: State)
    requires Sane(q, s) && Shield(q, c, s)
    ensures var s' := Poll(q, c, s).0; !s'.late && Shield(q, c, s')
  {
    hide Settle, Sweep, Awaited, ArmedSettled;
    ShieldSettle(q, c, s);
    SettleCatches(q, c, s);
    var s1 := Settle(q, c, s);
    ShieldSweep(q, c, s1, 0, s.index);
    SweepFrame(q, c, s1, 0);
  }

  /** A suspension of a shielded walk; a pending exchange has nothing armed. */
  ghost predicate ShieldedTurn(q: Query, c: Schedule, s: State, turn: Turn) {
    Suspended(q, c, s, turn) && !s.late && (!turn.Send? ==> Shield(q, c, s)) && (turn.Send? ==> s.armed == [])
  }

  lemma ShieldIterate(q: Query, c: Schedule, s: State, turn: Turn)
    requires Scoped(q.rules) && Unexposed(q.rules) && ShieldedTurn(q, c, s, turn)
    ensures match Iterate(q, c, s, turn)
            case Over(s', _) => !s'.late
            case Again(s', turn') => !s'.late && (!turn'.Send? ==> Shield(q, c, s')) && (turn'.Send? ==> s'.armed == [])
  {
    hide Inv, Sane, Poll, Walk, Shield, Unexposed, Scoped, Settled, Conclude, Concluded;
    if turn.Send? {
      SendOnTime(q, c, s);
    } else {
      ShieldPoll(q, c, s);
      PollKeeps(q, c, s);
      PollFrame(q, c, s);
      var (s1, swept) := Poll(q, c, s);
      if swept.None? {
        var s2 := s1.(now := s1.now + 1);
        ShieldTick(q, c, s1, s2.now, s1.blocks, s1.drained);
        TickKeeps(q, c, s1);
        AlikeSane(q, s1, s2);
        if MustWait(c, s2, turn) {
          var r := Receive(c, s2);
          ShieldTick(q, c, s2, r.now, r.blocks, r.drained);
          ShieldOnTime(q, c, r);
        } else {
          ShieldWalk(q, c, s2);
          WalkKeeps(q, c, s2);
        }
      }
    }
  }

  lemma SendOnTime(q: Query, c: Schedule, s: State)
    requires Sane(q, s) && s.armed == [] && !s.late
    ensures !Poll(q, c, s).0.late
  {
    SettleFrame(q, c, s.(now := s.now + 1), 0);
  }

  lemma {:induction false} ShieldResume(q: Query, c: Schedule, s: State, turn: Turn)
    requires Scoped(q.rules) && Unexposed(q.rules) && ShieldedTurn(q, c, s, turn)
    ensures !Resume(q, c, s, turn).0.late
    decreases |q.rules| - s.index, TerminalLeft(s), TurnLeft(turn), Left(c, s)
  {
    hide Iterate, Sane, Ended, Shield, Unexposed, Scoped;
    IterateProgress(q, c, s, turn);
    IterateKeeps(q, c, s, turn);
    ShieldIterate(q, c, s, turn);
    SaneIndex(q, s);
    var r := Iterate(q, c, s, turn);
    if r.Again? {
      SaneIndex(q, r.state);
      ShieldResume(q, c, r.state, r.turn);
    }
  }

  /** A list without an exposed rule keeps its meaning under every schedule, whatever is matched late. */
  lemma UnexposedMeaning(q: Query, c: Schedule)
    requires Scoped(q.rules) && Unexposed(q.rules)
    ensures var (s, v) := Exchange(q, c); !s.late && Right(q, v)
  {
    hide Inv, Sane, Walk, Resume, Unexposed, Scoped, Concluded, Right;
    OrderedMeaning(q, c);
    InitialKeeps(q, c);
    var s0 := Initial(q);
    assert Shield(q, c, s0);
    ShieldWalk(q, c, s0);
    WalkKeeps(q, c, s0);
    WalkFrame(q, c, s0);
    var (s, turn) := Walk(q, c, s0);
    if !turn.Finish? {
      SuspendedBy(q, c, s, turn);
      ShieldResume(q, c, s, turn);
    }
  }

  /** In particular, a list that binds no tags does. */
  lemma TagFreeMeaning(q: Query, c: Schedule)
    requires Scoped(q.rules) && forall i | 0 <= i < |q.rules| :: q.rules[i].tags == []
    ensures var (s, v) := Exchange(q, c); !s.late && Right(q, v)
  {
    hide Exchange, Right, Shows;
    UnexposedMeaning(q, c);
  }
}
