// Wake-ups and reachable suspensions of the rule walk.
module DnsWalkWake {
  import opened Base
  import opened DnsRules
  import opened DnsWalk
  import opened DnsReference
  import opened DnsWalkMeaning
  import opened DnsWalkTheorems

  /** The state and suspension the n-th iteration of the resume loop starts from, if there is one. */
  function Trail(q: Query, c: Schedule, n: nat): (r: Option<(State, Turn)>)
    ensures r.Some? ==> var (s, turn) := r.value; Sane(q, s) && !turn.Finish? && Waitable(s, turn) && s.drained <= s.now
  {
    if n == 0 then
      var (s, turn) := Walk(q, c, Initial(q));
      WalkFrame(q, c, Initial(q));
      if turn.Finish? then None else Some((s, turn))
    else
      match Trail(q, c, n - 1)
      case None => None
      case Some((s, turn)) =>
        IterateProgress(q, c, s, turn);
        IterateDrained(q, c, s, turn);
        (match Iterate(q, c, s, turn)
         case Over(_, _) => None
         case Again(s1, turn1) => Some((s1, turn1)))
  }

  lemma IterateDrained(q: Query, c: Schedule, s: State, turn: Turn)
    requires Sane(q, s) && !turn.Finish? && s.drained <= s.now
    ensures var r := Iterate(q, c, s, turn); r.Again? ==> r.state.drained <= r.state.now
  {
    hide Poll, Walk, Sane, Conclude, Settled;
    PollFrame(q, c, s);
    var (s1, swept) := Poll(q, c, s);
    if swept.None? && !turn.Send? {
      var s2 := s1.(now := s1.now + 1);
      AlikeSane(q, s1, s2);
      if !MustWait(c, s2, turn) { WalkFrame(q, c, s2); }
    }
  }

  lemma {:induction false} TrailSuspended(q: Query, c: Schedule, n: nat)
    requires Scoped(q.rules) && Trail(q, c, n).Some?
    ensures var (s, turn) := Trail(q, c, n).value; Suspended(q, c, s, turn)
  {
    hide Iterate, Walk, Suspended, Inv;
    if n == 0 {
      InitialKeeps(q, c);
      WalkKeeps(q, c, Initial(q));
      WalkFrame(q, c, Initial(q));
      var (s, turn) := Walk(q, c, Initial(q));
      StartSuspended(q, c, s, turn);
    } else {
      TrailSuspended(q, c, n - 1);
      var (s, turn) := Trail(q, c, n - 1).value;
      IterateKeeps(q, c, s, turn);
    }
  }

  lemma StartSuspended(q: Query, c: Schedule, s: State, turn: Turn)
    requires Walked(q, c, Initial(q), s, turn) && Ended(q, c, s, turn) && !turn.Finish?
    ensures Suspended(q, c, s, turn)
  {
  }

  /** The state in which an iteration tests whether it must block, if it gets to that test. */
  function Blocking(q: Query, c: Schedule, s: State, turn: Turn): Option<State>
    requires Sane(q, s)
  {
    var (s1, swept) := Poll(q, c, s);
    var s2 := s1.(now := s1.now + 1);
    if swept.None? && MustWait(c, s2, turn) then Some(s2) else None
  }

  /** Whenever the loop blocks, however late each completion sends its wake-up after closing its
      future, the channel exists and a future the suspension or an armed rule needs has a wake-up
      the loop has not received yet. */
  lemma NoLostWakeup(q: Query, c: Schedule, n: nat, signal: nat -> nat)
    requires Trail(q, c, n).Some? && forall i :: c.completes(i) <= signal(i)
    ensures var (s, turn) := Trail(q, c, n).value;
            var blocked := Blocking(q, c, s, turn);
            blocked.Some? ==>
              exists f :: f in blocked.value.futures && blocked.value.drained < signal(f.rule)
                  && Needed(blocked.value, turn, f)
  {
    var (s, turn) := Trail(q, c, n).value;
    PollFrame(q, c, s);
    var blocked := Blocking(q, c, s, turn);
    if blocked.Some? {
      var s2 := blocked.value;
      var f;
      if turn.Await? {
        f := turn.future;
      } else {
        f := WaitingHas(q, c, s2, s.now + 1);
      }
      assert Needed(s2, turn, f) && c.completes(f.rule) <= signal(f.rule);
    }
  }

  predicate Needed(s: State, turn: Turn, f: Future) {
    (turn.Await? && f == turn.future) || exists a | a in s.armed :: f in a.futures
  }

  // ---- the wake channel

  /** A launched exchange signals its completion at tick n. */
  predicate Sends(s: State, signal: nat -> nat, n: nat) { exists f | f in s.futures :: signal(f.rule) == n }

  /** The one-slot channel at tick n, received from last at tick `drained`: a send fills the empty slot and
      is dropped by a full one. */
  predicate Slot(s: State, signal: nat -> nat, drained: nat, n: nat)
    requires drained <= n
  {
    n > drained && (Slot(s, signal, drained, n - 1) || Sends(s, signal, n))
  }

  /** One send since the last receive is enough, however many are dropped after it. */
  lemma {:induction false} SlotFills(s: State, signal: nat -> nat, drained: nat, x: nat, n: nat)
    requires drained < x <= n && Sends(s, signal, x)
    ensures Slot(s, signal, drained, n)
  {
    if x < n { SlotFills(s, signal, drained, x, n - 1); }
  }

  /** Every receive of the resume loop ends: the slot is full when the loop blocks, or is filled at the
      latest when the exchange that is needed signals. */
  lemma ReceiveEnds(q: Query, c: Schedule, n: nat, signal: nat -> nat) returns (w: nat)
    requires Trail(q, c, n).Some? && forall i :: c.completes(i) <= signal(i)
    requires var (s, turn) := Trail(q, c, n).value; Blocking(q, c, s, turn).Some?
    ensures var (s, turn) := Trail(q, c, n).value;
            var b := Blocking(q, c, s, turn).value;
            && b.drained <= b.now <= w && Slot(b, signal, b.drained, w)
            && (forall v | b.now <= v < w :: !Slot(b, signal, b.drained, v))
            && exists f :: f in b.futures && Needed(b, turn, f) && (w <= b.now || w <= signal(f.rule))
  {
    hide Trail, Blocking, Needed, Slot, Poll;
    var (s, turn) := Trail(q, c, n).value;
    NoLostWakeup(q, c, n, signal);
    BlockedLater(q, c, s, turn);
    var b := Blocking(q, c, s, turn).value;
    var f :| f in b.futures && b.drained < signal(f.rule) && Needed(b, turn, f);
    assert Sends(b, signal, signal(f.rule));
    w := FirstFull(b, signal, signal(f.rule));
  }

  lemma BlockedLater(q: Query, c: Schedule, s: State, turn: Turn)
    requires Sane(q, s) && s.drained <= s.now && Blocking(q, c, s, turn).Some?
    ensures var b := Blocking(q, c, s, turn).value; b.drained <= b.now
  {
    hide Poll;
    PollFrame(q, c, s);
  }

  /** The first tick from now on at which the slot is full, given a send after the last receive. */
  lemma FirstFull(s: State, signal: nat -> nat, x: nat) returns (w: nat)
    requires s.drained <= s.now && s.drained < x && Sends(s, signal, x)
    ensures s.now <= w && Slot(s, signal, s.drained, w) && (w <= s.now || w <= x)
    ensures forall v | s.now <= v < w :: !Slot(s, signal, s.drained, v)
  {
    hide Slot, Sends;
    var last := if x < s.now then s.now else x;
    SlotFills(s, signal, s.drained, x, last);
    w := s.now;
    while !Slot(s, signal, s.drained, w)
      invariant s.now <= w <= last && forall v | s.now <= v < w :: !Slot(s, signal, s.drained, v)
      decreases last - w
    {
      w := w + 1;
    }
  }

  /** In every reachable suspension the armed rules are race rules in strictly increasing order, each
      still waiting, and none was judged before. */
  lemma ArmedInOrder(q: Query, c: Schedule, n: nat)
    requires Scoped(q.rules) && Trail(q, c, n).Some?
    ensures var (s, turn) := Trail(q, c, n).value;
            !turn.Send? ==>
              && (forall i, j | 0 <= i < j < |s.armed| :: s.armed[i].rule < s.armed[j].rule)
              && (forall a | a in s.armed :: a.rule < s.index && q.rules[a.rule].Races() && a.futures != [])
              && (forall a, x | a in s.armed && x in s.judged :: a.rule != x.armed.rule)
  {
    hide Trail;
    TrailSuspended(q, c, n);
    var (s, turn) := Trail(q, c, n).value;
    if !turn.Send? {
      assert Inv(q, c, s);
      forall a | a in s.armed ensures a.rule < s.index && q.rules[a.rule].Races() { assert Held(q, s, s.index, a); }
    }
  }

  /** What a suspension awaits is the anonymous response or a tagged one. */
  ghost predicate AwaitsBound(s: State, turn: Turn) {
    turn.Await? ==> s.anon == Some(turn.future) || exists t :: t in s.named && s.named[t] == turn.future
  }

  lemma MatchAwaits(q: Query, c: Schedule, s: State)
    requires s.index < |q.rules|
    ensures var (s', turn) := MatchAndAct(q, c, s); turn.Some? ==> AwaitsBound(s', turn.value)
  {
    hide Matches, Unsettled, Named, Anonymous, ResolveRoute, RouteWith;
  }

  lemma ArmAwaits(q: Query, c: Schedule, s: State)
    requires s.index < |q.rules| && ArmedInRange(q, s)
    ensures var (s', turn) := Arm(q, c, s); turn.Some? ==> !turn.value.Await?
  {
    hide Sweep, Pending, BoundFutures;
    var r := q.rules[s.index];
    var a := Armed(s.index, Pending(c, BoundFutures(r, s), s.now), if r.anonymous then s.anon else None, s.options);
    SweepFrame(q, c, s.(armed := s.armed + [a]), 0);
  }

  lemma PendingAwaits(r: Rule, c: Schedule, s: State)
    requires Pending(c, BoundFutures(r, s), s.now) != []
    ensures AwaitsBound(s, Await(Pending(c, BoundFutures(r, s), s.now)[0]))
  {
    var pending := Pending(c, BoundFutures(r, s), s.now);
    PendingIn(c, BoundFutures(r, s), s.now);
    TagFuturesIn(r.tags, s.named);
    assert pending[0] in pending && pending[0] in BoundFutures(r, s);
  }

  lemma VisitAwaits(q: Query, c: Schedule, s: State)
    requires s.index < |q.rules| && Sane(q, s)
    ensures var (s', turn) := Visit(q, c, s); turn.Some? ==> AwaitsBound(s', turn.value)
  {
    hide MatchAndAct, Arm, AwaitsBound, Pending, BoundFutures, SettleFrom;
    var r := q.rules[s.index];
    if !r.Binds() {
      MatchAwaits(q, c, s);
    } else {
      SettleFrame(q, c, s.(now := s.now + 1), 0);
      var s0 := Settle(q, c, s);
      var s1 := s0.(now := s0.now + 1);
      if r.race {
        ArmAwaits(q, c, s1);
        var (s', turn) := Arm(q, c, s1);
        if turn.Some? { NoAwait(s', turn.value); }
      } else if Pending(c, BoundFutures(r, s1), s1.now) != [] {
        PendingAwaits(r, c, s1);
      } else {
        MatchAwaits(q, c, s1);
      }
    }
  }

  lemma {:induction false} WalkAwaits(q: Query, c: Schedule, s: State)
    requires Sane(q, s)
    ensures var (s', turn) := Walk(q, c, s); AwaitsBound(s', turn)
    decreases |q.rules| - s.index
  {
    hide Visit, AwaitsBound;
    if s.index < |q.rules| {
      VisitAwaits(q, c, s);
      VisitFrame(q, c, s);
      var (s1, turn) := Visit(q, c, s);
      if turn.None? { WalkAwaits(q, c, s1.(index := s1.index + 1)); }
    } else {
      NoAwait(s, if s.armed != [] then Drain else Send(s.index, false, q.fallback, s.options, None));
    }
  }

  lemma NoAwait(s: State, turn: Turn)
    requires !turn.Await?
    ensures AwaitsBound(s, turn)
  {
  }

  lemma {:induction false} TrailAwaits(q: Query, c: Schedule, n: nat)
    requires Trail(q, c, n).Some?
    ensures var (s, turn) := Trail(q, c, n).value; AwaitsBound(s, turn)
  {
    hide Walk, AwaitsBound, SettleFrom, Sweep;
    if n == 0 {
      WalkFrame(q, c, Initial(q));
      WalkAwaits(q, c, Initial(q));
    } else {
      TrailAwaits(q, c, n - 1);
      var (s, turn) := Trail(q, c, n - 1).value;
      IterateProgress(q, c, s, turn);
      PollFrame(q, c, s);
      SettleFrame(q, c, s.(now := s.now + 1), 0);
      SweepFrame(q, c, Settle(q, c, s), 0);
      var (s1, swept) := Poll(q, c, s);
      var s2 := s1.(now := s1.now + 1);
      if MustWait(c, s2, turn) { AwaitsSame(s, Receive(c, s2), turn); }
          else { AlikeSane(q, s1, s2); WalkAwaits(q, c, s2); }
    }
  }

  lemma AwaitsSame(s: State, s': State, turn: Turn)
    requires AwaitsBound(s, turn) && s'.anon == s.anon && s'.named == s.named
    ensures AwaitsBound(s', turn)
  {
  }

  /** A tag's response is that of the one evaluate with the tag. */
  ghost predicate FromItsEvaluate(q: Query, s: State, t: Tag) {
    t in s.responses &&
    exists f :: f in s.futures && !f.terminal && f.rule < |q.rules| && q.rules[f.rule].Defines(t)
                && s.responses[t] == View(OutcomeOf(q, f))
  }

  /** In every reachable suspension a rule waits only for exchanges that earlier rules launched, the
      speculative exchange of a route rule is never an evaluated response, and the response kept for a
      tag does not depend on the order in which exchanges settled. */
  lemma WaitsPointBack(q: Query, c: Schedule, n: nat)
    requires Scoped(q.rules) && Trail(q, c, n).Some?
    ensures var (s, turn) := Trail(q, c, n).value;
            !turn.Send? ==>
              && (turn.Await? ==> turn.future.rule < s.index && !turn.future.terminal)
              && (forall a, f | a in s.armed && f in a.futures :: f.rule < a.rule && !f.terminal)
              && (s.anon.Some? ==> !s.anon.value.terminal)
              && (forall t | t in s.responses :: FromItsEvaluate(q, s, t))
  {
    hide Trail, Inv, FromItsEvaluate, FutureBooked, SettledRight, Folded;
    TrailSuspended(q, c, n);
    TrailAwaits(q, c, n);
    var (s, turn) := Trail(q, c, n).value;
    if !turn.Send? {
      InvParts(q, c, s);
      if turn.Await? { AwaitedEarlier(q, s, turn.future); }
      forall a, f | a in s.armed && f in a.futures
          ensures f.rule < a.rule && !f.terminal { assert Held(q, s, s.index, a); }
      forall t | t in s.responses ensures FromItsEvaluate(q, s, t) {
        KeptFuture(q, c, s, t);
        KeptResponse(q, s, t);
      }
    }
  }

  lemma InvParts(q: Query, c: Schedule, s: State)
    requires Inv(q, c, s)
    ensures Booked(q, s) && SettledRight(q, c, s) && Ledger(q, c, s, s.index)
  {
  }

  lemma AwaitedEarlier(q: Query, s: State, f: Future)
    requires Booked(q, s) && AwaitsBound(s, Await(f))
    ensures f.rule < s.index && !f.terminal
  {
    assert f in s.futures;
    assert FutureBooked(q, s, f);
  }

  lemma KeptFuture(q: Query, c: Schedule, s: State, t: Tag)
    requires Booked(q, s) && SettledRight(q, c, s) && t in s.responses
    ensures t in s.named && s.named[t] in s.futures && t != "" && s.named[t].tag == t
    ensures LaunchedRight(q, s.applied, s.named[t]) && s.responses[t] == View(OutcomeOf(q, s.named[t]))
  {
    assert FutureBooked(q, s, s.named[t]);
  }

  lemma KeptResponse(q: Query, s: State, t: Tag)
    requires t in s.responses && t in s.named && s.named[t] in s.futures && t != "" && s.named[t].tag == t
    requires LaunchedRight(q, s.applied, s.named[t]) && s.responses[t] == View(OutcomeOf(q, s.named[t]))
    ensures FromItsEvaluate(q, s, t)
  {
  }
}
