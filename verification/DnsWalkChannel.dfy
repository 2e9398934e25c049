// The wake channel decides when each receive of the resume loop ends, and the walk runs under the schedule
// that this gives: a schedule whose wake-ups are those of the channel exists for every way in which the
// exchanges complete and signal.
module DnsWalkChannel {
  import opened Base
  import opened DnsRules
  import opened DnsWalk
  import opened DnsWalkTheorems
  import opened DnsWalkWake

  // ---- between two receives the wake-ups do not matter

  ghost predicate SameCompletions(c: Schedule, d: Schedule) { c.completes == d.completes }

  lemma {:induction false} SettleFromAlike(q: Query, c: Schedule, d: Schedule, s: State, k: nat)
    requires SameCompletions(c, d) && k <= |s.futures|
    ensures SettleFrom(q, c, s, k) == SettleFrom(q, d, s, k)
    decreases |s.futures| - k
  {
    if k < |s.futures| {
      assert SettleOnce(q, c, s, s.futures[k]) == SettleOnce(q, d, s, s.futures[k]);
      SettleFromAlike(q, c, d, SettleOnce(q, c, s, s.futures[k]), k + 1);
    }
  }

  lemma {:induction false} PendingAlike(c: Schedule, d: Schedule, fs: seq<Future>, now: nat)
    requires SameCompletions(c, d)
    ensures Pending(c, fs, now) == Pending(d, fs, now)
  {
    if fs != [] { PendingAlike(c, d, fs[1..], now); }
  }

  lemma JudgeAlike(q: Query, c: Schedule, d: Schedule, s: State, a: Armed)
    requires SameCompletions(c, d) && a.rule < |q.rules|
    ensures Judge(q, c, s, a) == Judge(q, d, s, a) && Ready(c, a, s.now) == Ready(d, a, s.now)
  {
    hide Matches, ResolveRoute, RouteWith, Named;
    assert SeenOpt(q, c, a.anon, s.now) == SeenOpt(q, d, a.anon, s.now);
  }

  lemma {:induction false} SweepAlike(q: Query, c: Schedule, d: Schedule, s: State, k: nat)
    requires SameCompletions(c, d) && k <= |s.armed| && ArmedInRange(q, s)
    ensures Sweep(q, c, s, k) == Sweep(q, d, s, k)
    decreases |s.armed| - k
  {
    hide Judge, Ready, Misses;
    if k < |s.armed| {
      var a, s1 := s.armed[k], s.(now := s.now + 1);
      JudgeAlike(q, c, d, s1, a);
      if !Ready(c, a, s1.now) {
        SweepAlike(q, c, d, s1, k + 1);
      } else if Judge(q, c, s1, a).None? {
        SweepAlike(q, c, d, Disarm(q, c, s1, k), k);
      }
    }
  }

  lemma ArmAlike(q: Query, c: Schedule, d: Schedule, s: State)
    requires SameCompletions(c, d) && s.index < |q.rules| && ArmedInRange(q, s)
    ensures Arm(q, c, s) == Arm(q, d, s)
  {
    hide Sweep, Pending, BoundFutures;
    var r := q.rules[s.index];
    PendingAlike(c, d, BoundFutures(r, s), s.now);
    var a := Armed(s.index, Pending(c, BoundFutures(r, s), s.now), if r.anonymous then s.anon else None, s.options);
    SweepAlike(q, c, d, s.(armed := s.armed + [a]), 0);
  }

  lemma MatchAlike(q: Query, c: Schedule, d: Schedule, s: State)
    requires SameCompletions(c, d) && s.index < |q.rules|
    ensures MatchAndAct(q, c, s) == MatchAndAct(q, d, s)
  {
    hide Matches, Misses, ActEvaluate, ActRoute, ActFinal, Named, ApplyRouteOptions;
    assert SeenOpt(q, c, s.anon, s.now) == SeenOpt(q, d, s.anon, s.now);
    var s1 := s.(late := s.late || Misses(q, s.index, s));
    assert ActRespond(q, c, s1, q.rules[s.index]) == ActRespond(q, d, s1, q.rules[s.index]);
    hide ActRespond;
    assert Act(q, c, s1) == Act(q, d, s1);
  }

  lemma VisitAlike(q: Query, c: Schedule, d: Schedule, s: State)
    requires SameCompletions(c, d) && s.index < |q.rules| && ArmedInRange(q, s)
    ensures Visit(q, c, s) == Visit(q, d, s)
  {
    hide SettleFrom, MatchAndAct, Arm, Pending, BoundFutures, SameCompletions;
    MatchAlike(q, c, d, s);
    SettleFromAlike(q, c, d, s.(now := s.now + 1), 0);
    SettleFrame(q, c, s.(now := s.now + 1), 0);
    var s0 := Settle(q, c, s);
    var s1 := s0.(now := s0.now + 1);
    ArmAlike(q, c, d, s1);
    PendingAlike(c, d, BoundFutures(q.rules[s.index], s1), s1.now);
    MatchAlike(q, c, d, s1);
  }

  lemma {:induction false} WalkAlike(q: Query, c: Schedule, d: Schedule, s: State)
    requires SameCompletions(c, d) && Sane(q, s)
    ensures Walk(q, c, s) == Walk(q, d, s)
    decreases |q.rules| - s.index
  {
    hide Visit, SameCompletions;
    if s.index < |q.rules| {
      VisitAlike(q, c, d, s);
      VisitFrame(q, c, s);
      var (s1, turn) := Visit(q, c, s);
      if turn.None? { WalkAlike(q, c, d, s1.(index := s1.index + 1)); }
    }
  }

  lemma PollAlike(q: Query, c: Schedule, d: Schedule, s: State)
    requires SameCompletions(c, d) && Sane(q, s)
    ensures Poll(q, c, s) == Poll(q, d, s)
  {
    hide SettleFrom, Sweep, SameCompletions;
    SettleFromAlike(q, c, d, s.(now := s.now + 1), 0);
    SettleFrame(q, c, s.(now := s.now + 1), 0);
    SweepAlike(q, c, d, Settle(q, c, s), 0);
  }

  lemma BlockingAlike(q: Query, c: Schedule, d: Schedule, s: State, turn: Turn)
    requires SameCompletions(c, d) && Sane(q, s)
    ensures Blocking(q, c, s, turn) == Blocking(q, d, s, turn)
  {
    hide Poll;
    PollAlike(q, c, d, s);
  }

  /** An iteration asks for the next wake-up when it blocks, and for none otherwise. */
  lemma IterateAlike(q: Query, c: Schedule, d: Schedule, s: State, turn: Turn)
    requires SameCompletions(c, d) && Sane(q, s) && !turn.Finish?
    requires c.wakes(s.blocks) == d.wakes(s.blocks) || Blocking(q, c, s, turn).None?
    ensures Iterate(q, c, s, turn) == Iterate(q, d, s, turn)
  {
    hide Poll, Walk, Sane, Conclude, Settled;
    PollAlike(q, c, d, s);
    PollFrame(q, c, s);
    var (s1, swept) := Poll(q, c, s);
    if swept.None? && !turn.Send? {
      var s2 := s1.(now := s1.now + 1);
      AlikeSane(q, s1, s2);
      if !MustWait(c, s2, turn) { WalkAlike(q, c, d, s2); }
    }
  }

  lemma IterateBlocks(q: Query, c: Schedule, s: State, turn: Turn)
    requires Sane(q, s) && !turn.Finish? && Iterate(q, c, s, turn).Again?
    ensures Iterate(q, c, s, turn).state.blocks == s.blocks + if Blocking(q, c, s, turn).Some? then 1 else 0
    ensures Blocking(q, c, s, turn).Some? ==> Blocking(q, c, s, turn).value.blocks == s.blocks
  {
    hide Poll, Walk, Sane, Conclude, Settled;
    PollFrame(q, c, s);
    var (s1, swept) := Poll(q, c, s);
    if swept.None? && !turn.Send? {
      var s2 := s1.(now := s1.now + 1);
      AlikeSane(q, s1, s2);
      if !MustWait(c, s2, turn) { WalkFrame(q, c, s2); }
    }
  }

  /** A run up to its b-th receive depends on the first b wake-ups only. */
  lemma {:induction false} TrailAlike(q: Query, c: Schedule, d: Schedule, n: nat, b: nat)
    requires SameCompletions(c, d) && (forall i: nat | i < b :: c.wakes(i) == d.wakes(i))
    requires Trail(q, c, n).Some? && Trail(q, c, n).value.0.blocks <= b
    ensures Trail(q, d, n) == Trail(q, c, n)
  {
    hide Walk, Iterate, Blocking;
    if n == 0 {
      WalkAlike(q, c, d, Initial(q));
    } else {
      var (s, turn) := Trail(q, c, n - 1).value;
      IterateBlocks(q, c, s, turn);
      TrailAlike(q, c, d, n - 1, b);
      IterateAlike(q, c, d, s, turn);
    }
  }

  // ---- the schedule of the channel

  /** The n-th iteration blocks, for the b-th time. */
  ghost predicate BlocksAt(q: Query, c: Schedule, n: nat, b: nat) {
    Trail(q, c, n).Some? &&
    var (s, turn) := Trail(q, c, n).value;
    Blocking(q, c, s, turn).Some? && Blocking(q, c, s, turn).value.blocks == b
  }

  ghost function BlockState(q: Query, c: Schedule, n: nat): State
    requires Trail(q, c, n).Some? && Blocking(q, c, Trail(q, c, n).value.0, Trail(q, c, n).value.1).Some?
  {
    Blocking(q, c, Trail(q, c, n).value.0, Trail(q, c, n).value.1).value
  }

  /** A receive that begins in state s ends at tick w: the slot is full then, and was empty until then. */
  ghost predicate Received(s: State, signal: nat -> nat, w: nat) {
    && s.drained <= s.now <= w && Slot(s, signal, s.drained, w)
    && forall v | s.now <= v < w :: !Slot(s, signal, s.drained, v)
  }

  lemma {:induction false} BlocksGrow(q: Query, c: Schedule, m: nat, n: nat)
    requires m <= n && Trail(q, c, n).Some?
    ensures Trail(q, c, m).Some?
    ensures var (s, turn) := Trail(q, c, m).value;
            s.blocks + (if m < n && Blocking(q, c, s, turn).Some? then 1 else 0) <= Trail(q, c, n).value.0.blocks
    decreases n
  {
    hide Walk, Iterate, Blocking;
    if m < n {
      BlocksGrow(q, c, m, n - 1);
      var (s, turn) := Trail(q, c, n - 1).value;
      IterateBlocks(q, c, s, turn);
    }
  }

  lemma BlocksOf(q: Query, c: Schedule, n: nat, b: nat)
    requires BlocksAt(q, c, n, b)
    ensures Trail(q, c, n).value.0.blocks == b
  {
    var (s, turn) := Trail(q, c, n).value;
    hide Trail, Poll;
    PollFrame(q, c, s);
  }

  lemma BlocksOnce(q: Query, c: Schedule, m: nat, n: nat, b: nat)
    requires BlocksAt(q, c, m, b) && BlocksAt(q, c, n, b)
    ensures m == n
  {
    BlocksOf(q, c, m, b);
    BlocksOf(q, c, n, b);
    hide Trail, Blocking;
    if m < n { BlocksGrow(q, c, m, n); }
    if n < m { BlocksGrow(q, c, n, m); }
  }

  ghost function Listed(completes: nat -> nat, ticks: seq<nat>): Schedule {
    Schedule(completes, (i: nat) => if i < |ticks| then ticks[i] else 0)
  }

  /** The ticks at which the first b receives end, each from the run that those before it give. */
  ghost function Ticks(q: Query, completes: nat -> nat, signal: nat -> nat, b: nat): (r: seq<nat>)
    ensures |r| == b
  {
    if b == 0 then [] else
    var ticks := Ticks(q, completes, signal, b - 1);
    var c := Listed(completes, ticks);
    ticks + [if exists n, w :: BlocksAt(q, c, n, b - 1) && Received(BlockState(q, c, n), signal, w) then
               var n, w :| BlocksAt(q, c, n, b - 1) && Received(BlockState(q, c, n), signal, w); w
             else 0]
  }

  ghost function ChannelSchedule(q: Query, completes: nat -> nat, signal: nat -> nat): Schedule {
    Schedule(completes, (i: nat) => Ticks(q, completes, signal, i + 1)[i])
  }

  lemma {:induction false} TicksPrefix(q: Query, completes: nat -> nat, signal: nat -> nat, i: nat, b: nat)
    requires i < b
    ensures Ticks(q, completes, signal, b)[i] == Ticks(q, completes, signal, i + 1)[i]
    decreases b
  {
    hide BlocksAt, Received, BlockState;
    if i + 1 < b { TicksPrefix(q, completes, signal, i, b - 1); }
  }

  lemma ReceivedEnds(q: Query, c: Schedule, n: nat, b: nat, signal: nat -> nat) returns (w: nat)
    requires BlocksAt(q, c, n, b) && forall i :: c.completes(i) <= signal(i)
    ensures Received(BlockState(q, c, n), signal, w)
  {
    hide Trail, Blocking, Slot, Needed;
    w := ReceiveEnds(q, c, n, signal);
  }

  /** However the exchanges complete and signal, one of the schedules the walk runs under is that of the
      channel: each of its receives ends when the slot is first full. */
  lemma ChannelRuns(q: Query, completes: nat -> nat, signal: nat -> nat, n: nat, b: nat)
    requires (forall i :: completes(i) <= signal(i)) && BlocksAt(q, ChannelSchedule(q, completes, signal), n, b)
    ensures var c := ChannelSchedule(q, completes, signal);
            c.completes == completes && Received(BlockState(q, c, n), signal, c.wakes(b))
  {
    hide Trail, Blocking, Received, Ticks;
    var c, d := ChannelSchedule(q, completes, signal), Listed(completes, Ticks(q, completes, signal, b));
    forall i: nat | i < b ensures c.wakes(i) == d.wakes(i) { TicksPrefix(q, completes, signal, i, b); }
    BlocksOf(q, c, n, b);
    TrailAlike(q, c, d, n, b);
    BlockingAlike(q, c, d, Trail(q, c, n).value.0, Trail(q, c, n).value.1);
    assert BlocksAt(q, d, n, b) && BlockState(q, d, n) == BlockState(q, c, n);
    var w := ReceivedEnds(q, d, n, b, signal);
    NextTick(q, completes, signal, n, b, w);
  }

  lemma NextTick(q: Query, completes: nat -> nat, signal: nat -> nat, n: nat, b: nat, w: nat)
    requires var d := Listed(completes, Ticks(q, completes, signal, b));
             BlocksAt(q, d, n, b) && Received(BlockState(q, d, n), signal, w)
    ensures var d := Listed(completes, Ticks(q, completes, signal, b));
            Received(BlockState(q, d, n), signal, Ticks(q, completes, signal, b + 1)[b])
  {
    hide Trail, Blocking, Received;
    var d := Listed(completes, Ticks(q, completes, signal, b));
    var v := Ticks(q, completes, signal, b + 1)[b];
    var m :| BlocksAt(q, d, m, b) && Received(BlockState(q, d, m), signal, v);
    BlocksOnce(q, d, m, n, b);
  }
}
