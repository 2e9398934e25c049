// What every run of the rule walk guarantees, for every rule list with well-scoped tags and every
// schedule of the exchanges.
module DnsWalkTheorems {
  import opened Base
  import opened DnsRules
  import opened DnsWalk
  import opened DnsReference
  import opened DnsWalkMeaning

  // ---- sweeping and arming keep the invariant

  ghost predicate Poised(q: Query, c: Schedule, s: State, n: nat) {
    && s.index <= n <= |q.rules|
    && Booked(q, s.(index := n)) && Sweepable(q, c, s, n) && Sane(q, s)
    && s.options == Folded(q, s.applied, n) && (forall i | i in s.applied :: i < n)
    && (!s.late ==> Reaches(q, n, s))
  }

  lemma SweepConcludes(q: Query, c: Schedule, s: State, s': State, v: Verdict, n: nat)
    requires Booked(q, s.(index := n)) && v.raced && AskedRight(q, s'.applied, v) && (!s'.late ==> Right(q, v))
    requires s'.futures == s.futures && s'.applied == s.applied && s'.named == s.named
    ensures Concluded(q, c, s', v)
  {
    forall f | f in s'.futures ensures LaunchedRight(q, s'.applied, f) { assert FutureBooked(q, s.(index := n), f); }
  }

  lemma SweepResumes(q: Query, c: Schedule, s: State, s': State, n: nat)
    requires Poised(q, c, s, n) && Sweepable(q, c, s', n) && AllWait(s')
    requires s' == s.(armed := s'.armed, judged := s'.judged, late := s'.late, now := s'.now) && (s.late ==> s'.late)
    ensures Inv(q, c, s'.(index := n))
  {
    hide Arrive, SettledRight, Folded, LaunchedRight, Agrees;
    var s'' := s'.(index := n);
    forall f | f in s''.futures ensures FutureBooked(q, s'', f) { assert FutureBooked(q, s.(index := n), f); }
    SettledIndex(q, c, s', n);
    LedgerIndex(q, c, s', n);
    if !s'.late {
      assert Abstract(q, s'') == Abstract(q, s);
      MeansIndex(q, s', n);
    }
  }

  lemma LedgerIndex(q: Query, c: Schedule, s: State, n: nat)
    requires Ledger(q, c, s, n)
    ensures Ledger(q, c, s.(index := n), n)
  {
    var s' := s.(index := n);
    forall a | a in s'.armed ensures Held(q, s', n, a) && BoundOrWaited(q, c, s', a) {
      assert Held(q, s, n, a) && BoundOrWaited(q, c, s, a);
    }
    forall x | x in s'.judged ensures Held(q, s', n, x.armed) && Declined(q, c, s', x) {
      assert Held(q, s, n, x.armed) && Declined(q, c, s, x);
    }
    forall j | 0 <= j < n && q.rules[j].Races() ensures IsArmed(s', j) || IsJudged(s', j) {
      assert IsArmed(s, j) || IsJudged(s, j);
    }
  }

  lemma MeansIndex(q: Query, s: State, n: nat)
    requires Means(q, s, n)
    ensures Means(q, s.(index := n), n)
  {
    var s' := s.(index := n);
    forall a | a in s'.armed ensures Recalls(q, s', a) { assert Recalls(q, s, a); }
    forall j | 0 <= j < n && Winner(q, j) ensures IsArmed(s', j) { assert IsArmed(s, j); }
  }

  lemma WaitingWaits(c: Schedule, s: State, since: nat)
    requires Waiting(c, s.armed, since)
    ensures AllWait(s)
  {
  }

  /** A whole sweep: it either leaves the invariant or concludes with a race rule's verdict. */
  lemma SweepInv(q: Query, c: Schedule, s: State, n: nat)
    requires Scoped(q.rules) && Poised(q, c, s, n)
    ensures var (s', turn) := Sweep(q, c, s, 0);
            match turn
            case None => Inv(q, c, s'.(index := n))
            case Some(t) =>
                (t.Finish? || t.Send?) && Concluded(q, c, s', Settled(q, t))
                    && Concluded(q, c, s'.(armed := []), Settled(q, t))
  {
    hide Sweepable, Booked, Right, AskedRight, Ledger, SettledRight, Inv, Concluded, Reaches, Folded, Abstract, Sweep;
    SweepFrame(q, c, s, 0);
    SweepKeeps(q, c, s, 0, n);
    SweepWaits(q, c, s, 0, s.now);
    var (s', turn) := Sweep(q, c, s, 0);
    if turn.None? {
      WaitingWaits(c, s', s.now);
      SweepResumes(q, c, s, s', n);
    } else {
      SweepConcludes(q, c, s, s', Settled(q, turn.value), n);
      SweepConcludes(q, c, s, s'.(armed := []), Settled(q, turn.value), n);
    }
  }

  lemma ArmLedger(q: Query, c: Schedule, s: State, a: Armed)
    requires Ledger(q, c, s, s.index) && s.index < |q.rules| && q.rules[s.index].Races()
    requires a.rule == s.index && Held(q, s, s.index + 1, a) && BoundOrWaited(q, c, s, a)
    ensures Ledger(q, c, s.(armed := s.armed + [a]), s.index + 1)
  {
    hide Folded, Unsettled;
    var s' := s.(armed := s.armed + [a]);
    var n := s.index + 1;
    forall b | b in s'.armed ensures Held(q, s', n, b) && BoundOrWaited(q, c, s', b) && (b == a || b.rule < s.index) {
      assert b == a || (Held(q, s, s.index, b) && BoundOrWaited(q, c, s, b));
    }
    forall x | x in s'.judged ensures Held(q, s', n, x.armed) && Declined(q, c, s', x) && x.armed.rule < s.index {
      assert Held(q, s, s.index, x.armed) && Declined(q, c, s, x);
    }
    forall j | 0 <= j < n && q.rules[j].Races() ensures IsArmed(s', j) || IsJudged(s', j) {
      if j == s.index { assert a in s'.armed; } else { ArmKeepsOthers(s, a, j); }
    }
  }

  lemma ArmKeepsOthers(s: State, a: Armed, j: nat)
    ensures IsArmed(s, j) ==> IsArmed(s.(armed := s.armed + [a]), j)
    ensures IsJudged(s, j) ==> IsJudged(s.(armed := s.armed + [a]), j)
  {
    var s' := s.(armed := s.armed + [a]);
    if IsArmed(s, j) {
      var b :| b in s.armed && b.rule == j;
      assert b in s'.armed;
    }
    if IsJudged(s, j) {
      var x :| x in s.judged && x.armed.rule == j;
      assert x in s'.judged;
    }
  }

  lemma ArmMeans(q: Query, s: State, a: Armed)
    requires Means(q, s, s.index) && s.index < |q.rules| && a.rule == s.index
    requires Reaches(q, s.index, s) && a.options == s.options
    requires q.rules[s.index].anonymous ==> a.anon == s.anon
    ensures Means(q, s.(armed := s.armed + [a]), s.index + 1)
  {
    hide Winner, Arrive, Reaches, Shows, Remembers;
    var s' := s.(armed := s.armed + [a]);
    forall b | b in s'.armed ensures Recalls(q, s', b) {
      if b == a {
        ArmRecalls(q, s, a);
      } else {
        assert b in s.armed && Recalls(q, s, b);
        if b.rule < |q.rules| && Shows(q.rules, b.rule) { RemembersSame(q, s, s', b); }
      }
    }
    forall j | 0 <= j < s.index + 1 && Winner(q, j) ensures IsArmed(s', j) {
      if j == s.index { assert a in s'.armed; } else { ArmKeepsOthers(s, a, j); }
    }
  }

  lemma RemembersSame(q: Query, s: State, s': State, a: Armed)
    requires Remembers(q, s, a) && s'.named == s.named
    ensures Remembers(q, s', a)
  {
  }

  /** A rule that shows is armed with what the interpreter has for it. */
  lemma ArmRecalls(q: Query, s: State, a: Armed)
    requires s.index < |q.rules| && a.rule == s.index && Reaches(q, s.index, s) && a.options == s.options
    requires q.rules[s.index].anonymous ==> a.anon == s.anon
    ensures Recalls(q, s.(armed := s.armed + [a]), a)
  {
    hide Arrive, LiveTag, LiveAnon, Shows;
    if Shows(q.rules, s.index) {
      ReadsLive(q.rules, s.index);
      var e, r := Arrive(q, s.index).value, q.rules[s.index];
      assert forall t | t in r.tags :: LiveTag(q.rules, t);
    }
  }

  /** What a rule binds was launched by an earlier evaluate. */
  lemma BoundEarlier(q: Query, s: State, r: Rule)
    requires Booked(q, s)
    ensures forall f | f in BoundFutures(r, s) :: f.rule < s.index && !f.terminal
  {
    TagFuturesIn(r.tags, s.named);
    forall f | f in BoundFutures(r, s) ensures f.rule < s.index && !f.terminal { assert FutureBooked(q, s, f); }
  }

  /** The armed record binds exactly what the rule binds. */
  lemma ArmedBinds(q: Query, c: Schedule, s: State, a: Armed)
    requires s.index < |q.rules| && q.rules[s.index].Races() && s.options == Folded(q, s.applied, s.index)
    requires Booked(q, s)
    requires var r := q.rules[s.index];
             a == Armed(s.index, Pending(c, BoundFutures(r, s), s.now), if r.anonymous then s.anon else None, s.options)
    ensures Held(q, s, s.index + 1, a) && BoundOrWaited(q, c, s, a)
  {
    hide Booked;
    var r := q.rules[s.index];
    BoundEarlier(q, s, r);
    PendingIn(c, BoundFutures(r, s), s.now);
    TagFuturesIn(r.tags, s.named);
    if r.anonymous && s.anon.Some? { assert s.anon.value in BoundFutures(r, s); }
    forall t | t in r.tags && t in s.named ensures s.named[t] in a.futures || Done(c, s.named[t], s.now) {
      assert s.named[t] in BoundFutures(r, s);
    }
  }

  lemma ArmSane(q: Query, c: Schedule, s: State, a: Armed)
    requires Sane(q, s) && s.index < |q.rules| && a.rule == s.index
    requires a.futures == Pending(c, BoundFutures(q.rules[s.index], s), s.now)
    ensures Sane(q, s.(armed := s.armed + [a]))
  {
    PendingIn(c, BoundFutures(q.rules[s.index], s), s.now);
    BoundIn(q, s, q.rules[s.index]);
  }

  lemma ArmBooked(q: Query, s: State, a: Armed)
    requires Booked(q, s) && s.index < |q.rules|
    ensures Booked(q, s.(armed := s.armed + [a], index := s.index + 1))
  {
    var s' := s.(armed := s.armed + [a], index := s.index + 1);
    forall f | f in s'.futures ensures FutureBooked(q, s', f) { assert FutureBooked(q, s, f); }
  }

  lemma ArmSweepable(q: Query, c: Schedule, s: State, a: Armed)
    requires SettledRight(q, c, s) && AllWait(s) && s.index < |q.rules|
    requires a.rule == s.index && (q.rules[s.index].anonymous ==> a.anon == s.anon)
    requires var s' := s.(armed := s.armed + [a]);
             Ledger(q, c, s', s.index + 1) && (!s.late ==> Means(q, s', s.index + 1))
    ensures Sweepable(q, c, s.(armed := s.armed + [a]), s.index + 1)
  {
    hide Ledger, Means;
  }

  lemma ArmPoised(q: Query, c: Schedule, s: State, a: Armed)
    requires Inv(q, c, s) && Sane(q, s) && s.index < |q.rules| && q.rules[s.index].Races()
    requires var r := q.rules[s.index];
             a == Armed(s.index, Pending(c, BoundFutures(r, s), s.now), if r.anonymous then s.anon else None, s.options)
    ensures Poised(q, c, s.(armed := s.armed + [a]), s.index + 1)
  {
    hide Ledger, Means, Pending, BoundFutures, Booked, SettledRight, Sane, Sweepable, Held, BoundOrWaited, AllWait;
    var s' := s.(armed := s.armed + [a]);
    ArmedBinds(q, c, s, a);
    ArmLedger(q, c, s, a);
    ArmSane(q, c, s, a);
    ArmBooked(q, s, a);
    if !s.late {
      ArmMeans(q, s, a);
      ArmReaches(q, s, a);
    }
    ArmSweepable(q, c, s, a);
  }

  /** The interpreter passes a race rule by. */
  lemma ArmReaches(q: Query, s: State, a: Armed)
    requires s.index < |q.rules| && q.rules[s.index].Races() && Reaches(q, s.index, s)
    ensures Reaches(q, s.index + 1, s.(armed := s.armed + [a]))
  {
    hide Agrees;
    var s' := s.(armed := s.armed + [a]);
    assert Abstract(q, s') == Abstract(q, s);
    AgreesOn(q.rules, s.index, Arrive(q, s.index).value, Abstract(q, s));
  }

  lemma ArmKeeps(q: Query, c: Schedule, s: State)
    requires Scoped(q.rules) && Inv(q, c, s) && Sane(q, s) && s.index < |q.rules| && q.rules[s.index].Races()
    ensures var (s', turn) := Arm(q, c, s); After(q, c, s', turn)
  {
    hide Inv, Poised, Sane, Concluded, Sweep, Pending;
    var r := q.rules[s.index];
    var a := Armed(s.index, Pending(c, BoundFutures(r, s), s.now), if r.anonymous then s.anon else None, s.options);
    var s1 := s.(armed := s.armed + [a]);
    ArmPoised(q, c, s, a);
    if a.futures == [] {
      SweepInv(q, c, s1, s.index + 1);
      PoisedSane(q, c, s1, s.index + 1);
      SweepFrame(q, c, s1, 0);
    } else {
      ArmResumes(q, c, s, a);
    }
  }

  lemma PoisedSane(q: Query, c: Schedule, s: State, n: nat)
    requires Poised(q, c, s, n)
    ensures Sane(q, s) && ArmedInRange(q, s)
  {
  }

  lemma ArmResumes(q: Query, c: Schedule, s: State, a: Armed)
    requires Inv(q, c, s) && a.futures != [] && Poised(q, c, s.(armed := s.armed + [a]), s.index + 1)
    ensures Inv(q, c, s.(armed := s.armed + [a], index := s.index + 1))
  {
    hide Inv, Poised, Sweepable;
    var s1 := s.(armed := s.armed + [a]);
    InvWaits(q, c, s);
    PoisedSweepable(q, c, s1, s.index + 1);
    SweepResumes(q, c, s1, s1, s.index + 1);
  }

  lemma InvWaits(q: Query, c: Schedule, s: State)
    requires Inv(q, c, s)
    ensures AllWait(s)
  {
  }

  lemma PoisedSweepable(q: Query, c: Schedule, s: State, n: nat)
    requires Poised(q, c, s, n)
    ensures Sweepable(q, c, s, n)
  {
  }

  // ---- visiting, walking, resuming

  lemma VisitKeeps(q: Query, c: Schedule, s: State)
    requires Scoped(q.rules) && Inv(q, c, s) && Sane(q, s) && s.index < |q.rules|
    ensures var (s', turn) := Visit(q, c, s); After(q, c, s', turn)
  {
    hide Inv, Sane, After, MatchAndAct, Arm, Settle, Pending, BoundFutures;
    var r := q.rules[s.index];
    if !r.Binds() {
      MatchKeeps(q, c, s);
    } else {
      var s0 := Settle(q, c, s);
      SettleInv(q, c, s);
      var s1 := s0.(now := s0.now + 1);
      TickKeeps(q, c, s0);
      AlikeSane(q, s, s1);
      var pending := Pending(c, BoundFutures(r, s1), s1.now);
      if r.race {
        ArmKeeps(q, c, s1);
      } else if pending != [] {
        AfterAwait(q, c, s1, pending[0]);
      } else {
        NothingPending(c, s1, r);
        MatchKeeps(q, c, s1);
      }
    }
  }

  lemma AlikeSane(q: Query, s: State, s': State)
    requires Sane(q, s) && Alike(s, s')
    ensures Sane(q, s')
  {
  }

  lemma AfterAwait(q: Query, c: Schedule, s: State, f: Future)
    requires Inv(q, c, s)
    ensures After(q, c, s, Some(Await(f)))
  {
  }

  lemma NothingPending(c: Schedule, s: State, r: Rule)
    requires Pending(c, BoundFutures(r, s), s.now) == []
    ensures r.anonymous && s.anon.Some? ==> Done(c, s.anon.value, s.now)
  {
    PendingIn(c, BoundFutures(r, s), s.now);
    if r.anonymous && s.anon.Some? { assert s.anon.value in BoundFutures(r, s); }
  }

  /** How a walk ends: suspended with the invariant, or concluded. */
  ghost predicate Ended(q: Query, c: Schedule, s: State, turn: Turn) {
    match turn
    case Finish(v) => Concluded(q, c, s, v)
    case Send(_, _, _, _, _) => s.armed == [] && Concluded(q, c, s, Conclude(q, turn))
    case _ => Inv(q, c, s)
  }

  lemma {:induction false} WalkKeeps(q: Query, c: Schedule, s: State)
    requires Scoped(q.rules) && Inv(q, c, s) && Sane(q, s)
    ensures var (s', turn) := Walk(q, c, s); Ended(q, c, s', turn)
    decreases |q.rules| - s.index
  {
    hide Inv, Sane, Visit, Concluded;
    SaneIndex(q, s);
    if s.index == |q.rules| {
      if s.armed == [] { DefaultConcludes(q, c, s); }
    } else {
      VisitKeeps(q, c, s);
      VisitFrame(q, c, s);
      var (s1, turn) := Visit(q, c, s);
      if turn.None? {
        SaneNext(q, s1);
        WalkKeeps(q, c, s1.(index := s1.index + 1));
      }
    }
  }

  lemma SaneIndex(q: Query, s: State)
    requires Sane(q, s)
    ensures s.index <= |q.rules| && ArmedInRange(q, s)
  {
  }

  lemma SaneNext(q: Query, s: State)
    requires Sane(q, s) && s.index < |q.rules|
    ensures Sane(q, s.(index := s.index + 1))
  {
  }

  lemma DefaultConcludes(q: Query, c: Schedule, s: State)
    requires Scoped(q.rules) && Inv(q, c, s) && s.index == |q.rules| && s.armed == []
    ensures Concluded(q, c, s, Conclude(q, Send(s.index, false, q.fallback, s.options, None)))
  {
    StopConcludes(q, c, s, Conclude(q, Send(s.index, false, q.fallback, s.options, None)));
  }

  lemma PollKeeps(q: Query, c: Schedule, s: State)
    requires Scoped(q.rules) && Inv(q, c, s) && Sane(q, s)
    ensures var (s', turn) := Poll(q, c, s);
            match turn
            case None => Inv(q, c, s')
            case Some(t) => (t.Finish? || t.Send?) && Concluded(q, c, s', Settled(q, t))
  {
    hide Inv, Sane, Concluded, Settle, Sweep, Poised;
    SettleInv(q, c, s);
    var s1 := Settle(q, c, s);
    AlikeSane(q, s, s1);
    InvPoised(q, c, s1);
    PoisedSane(q, c, s1, s1.index);
    SweepFrame(q, c, s1, 0);
    SweepInv(q, c, s1, s1.index);
    var (s2, turn) := Sweep(q, c, s1, 0);
    assert s2.(index := s1.index) == s2;
  }

  lemma InvPoised(q: Query, c: Schedule, s: State)
    requires Inv(q, c, s) && Sane(q, s)
    ensures Poised(q, c, s, s.index)
  {
    assert s.(index := s.index) == s;
  }

  lemma ReceiveKeeps(q: Query, c: Schedule, s: State)
    requires Inv(q, c, s)
    ensures Inv(q, c, Receive(c, s))
  {
    AlikeKeeps(q, c, s, Receive(c, s));
  }

  /** A suspension that is not a pending exchange keeps the invariant; a pending one is the verdict. */
  ghost predicate Suspended(q: Query, c: Schedule, s: State, turn: Turn) {
    && !turn.Finish? && Sane(q, s) && Waitable(s, turn)
    && Ended(q, c, s, turn)
  }

  /** The pending exchange of a walk is concluded by the next iteration as it stands. */
  lemma PendingConcludes(q: Query, c: Schedule, s: State, turn: Turn)
    requires Suspended(q, c, s, turn) && turn.Send?
    ensures var r := Iterate(q, c, s, turn); r.Over? && Concluded(q, c, r.state, r.verdict)
  {
    hide Concluded, Conclude;
    var s1 := Settle(q, c, s);
    SettleFrame(q, c, s.(now := s.now + 1), 0);
    SendKept(q, c, s, s1, turn);
  }

  lemma SendKept(q: Query, c: Schedule, s: State, s1: State, turn: Turn)
    requires turn.Send? && Concluded(q, c, s, Conclude(q, turn)) && Alike(s, s1) && s1.late == s.late
    ensures Concluded(q, c, s1, Conclude(q, turn))
  {
    var v := Conclude(q, turn);
    forall f | f in s1.futures ensures LaunchedRight(q, s1.applied, f) { assert f in s.futures; }
    if !v.raced {
      forall x | x in s1.judged ensures Held(q, s1, v.at, x.armed) && Declined(q, c, s1, x) {
        assert Held(q, s, v.at, x.armed) && Declined(q, c, s, x);
      }
      forall j | 0 <= j < v.at && q.rules[j].Races() ensures IsArmed(s1, j) || IsJudged(s1, j) {
        assert IsArmed(s, j) || IsJudged(s, j);
      }
    }
  }

  lemma IterateKeeps(q: Query, c: Schedule, s: State, turn: Turn)
    requires Scoped(q.rules) && Suspended(q, c, s, turn)
    ensures match Iterate(q, c, s, turn)
            case Over(s', v) => Concluded(q, c, s', v)
            case Again(s', turn') => Suspended(q, c, s', turn')
  {
    hide Inv, Sane, Concluded, Poll, Walk, Settled, Conclude, Receive;
    if turn.Send? {
      PendingConcludes(q, c, s, turn);
    } else {
      PollKeeps(q, c, s);
      PollFrame(q, c, s);
      IterateProgress(q, c, s, turn);
      var (s1, swept) := Poll(q, c, s);
      if swept.None? {
        var s2 := s1.(now := s1.now + 1);
        TickKeeps(q, c, s1);
        AlikeSane(q, s1, s2);
        if MustWait(c, s2, turn) { ReceiveKeeps(q, c, s2); } else { WalkKeeps(q, c, s2); }
      }
    }
  }

  lemma {:induction false} ResumeKeeps(q: Query, c: Schedule, s: State, turn: Turn)
    requires Scoped(q.rules) && Suspended(q, c, s, turn)
    ensures var (s', v) := Resume(q, c, s, turn); Concluded(q, c, s', v)
    decreases |q.rules| - s.index, TerminalLeft(s), TurnLeft(turn), Left(c, s)
  {
    hide Iterate, Concluded, Ended, Sane;
    IterateKeeps(q, c, s, turn);
    IterateProgress(q, c, s, turn);
    SaneIndex(q, s);
    var r := Iterate(q, c, s, turn);
    if r.Again? {
      SaneIndex(q, r.state);
      ResumeKeeps(q, c, r.state, r.turn);
    }
  }

  lemma InitialKeeps(q: Query, c: Schedule)
    ensures Inv(q, c, Initial(q)) && Sane(q, Initial(q))
  {
    hide LiveTag, LiveAnon;
    assert Abstract(q, Initial(q)) == Start(q);
  }

  /** Every run concludes as it should. */
  lemma ExchangeConcludes(q: Query, c: Schedule)
    requires Scoped(q.rules)
    ensures var (s, v) := Exchange(q, c); Concluded(q, c, s, v)
  {
    hide Inv, Sane, Walk, Concluded, Resume;
    InitialKeeps(q, c);
    WalkKeeps(q, c, Initial(q));
    WalkFrame(q, c, Initial(q));
    var (s, turn) := Walk(q, c, Initial(q));
    if !turn.Finish? { ResumeKeeps(q, c, s, turn); }
  }

  // ---- the theorems

  /** The result depends on server speed only among race rules: whatever the schedule, a run in which no
      rule that shows is matched late answers with the sequential verdict when no race rule before it wins, and with the
      verdict of a winning race rule otherwise. */
  lemma OrderedMeaning(q: Query, c: Schedule)
    requires Scoped(q.rules)
    ensures var (s, v) := Exchange(q, c); !s.late ==> Right(q, v)
  {
    hide Exchange;
    ExchangeConcludes(q, c);
  }

  ghost predicate RaceFree(q: Query) { forall i | 0 <= i < |q.rules| :: !q.rules[i].Races() }

  /** Without race rules every completion order and every speculative flag gives the result of the
      interpreter that runs each evaluate on the spot, unless a rule that shows is matched late. */
  lemma ScheduleIndependence(q: Query, c: Schedule)
    requires Scoped(q.rules) && RaceFree(q)
    ensures var (s, v) := Exchange(q, c); !s.late ==> v == Sequential(q)
  {
    hide Exchange;
    OrderedMeaning(q, c);
  }

  /** When no race rule wins, any two runs without such a late match agree. */
  lemma SchedulesAgree(q: Query, c: Schedule, d: Schedule)
    requires Scoped(q.rules) && forall j :: !Winner(q, j)
    ensures var (s, v), (t, u) := Exchange(q, c), Exchange(q, d); !s.late && !t.late ==> v == u == Sequential(q)
  {
    hide Exchange;
    OrderedMeaning(q, c);
    OrderedMeaning(q, d);
  }

  /** Race rule j was judged at a tick at which everything it binds was resolved, and gave no turn. */
  ghost predicate Examined(q: Query, c: Schedule, s: State, j: nat) {
    exists x :: x in s.judged && x.armed.rule == j && x.tick <= s.now && x.turn.None?
        && BoundAt(q, c, s, x.armed, x.tick)
  }

  /** A decision that is not a race rule's comes only after every race rule before it was judged, once,
      at a moment when everything it binds was resolved, and did not commit. */
  lemma RacePriority(q: Query, c: Schedule)
    requires Scoped(q.rules)
    ensures var (s, v) := Exchange(q, c);
            !v.raced ==>
              && v.at <= |q.rules| && s.armed == []
              && (forall j | 0 <= j < v.at && q.rules[j].Races() :: Examined(q, c, s, j))
              && (forall x, y | x in s.judged && y in s.judged && x.armed.rule == y.armed.rule :: x == y)
  {
    hide Exchange;
    ExchangeConcludes(q, c);
    var (s, v) := Exchange(q, c);
    if !v.raced {
      forall j | 0 <= j < v.at && q.rules[j].Races() ensures Examined(q, c, s, j) {
        assert IsJudged(s, j);
        var x :| x in s.judged && x.armed.rule == j;
        assert Declined(q, c, s, x);
      }
    }
  }

  /** Every exchange of a run, launched or decided, uses the caller's options folded with the matched
      route-options rules below its own rule and then its own; no rule launches twice. */
  lemma OptionSnapshots(q: Query, c: Schedule)
    requires Scoped(q.rules)
    ensures var (s, v) := Exchange(q, c);
            && (forall f | f in s.futures :: LaunchedRight(q, s.applied, f))
            && (forall f, g | f in s.futures && g in s.futures && f.rule == g.rule :: f == g)
            && AskedRight(q, s.applied, v)
  {
    hide Exchange;
    ExchangeConcludes(q, c);
  }

  /** The options of the applied route-options rules below i, in rule order. */
  function AppliedOptions(q: Query, applied: set<nat>, i: nat): seq<RouteOptions>
    requires i <= |q.rules|
  {
    if i == 0 then [] else
    AppliedOptions(q, applied, i - 1) +
      if i - 1 in applied && q.rules[i - 1].action.SetOptions? then [q.rules[i - 1].action.options] else []
  }

  /** The snapshot in force at a rule is the fold whose fields FoldFlags, FoldLastWins and FoldKeeps
      determine. */
  lemma {:induction false} SnapshotFolds(q: Query, applied: set<nat>, i: nat)
    requires i <= |q.rules|
    ensures Folded(q, applied, i) == Fold(q.caller, AppliedOptions(q, applied, i))
  {
    if i > 0 {
      SnapshotFolds(q, applied, i - 1);
      var front := AppliedOptions(q, applied, i - 1);
      if i - 1 in applied && q.rules[i - 1].action.SetOptions? {
        var own := q.rules[i - 1].action.options;
        assert (front + [own])[..|front + [own]| - 1] == front;
      } else {
        assert front + [] == front;
      }
    }
  }
}
