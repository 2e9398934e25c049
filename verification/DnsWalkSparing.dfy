// What the rule walk sends ahead of a decision: a query that is not marked speculative is sent only when every
// race rule before it has been judged and declined (docs/configuration/dns/rule_action.md, speculative).
module DnsWalkSparing {
  import opened Base
  import opened DnsRules
  import opened DnsWalk
  import opened DnsWalkWake

  /** Race rule j was judged and declined. */
  ghost predicate HasDeclined(s: State, j: nat) {
    exists x :: x in s.judged && x.armed.rule == j && x.turn.None?
  }

  ghost predicate Waits(s: State, j: nat) { exists a :: a in s.armed && a.rule == j }

  /** Every race rule below n is armed or was declined. */
  ghost predicate Tracked(q: Query, s: State, n: nat) {
    forall j | 0 <= j < n && j < |q.rules| && q.rules[j].Races() :: Waits(s, j) || HasDeclined(s, j)
  }

  /** What was launched was launched in its turn, or is marked speculative. */
  ghost predicate InTurn(q: Query, s: State, f: Future) {
    && f.rule < |q.rules|
    && match q.rules[f.rule].action
       case Evaluate(_, _, speculative, _) =>
         speculative || forall j | 0 <= j < f.rule && q.rules[j].Races() :: HasDeclined(s, j)
       case Route(_, speculative, _) => speculative
       case _ => false
  }

  ghost predicate Sparing(q: Query, s: State) { forall f | f in s.futures :: InTurn(q, s, f) }

  lemma SparingGrows(q: Query, s: State, s': State)
    requires Sparing(q, s) && s'.futures == s.futures && s.judged <= s'.judged
    ensures Sparing(q, s')
  {
    forall f | f in s'.futures ensures InTurn(q, s', f) {
      assert InTurn(q, s, f);
      forall j | HasDeclined(s, j) ensures HasDeclined(s', j) {
        var x :| x in s.judged && x.armed.rule == j && x.turn.None?;
        assert x in s'.judged;
      }
    }
  }

  lemma TrackedGrows(q: Query, s: State, s': State, n: nat)
    requires Tracked(q, s, n) && s'.armed == s.armed && s.judged <= s'.judged
    ensures Tracked(q, s', n)
  {
    forall j | 0 <= j < n && j < |q.rules| && q.rules[j].Races() ensures Waits(s', j) || HasDeclined(s', j) {
      if Waits(s, j) {
        var a :| a in s.armed && a.rule == j;
        assert a in s'.armed;
      } else {
        var x :| x in s.judged && x.armed.rule == j && x.turn.None?;
        assert x in s'.judged;
      }
    }
  }

  /** Judging moves a rule that declines from the armed ones to the judged ones. */
  lemma DisarmTracked(q: Query, c: Schedule, s: State, k: nat, n: nat)
    requires Tracked(q, s, n) && k < |s.armed| && s.armed[k].rule < |q.rules| && Judge(q, c, s, s.armed[k]).None?
    ensures Tracked(q, Disarm(q, c, s, k), n)
  {
    hide Judge, Misses;
    var s', a := Disarm(q, c, s, k), s.armed[k];
    var y := Judgement(a, s.now, None);
    assert y in s'.judged;
    forall j | 0 <= j < n && j < |q.rules| && q.rules[j].Races() ensures Waits(s', j) || HasDeclined(s', j) {
      if Waits(s, j) {
        var i :| 0 <= i < |s.armed| && s.armed[i].rule == j;
        if i == k {
          assert y.armed.rule == j && y.turn.None?;
        } else {
          assert s.armed[i] in s'.armed;
        }
      } else {
        var x :| x in s.judged && x.armed.rule == j && x.turn.None?;
        assert x in s'.judged;
      }
    }
  }

  lemma {:induction false} SweepSparing(q: Query, c: Schedule, s: State, k: nat, n: nat)
    requires k <= |s.armed| && ArmedInRange(q, s) && Tracked(q, s, n)
    ensures var (s', turn) := Sweep(q, c, s, k); s.judged <= s'.judged && (turn.None? ==> Tracked(q, s', n))
    decreases |s.armed| - k
  {
    hide Judge, Ready, Misses, Tracked;
    if k < |s.armed| {
      var s1 := s.(now := s.now + 1);
      TrackedGrows(q, s, s1, n);
      if !Ready(c, s.armed[k], s1.now) {
        SweepSparing(q, c, s1, k + 1, n);
      } else if Judge(q, c, s1, s.armed[k]).None? {
        DisarmTracked(q, c, s1, k, n);
        assert forall a | a in Disarm(q, c, s1, k).armed :: a in s.armed;
        SweepSparing(q, c, Disarm(q, c, s1, k), k, n);
      }
    }
  }

  /** After a step that goes on with the next rule everything below is tracked; after one that stops to wait,
      everything below this one. */
  ghost predicate StepSparing(q: Query, s': State, turn: Option<Turn>) {
    && Sparing(q, s')
    && (turn.None? ==> Tracked(q, s', s'.index + 1))
    && (turn.Some? && (turn.value.Await? || turn.value.Drain?) ==> Tracked(q, s', s'.index))
  }

  lemma ArmSparing(q: Query, c: Schedule, s: State)
    requires s.index < |q.rules| && ArmedInRange(q, s) && Sparing(q, s) && Tracked(q, s, s.index)
    ensures var (s', turn) := Arm(q, c, s); StepSparing(q, s', turn)
  {
    hide Sweep, Pending, BoundFutures, Tracked, Sparing;
    var r := q.rules[s.index];
    var a := Armed(s.index, Pending(c, BoundFutures(r, s), s.now), if r.anonymous then s.anon else None, s.options);
    var s1 := s.(armed := s.armed + [a]);
    ArmTracked(q, s, a);
    SparingGrows(q, s, s1);
    SweepFrame(q, c, s1, 0);
    SweepSparing(q, c, s1, 0, s.index + 1);
    var (s2, turn) := Sweep(q, c, s1, 0);
    SparingGrows(q, s1, s2);
    SparingGrows(q, s2, s2.(armed := []));
  }

  lemma ArmTracked(q: Query, s: State, a: Armed)
    requires Tracked(q, s, s.index) && a.rule == s.index
    ensures Tracked(q, s.(armed := s.armed + [a]), s.index + 1)
  {
    var s1 := s.(armed := s.armed + [a]);
    assert a in s1.armed;
    forall j | 0 <= j < s.index + 1 && j < |q.rules| && q.rules[j].Races() ensures Waits(s1, j) || HasDeclined(s1, j) {
      if j < s.index {
        if Waits(s, j) {
          var b :| b in s.armed && b.rule == j;
          assert b in s1.armed;
        } else {
          var x :| x in s.judged && x.armed.rule == j && x.turn.None?;
          assert x in s1.judged;
        }
      }
    }
  }

  lemma Passed(q: Query, s: State)
    requires Tracked(q, s, s.index) && s.index < |q.rules| && !q.rules[s.index].Races()
    ensures Tracked(q, s, s.index + 1)
  {
  }

  /** A launch in its turn: nothing is armed, so every race rule below has declined. */
  lemma LaunchSparing(q: Query, s: State, s': State, f: Future)
    requires Sparing(q, s) && Tracked(q, s, s.index) && s.index < |q.rules| && f.rule == s.index
    requires s'.futures == s.futures + [f] && s'.judged == s.judged
    requires match q.rules[s.index].action
             case Evaluate(_, _, speculative, _) => speculative || s.armed == []
             case Route(_, speculative, _) => speculative
             case _ => false
    ensures Sparing(q, s')
  {
    SparingGrows(q, s, s'.(futures := s.futures));
    assert InTurn(q, s', f) by {
      if s.armed == [] {
        forall j | 0 <= j < f.rule && q.rules[j].Races() ensures HasDeclined(s', j) {
          assert !Waits(s, j) && HasDeclined(s, j);
        }
      }
    }
    forall g | g in s'.futures ensures InTurn(q, s', g) {
      if g in s.futures { assert InTurn(q, s'.(futures := s.futures), g); }
    }
  }

  lemma EvaluateSparing(q: Query, s: State)
    requires s.index < |q.rules| && q.rules[s.index].action.Evaluate? && Sparing(q, s) && Tracked(q, s, s.index)
    ensures var Evaluate(server, tag, speculative, own) := q.rules[s.index].action;
            var (s', turn) := ActEvaluate(q, s, server, tag, speculative, own);
            Sparing(q, s') && s'.armed == s.armed && s'.judged == s.judged && s'.index == s.index
  {
    hide Tracked, Sparing, ApplyRouteOptions;
    var Evaluate(server, tag, speculative, own) := q.rules[s.index].action;
    var s' := ActEvaluate(q, s, server, tag, speculative, own).0;
    if server in q.servers && (speculative || s.armed == []) {
      LaunchSparing(q, s, s', s'.futures[|s.futures|]);
    } else {
      SparingGrows(q, s, s');
    }
  }

  lemma RouteSparing(q: Query, s: State)
    requires s.index < |q.rules| && q.rules[s.index].action.Route? && Sparing(q, s) && Tracked(q, s, s.index)
    ensures var Route(server, speculative, own) := q.rules[s.index].action;
            var (s', turn) := ActRoute(q, s, server, speculative, own);
            Sparing(q, s') && s'.armed == s.armed && s'.judged == s.judged && s'.index == s.index
  {
    hide Tracked, Sparing, RouteWith, ResolveRoute;
    var Route(server, speculative, own) := q.rules[s.index].action;
    var s' := ActRoute(q, s, server, speculative, own).0;
    if s'.futures != s.futures {
      LaunchSparing(q, s, s', s'.futures[|s.futures|]);
    } else {
      SparingGrows(q, s, s');
    }
  }

  lemma ActSparing(q: Query, c: Schedule, s: State)
    requires s.index < |q.rules| && !q.rules[s.index].Races() && Sparing(q, s) && Tracked(q, s, s.index)
    ensures var (s', turn) := Act(q, c, s); StepSparing(q, s', turn)
  {
    hide Tracked, Sparing, ApplyRouteOptions, Named, Anonymous, ActEvaluate, ActRoute;
    var (s', turn) := Act(q, c, s);
    Passed(q, s);
    TrackedSame(q, s, s');
    match q.rules[s.index].action
    case Evaluate(_, _, _, _) => EvaluateSparing(q, s);
    case Route(_, _, _) => RouteSparing(q, s);
    case _ => SparingGrows(q, s, s');
  }

  lemma TrackedSame(q: Query, s: State, s': State)
    ensures Tracked(q, s, s.index) && s'.armed == s.armed && s'.judged == s.judged && s'.index == s.index ==>
              Tracked(q, s', s'.index)
    ensures Tracked(q, s, s.index + 1) && s'.armed == s.armed && s'.judged == s.judged && s'.index == s.index ==>
              Tracked(q, s', s'.index + 1)
  {
    if s'.armed == s.armed && s'.judged == s.judged && s'.index == s.index {
      if Tracked(q, s, s.index) { TrackedGrows(q, s, s', s.index); }
      if Tracked(q, s, s.index + 1) { TrackedGrows(q, s, s', s.index + 1); }
    }
  }

  lemma MatchSparing(q: Query, c: Schedule, s: State)
    requires s.index < |q.rules| && !q.rules[s.index].Races() && Sparing(q, s) && Tracked(q, s, s.index)
    ensures var (s', turn) := MatchAndAct(q, c, s); StepSparing(q, s', turn)
  {
    hide Tracked, Sparing, Act, Matches, Misses;
    var s1 := s.(late := s.late || Misses(q, s.index, s));
    Passed(q, s);
    TrackedSame(q, s, s1);
    SparingGrows(q, s, s1);
    ActSparing(q, c, s1);
  }

  lemma VisitSparing(q: Query, c: Schedule, s: State)
    requires s.index < |q.rules| && Sane(q, s) && Sparing(q, s) && Tracked(q, s, s.index)
    ensures var (s', turn) := Visit(q, c, s); StepSparing(q, s', turn)
  {
    hide MatchAndAct, Arm, SettleFrom, Pending, BoundFutures, Tracked, Sparing;
    var r := q.rules[s.index];
    if !r.Binds() {
      MatchSparing(q, c, s);
    } else {
      SettleFrame(q, c, s.(now := s.now + 1), 0);
      var s0 := Settle(q, c, s);
      var s1 := s0.(now := s0.now + 1);
      TrackedSame(q, s, s1);
      SparingGrows(q, s, s1);
      if r.race { ArmSparing(q, c, s1); } else { MatchSparing(q, c, s1); }
    }
  }

  lemma {:induction false} WalkSparing(q: Query, c: Schedule, s: State)
    requires Sane(q, s) && Sparing(q, s) && Tracked(q, s, s.index)
    ensures var (s', turn) := Walk(q, c, s);
            Sparing(q, s') && (turn.Await? || turn.Drain? ==> Tracked(q, s', s'.index))
    decreases |q.rules| - s.index
  {
    hide Visit, Tracked, Sparing;
    if s.index < |q.rules| {
      VisitSparing(q, c, s);
      VisitFrame(q, c, s);
      var (s1, turn) := Visit(q, c, s);
      if turn.None? {
        var s2 := s1.(index := s1.index + 1);
        TrackedGrows(q, s1, s2, s2.index);
        SparingGrows(q, s1, s2);
        WalkSparing(q, c, s2);
      }
    }
  }

  lemma PollSparing(q: Query, c: Schedule, s: State)
    requires Sane(q, s) && Sparing(q, s) && Tracked(q, s, s.index)
    ensures var (s', turn) := Poll(q, c, s); Sparing(q, s') && (turn.None? ==> Tracked(q, s', s'.index))
  {
    hide SettleFrom, Sweep, Tracked, Sparing;
    SettleFrame(q, c, s.(now := s.now + 1), 0);
    var s1 := Settle(q, c, s);
    TrackedSame(q, s, s1);
    SparingGrows(q, s, s1);
    SweepFrame(q, c, s1, 0);
    SweepSparing(q, c, s1, 0, s.index);
    SparingGrows(q, s1, Sweep(q, c, s1, 0).0);
  }

  lemma IterateSparing(q: Query, c: Schedule, s: State, turn: Turn)
    requires Sane(q, s) && !turn.Finish? && Sparing(q, s) && (!turn.Send? ==> Tracked(q, s, s.index))
    ensures var r := Iterate(q, c, s, turn);
            Sparing(q, r.state) && (r.Again? && !r.turn.Send? ==> Tracked(q, r.state, r.state.index))
  {
    hide Poll, Walk, Tracked, Sparing, Conclude, Settled, Sane;
    PollFrame(q, c, s);
    var (s1, swept) := Poll(q, c, s);
    if turn.Send? {
      PollFutures(q, c, s);
    } else {
      PollSparing(q, c, s);
      if swept.None? {
        var s2 := s1.(now := s1.now + 1);
        TrackedSame(q, s1, s2);
        SparingGrows(q, s1, s2);
        if MustWait(c, s2, turn) {
          var s3 := Receive(c, s2);
          TrackedSame(q, s2, s3);
          SparingGrows(q, s2, s3);
        } else {
          assert Sane(q, s2) by { SaneLater(q, s1, s2); }
          WalkSparing(q, c, s2);
        }
      }
    }
  }

  lemma SaneLater(q: Query, s: State, s': State)
    requires Sane(q, s) && s' == s.(now := s'.now)
    ensures Sane(q, s')
  {
  }

  /** A poll launches nothing and forgets no judgement. */
  lemma PollFutures(q: Query, c: Schedule, s: State)
    requires Sane(q, s) && Sparing(q, s)
    ensures Sparing(q, Poll(q, c, s).0)
  {
    hide SettleFrom, Sweep, Tracked, Sparing;
    SettleFrame(q, c, s.(now := s.now + 1), 0);
    var s1 := Settle(q, c, s);
    SweepFrame(q, c, s1, 0);
    NothingTracked(q, s1);
    SweepSparing(q, c, s1, 0, 0);
    SparingGrows(q, s, Sweep(q, c, s1, 0).0);
  }

  lemma NothingTracked(q: Query, s: State)
    ensures Tracked(q, s, 0)
  {
  }

  lemma {:induction false} ResumeSparing(q: Query, c: Schedule, s: State, turn: Turn)
    requires Sane(q, s) && !turn.Finish? && Waitable(s, turn) && Sparing(q, s)
    requires !turn.Send? ==> Tracked(q, s, s.index)
    ensures Sparing(q, Resume(q, c, s, turn).0)
    decreases |q.rules| - s.index, TerminalLeft(s), TurnLeft(turn), Left(c, s)
  {
    hide Iterate, Tracked, Sparing;
    IterateProgress(q, c, s, turn);
    IterateSparing(q, c, s, turn);
    match Iterate(q, c, s, turn)
    case Over(_, _) =>
    case Again(s1, turn1) => ResumeSparing(q, c, s1, turn1);
  }

  /** In every run a query that is not marked speculative is launched only after every race rule before it was
      judged and declined; a route sends its query ahead only when it is marked. */
  lemma LaunchesInTurn(q: Query, c: Schedule)
    ensures var (s, v) := Exchange(q, c);
            forall f | f in s.futures ::
              && f.rule < |q.rules|
              && match q.rules[f.rule].action
                 case Evaluate(_, _, speculative, _) =>
                   speculative || forall j | 0 <= j < f.rule && q.rules[j].Races() ::
                     exists x :: x in s.judged && x.armed.rule == j && x.turn.None?
                 case Route(_, speculative, _) => speculative
                 case _ => false
  {
    hide Walk, Resume;
    WalkSparing(q, c, Initial(q));
    WalkFrame(q, c, Initial(q));
    var (s, turn) := Walk(q, c, Initial(q));
    if !turn.Finish? { ResumeSparing(q, c, s, turn); }
    var s', v := Exchange(q, c).0, Exchange(q, c).1;
    forall f | f in s'.futures ensures InTurn(q, s', f) { }
  }

  // ---- what is sent ahead

  /** A walk that waits for its race rules has sent what it may: it waits at no evaluate marked speculative, and
      at a route marked so, whose server can be used, a query is under way. A route that decides uses the query
      it has sent ahead. */
  ghost predicate SentAhead(q: Query, s: State, turn: Turn) {
    && (turn.Drain? && s.index < |q.rules| ==>
          match q.rules[s.index].action
          case Evaluate(_, _, speculative, _) => !speculative
          case Route(server, speculative, _) =>
            speculative && server in q.servers && (q.servers[server].fakeIP ==> q.allowFakeIP) ==> s.terminal.Some?
          case _ => true)
    && (turn.Send? && !turn.raced && turn.at < |q.rules| && s.terminal.Some? && s.terminal.value.rule == turn.at ==>
          turn.launched == s.terminal)
  }

  lemma ActSendsAhead(q: Query, c: Schedule, s: State)
    requires s.index < |q.rules|
    ensures var (s', turn) := Act(q, c, s); s'.index == s.index && (turn.Some? ==> SentAhead(q, s', turn.value))
  {
    hide ApplyRouteOptions, RouteWith, Named, Anonymous;
  }

  lemma VisitSendsAhead(q: Query, c: Schedule, s: State)
    requires s.index < |q.rules| && ArmedInRange(q, s)
    ensures var (s', turn) := Visit(q, c, s); turn.Some? ==> SentAhead(q, s', turn.value)
  {
    hide Act, SettleFrom, Pending, BoundFutures, Sweep, Matches, Misses, SentAhead;
    SettleFrame(q, c, s.(now := s.now + 1), 0);
    var s0 := Settle(q, c, s);
    var s1 := s0.(now := s0.now + 1);
    forall t: State, late: bool | t.index == s.index ensures
      var (s', turn) := Act(q, c, t.(late := late)); turn.Some? ==> SentAhead(q, s', turn.value)
    {
      ActSendsAhead(q, c, t.(late := late));
    }
    forall t: State, turn: Turn | turn.Finish? || turn.Await? || (turn.Send? && turn.raced)
      ensures SentAhead(q, t, turn)
    {
      NotDraining(q, t, turn);
    }
    var r := q.rules[s.index];
    var a := Armed(s.index, Pending(c, BoundFutures(r, s1), s1.now), if r.anonymous then s1.anon else None, s1.options);
    SweepFrame(q, c, s1.(armed := s1.armed + [a]), 0);
    SweepRaces(q, c, s1.(armed := s1.armed + [a]), 0);
  }

  /** What a sweep sends is a race rule's. */
  lemma {:induction false} SweepRaces(q: Query, c: Schedule, s: State, k: nat)
    requires k <= |s.armed| && ArmedInRange(q, s)
    ensures var (s', turn) := Sweep(q, c, s, k); turn.Some? && turn.value.Send? ==> turn.value.raced
    decreases |s.armed| - k
  {
    hide Ready, Misses, Matches, ResolveRoute, RouteWith, Named, Anonymous;
    if k < |s.armed| {
      var s1 := s.(now := s.now + 1);
      if !Ready(c, s.armed[k], s1.now) {
        SweepRaces(q, c, s1, k + 1);
      } else if Judge(q, c, s1, s.armed[k]).None? {
        hide Judge;
        assert forall a | a in Disarm(q, c, s1, k).armed :: a in s.armed;
        SweepRaces(q, c, Disarm(q, c, s1, k), k);
      }
    }
  }

  lemma NotDraining(q: Query, s: State, turn: Turn)
    requires turn.Finish? || turn.Await? || (turn.Send? && turn.raced)
    ensures SentAhead(q, s, turn)
  {
  }

  lemma {:induction false} WalkSendsAhead(q: Query, c: Schedule, s: State)
    requires Sane(q, s)
    ensures var (s', turn) := Walk(q, c, s); SentAhead(q, s', turn)
    decreases |q.rules| - s.index
  {
    hide Visit;
    if s.index < |q.rules| {
      VisitSendsAhead(q, c, s);
      VisitFrame(q, c, s);
      var (s1, turn) := Visit(q, c, s);
      if turn.None? { WalkSendsAhead(q, c, s1.(index := s1.index + 1)); }
    }
  }

  /** In every suspension of every run. */
  lemma {:induction false} SendsAhead(q: Query, c: Schedule, n: nat)
    requires Trail(q, c, n).Some?
    ensures var (s, turn) := Trail(q, c, n).value; SentAhead(q, s, turn)
  {
    hide Walk, Iterate, SentAhead;
    if n == 0 {
      WalkSendsAhead(q, c, Initial(q));
    } else {
      SendsAhead(q, c, n - 1);
      var (s, turn) := Trail(q, c, n - 1).value;
      IterateSendsAhead(q, c, s, turn);
    }
  }

  lemma IterateSendsAhead(q: Query, c: Schedule, s: State, turn: Turn)
    requires Sane(q, s) && !turn.Finish? && SentAhead(q, s, turn)
    ensures var r := Iterate(q, c, s, turn); r.Again? ==> SentAhead(q, r.state, r.turn)
  {
    hide Poll, Walk, Conclude, Settled, Sane;
    PollFrame(q, c, s);
    var (s1, swept) := Poll(q, c, s);
    if swept.None? && !turn.Send? {
      var s2 := s1.(now := s1.now + 1);
      SaneLater(q, s1, s2);
      if !MustWait(c, s2, turn) { WalkSendsAhead(q, c, s2); }
    }
  }
}
