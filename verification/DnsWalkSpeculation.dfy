// A speculative route exchange is invisible: erasing the flag from every route rule changes neither
// the verdict nor what any rule sees, under the same schedule.
module DnsWalkSpeculation {
  import opened Base
  import opened DnsRules
  import opened DnsWalk
  import opened DnsReference
  import opened DnsWalkMeaning
  import opened DnsWalkTheorems

  function EraseRule(r: Rule): Rule {
    if r.action.Route? then r.(action := Route(r.action.server, false, r.action.options)) else r
  }

  function Erase(q: Query): Query {
      q.(rules := seq(|q.rules|, i requires 0 <= i < |q.rules| => EraseRule(q.rules[i]))) }

  /** The same walk without the terminal future. */
  ghost predicate Twin(s: State, t: State) {
    && t == s.(futures := t.futures, terminal := None, settled := t.settled)
    && (forall f :: f in t.futures <==> f in s.futures && !f.terminal)
    && (forall f | f in t.futures :: f.rule in t.settled <==> f.rule in s.settled)
  }

  ghost predicate TwinTurn(q: Query, u: Option<Turn>, w: Option<Turn>) {
    u == w || (u.Some? && w.Some? && u.value.Send? && w.value.Send? && Conclude(q, u.value) == Conclude(q, w.value))
  }

  // ---- settling

  lemma {:induction false} SettledSet(q: Query, c: Schedule, s: State, k: nat)
    requires k <= |s.futures|
    ensures forall i :: i in SettleFrom(q, c, s, k).settled <==>
                        i in s.settled || exists f :: f in s.futures[k..] && f.rule == i && Done(c, f, s.now)
    decreases |s.futures| - k
  {
    if k < |s.futures| {
      var f := s.futures[k];
      assert s.futures[k..] == [f] + s.futures[k + 1..];
      SettledSet(q, c, SettleOnce(q, c, s, f), k + 1);
    }
  }

  lemma {:induction false} SettleErased(q: Query, c: Schedule, s: State, k: nat)
    requires k <= |s.futures|
    ensures SettleFrom(Erase(q), c, s, k) == SettleFrom(q, c, s, k)
    decreases |s.futures| - k
  {
    if k < |s.futures| {
      var f := s.futures[k];
      assert Seen(Erase(q), c, f, s.now) == Seen(q, c, f, s.now);
      SettleErased(q, c, SettleOnce(q, c, s, f), k + 1);
    }
  }

  lemma TwinRight(q: Query, c: Schedule, s: State, t: State)
    requires Twin(s, t) && SettledTwin(s, t) && Tagged(s) && SettledRight(q, c, s)
    requires forall x | x in t.named :: t.named[x] in t.futures
    ensures Tagged(t) && SettledRight(q, c, t)
  {
    forall f | f in t.futures ensures f in s.futures { }
  }

  /** The settled part of two twins. */
  ghost predicate SettledTwin(s: State, t: State) {
    forall i | i in t.settled :: i in s.settled && exists f :: f in t.futures && f.rule == i
  }

  lemma SettleTwin(q: Query, c: Schedule, s: State, t: State)
    requires Twin(s, t) && SettledTwin(s, t) && Tagged(s) && SettledRight(q, c, s) && forall x | x in t.named ::
              t.named[x] in t.futures
    ensures var s', t' := Settle(q, c, s), Settle(Erase(q), c, t); Twin(s', t') && SettledTwin(s', t')
  {
    hide SettleFrom, SettledRight, Tagged, Twin, SettledTwin;
    var s0, t0 := s.(now := s.now + 1), t.(now := t.now + 1);
    TwinRight(q, c, s, t);
    SettledTick(q, c, s);
    SettledTick(q, c, t);
    SettleErased(q, c, t0, 0);
    SettleFrame(q, c, s0, 0);
    SettleFrame(q, c, t0, 0);
    SettleKeeps(q, c, s0, 0);
    SettleKeeps(q, c, t0, 0);
    SettledSet(q, c, s0, 0);
    SettledSet(q, c, t0, 0);
    assert s0.futures[0..] == s0.futures && t0.futures[0..] == t0.futures;
    SettledTwins(q, c, s, t, SettleFrom(q, c, s0, 0), SettleFrom(q, c, t0, 0));
  }

  lemma SettledTwins(q: Query, c: Schedule, s: State, t: State, s': State, t': State)
    requires Twin(s, t) && SettledTwin(s, t) && Tagged(s) && forall x | x in t.named :: t.named[x] in t.futures
    requires s' == s.(now := s.now + 1, responses := s'.responses, transports := s'.transports, settled := s'.settled)
    requires t' == t.(now := t.now + 1, responses := t'.responses, transports := t'.transports, settled := t'.settled)
    requires SettledRight(q, c, s') && SettledRight(q, c, t')
    requires forall i :: i in s'.settled <==> i in s.settled || exists f ::
              f in s.futures && f.rule == i && Done(c, f, s'.now)
    requires forall i :: i in t'.settled <==> i in t.settled || exists f ::
              f in t.futures && f.rule == i && Done(c, f, t'.now)
    ensures Twin(s', t') && SettledTwin(s', t')
  {
    forall f | f in t'.futures ensures f.rule in t'.settled <==> f.rule in s'.settled {
      if f.rule in s'.settled && f.rule !in s.settled {
        var g :| g in s.futures && g.rule == f.rule && Done(c, g, s'.now);
        assert g == f;
      }
    }
    SameResponses(q, c, s', t');
    forall i | i in t'.settled ensures i in s'.settled && exists f :: f in t'.futures && f.rule == i { }
  }

  lemma SameResponses(q: Query, c: Schedule, s: State, t: State)
    requires SettledRight(q, c, s) && SettledRight(q, c, t) && s.named == t.named
    requires forall x | x in t.named :: t.named[x].rule in t.settled <==> s.named[x].rule in s.settled
    ensures s.responses == t.responses && s.transports == t.transports
  {
    hide EvalOf;
    assert s.responses.Keys == t.responses.Keys;
    assert s.transports.Keys == t.transports.Keys;
  }

  // ---- sweeping

  lemma ErasedRule(q: Query, i: nat)
    requires i < |q.rules|
    ensures |Erase(q).rules| == |q.rules| && Erase(q).rules[i] == EraseRule(q.rules[i])
  {
  }

  lemma ErasedMatches(q: Query, i: nat, anon: Option<Msg>, named: map<Tag, Option<Msg>>)
    requires i < |q.rules|
    ensures |Erase(q).rules| == |q.rules| && Matches(Erase(q), i, anon, named) == Matches(q, i, anon, named)
  {
  }

  lemma JudgeTwin(q: Query, c: Schedule, s: State, t: State, a: Armed)
    requires Twin(s, t) && a.rule < |q.rules|
    ensures a.rule < |Erase(q).rules| && Judge(Erase(q), c, t, a) == Judge(q, c, s, a)
  {
    hide Matches, RouteWith;
    ErasedRule(q, a.rule);
    assert SeenOpt(Erase(q), c, a.anon, t.now) == SeenOpt(q, c, a.anon, s.now);
    ErasedMatches(q, a.rule, SeenOpt(q, c, a.anon, s.now), s.responses);
    RaceActTwin(q, c, s, t, a);
  }

  lemma RaceActTwin(q: Query, c: Schedule, s: State, t: State, a: Armed)
    requires Twin(s, t) && a.rule < |q.rules|
    ensures a.rule < |Erase(q).rules| && RaceAct(Erase(q), c, t, a) == RaceAct(q, c, s, a)
  {
    hide RouteWith;
    ErasedRule(q, a.rule);
    var anon := if a.anon.Some? then a.anon else s.anon;
    assert Anonymous(Erase(q), c, anon, s.now) == Anonymous(q, c, anon, s.now);
    assert forall tag :: Named(t, tag) == Named(s, tag);
  }

  ghost predicate NamedHere(t: State) { forall x | x in t.named :: t.named[x] in t.futures }

  lemma UnsettledTwin(s: State, t: State, r: Rule)
    requires Twin(s, t) && NamedHere(t)
    ensures Unsettled(r, s) == Unsettled(r, t)
  {
  }

  lemma TwinTick(s: State, t: State)
    requires Twin(s, t) && SettledTwin(s, t) && NamedHere(t)
    ensures var s1, t1 := s.(now := s.now + 1), t.(now := t.now + 1);
            Twin(s1, t1) && SettledTwin(s1, t1) && NamedHere(t1) && t1.now == s1.now && t1.armed == s1.armed
  {
  }

  /** The flag does not decide which rules show. */
  lemma {:induction false} ErasedShows(q: Query, i: nat)
    requires i < |q.rules|
    ensures |Erase(q).rules| == |q.rules| && Shows(Erase(q).rules, i) == Shows(q.rules, i)
    decreases |q.rules| - i
  {
    ErasedRule(q, i);
    forall k | i < k < |q.rules|
      ensures Shows(Erase(q).rules, k) == Shows(q.rules, k)
      ensures forall tag :: ReadsFrom(Erase(q).rules[k], tag) == ReadsFrom(q.rules[k], tag)
    {
      ErasedShows(q, k);
      ErasedRule(q, k);
    }
  }

  lemma MissesTwin(q: Query, s: State, t: State, i: nat)
    requires Twin(s, t) && NamedHere(t) && i < |q.rules|
    ensures |Erase(q).rules| == |q.rules| && Misses(Erase(q), i, t) == Misses(q, i, s)
  {
    hide Shows;
    ErasedRule(q, i);
    ErasedShows(q, i);
    UnsettledTwin(s, t, q.rules[i]);
    assert Unsettled(Erase(q).rules[i], t) == Unsettled(q.rules[i], t);
  }

  lemma DisarmTwin(q: Query, c: Schedule, s: State, t: State, k: nat)
    requires Twin(s, t) && SettledTwin(s, t) && NamedHere(t) && k < |s.armed| && ArmedInRange(q, s)
    ensures |Erase(q).rules| == |q.rules| && t.armed == s.armed
    ensures var s', t' := Disarm(q, c, s, k), Disarm(Erase(q), c, t, k);
            Twin(s', t') && SettledTwin(s', t') && NamedHere(t')
  {
    hide Judge, Misses;
    MissesTwin(q, s, t, s.armed[k].rule);
    JudgeTwin(q, c, s, t, s.armed[k]);
  }

  lemma {:induction false} SweepTwin(q: Query, c: Schedule, s: State, t: State, k: nat)
    requires Twin(s, t) && SettledTwin(s, t) && NamedHere(t) && k <= |s.armed| && ArmedInRange(q, s)
    ensures |Erase(q).rules| == |q.rules| && ArmedInRange(Erase(q), t) && t.armed == s.armed
    ensures var (s', u), (t', w) := Sweep(q, c, s, k), Sweep(Erase(q), c, t, k);
            Twin(s', t') && SettledTwin(s', t') && u == w
    decreases |s.armed| - k
  {
    hide Judge, Disarm, Twin, SettledTwin, NamedHere;
    TwinTick(s, t);
    if k < |s.armed| {
      var a := s.armed[k];
      var s1, t1 := s.(now := s.now + 1), t.(now := t.now + 1);
      if !Ready(c, a, s1.now) {
        SweepTwin(q, c, s1, t1, k + 1);
      } else {
        DisarmTwin(q, c, s1, t1, k);
        DisarmSize(q, c, s1, k);
        JudgeTwin(q, c, s1, t1, a);
        if Judge(q, c, s1, a).None? { SweepTwin(q, c, Disarm(q, c, s1, k), Disarm(Erase(q), c, t1, k), k); }
      }
    }
  }

  // ---- acting

  /** Everything the walk of q and the walk of its erasure share. */
  ghost predicate Paired(q: Query, c: Schedule, s: State, t: State) {
    && Inv(q, c, s) && Sane(q, s) && Sane(Erase(q), t) && Twin(s, t) && SettledTwin(s, t)
  }

  lemma LaunchTwin(q: Query, c: Schedule, s: State, t: State, s': State, t': State, f: Future)
    requires Twin(s, t) && SettledTwin(s, t) && !f.terminal
    requires forall g | g in s.futures :: g.rule != f.rule
    requires forall i | i in s.settled :: exists g :: g in s.futures && g.rule == i
    requires s' == if f.tag == "" then s.(futures := s.futures + [f], anon := Some(f))
                   else s.(futures := s.futures + [f], named := s.named[f.tag := f])
    requires t' == if f.tag == "" then t.(futures := t.futures + [f], anon := Some(f))
                   else t.(futures := t.futures + [f], named := t.named[f.tag := f])
    ensures Twin(s', t') && SettledTwin(s', t')
  {
    assert f.rule !in s.settled && f.rule !in t.settled;
    forall i | i in t'.settled ensures i in s'.settled && exists g :: g in t'.futures && g.rule == i {
      var g :| g in t.futures && g.rule == i;
      assert g in t'.futures;
    }
  }

  lemma ActEvaluates(q: Query, c: Schedule, s: State)
    requires s.index < |q.rules| && q.rules[s.index].action.Evaluate?
    ensures var Evaluate(server, tag, speculative, own) := q.rules[s.index].action;
            Act(q, c, s) == ActEvaluate(q, s, server, tag, speculative, own)
  {
    hide ActEvaluate;
  }

  lemma EvaluateTwin(q: Query, c: Schedule, s: State, t: State)
    requires Scoped(q.rules) && Paired(q, c, s, t) && s.index < |q.rules| && q.rules[s.index].action.Evaluate?
    ensures |Erase(q).rules| == |q.rules|
    ensures var (s', u), (t', w) := Act(q, c, s), Act(Erase(q), c, t);
            Twin(s', t') && SettledTwin(s', t') && u == w
  {
    hide ApplyRouteOptions, Inv, Booked, Sane, Act;
    ErasedRule(q, s.index);
    ActEvaluates(q, c, s);
    ActEvaluates(Erase(q), c, t);
    var Evaluate(server, tag, speculative, own) := q.rules[s.index].action;
    if server in q.servers && (speculative || s.armed == []) {
      var f := Future(s.index, tag, false, q.servers[server], ApplyRouteOptions(s.options, own));
      InvGives(q, c, s);
      LaunchFresh(q, s, tag);
      var (s', u) := Act(q, c, s);
      var (t', w) := Act(Erase(q), c, t);
      LaunchTwin(q, c, s, t, s', t', f);
    }
  }

  lemma RespondTwin(q: Query, c: Schedule, s: State, t: State)
    requires Twin(s, t) && SettledTwin(s, t) && s.index < |q.rules| && q.rules[s.index].action.Respond?
    ensures |Erase(q).rules| == |q.rules|
    ensures var (s', u), (t', w) := Act(q, c, s), Act(Erase(q), c, t);
            Twin(s', t') && SettledTwin(s', t') && u == w
  {
    hide Named, Act, Twin, SettledTwin, Anonymous, Erase;
    TwinFields(s, t);
    TwinLater(s, t);
    ErasedRule(q, s.index);
    ActResponds(q, c, s);
    ActResponds(Erase(q), c, t);
    AnonymousTwin(q, c, s.anon, s.now + 1);
    NamedTwin(s, t, q.rules[s.index].responseTag);
  }

  lemma TwinFields(s: State, t: State)
    requires Twin(s, t)
    ensures t.armed == s.armed && t.anon == s.anon && t.now == s.now && t.index == s.index
  {
  }

  lemma TwinLater(s: State, t: State)
    requires Twin(s, t) && SettledTwin(s, t)
    ensures Twin(s.(now := s.now + 1), t.(now := t.now + 1)) && SettledTwin(s.(now := s.now + 1), t.(now := t.now + 1))
  {
  }

  lemma AnonymousTwin(q: Query, c: Schedule, f: Option<Future>, now: nat)
    ensures Anonymous(Erase(q), c, f, now) == Anonymous(q, c, f, now)
  {
  }

  lemma ActResponds(q: Query, c: Schedule, s: State)
    requires s.index < |q.rules| && q.rules[s.index].action.Respond?
    ensures Act(q, c, s) == ActRespond(q, c, s, q.rules[s.index])
  {
  }

  lemma NamedTwin(s: State, t: State, tag: Tag)
    requires Twin(s, t)
    ensures Named(t, tag) == Named(s, tag)
  {
  }

  lemma SpeculateTwin(s: State, t: State, f: Future)
    requires Twin(s, t) && SettledTwin(s, t) && f.terminal
    ensures Twin(s.(futures := s.futures + [f], terminal := Some(f)), t)
    ensures SettledTwin(s.(futures := s.futures + [f], terminal := Some(f)), t)
  {
  }

  lemma RouteTwin(q: Query, c: Schedule, s: State, t: State)
    requires Paired(q, c, s, t) && s.index < |q.rules| && q.rules[s.index].action.Route?
    ensures |Erase(q).rules| == |q.rules|
    ensures var (s', u), (t', w) := Act(q, c, s), Act(Erase(q), c, t);
            Twin(s', t') && SettledTwin(s', t') && TwinTurn(q, u, w)
  {
    hide Inv, RouteWith;
    ErasedRule(q, s.index);
    var Route(server, speculative, own) := q.rules[s.index].action;
    assert ResolveRoute(Erase(q), server) == ResolveRoute(q, server);
    var target := ResolveRoute(q, server);
    if target.Some? {
      var options := RouteWith(s.options, target.value, own);
      if s.armed != [] {
        if speculative && s.terminal.None? {
          SpeculateTwin(s, t, Future(s.index, "", true, target.value, options));
        }
      } else if s.terminal.Some? && s.terminal.value.rule == s.index {
        InvGives(q, c, s);
        assert FutureBooked(q, s, s.terminal.value);
      }
    }
  }

  lemma ActTwin(q: Query, c: Schedule, s: State, t: State)
    requires Scoped(q.rules) && Paired(q, c, s, t) && s.index < |q.rules|
    ensures |Erase(q).rules| == |q.rules|
    ensures var (s', u), (t', w) := Act(q, c, s), Act(Erase(q), c, t);
            Twin(s', t') && SettledTwin(s', t') && TwinTurn(q, u, w)
  {
    hide Inv, ActEvaluate, ActRespond, ActRoute;
    ErasedRule(q, s.index);
    match q.rules[s.index].action
    case Evaluate(_, _, _, _) => EvaluateTwin(q, c, s, t);
    case Respond => RespondTwin(q, c, s, t);
    case Route(_, _, _) => RouteTwin(q, c, s, t);
    case _ =>
  }

  lemma LateKeeps(q: Query, c: Schedule, s: State, late: bool)
    requires Inv(q, c, s) && (s.late ==> late)
    ensures Inv(q, c, s.(late := late))
  {
    SettledLate(q, c, s, late);
    AlikeKeeps(q, c, s, s.(late := late));
  }

  lemma MatchTwin(q: Query, c: Schedule, s: State, t: State)
    requires Scoped(q.rules) && Paired(q, c, s, t) && s.index < |q.rules|
    ensures |Erase(q).rules| == |q.rules|
    ensures var (s', u), (t', w) := MatchAndAct(q, c, s), MatchAndAct(Erase(q), c, t);
            Twin(s', t') && SettledTwin(s', t') && TwinTurn(q, u, w)
  {
    hide Inv, Act, Matches, TwinTurn, Misses;
    ErasedRule(q, s.index);
    MissesTwin(q, s, t, s.index);
    var late := s.late || Misses(q, s.index, s);
    var s1, t1 := s.(late := late), t.(late := late);
    LateKeeps(q, c, s, late);
    assert Paired(q, c, s1, t1);
    assert SeenOpt(Erase(q), c, s1.anon, s1.now) == SeenOpt(q, c, s1.anon, s1.now);
    ErasedMatches(q, s.index, SeenOpt(q, c, s1.anon, s1.now), s1.responses);
    ActTwin(q, c, s1, t1);
    TwinNone(q);
  }

  lemma TwinNone(q: Query)
    ensures TwinTurn(q, None, None)
  {
  }

  lemma ArmTwin(q: Query, c: Schedule, s: State, t: State)
    requires Paired(q, c, s, t) && s.index < |q.rules|
    ensures |Erase(q).rules| == |q.rules|
    ensures var (s', u), (t', w) := Arm(q, c, s), Arm(Erase(q), c, t);
            Twin(s', t') && SettledTwin(s', t') && u == w
  {
    hide Inv, Sweep, Pending;
    var r := q.rules[s.index];
    ErasedRule(q, s.index);
    assert BoundFutures(EraseRule(r), t) == BoundFutures(r, s);
    var a := Armed(s.index, Pending(c, BoundFutures(r, s), s.now), if r.anonymous then s.anon else None, s.options);
    SweepTwin(q, c, s.(armed := s.armed + [a]), t.(armed := t.armed + [a]), 0);
  }

  lemma VisitTwin(q: Query, c: Schedule, s: State, t: State)
    requires Scoped(q.rules) && Paired(q, c, s, t) && s.index < |q.rules|
    ensures |Erase(q).rules| == |q.rules|
    ensures var (s', u), (t', w) := Visit(q, c, s), Visit(Erase(q), c, t);
            Twin(s', t') && SettledTwin(s', t') && TwinTurn(q, u, w)
  {
    hide Inv, MatchAndAct, Arm, Settle, Pending;
    var r := q.rules[s.index];
    ErasedRule(q, s.index);
    if !r.Binds() {
      MatchTwin(q, c, s, t);
    } else {
      PairedSettle(q, c, s, t);
      var s0, t0 := Settle(q, c, s), Settle(Erase(q), c, t);
      var s1, t1 := s0.(now := s0.now + 1), t0.(now := t0.now + 1);
      PairedTick(q, c, s0, t0);
      assert BoundFutures(EraseRule(r), t1) == BoundFutures(r, s1);
      if r.race {
        ArmTwin(q, c, s1, t1);
      } else if Pending(c, BoundFutures(r, s1), s1.now) == [] {
        MatchTwin(q, c, s1, t1);
      }
    }
  }

  lemma PairedSettle(q: Query, c: Schedule, s: State, t: State)
    requires Paired(q, c, s, t)
    ensures Paired(q, c, Settle(q, c, s), Settle(Erase(q), c, t))
    ensures Settle(q, c, s).index == s.index
  {
    hide Inv, Settle;
    SettleInv(q, c, s);
    InvGives(q, c, s);
    SettleTwin(q, c, s, t);
    AlikeSane(q, s, Settle(q, c, s));
    SettleAlike(Erase(q), c, t);
    AlikeSane(Erase(q), t, Settle(Erase(q), c, t));
  }

  lemma SettleAlike(q: Query, c: Schedule, s: State)
    ensures Alike(s, Settle(q, c, s))
  {
    SettleFrame(q, c, s.(now := s.now + 1), 0);
  }

  lemma PairedTick(q: Query, c: Schedule, s: State, t: State)
    requires Paired(q, c, s, t)
    ensures Paired(q, c, s.(now := s.now + 1), t.(now := t.now + 1))
  {
    hide Inv;
    TickKeeps(q, c, s);
  }

  lemma {:induction false} WalkTwin(q: Query, c: Schedule, s: State, t: State)
    requires Scoped(q.rules) && Paired(q, c, s, t)
    ensures var (s', u), (t', w) := Walk(q, c, s), Walk(Erase(q), c, t);
            && Twin(s', t') && SettledTwin(s', t') && TwinTurn(q, Some(u), Some(w))
            && Sane(q, s') && Sane(Erase(q), t')
            && (!u.Finish? && !u.Send? ==> Inv(q, c, s'))
    decreases |q.rules| - s.index
  {
    hide Inv, Visit, Sane;
    SaneIndex(q, s);
    SaneIndex(Erase(q), t);
    WalkFrame(q, c, s);
    WalkFrame(Erase(q), c, t);
    WalkKeeps(q, c, s);
    assert |Erase(q).rules| == |q.rules|;
    if s.index < |q.rules| {
      VisitTwin(q, c, s, t);
      VisitFrame(q, c, s);
      VisitFrame(Erase(q), c, t);
      VisitKeeps(q, c, s);
      var (s1, u) := Visit(q, c, s);
      var (t1, w) := Visit(Erase(q), c, t);
      if u.None? {
        SaneNext(q, s1);
        SaneNext(Erase(q), t1);
        WalkTwin(q, c, s1.(index := s1.index + 1), t1.(index := t1.index + 1));
      }
    }
  }

  lemma {:induction false} ResumeTwin(q: Query, c: Schedule, s: State, t: State, u: Turn, w: Turn)
    requires Scoped(q.rules) && Twin(s, t) && SettledTwin(s, t) && Suspended(q, c, s, u)
    requires Sane(Erase(q), t) && Waitable(t, w) && !w.Finish? && TwinTurn(q, Some(u), Some(w))
    ensures var (s', v), (t', v') := Resume(q, c, s, u), Resume(Erase(q), c, t, w);
            v == v' && s'.late == t'.late
    decreases |q.rules| - s.index, TerminalLeft(s), TurnLeft(u), Left(c, s)
  {
    hide Iterate, Inv, Sane, Ended;
    SaneIndex(q, s);
    SaneIndex(Erase(q), t);
    IterateProgress(q, c, s, u);
    IterateProgress(Erase(q), c, t, w);
    IterateKeeps(q, c, s, u);
    IterateTwin(q, c, s, t, u, w);
    var r, r' := Iterate(q, c, s, u), Iterate(Erase(q), c, t, w);
    if r.Again? {
      SaneIndex(q, r.state);
      ResumeTwin(q, c, r.state, r'.state, r.turn, r'.turn);
    }
  }

  lemma IterateTwin(q: Query, c: Schedule, s: State, t: State, u: Turn, w: Turn)
    requires Scoped(q.rules) && Twin(s, t) && SettledTwin(s, t) && Suspended(q, c, s, u)
    requires Sane(Erase(q), t) && Waitable(t, w) && !w.Finish? && TwinTurn(q, Some(u), Some(w))
    ensures match (Iterate(q, c, s, u), Iterate(Erase(q), c, t, w))
            case (Over(s', v), Over(t', v')) => v == v' && s'.late == t'.late
            case (Again(s', u'), Again(t', w')) =>
                Twin(s', t') && SettledTwin(s', t') && TwinTurn(q, Some(u'), Some(w'))
            case _ => false
  {
    hide Inv, Sane, Poll, Walk, Settled, Concluded, Conclude, Twin, SettledTwin, Receive;
    if u.Send? {
      SendTwin(q, c, s, t, u, w);
    } else {
      PollTwin(q, c, s, t);
      PollKeeps(q, c, s);
      PollFrame(q, c, s);
      PollFrame(Erase(q), c, t);
      var (s1, swept) := Poll(q, c, s);
      var (t1, swept') := Poll(Erase(q), c, t);
      TwinLate(s1, t1);
      if swept.None? {
        var s2, t2 := s1.(now := s1.now + 1), t1.(now := t1.now + 1);
        PairedTick(q, c, s1, t1);
        ReceiveTwin(c, s2, t2, u);
        if !MustWait(c, s2, u) {
          WalkTwin(q, c, s2, t2);
          TwinLate(Walk(q, c, s2).0, Walk(Erase(q), c, t2).0);
        }
      } else {
        ConcludeErased(q, swept.value);
      }
    }
  }

  lemma TwinLate(s: State, t: State)
    requires Twin(s, t)
    ensures t.late == s.late
  {
  }

  lemma ReceiveTwin(c: Schedule, s: State, t: State, turn: Turn)
    requires Twin(s, t) && SettledTwin(s, t)
    ensures MustWait(c, t, turn) == MustWait(c, s, turn)
    ensures Twin(Receive(c, s), Receive(c, t)) && SettledTwin(Receive(c, s), Receive(c, t))
  {
  }

  lemma ConcludeErased(q: Query, turn: Turn)
    requires turn.Finish? || turn.Send?
    ensures Settled(Erase(q), turn) == Settled(q, turn)
  {
  }

  lemma PollTwin(q: Query, c: Schedule, s: State, t: State)
    requires Paired(q, c, s, t)
    ensures var (s', u), (t', w) := Poll(q, c, s), Poll(Erase(q), c, t); Twin(s', t') && SettledTwin(s', t') && u == w
  {
    hide Inv, Settle, Sweep;
    PairedSettle(q, c, s, t);
    SweepTwin(q, c, Settle(q, c, s), Settle(Erase(q), c, t), 0);
  }

  lemma SendOver(q: Query, c: Schedule, s: State, turn: Turn)
    requires Sane(q, s) && s.armed == [] && turn.Send?
    ensures var r := Iterate(q, c, s, turn); r.Over? && r.verdict == Conclude(q, turn) && r.state.late == s.late
  {
    hide SettleFrom;
    SettleFrame(q, c, s.(now := s.now + 1), 0);
  }

  lemma TwinArmed(s: State, t: State)
    requires Twin(s, t)
    ensures t.armed == s.armed
  {
  }

  lemma SendErased(q: Query, turn: Turn)
    requires turn.Send?
    ensures Conclude(Erase(q), turn) == Conclude(q, turn)
  {
  }

  lemma SendTwin(q: Query, c: Schedule, s: State, t: State, u: Turn, w: Turn)
    requires Twin(s, t) && s.armed == [] && u.Send? && w.Send? && Conclude(q, u) == Conclude(q, w)
    requires Sane(q, s) && Sane(Erase(q), t)
    ensures var r, r' := Iterate(q, c, s, u), Iterate(Erase(q), c, t, w);
            r.Over? && r'.Over? && r.verdict == r'.verdict && r.state.late == r'.state.late
  {
    hide Iterate, Twin, Conclude;
    SendOver(q, c, s, u);
    TwinLate(s, t);
    TwinArmed(s, t);
    SendOver(Erase(q), c, t, w);
    SendErased(q, w);
  }

  /** Under every schedule the verdict, with its transport, options and outcome, is the same whether
      or not route rules are speculative, and so is every match made on the way. */
  lemma SpeculationTransparent(q: Query, c: Schedule)
    requires Scoped(q.rules)
    ensures var (s, v), (t, v') := Exchange(q, c), Exchange(Erase(q), c); v == v' && s.late == t.late
  {
    hide Inv, Walk, Resume, Sane, Suspended;
    InitialKeeps(q, c);
    InitialKeeps(Erase(q), c);
    var s0, t0 := Initial(q), Initial(Erase(q));
    assert s0 == t0;
    WalkTwin(q, c, s0, t0);
    WalkFrame(q, c, s0);
    WalkFrame(Erase(q), c, t0);
    WalkKeeps(q, c, s0);
    var (s, u) := Walk(q, c, s0);
    var (t, w) := Walk(Erase(q), c, t0);
    if !u.Finish? {
      SuspendedBy(q, c, s, u);
      ResumeTwin(q, c, s, t, u, w);
    }
  }

  lemma SuspendedBy(q: Query, c: Schedule, s: State, turn: Turn)
    requires !turn.Finish? && Sane(q, s) && Waitable(s, turn) && Ended(q, c, s, turn)
    ensures Suspended(q, c, s, turn)
  {
  }
}
