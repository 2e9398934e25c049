// For which rule lists some schedule breaks the order, told from the list alone.
module DnsWalkGap {
  import opened Base
  import opened DnsRules
  import opened DnsWalk
  import opened DnsReference
  import opened DnsWalkMeaning
  import opened DnsWalkTheorems
  import opened DnsWalkShield

  const Caller := QueryOptions(AsIs, false, false, None, 0, None, false)
  const Own := RouteOptions(AsIs, false, false, None, 0, None, false)
  const ServerX := Transport("x", false)
  const ServerFinal := Transport("final", false)

  /** Such a rule shows by itself: it decides, or it sets an option. */
  predicate Ends(r: Rule) {
    match r.action
    case SetOptions(own) => !r.Races() && !Noop(own)
    case Evaluate(_, _, _, _) => false
    case Reject(how) => !how.RejectReply?
    case _ => true
  }

  /** Rule i is the first to bind the tag t. */
  predicate FirstBinder(rules: seq<Rule>, i: nat, t: Tag) {
    i < |rules| && t in rules[i].tags && forall k | 0 <= k < i :: t !in rules[k].tags
  }

  /** Rule j evaluates into the tag t when its turn comes. */
  predicate Launches(rules: seq<Rule>, j: nat, t: Tag) { j < |rules| && rules[j].Defines(t) && !rules[j].Races() }

  // ---- why a rule shows

  /** Each rule of the chain evaluates into what the next one reads, and the last one shows by itself. */
  predicate Chain(rules: seq<Rule>, path: seq<nat>) {
    && |path| > 0
    && (forall r | 0 <= r < |path| :: path[r] < |rules|)
    && (forall r, r' | 0 <= r < r' < |path| :: path[r] < path[r'])
    && (forall r | 0 <= r < |path| - 1 :: Links(rules[path[r]], rules[path[r + 1]]))
    && Ends(rules[path[|path| - 1]])
  }

  predicate Links(r: Rule, next: Rule) { r.action.Evaluate? && !r.Races() && ReadsFrom(next, r.action.tag) }

  lemma {:induction false} ShowsChain(rules: seq<Rule>, i: nat) returns (path: seq<nat>)
    requires i < |rules| && Shows(rules, i)
    ensures Chain(rules, path) && path[0] == i
    decreases |rules| - i
  {
    if rules[i].action.Evaluate? {
      var k :| i < k < |rules| && ReadsFrom(rules[k], rules[i].action.tag) && Shows(rules, k);
      var rest := ShowsChain(rules, k);
      path := [i] + rest;
      ChainGrows(rules, i, rest);
    } else {
      path := [i];
    }
  }

  lemma ChainGrows(rules: seq<Rule>, i: nat, rest: seq<nat>)
    requires Chain(rules, rest) && i < rest[0] && Links(rules[i], rules[rest[0]])
    ensures Chain(rules, [i] + rest)
  {
    hide Links, Ends;
    var path := [i] + rest;
    forall r, r' | 0 <= r < r' < |path| ensures path[r] < path[r'] { assert rest[0] <= rest[r' - 1]; }
    forall r | 0 <= r < |path| - 1 ensures Links(rules[path[r]], rules[path[r + 1]]) {
      if r > 0 { assert path[r] == rest[r - 1] && path[r + 1] == rest[r - 1 + 1]; }
    }
  }

  // ---- a query and a schedule that put an exchange into the gap at rule i

  datatype Gapped = Gapped(rules: seq<Rule>, j: nat, i: nat, t: Tag, path: seq<nat>)
  {
    ghost predicate Fits() {
      && j < i && Launches(rules, j, t) && FirstBinder(rules, i, t)
      && Chain(rules, path) && path[0] == i && Scoped(rules)
    }

    function Last(): nat
      requires path != []
    {
      path[|path| - 1]
    }

    /** The last rule responds with the anonymous response without looking at it. */
    predicate Blind()
      requires path != [] && Last() < |rules|
    {
      rules[Last()].action.Respond? && rules[Last()].responseTag == "" && !rules[Last()].anonymous
    }

    /** What the r-th rule of the chain reads. */
    function From(r: nat): Tag
      requires r < |path| && Chain(rules, path)
    {
      if r == 0 then t else
      assert Links(rules[path[r - 1]], rules[path[r - 1 + 1]]);
      rules[path[r - 1]].action.tag
    }

    predicate Sees(r: nat, anon: Option<Msg>, named: map<Tag, Option<Msg>>)
      requires r < |path| && Chain(rules, path)
    {
      var u := From(r);
      if u == "" then (rules[path[r]].anonymous ==> anon.Some?) else u in named && named[u].Some?
    }

    predicate Wants(k: nat, anon: Option<Msg>, named: map<Tag, Option<Msg>>)
      requires Chain(rules, path)
    {
      exists r | 0 <= r < |path| :: path[r] == k && Sees(r, anon, named)
    }

    /** Only rule j and the rules of the chain, when what they read is there, match; every server answers. */
    ghost function Asks(): Query
      requires Fits()
    {
      Query(rules, Caller,
            (k: nat, anon: Option<Msg>, named: map<Tag, Option<Msg>>) => k == j || Wants(k, anon, named),
            (t: Transport, o: QueryOptions) => Answer("m"),
            map name | name in Servers(rules) :: ServerX, ServerFinal, true, AsIs)
    }

    /** The exchange completes between rule i's settling and its tests. */
    ghost function Times(): Schedule
      requires Fits()
    {
      var gap := Ticks(rules, i) + 2;
      Schedule(k => gap, k => 0)
    }

    ghost function Launched(): Future
      requires Fits()
    {
      Future(j, t, false, ServerX, ApplyRouteOptions(Caller, rules[j].action.options))
    }

    lemma Unwanted(k: nat, anon: Option<Msg>, named: map<Tag, Option<Msg>>)
      requires Fits() && k < i
      ensures !Wants(k, anon, named)
    {
      assert forall r | 0 <= r < |path| :: path[0] <= path[r];
    }
  }

  /** Every server the rules name. */
  function Servers(rules: seq<Rule>): set<string> {
    (set r | r in rules && r.action.Evaluate? :: r.action.server) +
        (set r | r in rules && r.action.Route? :: r.action.server)
  }

  lemma Named(g: Gapped, k: nat)
    requires g.Fits() && k < |g.rules|
    ensures g.rules[k].action.Evaluate? ==> Resolve(g.Asks(), g.rules[k].action.server) == Some(ServerX)
    ensures g.rules[k].action.Route? ==> ResolveRoute(g.Asks(), g.rules[k].action.server) == Some(ServerX)
  {
    assert g.rules[k] in g.rules;
  }

  /** The observations of a rule that binds nothing launched and does not match. */
  function Cost(r: Rule): nat { if !r.Binds() then 0 else if r.race then 3 else 2 }

  function Ticks(rules: seq<Rule>, k: nat): nat
    requires k <= |rules|
  {
    if k == 0 then 0 else Ticks(rules, k - 1) + Cost(rules[k - 1])
  }

  lemma {:induction false} TicksGrow(rules: seq<Rule>, k: nat, i: nat)
    requires k <= i <= |rules|
    ensures Ticks(rules, k) <= Ticks(rules, i)
  {
    if k < i { TicksGrow(rules, k, i - 1); }
  }

  // ---- the walk up to rule i

  /** The walk before rule k: nothing has happened but, after rule j, the launch. */
  ghost predicate Undisturbed(g: Gapped, s: State, k: nat)
    requires g.Fits()
  {
    && k <= g.i
    && var s0 := Initial(g.Asks()).(index := k, now := Ticks(g.rules, k), judged := s.judged, late := s.late);
       s == if k <= g.j then s0 else s0.(futures := [g.Launched()], named := map[g.t := g.Launched()])
  }

  lemma SettleNothing(q: Query, c: Schedule, s: State)
    requires |s.futures| <= 1 && forall f | f in s.futures :: !Done(c, f, s.now + 1)
    ensures Settle(q, c, s) == s.(now := s.now + 1)
  {
    var s1 := s.(now := s.now + 1);
    if |s.futures| == 1 {
      assert s.futures[0] in s.futures;
      assert SettleFrom(q, c, s1, 1) == s1;
    }
  }

  /** A sweep over one ready rule that does not match. */
  lemma SweepOne(q: Query, c: Schedule, s: State, a: Armed)
    requires s.armed == [a] && a.futures == [] && a.rule < |q.rules|
    requires Judge(q, c, s.(now := s.now + 1), a).None?
    ensures Sweep(q, c, s, 0) == (Disarm(q, c, s.(now := s.now + 1), 0), None)
  {
    hide Judge, Misses;
    var s1 := s.(now := s.now + 1);
    var s2 := Disarm(q, c, s1, 0);
    assert s1.armed[..0] + s1.armed[1..] == [];
    assert Sweep(q, c, s2, 0) == (s2, None);
  }

  lemma NothingBound(r: Rule, s: State)
    requires s.anon.None? && forall t | t in r.tags :: t !in s.named
    ensures BoundFutures(r, s) == [] && !Unsettled(r, s)
  {
    NoTagFutures(r.tags, s.named);
  }

  lemma {:induction false} NoTagFutures(tags: seq<Tag>, named: map<Tag, Future>)
    requires forall t | t in tags :: t !in named
    ensures TagFutures(tags, named) == []
  {
    if tags != [] { NoTagFutures(tags[1..], named); }
  }

  lemma {:induction false} NonePending(c: Schedule, fs: seq<Future>, now: nat)
    requires forall f | f in fs :: Done(c, f, now)
    ensures Pending(c, fs, now) == []
  {
    if fs != [] { NonePending(c, fs[1..], now); }
  }

  /** What a rule that does not match leaves behind, when nothing it binds is pending. */
  ghost predicate Passed(q: Query, c: Schedule, s: State, s': State)
    requires s.index < |q.rules|
  {
    s' == (if q.rules[s.index].Binds() then Settle(q, c, s) else s)
          .(now := s.now + Cost(q.rules[s.index]), judged := s'.judged, late := s'.late)
  }

  lemma ArmPasses(q: Query, c: Schedule, s: State)
    requires s.index < |q.rules| && s.armed == [] && s.anon.None?
    requires Pending(c, BoundFutures(q.rules[s.index], s), s.now) == []
    requires !Matches(q, s.index, None, s.responses)
    ensures var (s', turn) := Arm(q, c, s);
            turn.None? && s' == s.(now := s.now + 1, judged := s'.judged, late := s'.late)
  {
    hide Matches, Misses, Sweep, Pending, BoundFutures;
    var a := Armed(s.index, [], None, s.options);
    assert s.armed + [a] == [a];
    SweepOne(q, c, s.(armed := [a]), a);
    assert [a][..0] + [a][1..] == [];
  }

  lemma PassVisit(q: Query, c: Schedule, s: State)
    requires s.index < |q.rules| && s.armed == [] && s.anon.None?
    requires forall f | f in BoundFutures(q.rules[s.index], s) :: Done(c, f, s.now + 2)
    requires !Matches(q, s.index, None, if q.rules[s.index].Binds() then Settle(q, c, s).responses else s.responses)
    ensures var (s', turn) := Visit(q, c, s); turn.None? && Passed(q, c, s, s')
  {
    hide Settle, Matches, Misses, Arm;
    var r := q.rules[s.index];
    if r.Binds() {
      SettleFrame(q, c, s.(now := s.now + 1), 0);
      SettleIs(q, c, s);
      var s1 := Settle(q, c, s).(now := s.now + 2);
      assert BoundFutures(r, s1) == BoundFutures(r, s);
      NonePending(c, BoundFutures(r, s1), s1.now);
      if r.race { ArmPasses(q, c, s1); }
    }
  }

  lemma SettleIs(q: Query, c: Schedule, s: State)
    ensures Settle(q, c, s) == SettleFrom(q, c, s.(now := s.now + 1), 0)
  {
  }

  lemma LaunchVisit(g: Gapped, s: State)
    requires g.Fits() && Undisturbed(g, s, g.j)
    ensures var (s', turn) := Visit(g.Asks(), g.Times(), s);
            turn.None? && Undisturbed(g, s'.(index := g.j + 1), g.j + 1)
  {
    hide Misses, Chain, Scoped, ApplyRouteOptions;
    var q, c, r, f := g.Asks(), g.Times(), g.rules[g.j], g.Launched();
    NothingBound(r, s);
    SettleNothing(q, c, s);
    var s1 := s.(now := s.now + Cost(r));
    assert BoundFutures(r, s1) == [] && !Misses(q, g.j, s1) by { NotMissed(q, g.j, s1); }
    Named(g, g.j);
    assert s.futures + [f] == [f] && s.named[g.t := f] == map[g.t := f];
    assert MatchAndAct(q, c, s1) == (s1.(futures := [f], named := map[g.t := f]), None);
  }

  lemma NotMissed(q: Query, i: nat, s: State)
    requires i < |q.rules| && forall t | t in q.rules[i].tags :: t !in s.named
    ensures !Misses(q, i, s)
  {
  }

  lemma VisitBefore(g: Gapped, s: State, k: nat)
    requires g.Fits() && k < g.i && Undisturbed(g, s, k)
    ensures var (s', turn) := Visit(g.Asks(), g.Times(), s);
            turn.None? && Undisturbed(g, s'.(index := k + 1), k + 1)
  {
    hide Visit, Chain, Scoped, Matches;
    if k == g.j {
      LaunchVisit(g, s);
    } else {
      TicksGrow(g.rules, k, g.i);
      NothingBound(g.rules[k], s);
      SettleNothing(g.Asks(), g.Times(), s);
      BeforeUnmatched(g, k, s.responses);
      PassVisit(g.Asks(), g.Times(), s);
    }
  }

  lemma BeforeUnmatched(g: Gapped, k: nat, named: map<Tag, Option<Msg>>)
    requires g.Fits() && k < g.i && k != g.j
    ensures !Matches(g.Asks(), k, None, named)
  {
    g.Unwanted(k, None, Restrict(g.rules[k].tags, named));
  }

  lemma UndisturbedSane(g: Gapped, s: State, k: nat)
    requires g.Fits() && Undisturbed(g, s, k)
    ensures Sane(g.Asks(), s)
  {
  }

  lemma {:induction false} WalkTo(g: Gapped, s: State, k: nat) returns (s': State)
    requires g.Fits() && Undisturbed(g, s, k)
    ensures Undisturbed(g, s', g.i) && Sane(g.Asks(), s) && Sane(g.Asks(), s')
    ensures Walk(g.Asks(), g.Times(), s) == Walk(g.Asks(), g.Times(), s')
    decreases g.i - k
  {
    hide Visit, Undisturbed;
    UndisturbedSane(g, s, k);
    UndisturbedIndex(g, s, k);
    if k == g.i {
      s' := s;
    } else {
      VisitBefore(g, s, k);
      var (s1, turn) := Visit(g.Asks(), g.Times(), s);
      VisitFrame(g.Asks(), g.Times(), s);
      s' := WalkTo(g, s1.(index := k + 1), k + 1);
    }
  }

  lemma UndisturbedIndex(g: Gapped, s: State, k: nat)
    requires g.Fits() && Undisturbed(g, s, k)
    ensures s.index == k <= g.i
  {
  }

  // ---- rule i and the walk after it

  /** The walk after rule i: the exchange is over and nothing was made of it. */
  ghost predicate Missed(g: Gapped, s: State)
    requires g.Fits()
  {
    && g.i < s.index <= |g.rules| && s.armed == [] && s.options == Caller && s.terminal.None? && s.anon.None?
    && s.futures == [g.Launched()] && s.named == map[g.t := g.Launched()] && s.now >= Ticks(g.rules, g.i) + 2
    && (forall u | u in s.responses :: u == g.t)
    && (g.Blind() ==> s.index <= g.Last())
  }

  lemma SettleOne(q: Query, c: Schedule, s: State, f: Future)
    requires s.futures == [f] && forall u | u in s.responses :: u == f.tag
    ensures var s' := Settle(q, c, s);
            && s' == s.(now := s.now + 1, responses := s'.responses, transports := s'.transports, settled := s'.settled)
            && forall u | u in s'.responses :: u == f.tag
  {
    var s1 := s.(now := s.now + 1);
    SettleFrame(q, c, s1, 0);
    assert SettleFrom(q, c, SettleOnce(q, c, s1, f), 1) == SettleOnce(q, c, s1, f);
  }

  /** Nothing after rule i sees what it would match on. */
  lemma NothingSeen(g: Gapped, k: nat, named: map<Tag, Option<Msg>>)
    requires g.Fits() && g.i < k < |g.rules| && !(g.Blind() && k == g.Last())
    requires forall u | u in named :: u == g.t
    ensures !Matches(g.Asks(), k, None, named)
  {
    hide Scoped;
    var seen := Restrict(g.rules[k].tags, named);
    forall r | 0 <= r < |g.path| && g.path[r] == k ensures !g.Sees(r, None, seen) {
      var before := g.path[r - 1];
      assert Links(g.rules[before], g.rules[g.path[r - 1 + 1]]);
      assert g.j < before by { assert g.path[0] <= before; }
      if r < |g.path| - 1 { assert Links(g.rules[g.path[r]], g.rules[g.path[r + 1]]); }
      OtherTag(g, before);
    }
  }

  lemma OtherTag(g: Gapped, k: nat)
    requires g.Fits() && g.j < k < |g.rules| && g.rules[k].action.Evaluate?
    ensures g.rules[k].action.tag != g.t
  {
    assert !g.rules[k].Defines(g.t);
  }

  lemma GapPass(g: Gapped, s: State)
    requires g.Fits() && Undisturbed(g, s, g.i)
    ensures var (s', turn) := Visit(g.Asks(), g.Times(), s); turn.None? && Missed(g, s'.(index := g.i + 1))
  {
    hide Scoped, Chain;
    var q, c := g.Asks(), g.Times();
    SettleNothing(q, c, s);
    UndisturbedSane(g, s, g.i);
    BoundIn(q, s, g.rules[g.i]);
    GapUnmatched(g, s.responses);
    GapBlind(g);
    hide Visit, Settle, Matches;
    PassVisit(q, c, s);
  }

  lemma GapUnmatched(g: Gapped, named: map<Tag, Option<Msg>>)
    requires g.Fits() && g.t !in named
    ensures !Matches(g.Asks(), g.i, None, named)
  {
    var seen := Restrict(g.rules[g.i].tags, named);
    assert seen[g.t].None?;
    forall r | 0 <= r < |g.path| && g.path[r] == g.i ensures !g.Sees(r, None, seen) { assert r == 0; }
  }

  lemma GapBlind(g: Gapped)
    requires g.Fits()
    ensures g.path != [] && g.Last() < |g.rules| && (g.Blind() ==> g.i < g.Last())
  {
    if g.Blind() && |g.path| == 1 { assert RespondScoped(g.rules[g.i]); }
  }

  /** The walk ends at the default server, or at the last rule with nothing to respond with. */
  lemma {:induction false} WalkAfter(g: Gapped, s: State)
    requires g.Fits() && Missed(g, s)
    ensures Sane(g.Asks(), s)
    ensures var (s', turn) := Walk(g.Asks(), g.Times(), s);
            if g.Blind() then turn == Finish(Verdict(g.Last(), false, None, MissingResponse))
            else turn == Send(|g.rules|, false, ServerFinal, Caller, None) && s'.armed == []
    decreases |g.rules| - s.index
  {
    hide Visit, Missed, Scoped, Chain, Gapped.Asks, Gapped.Times;
    var q, c := g.Asks(), g.Times();
    MissedFacts(g, s);
    if s.index < |g.rules| {
      VisitFrame(q, c, s);
      if g.Blind() && s.index == g.Last() {
        BlindVisit(g, s);
      } else {
        MissedVisit(g, s);
        var (s1, turn) := Visit(q, c, s);
        WalkAfter(g, s1.(index := s1.index + 1));
      }
    }
  }

  lemma MissedFacts(g: Gapped, s: State)
    requires g.Fits() && Missed(g, s)
    ensures Sane(g.Asks(), s) && s.armed == [] && s.index <= |g.rules| && s.options == Caller
    ensures g.Asks().rules == g.rules && g.Asks().fallback == ServerFinal
    ensures g.path != [] && g.Last() < |g.rules| && (g.Blind() ==> s.index <= g.Last())
  {
    GapBlind(g);
  }

  lemma MissedVisit(g: Gapped, s: State)
    requires g.Fits() && Missed(g, s) && s.index < |g.rules| && !(g.Blind() && s.index == g.Last())
    ensures var (s', turn) := Visit(g.Asks(), g.Times(), s);
            turn.None? && Missed(g, s'.(index := s.index + 1)) && s'.index == s.index
  {
    MissedFacts(g, s);
    hide Visit, Matches, Scoped, Chain, Settle;
    var q, c := g.Asks(), g.Times();
    BoundIn(q, s, q.rules[s.index]);
    SettleOne(q, c, s, g.Launched());
    NothingSeen(g, s.index, s.responses);
    NothingSeen(g, s.index, Settle(q, c, s).responses);
    PassVisit(q, c, s);
  }

  lemma BlindVisit(g: Gapped, s: State)
    requires g.Fits() && Missed(g, s) && g.Blind() && s.index == g.Last()
    ensures Visit(g.Asks(), g.Times(), s).1 == Some(Finish(Verdict(g.Last(), false, None, MissingResponse)))
  {
    hide Shows;
    var q, r, n := g.Asks(), g.rules[g.Last()], |g.path| - 1;
    assert RespondScoped(r);
    GapBlind(g);
    assert Links(g.rules[g.path[n - 1]], g.rules[g.path[n - 1 + 1]]);
    assert g.From(n) == "" && g.Sees(n, None, Restrict(r.tags, s.responses));
    assert g.Wants(g.Last(), None, Restrict(r.tags, s.responses));
  }

  /** A pending exchange with no armed rule is the end. */
  lemma SendEnds(q: Query, c: Schedule, s: State, turn: Turn)
    requires Sane(q, s) && s.armed == [] && turn.Send?
    ensures Resume(q, c, s, turn).1 == Conclude(q, turn)
  {
    SettleFrame(q, c, s.(now := s.now + 1), 0);
  }

  /** The run ends as if rule i had not matched. */
  lemma GapVerdict(g: Gapped)
    requires g.Fits()
    ensures Exchange(g.Asks(), g.Times()).1 ==
            if g.Blind() then Verdict(g.Last(), false, None, MissingResponse)
            else Verdict(|g.rules|, false, Some(Ask(ServerFinal, Caller)), Reply("m", ServerFinal))
  {
    hide Visit, Undisturbed, Missed, Resume, Scoped;
    var q, c := g.Asks(), g.Times();
    assert Undisturbed(g, Initial(q), 0) by { Fresh(g); }
    var s := WalkTo(g, Initial(q), 0);
    UndisturbedIndex(g, s, g.i);
    GapPass(g, s);
    VisitFrame(q, c, s);
    var (s1, turn) := Visit(q, c, s);
    assert Missed(g, s1.(index := g.i + 1));
    WalkAfter(g, s1.(index := g.i + 1));
    WalkFrame(q, c, Initial(q));
    var (s2, turn2) := Walk(q, c, Initial(q));
    if !g.Blind() { SendEnds(q, c, s2, turn2); }
  }

  lemma Fresh(g: Gapped)
    requires g.Fits()
    ensures Undisturbed(g, Initial(g.Asks()), 0)
  {
  }

  // ---- what the interpreter answers

  const Found := Evaluated(Some("m"), ServerX)

  function Write(e: Env, u: Tag): Env { if u == "" then e.(anon := Some(Found)) else e.(named := e.named[u := Found]) }

  /** The environment once rule j and the first r rules of the chain have evaluated. */
  ghost function EnvAt(g: Gapped, r: nat): Env
    requires g.Fits() && r < |g.path|
  {
    if r == 0 then Write(Env(Caller, None, map[]), g.t) else Write(EnvAt(g, r - 1), g.From(r))
  }

  lemma {:induction false} EnvOptions(g: Gapped, r: nat)
    requires g.Fits() && r < |g.path|
    ensures EnvAt(g, r).options == Caller
  {
    if r > 0 { EnvOptions(g, r - 1); }
  }

  /** In it the r-th rule of the chain sees what it wants. */
  lemma ChainHits(g: Gapped, r: nat)
    requires g.Fits() && r < |g.path|
    ensures Hit(g.Asks(), g.path[r], EnvAt(g, r))
  {
    hide Scoped;
    var e, rule := EnvAt(g, r), g.rules[g.path[r]];
    ChainReads(g, r);
    var seen := Restrict(rule.tags, Responses(e));
    var anon := if rule.anonymous then AnonResponse(e) else None;
    if g.From(r) != "" { assert seen[g.From(r)] == Some("m"); }
    assert g.Sees(r, anon, seen);
    assert g.Wants(g.path[r], anon, seen);
  }

  lemma ChainReads(g: Gapped, r: nat)
    requires g.Fits() && r < |g.path|
    ensures ReadsFrom(g.rules[g.path[r]], g.From(r))
  {
    if r > 0 { assert Links(g.rules[g.path[r - 1]], g.rules[g.path[r - 1 + 1]]); }
  }

  /** Between two rules of the chain nothing matches. */
  lemma OffChain(g: Gapped, k: nat, anon: Option<Msg>, named: map<Tag, Option<Msg>>)
    requires g.Fits() && k != g.j && k !in g.path
    ensures !g.Wants(k, anon, named)
  {
  }

  lemma EvaluateWrites(g: Gapped, k: nat, e: Env)
    requires g.Fits() && k < |g.rules| && Hit(g.Asks(), k, e) && g.rules[k].action.Evaluate? && !g.rules[k].Races()
    ensures StepAt(g.Asks(), k, e) == Next(Write(e, g.rules[k].action.tag))
  {
    hide Hit, ApplyRouteOptions, Scoped, Chain;
    Named(g, k);
  }

  lemma StepIdle(g: Gapped, k: nat, e: Env)
    requires g.Fits() && k < |g.rules| && k != g.j && k !in g.path
    ensures StepAt(g.Asks(), k, e) == Next(e)
  {
    OffChain(g, k, if g.rules[k].anonymous then AnonResponse(e) else None, Restrict(g.rules[k].tags, Responses(e)));
  }

  lemma {:induction false} ArrivesBefore(g: Gapped, k: nat)
    requires g.Fits() && k <= g.i
    ensures Arrive(g.Asks(), k) == Some(if k <= g.j then Start(g.Asks()) else EnvAt(g, 0))
  {
    hide Scoped, Enact, Chain, StepAt;
    if k > 0 {
      ArrivesBefore(g, k - 1);
      if k - 1 == g.j {
        assert Hit(g.Asks(), g.j, Start(g.Asks()));
        EvaluateWrites(g, g.j, Start(g.Asks()));
      } else {
        BelowChain(g, k - 1);
        StepIdle(g, k - 1, Arrive(g.Asks(), k - 1).value);
      }
    }
  }

  lemma BelowChain(g: Gapped, k: nat)
    requires g.Fits() && k < g.i
    ensures k !in g.path
  {
    assert forall r | 0 <= r < |g.path| :: g.path[0] <= g.path[r];
  }

  /** The interpreter reaches each rule of the chain with what it reads evaluated. */
  lemma {:induction false} ArrivesChain(g: Gapped, r: nat)
    requires g.Fits() && r < |g.path|
    ensures g.path[r] < |g.rules| && Arrive(g.Asks(), g.path[r]) == Some(EnvAt(g, r))
  {
    hide Scoped, Arrive, EnvAt;
    if r == 0 {
      ArrivesBefore(g, g.i);
    } else {
      ArrivesChain(g, r - 1);
      ArrivesNext(g, r);
      ArrivesBetween(g, r, g.path[r]);
    }
  }

  lemma ArrivesNext(g: Gapped, r: nat)
    requires g.Fits() && 0 < r < |g.path| && Arrive(g.Asks(), g.path[r - 1]) == Some(EnvAt(g, r - 1))
    ensures Arrive(g.Asks(), g.path[r - 1] + 1) == Some(EnvAt(g, r))
  {
    hide Scoped, Arrive, StepAt, Hit, Gapped.Asks;
    var k := g.path[r - 1];
    assert Links(g.rules[k], g.rules[g.path[r - 1 + 1]]);
    ChainHits(g, r - 1);
    EvaluateWrites(g, k, EnvAt(g, r - 1));
    AskedRules(g);
    ArriveStep(g.Asks(), k);
  }

  lemma AskedRules(g: Gapped)
    requires g.Fits()
    ensures g.Asks().rules == g.rules
  {
  }

  lemma ArriveStep(q: Query, k: nat)
    requires k < |q.rules| && Arrive(q, k).Some? && StepAt(q, k, Arrive(q, k).value).Next?
    ensures Arrive(q, k + 1) == Some(StepAt(q, k, Arrive(q, k).value).env)
  {
  }

  lemma {:induction false} ArrivesBetween(g: Gapped, r: nat, k: nat)
    requires g.Fits() && 0 < r < |g.path| && g.path[r - 1] < k <= g.path[r]
    requires Arrive(g.Asks(), g.path[r - 1] + 1) == Some(EnvAt(g, r))
    ensures Arrive(g.Asks(), k) == Some(EnvAt(g, r))
  {
    hide Scoped, StepAt, Arrive, EnvAt;
    if k > g.path[r - 1] + 1 {
      ArrivesBetween(g, r, k - 1);
      InnerGap(g, r, k - 1);
      StepIdle(g, k - 1, EnvAt(g, r));
      ArriveStep(g.Asks(), k - 1);
    }
  }

  lemma InnerGap(g: Gapped, r: nat, k: nat)
    requires g.Fits() && 0 < r < |g.path| && g.path[r - 1] < k < g.path[r]
    ensures k !in g.path && k != g.j && k < |g.rules|
  {
    forall x | 0 <= x < |g.path| ensures g.path[x] != k {
      assert x < r ==> g.path[x] <= g.path[r - 1];
      assert x > r ==> g.path[r] < g.path[x];
    }
    assert g.path[0] <= g.path[r - 1];
  }

  lemma {:induction false} RunsOut(g: Gapped, k: nat, e: Env)
    requires g.Fits() && g.Last() < k <= |g.rules|
    ensures RunFrom(g.Asks(), k, e) == Asked(g.Asks(), |g.rules|, false, ServerFinal, e.options)
    decreases |g.rules| - k
  {
    hide Scoped, StepAt;
    if k < |g.rules| {
      AboveChain(g, k);
      StepIdle(g, k, e);
      RunsOut(g, k + 1, e);
    }
  }

  lemma AboveChain(g: Gapped, k: nat)
    requires g.Fits() && g.Last() < k
    ensures k !in g.path && k != g.j
  {
    assert forall r | 0 <= r < |g.path| :: g.path[r] <= g.Last();
    assert g.path[0] <= g.Last();
  }

  /** The schedule answers wrongly: the last rule of the chain is missing from the verdict. */
  lemma GapIsWrong(g: Gapped)
    requires g.Fits()
    ensures !Right(g.Asks(), Exchange(g.Asks(), g.Times()).1)
  {
    hide Exchange, Scoped, Arrive, Hit;
    var n, q := |g.path| - 1, g.Asks();
    var r, e := g.rules[g.Last()], EnvAt(g, n);
    GapVerdict(g);
    ArrivesChain(g, n);
    ArriveRuns(q, g.Last());
    ChainHits(g, n);
    EnvOptions(g, n);
    Named(g, g.Last());
    if r.Races() {
      assert Winner(q, g.Last());
      RacesSee(g);
    } else if r.action.SetOptions? {
      RunsOut(g, g.Last() + 1, e.(options := ApplyRouteOptions(Caller, r.action.options)));
    } else if g.Blind() {
      BlindReads(g);
    }
  }

  lemma RacesSee(g: Gapped)
    requires g.Fits() && g.rules[g.Last()].Races()
    ensures !g.Blind()
  {
    assert RespondScoped(g.rules[g.Last()]);
  }

  lemma BlindReads(g: Gapped)
    requires g.Fits() && g.Blind()
    ensures EnvAt(g, |g.path| - 1).anon == Some(Found)
  {
    GapBlind(g);
    assert RespondScoped(g.rules[g.Last()]);
    ChainReads(g, |g.path| - 1);
  }

  // ---- the exact condition

  /** What NewDNSRule makes sure of: only a rule that decides races. */
  ghost predicate FinalRaces(rules: seq<Rule>) {
    forall r | r in rules && r.Races() ::
        !r.action.SetOptions? && !r.action.Evaluate? && r.action != Reject(RejectReply)
  }

  lemma {:induction false} SomeFirstBinder(rules: seq<Rule>, i: nat, t: Tag) returns (k: nat)
    requires i < |rules| && t in rules[i].tags
    ensures FirstBinder(rules, k, t) && k <= i
    decreases i
  {
    if m :| 0 <= m < i && t in rules[m].tags { k := SomeFirstBinder(rules, m, t); } else { k := i; }
  }

  /** The first rule to bind an exposed tag shows, and an earlier rule launches it. */
  lemma ExposedFits(rules: seq<Rule>, i: nat, t: Tag) returns (g: Gapped)
    requires Scoped(rules) && FinalRaces(rules) && Exposed(rules, i, t)
    ensures g.Fits() && g.rules == rules
  {
    var k := SomeFirstBinder(rules, i, t);
    assert rules[k] in rules;
    assert Shows(rules, k) by { if k < i { assert rules[k].Races(); } }
    var j :| 0 <= j < |rules| && rules[j].Defines(t);
    assert rules[j] in rules;
    assert j < k;
    var path := ShowsChain(rules, k);
    g := Gapped(rules, j, k, t, path);
  }

  /** A list keeps its order, for every matcher, every outcome, every server table and every schedule,
      exactly when no rule that shows is exposed. */
  lemma OrderSafeIff(rules: seq<Rule>)
    requires Scoped(rules) && FinalRaces(rules)
    ensures (forall q: Query, c: Schedule | q.rules == rules :: Right(q, Exchange(q, c).1)) <==> Unexposed(rules)
  {
    hide Exchange, Right, Exposed;
    if i: nat, t :| Exposed(rules, i, t) {
      var g := ExposedFits(rules, i, t);
      GapIsWrong(g);
      assert g.Asks().rules == rules;
    } else {
      forall q: Query, c: Schedule | q.rules == rules ensures Right(q, Exchange(q, c).1) {
        UnexposedMeaning(q, c);
      }
    }
  }

  /** The condition, said with the first rule that binds each tag. */
  lemma ExposedFirst(rules: seq<Rule>)
    requires Scoped(rules) && FinalRaces(rules)
    ensures Unexposed(rules) <==>
            forall i: nat, t | FirstBinder(rules, i, t) && (exists j | 0 <= j < |rules| :: rules[j].Defines(t)) ::
                !Shows(rules, i)
  {
    hide Shows;
    if i: nat, t :| Exposed(rules, i, t) {
      var g := ExposedFits(rules, i, t);
      assert FirstBinder(rules, g.i, g.t) && rules[g.j].Defines(g.t) && Shows(rules, g.i)
          by { ChainShows(rules, g.path, 0); }
    }
    if i: nat, t :|
      && FirstBinder(rules, i, t)
      && (exists j | 0 <= j < |rules| :: rules[j].Defines(t))
      && Shows(rules, i)
    {
      assert Exposed(rules, i, t);
    }
  }

  lemma {:induction false} ChainShows(rules: seq<Rule>, path: seq<nat>, r: nat)
    requires Chain(rules, path) && r < |path|
    ensures Shows(rules, path[r])
    decreases |path| - r
  {
    if r < |path| - 1 {
      ChainShows(rules, path, r + 1);
      assert Links(rules[path[r]], rules[path[r + 1]]);
    }
  }

  /** Settling and testing are separate observations: an exchange that completes between them makes
      the walk skip a rule that matches. With evaluate x as "x", then respond with "x" when it answered,
      the default server answers instead. */
  lemma LateMatchLosesAnswer()
    ensures var rules := [Rule(Evaluate("x", "x", false, Own), false, [], false, ""),
                          Rule(Respond, false, ["x"], false, "x")];
            && Scoped(rules)
            && exists q: Query, c: Schedule ::
                q.rules == rules && RaceFree(q) && Sequential(q).at == 1 && Exchange(q, c).1.at == 2
  {
    hide Exchange;
    var rules := [Rule(Evaluate("x", "x", false, Own), false, [], false, ""), Rule(Respond, false, ["x"], false, "x")];
    var g := Gapped(rules, 0, 1, "x", [1]);
    assert "x" in rules[1].tags;
    assert g.Fits();
    GapVerdict(g);
    ArrivesChain(g, 0);
    ArriveRuns(g.Asks(), 1);
    ChainHits(g, 0);
    assert RaceFree(g.Asks()) && Sequential(g.Asks()).at == 1 && Exchange(g.Asks(), g.Times()).1.at == 2;
  }
}
