// The resumable rule walk of dns/router.go as a transition system.
//
// Time is a tick counter: every observation of a future's completion (a settle pass, the tests of
// one visited rule, the readiness test of one armed rule, the await test of the resume loop) takes
// one tick. A Schedule fixes the tick at which each exchange completes and the tick at which each
// receive from the wake channel ends, so "for every schedule" means "for every interleaving of the
// walk with the exchanges". An exchange is named by the rule index that launched it.
module DnsWalk {
  import opened Base
  import opened DnsRules

  datatype Schedule = Schedule(completes: nat -> nat, wakes: nat -> nat)

  /** dnsEvaluatedFuture; the options are those the exchange was launched with. */
  datatype Future = Future(rule: nat, tag: Tag, terminal: bool, transport: Transport, options: QueryOptions)

  /** dnsArmedRule */
  datatype Armed = Armed(rule: nat, futures: seq<Future>, anon: Option<Future>, options: QueryOptions)

  datatype Result =
    | Reply(response: Msg, via: Transport)
    | Failed(error: string, via: Transport)
    | MissingResponse
    | Refused
    | Dropped
    | Preset(rule: nat)

  datatype Ask = Ask(transport: Transport, options: QueryOptions)

  /** Who decided (the number of rules stands for the default server), whether as an armed race
      rule, the exchange the decision performed, and the result. */
  datatype Verdict = Verdict(at: nat, raced: bool, asked: Option<Ask>, result: Result)

  /** How a walk or a sweep stops: with a verdict, or with a dnsWalkSuspension. */
  datatype Turn =
    | Finish(verdict: Verdict)
    | Await(future: Future)
    | Drain
    | Send(at: nat, raced: bool, transport: Transport, options: QueryOptions, launched: Option<Future>)

  /** The judgement of an armed rule: the tick it was judged at and the turn it gave. */
  datatype Judgement = Judgement(armed: Armed, tick: nat, turn: Option<Turn>)

  /** dnsRuleWalkState, the clock, and three history variables: the race rules judged so far, the
      route-options rules applied so far, and whether a rule that shows was ever matched while one of
      its bound futures was launched but not settled. */
  datatype State = State(
    index: nat,
    options: QueryOptions,
    anon: Option<Future>,
    named: map<Tag, Future>,
    responses: map<Tag, Option<Msg>>,
    transports: map<Tag, Transport>,
    futures: seq<Future>,
    settled: set<nat>,
    armed: seq<Armed>,
    terminal: Option<Future>,
    now: nat,
    blocks: nat,
    drained: nat,
    judged: set<Judgement>,
    applied: set<nat>,
    late: bool)

  function Initial(q: Query): State {
    State(0, q.caller, None, map[], map[], map[], [], {}, [], None, 0, 0, 0, {}, {}, false)
  }

  predicate Done(c: Schedule, f: Future, now: nat) { c.completes(f.rule) <= now }

  function OutcomeOf(q: Query, f: Future): Outcome { q.exchange(f.transport, Finalize(q, f.options)) }

  function View(o: Outcome): Option<Msg> { if o.Answer? then Some(o.response) else None }

  /** dnsEvaluatedFuture.view */
  function Seen(q: Query, c: Schedule, f: Future, now: nat): Option<Msg> {
    if Done(c, f, now) then View(OutcomeOf(q, f)) else None
  }

  function SeenOpt(q: Query, c: Schedule, f: Option<Future>, now: nat): Option<Msg> {
    if f.Some? then Seen(q, c, f.value, now) else None
  }

  function FromOutcome(o: Outcome, via: Transport): Result {
    match o
    case Answer(m) => Reply(m, via)
    case Failure(e) => Failed(e, via)
  }

  /** finishPendingExchange */
  function Conclude(q: Query, turn: Turn): Verdict
    requires turn.Send?
  {
    match turn.launched
    case Some(f) =>
        Verdict(turn.at, turn.raced, Some(Ask(f.transport, f.options)), FromOutcome(OutcomeOf(q, f), f.transport))
    case None =>
      Verdict(turn.at, turn.raced, Some(Ask(turn.transport, turn.options)),
              FromOutcome(q.exchange(turn.transport, Finalize(q, turn.options)), turn.transport))
  }

  // ---- settleDNSFutures

  function SettleOnce(q: Query, c: Schedule, s: State, f: Future): State {
    if f.rule in s.settled || !Done(c, f, s.now) then s
    else if f.tag == "" then s.(settled := s.settled + {f.rule})
    else s.(settled := s.settled + {f.rule}, responses := s.responses[f.tag := Seen(q, c, f, s.now)],
            transports := s.transports[f.tag := f.transport])
  }

  function SettleFrom(q: Query, c: Schedule, s: State, k: nat): State
    requires k <= |s.futures|
    decreases |s.futures| - k
  {
    if k == |s.futures| then s else SettleFrom(q, c, SettleOnce(q, c, s, s.futures[k]), k + 1)
  }

  function Settle(q: Query, c: Schedule, s: State): State {
    SettleFrom(q, c, s.(now := s.now + 1), 0)
  }

  // ---- what a rule waits for

  function TagFutures(tags: seq<Tag>, named: map<Tag, Future>): seq<Future> {
    if tags == [] then []
    else (if tags[0] in named then [named[tags[0]]] else []) + TagFutures(tags[1..], named)
  }

  /** The launched futures a rule binds, named ones first. */
  function BoundFutures(r: Rule, s: State): seq<Future> {
    TagFutures(r.tags, s.named) + (if r.anonymous && s.anon.Some? then [s.anon.value] else [])
  }

  function Pending(c: Schedule, fs: seq<Future>, now: nat): seq<Future> {
    if fs == [] then []
    else (if Done(c, fs[0], now) then [] else [fs[0]]) + Pending(c, fs[1..], now)
  }

  predicate Ready(c: Schedule, a: Armed, now: nat) { forall f | f in a.futures :: Done(c, f, now) }

  predicate Unsettled(r: Rule, s: State) {
    exists t | t in r.tags :: t in s.named && s.named[t].rule !in s.settled
  }

  /** Rule i is matched without a response it binds, and that can show in the verdict. */
  predicate Misses(q: Query, i: nat, s: State)
    requires i < |q.rules|
  {
    Shows(q.rules, i) && Unsettled(q.rules[i], s)
  }

  // ---- sweepArmedDNSRules

  function Named(s: State, t: Tag): Result {
    if t in s.responses && s.responses[t].Some? && t in s.transports
    then Reply(s.responses[t].value, s.transports[t]) else MissingResponse
  }

  function Anonymous(q: Query, c: Schedule, f: Option<Future>, now: nat): Result {
    var m := SeenOpt(q, c, f, now);
    if m.Some? then Reply(m.value, f.value.transport) else MissingResponse
  }

  /** The action of a matched armed rule; no turn when the rule turns out to have no effect. */
  function RaceAct(q: Query, c: Schedule, s: State, a: Armed): Option<Turn>
    requires a.rule < |q.rules|
  {
    var r := q.rules[a.rule];
    match r.action
    case Respond =>
      var result :=
        if r.responseTag != "" then Named(s, r.responseTag)
        else Anonymous(q, c, if a.anon.Some? then a.anon else s.anon, s.now);
      Some(Finish(Verdict(a.rule, true, None, result)))
    case Route(server, _, own) =>
      (match ResolveRoute(q, server)
       case None => None
       case Some(t) => Some(Send(a.rule, true, t, RouteWith(a.options, t, own), None)))
    case Reject(RejectDefault) => Some(Finish(Verdict(a.rule, true, None, Refused)))
    case Reject(RejectDrop) => Some(Finish(Verdict(a.rule, true, None, Dropped)))
    case Reject(RejectReply) => None
    case Predefined => Some(Finish(Verdict(a.rule, true, None, Preset(a.rule))))
    case SetOptions(_) => None
    case Evaluate(_, _, _, _) => None
  }

  function Judge(q: Query, c: Schedule, s: State, a: Armed): Option<Turn>
    requires a.rule < |q.rules|
  {
    if Matches(q, a.rule, SeenOpt(q, c, a.anon, s.now), s.responses) then RaceAct(q, c, s, a) else None
  }

  /** One ready armed rule leaves the list, and its judgement is recorded. */
  function Disarm(q: Query, c: Schedule, s: State, k: nat): State
    requires k < |s.armed| && s.armed[k].rule < |q.rules|
  {
    var a := s.armed[k];
    s.(armed := s.armed[..k] + s.armed[k + 1..], judged := s.judged + {Judgement(a, s.now, Judge(q, c, s, a))},
       late := s.late || Misses(q, a.rule, s))
  }

  predicate ArmedInRange(q: Query, s: State) { forall a | a in s.armed :: a.rule < |q.rules| }

  function Sweep(q: Query, c: Schedule, s: State, k: nat): (State, Option<Turn>)
    requires k <= |s.armed| && ArmedInRange(q, s)
    decreases |s.armed| - k
  {
    if k == |s.armed| then (s, None) else
    var a := s.armed[k];
    var s := s.(now := s.now + 1);
    if !Ready(c, a, s.now) then Sweep(q, c, s, k + 1) else
    var turn := Judge(q, c, s, a);
    var s := Disarm(q, c, s, k);
    if turn.Some? then (s, turn) else Sweep(q, c, s, k)
  }

  // ---- walkDNSRules

  /** A race rule with bindings is armed; if nothing it binds is pending, the list is swept. */
  function Arm(q: Query, c: Schedule, s: State): (State, Option<Turn>)
    requires s.index < |q.rules| && ArmedInRange(q, s)
  {
    var r := q.rules[s.index];
    var pending := Pending(c, BoundFutures(r, s), s.now);
    var s := s.(armed := s.armed + [Armed(s.index, pending, if r.anonymous then s.anon else None, s.options)]);
    if pending != [] then (s, None) else
    var (s, turn) := Sweep(q, c, s, 0);
    (if turn.Some? && turn.value.Send? then s.(armed := []) else s, turn)
  }

  function ActEvaluate(q: Query, s: State, server: string, tag: Tag, speculative: bool, own: RouteOptions)
    : (State, Option<Turn>)
  {
    match Resolve(q, server)
    case None => (if tag == "" then s.(anon := None) else s, None)
    case Some(t) =>
      if !speculative && s.armed != [] then (s, Some(Drain)) else
      var f := Future(s.index, tag, false, t, ApplyRouteOptions(s.options, own));
      if tag == "" then (s.(futures := s.futures + [f], anon := Some(f)), None)
      else (s.(futures := s.futures + [f], named := s.named[tag := f]), None)
  }

  function ActRespond(q: Query, c: Schedule, s: State, r: Rule): (State, Option<Turn>) {
    if s.armed != [] then (s, Some(Drain)) else
    if r.responseTag != "" then (s, Some(Finish(Verdict(s.index, false, None, Named(s, r.responseTag))))) else
    var s := s.(now := s.now + 1);
    if !r.Binds() && s.anon.Some? && !Done(c, s.anon.value, s.now) then (s, Some(Await(s.anon.value))) else
    (s, Some(Finish(Verdict(s.index, false, None, Anonymous(q, c, s.anon, s.now)))))
  }

  function ActRoute(q: Query, s: State, server: string, speculative: bool, own: RouteOptions): (State, Option<Turn>) {
    match ResolveRoute(q, server)
    case None => (s, None)
    case Some(t) =>
      var options := RouteWith(s.options, t, own);
      if s.armed != [] then
        if speculative && s.terminal.None? then
          var f := Future(s.index, "", true, t, options);
          (s.(futures := s.futures + [f], terminal := Some(f)), Some(Drain))
        else (s, Some(Drain))
      else if s.terminal.Some? && s.terminal.value.rule == s.index then
        (s, Some(Send(s.index, false, s.terminal.value.transport, options, s.terminal)))
      else (s, Some(Send(s.index, false, t, options, None)))
  }

  function ActFinal(s: State, result: Result): (State, Option<Turn>) {
    (s, Some(if s.armed != [] then Drain else Finish(Verdict(s.index, false, None, result))))
  }

  /** The action of a matched rule; no turn means the walk goes on with the next rule. */
  function Act(q: Query, c: Schedule, s: State): (State, Option<Turn>)
    requires s.index < |q.rules|
  {
    var r := q.rules[s.index];
    match r.action
    case SetOptions(own) => (s.(options := ApplyRouteOptions(s.options, own), applied := s.applied + {s.index}), None)
    case Evaluate(server, tag, speculative, own) => ActEvaluate(q, s, server, tag, speculative, own)
    case Respond => ActRespond(q, c, s, r)
    case Route(server, speculative, own) => ActRoute(q, s, server, speculative, own)
    case Reject(RejectDefault) => ActFinal(s, Refused)
    case Reject(RejectDrop) => ActFinal(s, Dropped)
    case Reject(RejectReply) => (s, if s.armed != [] then Some(Drain) else None)
    case Predefined => ActFinal(s, Preset(s.index))
  }

  function MatchAndAct(q: Query, c: Schedule, s: State): (State, Option<Turn>)
    requires s.index < |q.rules|
  {
    var s := s.(late := s.late || Misses(q, s.index, s));
    if Matches(q, s.index, SeenOpt(q, c, s.anon, s.now), s.responses) then Act(q, c, s) else (s, None)
  }

  /** One iteration of the walk loop, at the current index. */
  function Visit(q: Query, c: Schedule, s: State): (State, Option<Turn>)
    requires s.index < |q.rules| && ArmedInRange(q, s)
  {
    var r := q.rules[s.index];
    if !r.Binds() then MatchAndAct(q, c, s) else
    var s0 := Settle(q, c, s);
    SettleFrame(q, c, s.(now := s.now + 1), 0);
    var s := s0.(now := s0.now + 1);
    if r.race then Arm(q, c, s) else
    var pending := Pending(c, BoundFutures(r, s), s.now);
    if pending != [] then (s, Some(Await(pending[0]))) else MatchAndAct(q, c, s)
  }

  lemma {:induction false} SettleFrame(q: Query, c: Schedule, s: State, k: nat)
    requires k <= |s.futures|
    ensures var s' := SettleFrom(q, c, s, k);
            s' == s.(responses := s'.responses, transports := s'.transports, settled := s'.settled)
    decreases |s.futures| - k
  {
    if k < |s.futures| { SettleFrame(q, c, SettleOnce(q, c, s, s.futures[k]), k + 1); }
  }

  // ---- frames of the pieces above

  /** Every future the state refers to is one it launched. */
  predicate Sane(q: Query, s: State) {
    && s.index <= |q.rules|
    && ArmedInRange(q, s)
    && (forall a, f | a in s.armed && f in a.futures :: f in s.futures)
    && (s.anon.Some? ==> s.anon.value in s.futures)
    && (forall t | t in s.named :: s.named[t] in s.futures)
  }

  /** Every armed rule was seen to wait for something after the given tick. */
  predicate Waiting(c: Schedule, armed: seq<Armed>, since: nat) {
    forall a | a in armed :: WaitsOn(c, a, since)
  }

  predicate WaitsOn(c: Schedule, a: Armed, since: nat) { exists f | f in a.futures :: !Done(c, f, since) }

  lemma NotReadyWaits(c: Schedule, a: Armed, now: nat, since: nat)
    requires !Ready(c, a, now) && since <= now
    ensures WaitsOn(c, a, since)
  {
    var f :| f in a.futures && !Done(c, f, now);
    assert !Done(c, f, since);
  }

  lemma JudgeTurns(q: Query, c: Schedule, s: State, a: Armed)
    requires a.rule < |q.rules|
    ensures Judge(q, c, s, a).Some? ==> Judge(q, c, s, a).value.Finish? || Judge(q, c, s, a).value.Send?
  {
  }

  lemma {:induction false} SweepFrame(q: Query, c: Schedule, s: State, k: nat)
    requires k <= |s.armed| && ArmedInRange(q, s)
    ensures var (s', turn) := Sweep(q, c, s, k);
            && s' == s.(armed := s'.armed, judged := s'.judged, late := s'.late, now := s'.now)
            && s.now <= s'.now && (s.late ==> s'.late)
            && (forall a | a in s'.armed :: a in s.armed)
            && (turn.Some? ==> turn.value.Finish? || turn.value.Send?)
    decreases |s.armed| - k
  {
    hide Judge, Ready, Misses;
    if k < |s.armed| {
      var s1 := s.(now := s.now + 1);
      if !Ready(c, s.armed[k], s1.now) {
        SweepFrame(q, c, s1, k + 1);
      } else {
        var s2 := Disarm(q, c, s1, k);
        assert forall a | a in s2.armed :: a in s.armed;
        JudgeTurns(q, c, s1, s.armed[k]);
        if Judge(q, c, s1, s.armed[k]).None? { SweepFrame(q, c, s2, k); }
      }
    }
  }

  lemma {:induction false} SweepWaits(q: Query, c: Schedule, s: State, k: nat, since: nat)
    requires k <= |s.armed| && ArmedInRange(q, s) && since <= s.now
    requires Waiting(c, s.armed[..k], since)
    ensures var (s', turn) := Sweep(q, c, s, k); turn.None? ==> Waiting(c, s'.armed, since)
    decreases |s.armed| - k
  {
    hide Judge, Misses, WaitsOn, Ready;
    if k == |s.armed| {
      assert s.armed[..k] == s.armed;
    } else {
      var a := s.armed[k];
      var s1 := s.(now := s.now + 1);
      if !Ready(c, a, s1.now) {
        NotReadyWaits(c, a, s1.now, since);
        assert s1.armed[..k + 1] == s.armed[..k] + [a];
        SweepWaits(q, c, s1, k + 1, since);
      } else {
        var s2 := Disarm(q, c, s1, k);
        assert s2.armed[..k] == s.armed[..k];
        if Judge(q, c, s1, a).None? { SweepWaits(q, c, s2, k, since); }
      }
    }
  }

  lemma {:induction false} PendingIn(c: Schedule, fs: seq<Future>, now: nat)
    ensures forall f | f in Pending(c, fs, now) :: f in fs && !Done(c, f, now)
    ensures forall f | f in fs && !Done(c, f, now) :: f in Pending(c, fs, now)
  {
    if fs != [] { PendingIn(c, fs[1..], now); }
  }

  lemma {:induction false} TagFuturesIn(tags: seq<Tag>, named: map<Tag, Future>)
    ensures forall f | f in TagFutures(tags, named) :: exists t | t in tags :: t in named && named[t] == f
    ensures forall t | t in tags && t in named :: named[t] in TagFutures(tags, named)
  {
    if tags != [] { TagFuturesIn(tags[1..], named); }
  }

  lemma BoundIn(q: Query, s: State, r: Rule)
    requires Sane(q, s)
    ensures forall f | f in BoundFutures(r, s) :: f in s.futures
  {
    TagFuturesIn(r.tags, s.named);
  }

  /** What visiting a rule may change: the index, the wake channel and the launched futures stay,
      except that one future may be launched, by an evaluate that goes on or as the terminal one. */
  predicate Visited(q: Query, s: State, s': State, turn: Option<Turn>) {
    && Sane(q, s')
    && s'.index == s.index && s.now <= s'.now && s'.blocks == s.blocks && s'.drained == s.drained
    && s.futures <= s'.futures
    && (s.late ==> s'.late)
    && (s.terminal.Some? ==> s'.terminal == s.terminal)
    && (turn.Some? && s'.terminal == s.terminal ==> s'.futures == s.futures)
  }

  /** A visit that stops waits for a launched future that was unresolved after the visit began, or
      drains the armed rules it found. */
  predicate Stops(c: Schedule, s: State, s': State, turn: Option<Turn>) {
    && (turn.Some? && turn.value.Await? ==> turn.value.future in s.futures && !Done(c, turn.value.future, s.now))
    && (turn == Some(Drain) ==> s'.armed == s.armed && s'.armed != [])
  }

  lemma EvaluateFrame(q: Query, s: State, server: string, tag: Tag, speculative: bool, own: RouteOptions)
    requires s.index < |q.rules| && Sane(q, s)
    ensures var (s', turn) := ActEvaluate(q, s, server, tag, speculative, own);
            Visited(q, s, s', turn) && (turn.Some? ==> turn == Some(Drain) && s' == s && s.armed != [])
  {
    if server in q.servers && (speculative || s.armed == []) {
      var f := Future(s.index, tag, false, q.servers[server], ApplyRouteOptions(s.options, own));
      assert f in s.futures + [f];
    }
  }

  lemma ActFrame(q: Query, c: Schedule, s: State)
    requires s.index < |q.rules| && Sane(q, s)
    ensures var (s', turn) := Act(q, c, s); Visited(q, s, s', turn) && Stops(c, s, s', turn)
  {
    hide ActEvaluate, ApplyRouteOptions, RouteWith, ResolveRoute, Named, Anonymous;
    match q.rules[s.index].action
    case Evaluate(server, tag, speculative, own) => EvaluateFrame(q, s, server, tag, speculative, own);
    case _ =>
  }

  lemma MatchFrame(q: Query, c: Schedule, s: State)
    requires s.index < |q.rules| && Sane(q, s)
    ensures var (s', turn) := MatchAndAct(q, c, s); Visited(q, s, s', turn) && Stops(c, s, s', turn)
  {
    var s1 := s.(late := s.late || Misses(q, s.index, s));
    assert Sane(q, s1);
    ActFrame(q, c, s1);
  }

  lemma ArmFrame(q: Query, c: Schedule, s: State)
    requires s.index < |q.rules| && Sane(q, s)
    ensures var (s', turn) := Arm(q, c, s); Visited(q, s, s', turn) && Stops(c, s, s', turn)
  {
    hide Sweep, Pending, BoundFutures;
    var r := q.rules[s.index];
    BoundIn(q, s, r);
    var pending := Pending(c, BoundFutures(r, s), s.now);
    PendingIn(c, BoundFutures(r, s), s.now);
    var a := Armed(s.index, pending, if r.anonymous then s.anon else None, s.options);
    var s1 := s.(armed := s.armed + [a]);
    assert Sane(q, s1);
    if pending == [] { SweepFrame(q, c, s1, 0); }
  }

  lemma VisitFrame(q: Query, c: Schedule, s: State)
    requires s.index < |q.rules| && Sane(q, s)
    ensures var (s', turn) := Visit(q, c, s); Visited(q, s, s', turn) && Stops(c, s, s', turn)
  {
    hide MatchAndAct, Arm, SettleFrom, Pending, BoundFutures;
    var r := q.rules[s.index];
    if !r.Binds() {
      MatchFrame(q, c, s);
    } else {
      SettleFrame(q, c, s.(now := s.now + 1), 0);
      var s0 := Settle(q, c, s);
      var s1 := s0.(now := s0.now + 1);
      assert Sane(q, s1);
      var pending := Pending(c, BoundFutures(r, s1), s1.now);
      if r.race {
        ArmFrame(q, c, s1);
      } else if pending != [] {
        BoundIn(q, s1, r);
        PendingIn(c, BoundFutures(r, s1), s1.now);
        assert pending[0] in pending;
      } else {
        MatchFrame(q, c, s1);
      }
    }
  }

  // ---- walkDNSRules, resumeExchangeWithRules, exchangeWithRules

  function Walk(q: Query, c: Schedule, s: State): (State, Turn)
    requires Sane(q, s)
    decreases |q.rules| - s.index
  {
    if s.index == |q.rules| then
      (s, if s.armed != [] then Drain else Send(s.index, false, q.fallback, s.options, None))
    else
      var (s1, turn) := Visit(q, c, s);
      VisitFrame(q, c, s);
      if turn.Some? then (s1, turn.value) else Walk(q, c, s1.(index := s1.index + 1))
  }

  /** A walk either makes progress or says what it waits for. */
  predicate Walked(q: Query, c: Schedule, s: State, s': State, turn: Turn) {
    && Sane(q, s')
    && s.index <= s'.index && s.now <= s'.now && s'.blocks == s.blocks && s'.drained == s.drained
    && s.futures <= s'.futures
    && (s.late ==> s'.late)
    && (s.terminal.Some? ==> s'.terminal == s.terminal)
    && (s.index == s'.index && s'.terminal == s.terminal ==> s'.futures == s.futures)
    && (turn.Await? ==> turn.future in s'.futures && !Done(c, turn.future, s.now))
    && (turn.Drain? ==> s'.armed != [])
    && (turn.Drain? && s.index == s'.index ==> s'.armed == s.armed)
  }

  lemma WalkStep(q: Query, c: Schedule, s: State, s1: State, s': State, turn: Turn)
    requires Visited(q, s, s1, None) && s1.index < |q.rules|
    requires Walked(q, c, s1.(index := s1.index + 1), s', turn)
    ensures Walked(q, c, s, s', turn)
  {
  }

  lemma {:induction false} WalkFrame(q: Query, c: Schedule, s: State)
    requires Sane(q, s)
    ensures var (s', turn) := Walk(q, c, s); Walked(q, c, s, s', turn)
    decreases |q.rules| - s.index
  {
    hide Visit;
    if s.index < |q.rules| {
      VisitFrame(q, c, s);
      var (s1, turn) := Visit(q, c, s);
      if turn.None? {
        var s2 := s1.(index := s1.index + 1);
        WalkFrame(q, c, s2);
        var (s', turn') := Walk(q, c, s2);
        WalkStep(q, c, s, s1, s', turn');
      }
    }
  }

  function Horizon(c: Schedule, fs: seq<Future>): nat {
    if fs == [] then 0 else
    var h := Horizon(c, fs[1..]);
    if h < c.completes(fs[0].rule) then c.completes(fs[0].rule) else h
  }

  lemma {:induction false} HorizonBounds(c: Schedule, fs: seq<Future>, f: Future)
    requires f in fs
    ensures c.completes(f.rule) <= Horizon(c, fs)
  {
    if f != fs[0] { HorizonBounds(c, fs[1..], f); }
  }

  function Left(c: Schedule, s: State): nat {
    if Horizon(c, s.futures) <= s.now then 0 else Horizon(c, s.futures) - s.now
  }

  /** The part of one resume iteration before its await test. */
  function Poll(q: Query, c: Schedule, s: State): (State, Option<Turn>)
    requires Sane(q, s)
  {
    var s1 := Settle(q, c, s);
    SettleFrame(q, c, s.(now := s.now + 1), 0);
    Sweep(q, c, s1, 0)
  }

  lemma PollFrame(q: Query, c: Schedule, s: State)
    requires Sane(q, s)
    ensures var (s', turn) := Poll(q, c, s);
            && Sane(q, s') && s'.index == s.index && s.now < s'.now && s'.futures == s.futures
            && s'.terminal == s.terminal && s'.blocks == s.blocks && s'.drained == s.drained && (s.late ==> s'.late)
            && (forall a | a in s'.armed :: a in s.armed)
            && (turn.Some? ==> turn.value.Finish? || turn.value.Send?)
            && (turn.None? ==> Waiting(c, s'.armed, s.now + 1))
  {
    SettleFrame(q, c, s.(now := s.now + 1), 0);
    var s1 := Settle(q, c, s);
    SweepFrame(q, c, s1, 0);
    SweepWaits(q, c, s1, 0, s1.now);
  }

  /** The blocking condition of the resume loop. */
  predicate MustWait(c: Schedule, s: State, turn: Turn) {
    || (turn.Await? && !Done(c, turn.future, s.now))
    || (turn.Drain? && s.armed != [])
  }

  /** Receiving from the wake channel. */
  function Receive(c: Schedule, s: State): State {
    var t := c.wakes(s.blocks);
    var t := if t <= s.now then s.now + 1 else t;
    s.(now := t, blocks := s.blocks + 1, drained := t)
  }

  /** Time passes towards the horizon whenever something unresolved is waited for. */
  lemma LeftDecreases(c: Schedule, s: State, s': State, f: Future)
    requires s'.futures == s.futures && s.now < s'.now
    requires f in s.futures && !Done(c, f, s.now)
    ensures Left(c, s') < Left(c, s)
  {
    HorizonBounds(c, s.futures, f);
  }

  lemma WaitingHas(q: Query, c: Schedule, s: State, since: nat) returns (f: Future)
    requires Sane(q, s) && s.armed != [] && Waiting(c, s.armed, since)
    ensures f in s.futures && !Done(c, f, since)
    ensures exists a | a in s.armed :: f in a.futures
  {
    var a := s.armed[0];
    assert a in s.armed;
    assert WaitsOn(c, a, since);
    f :| f in a.futures && !Done(c, f, since);
  }

  /** One iteration of the resume loop: a verdict, or the state and suspension of the next one. */
  datatype Iteration = Over(state: State, verdict: Verdict) | Again(state: State, turn: Turn)

  function Iterate(q: Query, c: Schedule, s: State, turn: Turn): (r: Iteration)
    requires Sane(q, s) && !turn.Finish?
  {
    var (s1, swept) := Poll(q, c, s);
    PollFrame(q, c, s);
    if swept.Some? then Over(s1, Settled(q, swept.value)) else
    if turn.Send? then Over(s1, Conclude(q, turn)) else
    var s2 := s1.(now := s1.now + 1);
    if MustWait(c, s2, turn) then Again(Receive(c, s2), turn) else
    var (s3, turn3) := Walk(q, c, s2);
    if turn3.Finish? then Over(s3, turn3.verdict) else Again(s3, turn3)
  }

  function Settled(q: Query, turn: Turn): Verdict
    requires turn.Finish? || turn.Send?
  {
    if turn.Finish? then turn.verdict else Conclude(q, turn)
  }

  function TerminalLeft(s: State): nat { if s.terminal.None? then 1 else 0 }
  function TurnLeft(turn: Turn): nat { if turn.Send? then 0 else 1 }

  /** The future a suspension waits for is one the state launched. */
  predicate Waitable(s: State, turn: Turn) { turn.Await? ==> turn.future in s.futures }

  /** Every iteration that does not end the exchange comes closer to its end: fewer rules are left,
      or the one speculative exchange has been launched, or the decision is pending, or the clock
      has moved towards the completion of some launched exchange. */
  lemma IterateProgress(q: Query, c: Schedule, s: State, turn: Turn)
    requires Sane(q, s) && !turn.Finish? && Waitable(s, turn)
    ensures var r := Iterate(q, c, s, turn);
            r.Again? ==>
              && Sane(q, r.state)
              && !r.turn.Finish?
              && Waitable(r.state, r.turn)
              && Closer(q, c, s, turn, r.state, r.turn)
  {
    hide Poll, Walk;
    var (s1, swept) := Poll(q, c, s);
    PollFrame(q, c, s);
    var s2 := s1.(now := s1.now + 1);
    if swept.None? && !turn.Send? {
      assert Sane(q, s2);
      if MustWait(c, s2, turn) {
        var f;
        if turn.Await? { f := turn.future; } else { f := WaitingHas(q, c, s2, s.now + 1); }
        LeftDecreases(c, s, Receive(c, s2), f);
      } else {
        WalkFrame(q, c, s2);
        var (s3, turn3) := Walk(q, c, s2);
        if s3.index == s.index && s3.terminal == s.terminal && !turn3.Finish? && !turn3.Send? {
          var f;
          if turn3.Await? { f := turn3.future; } else { f := WaitingHas(q, c, s3, s.now + 1); }
          LeftDecreases(c, s, s3, f);
        }
      }
    }
  }

  /** The lexicographic order behind termination. */
  predicate Closer(q: Query, c: Schedule, s: State, turn: Turn, s': State, turn': Turn) {
    || s.index < s'.index
    || (s.index == s'.index &&
        (|| TerminalLeft(s') < TerminalLeft(s)
         || (TerminalLeft(s') == TerminalLeft(s) &&
             (TurnLeft(turn') < TurnLeft(turn) || (TurnLeft(turn') == TurnLeft(turn) && Left(c, s') < Left(c, s))))))
  }

  /** resumeExchangeWithRules */
  function Resume(q: Query, c: Schedule, s: State, turn: Turn): (State, Verdict)
    requires Sane(q, s) && !turn.Finish? && Waitable(s, turn)
    decreases |q.rules| - s.index, TerminalLeft(s), TurnLeft(turn), Left(c, s)
  {
    var r := Iterate(q, c, s, turn);
    IterateProgress(q, c, s, turn);
    match r
    case Over(s1, verdict) => (s1, verdict)
    case Again(s1, turn1) => Resume(q, c, s1, turn1)
  }

  /** exchangeWithRules; exchangeWithRulesAsync reports the same verdict through its callback. */
  function Exchange(q: Query, c: Schedule): (State, Verdict) {
    var (s, turn) := Walk(q, c, Initial(q));
    WalkFrame(q, c, Initial(q));
    if turn.Finish? then (s, turn.verdict) else Resume(q, c, s, turn)
  }
}
