// What the rule walk keeps at every step, for every schedule.
module DnsWalkMeaning {
  import opened Base
  import opened DnsRules
  import opened DnsWalk
  import opened DnsReference

  // ---- the sequential environment a walk state stands for

  function EvalOf(q: Query, f: Future): Evaluated { Evaluated(View(OutcomeOf(q, f)), f.transport) }

  function EvalOpt(q: Query, f: Option<Future>): Option<Evaluated> {
    if f.Some? then Some(EvalOf(q, f.value)) else None
  }

  function Abstract(q: Query, s: State): Env {
    Env(s.options, EvalOpt(q, s.anon), map t | t in s.named :: EvalOf(q, s.named[t]))
  }

  // ---- option snapshots

  /** The caller's options folded with the route-options rules of `applied` below i, in order. */
  function Folded(q: Query, applied: set<nat>, i: nat): QueryOptions
    requires i <= |q.rules|
  {
    if i == 0 then q.caller else
    var o := Folded(q, applied, i - 1);
    if i - 1 in applied && q.rules[i - 1].action.SetOptions? then ApplyRouteOptions(o, q.rules[i - 1].action.options)
        else o
  }

  lemma {:induction false} FoldedLocal(q: Query, applied: set<nat>, k: nat, i: nat)
    requires i <= k && i <= |q.rules|
    ensures Folded(q, applied + {k}, i) == Folded(q, applied, i)
  {
    if i > 0 { FoldedLocal(q, applied, k, i - 1); }
  }

  /** A launched exchange goes where its rule says, with the options in force at that rule and then
      the rule's own. */
  ghost predicate LaunchedRight(q: Query, applied: set<nat>, f: Future) {
    && f.rule < |q.rules|
    && match q.rules[f.rule].action
       case Evaluate(server, tag, _, own) =>
         && !f.terminal && f.tag == tag && Resolve(q, server) == Some(f.transport)
         && f.options == ApplyRouteOptions(Folded(q, applied, f.rule), own)
       case Route(server, _, own) =>
         && f.terminal && f.tag == "" && ResolveRoute(q, server) == Some(f.transport)
         && f.options == RouteWith(Folded(q, applied, f.rule), f.transport, own)
       case _ => false
  }

  /** The same for the exchange a verdict performed; a verdict without one comes from an action that needs
      none. */
  ghost predicate AskedRight(q: Query, applied: set<nat>, v: Verdict) {
    match v.asked
    case None => v.at < |q.rules| && Unasked(q.rules[v.at].action, v.at, v.result)
    case Some(ask) =>
      && v.result == FromOutcome(q.exchange(ask.transport, Finalize(q, ask.options)), ask.transport)
      && if v.at == |q.rules| then ask == Ask(q.fallback, Folded(q, applied, v.at))
         else
           && v.at < |q.rules| && q.rules[v.at].action.Route?
           && var Route(server, _, own) := q.rules[v.at].action;
              && ResolveRoute(q, server) == Some(ask.transport)
              && ask.options == RouteWith(Folded(q, applied, v.at), ask.transport, own)
  }

  /** The results of the actions that answer without an exchange of their own. */
  predicate Unasked(action: Action, at: nat, result: Result) {
    match action
    case Respond => result.Reply? || result.MissingResponse?
    case Reject(RejectDefault) => result == Refused
    case Reject(RejectDrop) => result == Dropped
    case Predefined => result == Preset(at)
    case _ => false
  }

  // ---- invariants that hold in every run

  /** Futures are named by their launching rule, tags by their future. */
  ghost predicate Booked(q: Query, s: State) {
    && s.index <= |q.rules|
    && (forall f | f in s.futures :: FutureBooked(q, s, f))
    && Tagged(s)
    && (s.anon.Some? ==> s.anon.value in s.futures && s.anon.value.tag == "" && !s.anon.value.terminal)
    && (s.terminal.Some? ==> s.terminal.value in s.futures && s.terminal.value.terminal)
  }

  ghost predicate FutureBooked(q: Query, s: State, f: Future) {
    && LaunchedRight(q, s.applied, f)
    && f.rule <= s.index
    && (f.rule == s.index ==> f.terminal)
    && (f.terminal ==> s.terminal == Some(f))
  }

  ghost predicate Tagged(s: State) {
    && (forall f, g | f in s.futures && g in s.futures && f.rule == g.rule :: f == g)
    && (forall f | f in s.futures && f.tag != "" :: f.tag in s.named && s.named[f.tag] == f)
    && (forall t | t in s.named :: t != "" && s.named[t].tag == t && s.named[t] in s.futures)
  }

  /** namedResponses and namedTransports hold exactly the settled named futures. */
  ghost predicate SettledRight(q: Query, c: Schedule, s: State) {
    && (forall t | t in s.responses ::
          && t in s.named && s.named[t].rule in s.settled
          && s.responses[t] == EvalOf(q, s.named[t]).response
          && t in s.transports && s.transports[t] == s.named[t].transport)
    && (forall t | t in s.named && s.named[t].rule in s.settled :: t in s.responses)
    && (forall t | t in s.transports :: t in s.responses)
    && (forall i | i in s.settled :: c.completes(i) <= s.now && exists f :: f in s.futures && f.rule == i)
  }

  /** Everything a race rule binds that was launched is resolved, or still waited for. */
  ghost predicate BoundOrWaited(q: Query, c: Schedule, s: State, a: Armed) {
    && a.rule < |q.rules|
    && (a.anon.Some? ==> a.anon.value in a.futures || Done(c, a.anon.value, s.now))
    && (forall t | t in q.rules[a.rule].tags && t in s.named :: s.named[t] in a.futures || Done(c, s.named[t], s.now))
  }

  /** Everything a race rule binds that was launched was resolved at the given tick. */
  ghost predicate BoundAt(q: Query, c: Schedule, s: State, a: Armed, tick: nat) {
    && a.rule < |q.rules|
    && (a.anon.Some? ==> Done(c, a.anon.value, tick))
    && (forall t | t in q.rules[a.rule].tags && t in s.named :: Done(c, s.named[t], tick))
  }

  /** A race rule was judged with everything it binds resolved, and did not commit. */
  ghost predicate Declined(q: Query, c: Schedule, s: State, x: Judgement) {
    x.tick <= s.now && x.turn.None? && BoundAt(q, c, s, x.armed, x.tick)
  }

  /** Race rules below n are armed or judged, never both, in rule order, with their options. */
  ghost predicate Ledger(q: Query, c: Schedule, s: State, n: nat) {
    && n <= |q.rules| && s.index <= n
    && (forall a | a in s.armed :: Held(q, s, n, a) && BoundOrWaited(q, c, s, a))
    && (forall x | x in s.judged :: Held(q, s, n, x.armed) && Declined(q, c, s, x))
    && (forall i, j | 0 <= i < j < |s.armed| :: s.armed[i].rule < s.armed[j].rule)
    && (forall a, x | a in s.armed && x in s.judged :: a.rule != x.armed.rule)
    && (forall x, y | x in s.judged && y in s.judged && x.armed.rule == y.armed.rule :: x == y)
    && (forall j | 0 <= j < n && q.rules[j].Races() :: IsArmed(s, j) || IsJudged(s, j))
  }

  ghost predicate Held(q: Query, s: State, n: nat, a: Armed) {
    && a.rule < n <= |q.rules| && q.rules[a.rule].Races()
    && a.options == Folded(q, s.applied, a.rule)
    && (!q.rules[a.rule].anonymous ==> a.anon.None?)
    && (q.rules[a.rule].tags == [] && a.anon.None? ==> a.futures == [])
    && (forall f | f in a.futures :: f.rule < a.rule && !f.terminal)
  }

  ghost predicate IsArmed(s: State, j: nat) { exists a :: a in s.armed && a.rule == j }
  ghost predicate IsJudged(s: State, j: nat) { exists x :: x in s.judged && x.armed.rule == j }

  /** Between visits every armed rule waits for something. */
  ghost predicate AllWait(s: State) { forall a | a in s.armed :: a.futures != [] }

  /** A rule armed with nothing to wait for and no anonymous response to respond with is judged
      before an anonymous response can appear. */
  ghost predicate NoLateAnon(q: Query, s: State) {
    forall a | a in s.armed && a.futures == [] && a.rule < |q.rules| && q.rules[a.rule].anonymous && a.anon.None? ::
        s.anon.None?
  }

  // ---- invariants that hold while no match that shows was late

  /** An armed rule remembers the environment the interpreter reaches it in. */
  ghost predicate Remembers(q: Query, s: State, a: Armed) {
    && a.rule < |q.rules| && Arrive(q, a.rule).Some?
    && var e, r := Arrive(q, a.rule).value, q.rules[a.rule];
       && e.options == a.options
       && (r.anonymous ==> e.anon == EvalOpt(q, a.anon))
       && (forall t | t in r.tags :: t in e.named <==> t in s.named)
       && (forall t | t in r.tags && t in s.named && t in e.named :: e.named[t] == EvalOf(q, s.named[t]))
  }

  ghost predicate Recalls(q: Query, s: State, a: Armed) {
    a.rule < |q.rules| && Shows(q.rules, a.rule) ==> Remembers(q, s, a)
  }

  ghost predicate Means(q: Query, s: State, n: nat) {
    && (forall a | a in s.armed :: Recalls(q, s, a))
    && (forall j | 0 <= j < n :: Winner(q, j) ==> IsArmed(s, j))
  }

  /** The interpreter reaches rule n in an environment that agrees with the walk's. */
  ghost predicate Reaches(q: Query, n: nat, s: State) {
    n <= |q.rules| && Arrive(q, n).Some? && Agrees(q.rules, n, Arrive(q, n).value, Abstract(q, s))
  }

  ghost predicate Tracks(q: Query, s: State) {
    && Reaches(q, s.index, s)
    && Means(q, s, s.index)
  }

  /** The whole invariant between visits. */
  ghost predicate Inv(q: Query, c: Schedule, s: State) {
    && Booked(q, s) && SettledRight(q, c, s) && Ledger(q, c, s, s.index) && AllWait(s)
    && s.options == Folded(q, s.applied, s.index)
    && (forall i | i in s.applied :: i < s.index)
    && (!s.late ==> Tracks(q, s))
  }

  // ---- settling

  lemma {:induction false} SettleKeeps(q: Query, c: Schedule, s: State, k: nat)
    requires k <= |s.futures| && Tagged(s) && SettledRight(q, c, s)
    ensures SettledRight(q, c, SettleFrom(q, c, s, k))
    decreases |s.futures| - k
  {
    hide SettledRight, SettleOnce;
    if k < |s.futures| {
      SettleOnceKeeps(q, c, s, s.futures[k]);
      SettleKeeps(q, c, SettleOnce(q, c, s, s.futures[k]), k + 1);
    }
  }

  lemma SettleOnceKeeps(q: Query, c: Schedule, s: State, f: Future)
    requires Tagged(s) && SettledRight(q, c, s) && f in s.futures
    ensures var s' := SettleOnce(q, c, s, f); Tagged(s') && SettledRight(q, c, s') && s'.futures == s.futures
  {
    hide SettledRight, Seen, Tagged;
    TaggedSame(s, SettleOnce(q, c, s, f));
    if f.rule !in s.settled && Done(c, f, s.now) {
      if f.tag == "" { SettleUntagged(q, c, s, f); } else { SettleTagged(q, c, s, f); }
    }
  }

  lemma TaggedSame(s: State, s': State)
    requires Tagged(s) && s'.futures == s.futures && s'.named == s.named
    ensures Tagged(s')
  {
  }

  lemma SettleUntagged(q: Query, c: Schedule, s: State, f: Future)
    requires Tagged(s) && SettledRight(q, c, s) && f in s.futures && Done(c, f, s.now) && f.tag == ""
    ensures SettledRight(q, c, s.(settled := s.settled + {f.rule}))
  {
    hide Tagged, EvalOf;
    var s' := s.(settled := s.settled + {f.rule});
    UntaggedFuture(s, f);
    forall i | i in s'.settled ensures exists g :: g in s'.futures && g.rule == i {
      if i == f.rule { assert f in s'.futures; }
    }
  }

  lemma UntaggedFuture(s: State, f: Future)
    requires Tagged(s) && f in s.futures && f.tag == ""
    ensures forall t | t in s.named :: s.named[t].rule != f.rule
  {
    forall t | t in s.named ensures s.named[t].rule != f.rule { assert s.named[t] != f; }
  }

  lemma SettleTagged(q: Query, c: Schedule, s: State, f: Future)
    requires Tagged(s) && SettledRight(q, c, s) && f in s.futures && Done(c, f, s.now) && f.tag != ""
    ensures SettledRight(q, c, s.(settled := s.settled + {f.rule},
                                  responses := s.responses[f.tag := Seen(q, c, f, s.now)],
                                  transports := s.transports[f.tag := f.transport]))
  {
    hide Tagged, OutcomeOf, View;
    var s' := s.(settled := s.settled + {f.rule},
                 responses := s.responses[f.tag := Seen(q, c, f, s.now)],
                 transports := s.transports[f.tag := f.transport]);
    TaggedFuture(s, f);
    SettledResponses(q, c, s, s', f);
    SettledRules(q, c, s, s', f);
  }

  /** A tagged future is the one its tag names, and no other future of a name has its rule. */
  lemma TaggedFuture(s: State, f: Future)
    requires Tagged(s) && f in s.futures && f.tag != ""
    ensures f.tag in s.named && s.named[f.tag] == f
    ensures forall t | t in s.named && s.named[t].rule == f.rule :: t == f.tag
  {
    forall t | t in s.named && s.named[t].rule == f.rule ensures t == f.tag { assert s.named[t] == f; }
  }

  lemma SettledResponses(q: Query, c: Schedule, s: State, s': State, f: Future)
    requires SettledRight(q, c, s) && Done(c, f, s.now) && f.tag in s.named && s.named[f.tag] == f
    requires forall t | t in s.named && s.named[t].rule == f.rule :: t == f.tag
    requires s' == s.(settled := s.settled + {f.rule},
                      responses := s.responses[f.tag := Seen(q, c, f, s.now)],
                      transports := s.transports[f.tag := f.transport])
    ensures forall t | t in s'.responses ::
              && t in s'.named && s'.named[t].rule in s'.settled
              && s'.responses[t] == EvalOf(q, s'.named[t]).response
              && t in s'.transports && s'.transports[t] == s'.named[t].transport
    ensures forall t | t in s'.named && s'.named[t].rule in s'.settled :: t in s'.responses
  {
    hide OutcomeOf, View;
    forall t | t in s'.responses
      ensures t in s'.named && s'.named[t].rule in s'.settled && s'.responses[t] == EvalOf(q, s'.named[t]).response
      ensures t in s'.transports && s'.transports[t] == s'.named[t].transport
    {
      if t != f.tag { assert t in s.responses; }
    }
  }

  lemma SettledRules(q: Query, c: Schedule, s: State, s': State, f: Future)
    requires SettledRight(q, c, s) && Done(c, f, s.now) && f in s.futures
    requires s' == s.(settled := s.settled + {f.rule},
                      responses := s.responses[f.tag := Seen(q, c, f, s.now)],
                      transports := s.transports[f.tag := f.transport])
    ensures forall t | t in s'.transports :: t in s'.responses
    ensures forall i | i in s'.settled :: c.completes(i) <= s'.now && exists g :: g in s'.futures && g.rule == i
  {
    hide EvalOf, Seen;
    forall i | i in s'.settled ensures exists g :: g in s'.futures && g.rule == i {
      if i == f.rule { assert f in s'.futures; }
    }
  }

  /** States that differ only in the clock, the wake channel, the settled part and the late flag. */
  predicate Alike(s: State, s': State) {
    && s' == s.(responses := s'.responses, transports := s'.transports, settled := s'.settled,
                now := s'.now, late := s'.late, blocks := s'.blocks, drained := s'.drained)
    && s.now <= s'.now && (s.late ==> s'.late)
  }

  lemma AlikeKeeps(q: Query, c: Schedule, s: State, s': State)
    requires Inv(q, c, s) && Alike(s, s') && SettledRight(q, c, s')
    ensures Inv(q, c, s')
  {
    forall g | g in s'.futures ensures FutureBooked(q, s', g) { assert FutureBooked(q, s, g); }
    forall a | a in s'.armed ensures Held(q, s', s'.index, a) && BoundOrWaited(q, c, s', a) {
      assert Held(q, s, s.index, a) && BoundOrWaited(q, c, s, a);
    }
    forall x | x in s'.judged ensures Held(q, s', s'.index, x.armed) && Declined(q, c, s', x) {
      assert Held(q, s, s.index, x.armed) && Declined(q, c, s, x);
    }
    forall j | 0 <= j < s'.index && q.rules[j].Races() ensures IsArmed(s', j) || IsJudged(s', j) {
      assert IsArmed(s, j) || IsJudged(s, j);
    }
    if !s'.late {
      assert Abstract(q, s') == Abstract(q, s);
      forall a | a in s'.armed ensures Recalls(q, s', a) { assert Recalls(q, s, a); }
      forall j | 0 <= j < s'.index && Winner(q, j) ensures IsArmed(s', j) { assert IsArmed(s, j); }
    }
  }

  lemma SettledTick(q: Query, c: Schedule, s: State)
    requires SettledRight(q, c, s) && Tagged(s)
    ensures SettledRight(q, c, s.(now := s.now + 1)) && Tagged(s.(now := s.now + 1))
  {
  }

  lemma InvSettled(q: Query, c: Schedule, s: State)
    requires Inv(q, c, s)
    ensures SettledRight(q, c, s) && Tagged(s)
  {
  }

  lemma SettleInv(q: Query, c: Schedule, s: State)
    requires Inv(q, c, s)
    ensures Inv(q, c, Settle(q, c, s))
    ensures Alike(s, Settle(q, c, s)) && Settle(q, c, s).late == s.late && Settle(q, c, s).now == s.now + 1
  {
    hide Inv, SettledRight, SettleFrom, Tagged;
    var s1 := s.(now := s.now + 1);
    InvSettled(q, c, s);
    SettledTick(q, c, s);
    AlikeKeeps(q, c, s, s1);
    SettleKeeps(q, c, s1, 0);
    SettleFrame(q, c, s1, 0);
    AlikeKeeps(q, c, s1, Settle(q, c, s));
  }

  // ---- judging

  ghost predicate AgreeOn(q: Query, s: State, tags: seq<Tag>, e: Env) {
    && (forall t | t in tags :: t in e.named <==> t in s.named)
    && (forall t | t in tags && t in s.named && t in e.named :: e.named[t] == EvalOf(q, s.named[t]))
  }

  /** A rule none of whose bound futures is unsettled sees exactly the interpreter's responses. */
  lemma SameView(q: Query, c: Schedule, s: State, r: Rule, e: Env)
    requires SettledRight(q, c, s) && !Unsettled(r, s) && AgreeOn(q, s, r.tags, e)
    ensures Restrict(r.tags, s.responses) == Restrict(r.tags, Responses(e))
  {
    forall t | t in r.tags
      ensures (if t in s.responses then s.responses[t] else None) ==
                (if t in Responses(e) then Responses(e)[t] else None)
    {
    }
  }

  lemma NamedRight(q: Query, c: Schedule, s: State, r: Rule, e: Env)
    requires SettledRight(q, c, s) && !Unsettled(r, s) && AgreeOn(q, s, r.tags, e)
    requires r.tags == [r.responseTag] && r.responseTag != ""
    ensures Named(s, r.responseTag) == ReplyWith(Chosen(r, e))
  {
    assert r.responseTag in r.tags;
  }

  /** A judged race rule decides exactly what the interpreter says it decides. */
  lemma JudgeRight(q: Query, c: Schedule, s: State, a: Armed)
    requires Scoped(q.rules) && Remembers(q, s, a) && SettledRight(q, c, s) && BoundAt(q, c, s, a, s.now)
    requires q.rules[a.rule].Races() && !Unsettled(q.rules[a.rule], s)
    requires !q.rules[a.rule].anonymous ==> a.anon.None?
    requires q.rules[a.rule].anonymous && q.rules[a.rule].tags == [] && a.anon.None? ==> s.anon.None?
    ensures var turn, v := Judge(q, c, s, a), RaceVerdict(q, a.rule, Arrive(q, a.rule).value);
            if turn.Some? then (turn.value.Finish? || turn.value.Send?) && v == Some(Settled(q, turn.value))
                else v.None?
  {
    var e, r := Arrive(q, a.rule).value, q.rules[a.rule];
    SameView(q, c, s, r, e);
    assert RespondScoped(r);
    assert Matches(q, a.rule, SeenOpt(q, c, a.anon, s.now), s.responses) == Hit(q, a.rule, e);
    if r.action.Respond? && r.responseTag != "" {
      NamedRight(q, c, s, r, e);
    }
  }

  // ---- sweeping

  lemma HeldSame(q: Query, c: Schedule, s: State, s': State, n: nat, a: Armed)
    requires Held(q, s, n, a) && s'.applied == s.applied && s'.named == s.named && s'.now == s.now
    ensures Held(q, s', n, a)
    ensures BoundOrWaited(q, c, s, a) ==> BoundOrWaited(q, c, s', a)
    ensures BoundOrWaited(q, c, s, a) && Ready(c, a, s.now) ==> BoundAt(q, c, s', a, s.now)
  {
  }

  lemma DeclinedSame(q: Query, c: Schedule, s: State, s': State, x: Judgement)
    requires Declined(q, c, s, x) && s'.named == s.named && s'.now == s.now
    ensures Declined(q, c, s', x)
  {
  }

  lemma DisarmKept(q: Query, c: Schedule, s: State, k: nat)
    requires k < |s.armed| && s.armed[k].rule < |q.rules|
    requires forall i, j | 0 <= i < j < |s.armed| :: s.armed[i].rule < s.armed[j].rule
    ensures var s' := Disarm(q, c, s, k);
            && (forall b | b in s'.armed :: b in s.armed && b.rule != s.armed[k].rule)
            && (forall i, j | 0 <= i < j < |s'.armed| :: s'.armed[i].rule < s'.armed[j].rule)
            && s'.judged == s.judged + {Judgement(s.armed[k], s.now, Judge(q, c, s, s.armed[k]))}
            && s'.applied == s.applied && s'.named == s.named && s'.now == s.now && s'.index == s.index
  {
    hide Judge, Misses;
    WithoutOne(s.armed, k);
  }

  lemma WithoutOne(armed: seq<Armed>, k: nat)
    requires k < |armed| && forall i, j | 0 <= i < j < |armed| :: armed[i].rule < armed[j].rule
    ensures var rest := armed[..k] + armed[k + 1..];
            && (forall b | b in rest :: b in armed && b.rule != armed[k].rule)
            && (forall i, j | 0 <= i < j < |rest| :: rest[i].rule < rest[j].rule)
  {
    var rest := armed[..k] + armed[k + 1..];
    assert forall i | 0 <= i < |rest| :: rest[i] == armed[if i < k then i else i + 1];
    forall b | b in rest ensures b in armed && b.rule != armed[k].rule {
      var i :| 0 <= i < |rest| && rest[i] == b;
    }
  }

  lemma DisarmOnTime(q: Query, c: Schedule, s: State, k: nat)
    requires k < |s.armed| && s.armed[k].rule < |q.rules| && !Disarm(q, c, s, k).late
    ensures Shows(q.rules, s.armed[k].rule) ==> !Unsettled(q.rules[s.armed[k].rule], s)
    ensures !s.late
  {
    hide Judge, Shows;
  }

  lemma RaceVerdictRight(q: Query, j: nat)
    requires j < |q.rules| && q.rules[j].Races() && Arrive(q, j).Some? && RaceVerdict(q, j, Arrive(q, j).value).Some?
    ensures Right(q, RaceVerdict(q, j, Arrive(q, j).value).value)
  {
  }

  lemma DisarmLedger(q: Query, c: Schedule, s: State, k: nat, n: nat)
    requires ArmedInRange(q, s) && Ledger(q, c, s, n) && k < |s.armed| && Ready(c, s.armed[k], s.now)
    requires Judge(q, c, s, s.armed[k]).None?
    ensures Ledger(q, c, Disarm(q, c, s, k), n)
  {
    hide Held, BoundOrWaited, BoundAt, Ready, Disarm, IsArmed, IsJudged, Judge;
    var s', a := Disarm(q, c, s, k), s.armed[k];
    assert a in s.armed;
    DisarmKept(q, c, s, k);
    forall b | b in s'.armed ensures Held(q, s', n, b) && BoundOrWaited(q, c, s', b) { HeldSame(q, c, s, s', n, b); }
    HeldSame(q, c, s, s', n, a);
    forall x | x in s'.judged ensures Held(q, s', n, x.armed) && Declined(q, c, s', x) {
      HeldSame(q, c, s, s', n, x.armed);
      if x in s.judged { DeclinedSame(q, c, s, s', x); }
    }
    forall j | 0 <= j < n && q.rules[j].Races() ensures IsArmed(s', j) || IsJudged(s', j) {
      assert IsArmed(s, j) || IsJudged(s, j);
      DisarmOthers(q, c, s, k, j);
    }
  }

  lemma DisarmOthers(q: Query, c: Schedule, s: State, k: nat, j: nat)
    requires k < |s.armed| && s.armed[k].rule < |q.rules|
    ensures IsArmed(s, j) && j != s.armed[k].rule ==> IsArmed(Disarm(q, c, s, k), j)
    ensures IsJudged(s, j) ==> IsJudged(Disarm(q, c, s, k), j)
    ensures j == s.armed[k].rule ==> IsJudged(Disarm(q, c, s, k), j)
  {
    hide Judge, Misses;
    var s' := Disarm(q, c, s, k);
    if IsArmed(s, j) && j != s.armed[k].rule {
      var a :| a in s.armed && a.rule == j;
      var i :| 0 <= i < |s.armed| && s.armed[i] == a;
      assert s'.armed[if i < k then i else i - 1] == a;
    }
    if IsJudged(s, j) {
      var x :| x in s.judged && x.armed.rule == j;
      assert x in s'.judged;
    }
    assert Judgement(s.armed[k], s.now, Judge(q, c, s, s.armed[k])) in s'.judged;
  }

  lemma DisarmMeans(q: Query, c: Schedule, s: State, k: nat, n: nat)
    requires Means(q, s, n) && k < |s.armed| && s.armed[k].rule < |q.rules| && !Winner(q, s.armed[k].rule)
    ensures Means(q, Disarm(q, c, s, k), n)
  {
    hide Judge, Misses, Winner, Shows;
    var s' := Disarm(q, c, s, k);
    forall b | b in s'.armed ensures Recalls(q, s', b) { assert b in s.armed && Recalls(q, s, b); }
    forall j | 0 <= j < n && Winner(q, j) ensures IsArmed(s', j) { DisarmOthers(q, c, s, k, j); }
  }

  /** What a sweep needs and keeps. */
  ghost predicate Sweepable(q: Query, c: Schedule, s: State, n: nat) {
    && SettledRight(q, c, s) && Ledger(q, c, s, n) && NoLateAnon(q, s)
    && (!s.late ==> Means(q, s, n))
  }

  lemma TickSweepable(q: Query, c: Schedule, s: State, n: nat)
    requires Sweepable(q, c, s, n)
    ensures Sweepable(q, c, s.(now := s.now + 1), n)
  {
    var s' := s.(now := s.now + 1);
    forall a | a in s'.armed ensures Held(q, s', n, a) && BoundOrWaited(q, c, s', a) {
      assert Held(q, s, n, a) && BoundOrWaited(q, c, s, a);
    }
    forall x | x in s'.judged ensures Held(q, s', n, x.armed) && Declined(q, c, s', x) {
      assert Held(q, s, n, x.armed) && Declined(q, c, s, x);
    }
    forall j | 0 <= j < n && q.rules[j].Races() ensures IsArmed(s', j) || IsJudged(s', j) {
      assert IsArmed(s, j) || IsJudged(s, j);
    }
    if !s.late {
      forall a | a in s'.armed ensures Recalls(q, s', a) { assert Recalls(q, s, a); }
      forall j | 0 <= j < n && Winner(q, j) ensures IsArmed(s', j) { assert IsArmed(s, j); }
    }
  }

  /** A judged rule asks with the options it was armed with. */
  lemma JudgeAsks(q: Query, c: Schedule, s: State, a: Armed, n: nat)
    requires Held(q, s, n, a)
    ensures var turn := Judge(q, c, s, a);
            turn.Some? ==>
              && (turn.value.Finish? || turn.value.Send?)
              && AskedRight(q, s.applied, Settled(q, turn.value))
              && Settled(q, turn.value).raced
  {
  }

  lemma DisarmAnon(q: Query, c: Schedule, s: State, k: nat)
    requires NoLateAnon(q, s) && k < |s.armed| && s.armed[k].rule < |q.rules|
    ensures NoLateAnon(q, Disarm(q, c, s, k))
  {
    hide Judge, Misses;
    var s' := Disarm(q, c, s, k);
    assert forall b | b in s'.armed :: b in s.armed;
  }

  lemma DisarmSettled(q: Query, c: Schedule, s: State, k: nat)
    requires SettledRight(q, c, s) && k < |s.armed| && s.armed[k].rule < |q.rules|
    ensures SettledRight(q, c, Disarm(q, c, s, k))
  {
    hide Judge, Misses;
    SettledSame(q, c, s, Disarm(q, c, s, k));
  }

  lemma NoWinner(q: Query, j: nat)
    requires j < |q.rules| && Arrive(q, j).Some? && RaceVerdict(q, j, Arrive(q, j).value).None?
    ensures !Winner(q, j)
  {
  }

  /** An armed rule that does not show neither wins nor commits. */
  lemma DeadRace(q: Query, c: Schedule, s: State, a: Armed)
    requires a.rule < |q.rules| && q.rules[a.rule].Races() && !Shows(q.rules, a.rule)
    ensures Judge(q, c, s, a).None? && !Winner(q, a.rule)
  {
  }

  lemma JudgeWins(q: Query, c: Schedule, s: State, k: nat, n: nat)
    requires Scoped(q.rules) && Sweepable(q, c, s, n) && k < |s.armed| && Ready(c, s.armed[k], s.now)
    requires s.armed[k].rule < |q.rules| && !Disarm(q, c, s, k).late
    ensures var turn := Judge(q, c, s, s.armed[k]);
            if turn.Some? then (turn.value.Finish? || turn.value.Send?) && Right(q, Settled(q, turn.value))
            else Means(q, Disarm(q, c, s, k), n)
  {
    hide Judge, Settled, RaceVerdict, Unsettled, Folded, Right, Disarm, Winner, Shows;
    var a := s.armed[k];
    assert a in s.armed;
    DisarmOnTime(q, c, s, k);
    HeldSame(q, c, s, s, n, a);
    if Shows(q.rules, a.rule) {
      assert Recalls(q, s, a);
      JudgeRight(q, c, s, a);
      if Judge(q, c, s, a).None? { NoWinner(q, a.rule); } else { RaceVerdictRight(q, a.rule); }
    } else {
      DeadRace(q, c, s, a);
    }
    if Judge(q, c, s, a).None? { DisarmMeans(q, c, s, k, n); }
  }

  /** Judging one ready rule: either the sweep may go on, or the verdict is the rule's own. */
  lemma JudgeOne(q: Query, c: Schedule, s: State, k: nat, n: nat)
    requires Scoped(q.rules) && Sweepable(q, c, s, n) && k < |s.armed| && Ready(c, s.armed[k], s.now)
    requires ArmedInRange(q, s)
    ensures var s' := Disarm(q, c, s, k);
            var turn := Judge(q, c, s, s.armed[k]);
            && SettledRight(q, c, s')
            && (turn.None? ==> Sweepable(q, c, s', n))
            && (turn.Some? ==> turn.value.Finish? || turn.value.Send?)
            && (turn.Some? && !s'.late ==> Right(q, Settled(q, turn.value)))
            && (turn.Some? ==> AskedRight(q, s'.applied, Settled(q, turn.value)) && Settled(q, turn.value).raced)
  {
    hide Judge, Right, AskedRight, Means, Disarm, Held, SettledRight, NoLateAnon;
    var s', a := Disarm(q, c, s, k), s.armed[k];
    DisarmSettled(q, c, s, k);
    assert a in s.armed && Held(q, s, n, a);
    JudgeAsks(q, c, s, a, n);
    DisarmKept(q, c, s, k);
    DisarmAnon(q, c, s, k);
    if Judge(q, c, s, a).None? { DisarmLedger(q, c, s, k, n); }
    if !s'.late { JudgeWins(q, c, s, k, n); }
  }

  lemma {:induction false} SweepKeeps(q: Query, c: Schedule, s: State, k: nat, n: nat)
    requires Scoped(q.rules) && Sweepable(q, c, s, n) && k <= |s.armed| && ArmedInRange(q, s)
    ensures var (s', turn) := Sweep(q, c, s, k);
            && SettledRight(q, c, s')
            && (turn.None? ==> Sweepable(q, c, s', n))
            && (turn.Some? ==> turn.value.Finish? || turn.value.Send?)
            && (turn.Some? && !s'.late ==> Right(q, Settled(q, turn.value)))
            && (turn.Some? ==> AskedRight(q, s'.applied, Settled(q, turn.value)) && Settled(q, turn.value).raced)
    decreases |s.armed| - k
  {
    hide Sweepable, Ledger, SettledRight, Judge, Disarm, Right, AskedRight;
    if k < |s.armed| {
      var a := s.armed[k];
      var s1 := s.(now := s.now + 1);
      TickSweepable(q, c, s, n);
      if !Ready(c, a, s1.now) {
        SweepKeeps(q, c, s1, k + 1, n);
      } else {
        JudgeOne(q, c, s1, k, n);
        DisarmSize(q, c, s1, k);
        if Judge(q, c, s1, a).None? { SweepKeeps(q, c, Disarm(q, c, s1, k), k, n); }
      }
    } else {
      SweepableParts(q, c, s, n);
    }
  }

  lemma DisarmSize(q: Query, c: Schedule, s: State, k: nat)
    requires k < |s.armed| && ArmedInRange(q, s)
    ensures |Disarm(q, c, s, k).armed| == |s.armed| - 1 && ArmedInRange(q, Disarm(q, c, s, k))
  {
    hide Judge, Misses;
  }

  lemma SweepableParts(q: Query, c: Schedule, s: State, n: nat)
    requires Sweepable(q, c, s, n)
    ensures SettledRight(q, c, s)
  {
  }

  // ---- advancing past a rule that is not armed

  lemma PassLedger(q: Query, c: Schedule, s: State)
    requires Ledger(q, c, s, s.index) && s.index < |q.rules| && !q.rules[s.index].Races()
    ensures Ledger(q, c, s.(index := s.index + 1), s.index + 1)
  {
    var s' := s.(index := s.index + 1);
    forall a | a in s'.armed ensures Held(q, s', s'.index, a) && BoundOrWaited(q, c, s', a) {
      assert Held(q, s, s.index, a) && BoundOrWaited(q, c, s, a);
    }
    forall x | x in s'.judged ensures Held(q, s', s'.index, x.armed) && Declined(q, c, s', x) {
      assert Held(q, s, s.index, x.armed) && Declined(q, c, s, x);
    }
    forall j | 0 <= j < s'.index && q.rules[j].Races() ensures IsArmed(s', j) || IsJudged(s', j) {
      assert IsArmed(s, j) || IsJudged(s, j);
    }
  }

  lemma PassMeans(q: Query, s: State)
    requires Means(q, s, s.index) && s.index < |q.rules| && !q.rules[s.index].Races()
    ensures Means(q, s.(index := s.index + 1), s.index + 1)
  {
    var s' := s.(index := s.index + 1);
    forall a | a in s'.armed ensures Recalls(q, s', a) { assert Recalls(q, s, a); }
    forall j | 0 <= j < s'.index && Winner(q, j) ensures IsArmed(s', j) { assert IsArmed(s, j); }
  }

  /** A state whose ledger and memory are those of another: nothing an armed or judged rule binds
      was redefined, and no options below the index were added. */
  ghost predicate Extends(q: Query, s: State, s': State) {
    && s'.index == s.index && s'.armed == s.armed && s'.judged == s.judged && s'.now == s.now && s'.late == s.late
    && (forall i | 0 <= i <= s.index && i <= |q.rules| :: Folded(q, s'.applied, i) == Folded(q, s.applied, i))
    && (forall i, t | 0 <= i < s.index && i < |q.rules| && t in q.rules[i].tags ::
          (t in s.named <==> t in s'.named) && (t in s.named && t in s'.named ==> s.named[t] == s'.named[t]))
  }

  lemma ExtendsLedger(q: Query, c: Schedule, s: State, s': State)
    requires Ledger(q, c, s, s.index) && Extends(q, s, s')
    ensures Ledger(q, c, s', s'.index)
  {
    forall a | a in s'.armed ensures Held(q, s', s'.index, a) && BoundOrWaited(q, c, s', a) {
      assert Held(q, s, s.index, a) && BoundOrWaited(q, c, s, a);
    }
    forall x | x in s'.judged ensures Held(q, s', s'.index, x.armed) && Declined(q, c, s', x) {
      assert Held(q, s, s.index, x.armed) && Declined(q, c, s, x);
    }
    forall j | 0 <= j < s'.index && q.rules[j].Races() ensures IsArmed(s', j) || IsJudged(s', j) {
      assert IsArmed(s, j) || IsJudged(s, j);
    }
  }

  lemma ExtendsRemembers(q: Query, s: State, s': State, a: Armed)
    requires Remembers(q, s, a) && Extends(q, s, s') && a.rule < s.index
    ensures Remembers(q, s', a)
  {
    hide Arrive, OutcomeOf, Folded, EvalOf;
  }

  lemma ExtendsMeans(q: Query, c: Schedule, s: State, s': State)
    requires Ledger(q, c, s, s.index) && Means(q, s, s.index) && Extends(q, s, s')
    ensures Means(q, s', s'.index)
  {
    hide Remembers, BoundOrWaited, Declined, Winner, Shows;
    forall a | a in s'.armed ensures Recalls(q, s', a) {
      assert Held(q, s, s.index, a) && Recalls(q, s, a);
      if Shows(q.rules, a.rule) { ExtendsRemembers(q, s, s', a); }
    }
    forall j | 0 <= j < s'.index && Winner(q, j) ensures IsArmed(s', j) { assert IsArmed(s, j); }
  }

  lemma LaunchedLocal(q: Query, s: State, applied': set<nat>, f: Future)
    requires FutureBooked(q, s, f)
    requires forall i | 0 <= i <= s.index && i <= |q.rules| :: Folded(q, applied', i) == Folded(q, s.applied, i)
    ensures LaunchedRight(q, applied', f)
  {
  }

  lemma StepArrives(q: Query, s: State, s': State)
    requires Scoped(q.rules) && s.index < |q.rules| && Reaches(q, s.index, s)
    requires StepsTo(q, s.index, Abstract(q, s), Abstract(q, s'))
    ensures Reaches(q, s.index + 1, s'.(index := s.index + 1))
  {
    hide Agrees, StepAt, Scoped;
    var e := Arrive(q, s.index).value;
    StepAgrees(q, s.index, e, Abstract(q, s));
    var n := StepAt(q, s.index, Abstract(q, s)).env;
    AgreesTrans(q.rules, s.index + 1, StepAt(q, s.index, e).env, n, Abstract(q, s'));
    assert Abstract(q, s'.(index := s.index + 1)) == Abstract(q, s');
  }

  lemma SettledIndex(q: Query, c: Schedule, s: State, i: nat)
    requires SettledRight(q, c, s)
    ensures SettledRight(q, c, s.(index := i))
  {
  }

  /** What every advance has in common: the ledger is extended and the interpreter takes the step. */
  lemma AdvanceKeeps(q: Query, c: Schedule, s: State, s': State)
    requires Scoped(q.rules)
    requires Inv(q, c, s) && s.index < |q.rules| && !q.rules[s.index].Races() && Extends(q, s, s')
    requires Booked(q, s'.(index := s.index + 1)) && SettledRight(q, c, s')
    requires s'.options == Folded(q, s'.applied, s.index + 1) && forall i | i in s'.applied :: i <= s.index
    requires !s.late ==> StepsTo(q, s.index, Abstract(q, s), Abstract(q, s'))
    ensures Inv(q, c, s'.(index := s.index + 1))
  {
    hide Ledger, Means, Booked, SettledRight, Reaches, StepsTo, Abstract, Folded, Scoped;
    ExtendsLedger(q, c, s, s');
    PassLedger(q, c, s');
    SettledIndex(q, c, s', s.index + 1);
    if !s.late {
      ExtendsMeans(q, c, s, s');
      PassMeans(q, s');
      StepArrives(q, s, s');
    }
  }

  /** The rule at the index is passed without effect. */
  lemma PassKeeps(q: Query, c: Schedule, s: State)
    requires Scoped(q.rules) && Inv(q, c, s) && s.index < |q.rules| && !q.rules[s.index].Races()
    requires !s.late ==> StepsTo(q, s.index, Abstract(q, s), Abstract(q, s))
    ensures Inv(q, c, s.(index := s.index + 1))
  {
    hide Inv, StepsTo, Abstract, Scoped;
    InvGives(q, c, s);
    NextBooked(q, s);
    AdvanceKeeps(q, c, s, s);
  }

  lemma NextBooked(q: Query, s: State)
    requires Booked(q, s) && s.index < |q.rules| && !q.rules[s.index].Races()
    ensures Booked(q, s.(index := s.index + 1))
  {
    var s' := s.(index := s.index + 1);
    forall f | f in s'.futures ensures FutureBooked(q, s', f) { assert FutureBooked(q, s, f); }
  }

  lemma OptionsKeep(q: Query, c: Schedule, s: State, own: RouteOptions)
    requires Scoped(q.rules) && Inv(q, c, s) && s.index < |q.rules| && !q.rules[s.index].Races()
    requires q.rules[s.index].action == SetOptions(own)
    requires !s.late && Shows(q.rules, s.index) ==> Hit(q, s.index, Abstract(q, s))
    ensures Inv(q, c,
              s.(options := ApplyRouteOptions(s.options, own), applied := s.applied + {s.index}, index := s.index + 1))
  {
    hide Inv, Booked, SettledRight, Folded, ApplyRouteOptions, Scoped, Shows, Hit, StepsTo;
    var s' := s.(options := ApplyRouteOptions(s.options, own), applied := s.applied + {s.index});
    InvGives(q, c, s);
    forall i | 0 <= i <= s.index && i <= |q.rules| ensures Folded(q, s'.applied, i) == Folded(q, s.applied, i) {
      FoldedLocal(q, s.applied, s.index, i);
    }
    OptionsFold(q, s, own);
    OptionsBooked(q, s, s');
    SettledSame(q, c, s, s');
    if !s.late { OptionsStep(q, s, s', own); }
    AdvanceKeeps(q, c, s, s');
  }

  lemma OptionsFold(q: Query, s: State, own: RouteOptions)
    requires s.index < |q.rules| && q.rules[s.index].action == SetOptions(own)
    requires s.options == Folded(q, s.applied, s.index)
    ensures ApplyRouteOptions(s.options, own) == Folded(q, s.applied + {s.index}, s.index + 1)
  {
    FoldedLocal(q, s.applied, s.index, s.index);
  }

  /** Setting options is what the interpreter does, or cannot show. */
  lemma OptionsStep(q: Query, s: State, s': State, own: RouteOptions)
    requires Scoped(q.rules) && s.index < |q.rules| && !q.rules[s.index].Races()
    requires q.rules[s.index].action == SetOptions(own)
    requires Shows(q.rules, s.index) ==> Hit(q, s.index, Abstract(q, s))
    requires s' == s.(options := ApplyRouteOptions(s.options, own), applied := s'.applied)
    ensures StepsTo(q, s.index, Abstract(q, s), Abstract(q, s'))
  {
    hide Hit, ApplyRouteOptions, Scoped, LiveTag, LiveAnon;
    assert Abstract(q, s') == Abstract(q, s).(options := s'.options);
    if !Shows(q.rules, s.index) {
      NoopApplies(s.options, own);
      DeadStep(q, s.index, Abstract(q, s));
    }
  }

  lemma OptionsBooked(q: Query, s: State, s': State)
    requires Booked(q, s) && s.index < |q.rules|
    requires s' == s.(options := s'.options, applied := s'.applied)
    requires forall i | 0 <= i <= s.index && i <= |q.rules| :: Folded(q, s'.applied, i) == Folded(q, s.applied, i)
    ensures Booked(q, s'.(index := s.index + 1))
  {
    var s'' := s'.(index := s.index + 1);
    forall f | f in s''.futures ensures FutureBooked(q, s'', f) {
      assert FutureBooked(q, s, f);
      LaunchedLocal(q, s, s'.applied, f);
    }
  }

  /** The settled part of the state does not depend on the rest. */
  lemma SettledSame(q: Query, c: Schedule, s: State, s': State)
    requires SettledRight(q, c, s)
    requires s'.responses == s.responses && s'.transports == s.transports && s'.named == s.named
    requires s'.settled == s.settled && s'.futures == s.futures && s'.now == s.now
    ensures SettledRight(q, c, s')
  {
  }

  lemma ForgetKeeps(q: Query, c: Schedule, s: State)
    requires Scoped(q.rules) && Inv(q, c, s) && s.index < |q.rules| && !q.rules[s.index].Races()
    requires !s.late ==> StepsTo(q, s.index, Abstract(q, s), Abstract(q, s.(anon := None)))
    ensures Inv(q, c, s.(anon := None, index := s.index + 1))
  {
    hide Inv, SettledRight, Abstract, StepsTo, Scoped, Booked;
    var s' := s.(anon := None);
    InvGives(q, c, s);
    NextBooked(q, s);
    ForgetBooked(q, s.(index := s.index + 1));
    SettledSame(q, c, s, s');
    AdvanceKeeps(q, c, s, s');
  }

  lemma ForgetBooked(q: Query, s: State)
    requires Booked(q, s)
    ensures Booked(q, s.(anon := None))
  {
    var s' := s.(anon := None);
    forall f | f in s'.futures ensures FutureBooked(q, s', f) { assert FutureBooked(q, s, f); }
  }

  /** A rule that evaluates has launched nothing before. */
  lemma LaunchFresh(q: Query, s: State, tag: Tag)
    requires Scoped(q.rules) && Booked(q, s) && s.index < |q.rules|
    requires q.rules[s.index].action.Evaluate? && q.rules[s.index].action.tag == tag
    ensures forall f | f in s.futures :: f.rule < s.index && (tag != "" ==> f.tag != tag)
    ensures tag != "" ==> tag !in s.named
  {
    forall f | f in s.futures ensures f.rule < s.index && (tag != "" ==> f.tag != tag) {
      assert FutureBooked(q, s, f);
      if tag != "" && f.tag == tag {
        assert q.rules[f.rule].Defines(tag) && q.rules[s.index].Defines(tag);
      }
    }
  }

  lemma LaunchKeeps(q: Query, c: Schedule, s: State, s': State, f: Future)
    requires Scoped(q.rules) && Inv(q, c, s) && s.index < |q.rules| && !q.rules[s.index].Races()
    requires q.rules[s.index].action.Evaluate? && LaunchedRight(q, s.applied, f) && f.rule == s.index
    requires s' == if f.tag == "" then s.(futures := s.futures + [f], anon := Some(f))
                   else s.(futures := s.futures + [f], named := s.named[f.tag := f])
    requires !s.late ==> StepsTo(q, s.index, Abstract(q, s), Abstract(q, s'))
    ensures Inv(q, c, s'.(index := s.index + 1))
  {
    hide Inv, Booked, SettledRight, StepsTo, Abstract, Folded, LaunchedRight, Scoped;
    LaunchParts(q, c, s, f);
    LaunchBooked(q, s, s', f);
    LaunchSettled(q, c, s, s', f);
    LaunchExtends(q, s, s', f);
    AdvanceKeeps(q, c, s, s');
  }

  lemma LaunchParts(q: Query, c: Schedule, s: State, f: Future)
    requires Scoped(q.rules) && Inv(q, c, s) && s.index < |q.rules|
    requires q.rules[s.index].action.Evaluate? && LaunchedRight(q, s.applied, f) && f.rule == s.index
    ensures Booked(q, s) && SettledRight(q, c, s) && !f.terminal
    ensures forall g | g in s.futures :: g.rule < s.index && (f.tag != "" ==> g.tag != f.tag)
    ensures f.tag != "" ==> f.tag !in s.named
    ensures s.options == Folded(q, s.applied, s.index + 1) && forall i | i in s.applied :: i <= s.index
  {
    LaunchFresh(q, s, f.tag);
  }

  lemma LaunchExtends(q: Query, s: State, s': State, f: Future)
    requires Scoped(q.rules) && s.index < |q.rules| && LaunchedRight(q, s.applied, f) && f.rule == s.index
    requires q.rules[s.index].action.Evaluate?
    requires s' == if f.tag == "" then s.(futures := s.futures + [f], anon := Some(f))
                   else s.(futures := s.futures + [f], named := s.named[f.tag := f])
    ensures Extends(q, s, s')
  {
    forall i, t | 0 <= i < s.index && i < |q.rules| && t in q.rules[i].tags
      ensures (t in s.named <==> t in s'.named) && (t in s.named && t in s'.named ==> s.named[t] == s'.named[t])
    {
      assert !q.rules[s.index].Defines(t);
    }
  }

  lemma LaunchBooked(q: Query, s: State, s': State, f: Future)
    requires Booked(q, s) && s.index < |q.rules| && LaunchedRight(q, s.applied, f) && f.rule == s.index && !f.terminal
    requires forall g | g in s.futures :: g.rule < s.index && (f.tag != "" ==> g.tag != f.tag)
    requires s' == if f.tag == "" then s.(futures := s.futures + [f], anon := Some(f))
                   else s.(futures := s.futures + [f], named := s.named[f.tag := f])
    ensures Booked(q, s'.(index := s.index + 1))
  {
    hide Folded, LaunchedRight;
    var s'' := s'.(index := s.index + 1);
    assert f in s''.futures;
    forall g | g in s''.futures ensures FutureBooked(q, s'', g) { assert g == f || FutureBooked(q, s, g); }
  }

  lemma LaunchSettled(q: Query, c: Schedule, s: State, s': State, f: Future)
    requires SettledRight(q, c, s) && f.rule == s.index
    requires forall g | g in s.futures :: g.rule < s.index
    requires f.tag != "" ==> f.tag !in s.named
    requires s' == if f.tag == "" then s.(futures := s.futures + [f], anon := Some(f))
                   else s.(futures := s.futures + [f], named := s.named[f.tag := f])
    ensures SettledRight(q, c, s')
  {
    assert f.rule !in s.settled;
    forall t | t in s'.responses ensures t in s.named && s'.named[t] == s.named[t] { }
    forall i | i in s'.settled ensures exists g :: g in s'.futures && g.rule == i {
      var g :| g in s.futures && g.rule == i;
      assert g in s'.futures;
    }
  }

  lemma SpeculateBooked(q: Query, s: State, f: Future)
    requires Booked(q, s) && s.index < |q.rules| && s.terminal.None?
    requires LaunchedRight(q, s.applied, f) && f.rule == s.index && f.terminal && f.tag == ""
    ensures Booked(q, s.(futures := s.futures + [f], terminal := Some(f)))
  {
    hide Folded, LaunchedRight;
    var s' := s.(futures := s.futures + [f], terminal := Some(f));
    assert f in s'.futures;
    forall g | g in s.futures ensures g.rule < s.index { assert FutureBooked(q, s, g); }
    forall g | g in s'.futures ensures FutureBooked(q, s', g) { assert g == f || FutureBooked(q, s, g); }
  }

  lemma SpeculateSettled(q: Query, c: Schedule, s: State, f: Future)
    requires SettledRight(q, c, s)
    ensures SettledRight(q, c, s.(futures := s.futures + [f], terminal := Some(f)))
  {
    var s' := s.(futures := s.futures + [f], terminal := Some(f));
    forall i | i in s'.settled ensures exists g :: g in s'.futures && g.rule == i {
      var g :| g in s.futures && g.rule == i;
      assert g in s'.futures;
    }
  }

  /** The speculative exchange of a route rule changes nothing the walk reads. */
  lemma SpeculateKeeps(q: Query, c: Schedule, s: State, f: Future)
    requires Inv(q, c, s) && s.index < |q.rules| && s.terminal.None?
    requires LaunchedRight(q, s.applied, f) && f.rule == s.index && f.terminal && f.tag == ""
    ensures Inv(q, c, s.(futures := s.futures + [f], terminal := Some(f)))
  {
    hide Ledger, Means, Folded, LaunchedRight, Arrive, Booked, SettledRight;
    var s' := s.(futures := s.futures + [f], terminal := Some(f));
    SpeculateBooked(q, s, f);
    SpeculateSettled(q, c, s, f);
    ExtendsLedger(q, c, s, s');
    if !s.late {
      ExtendsMeans(q, c, s, s');
      assert Abstract(q, s') == Abstract(q, s);
    }
  }

  // ---- the action of a matched rule

  /** What holds of the final state and verdict. */
  ghost predicate Concluded(q: Query, c: Schedule, s: State, v: Verdict) {
    && (forall f | f in s.futures :: LaunchedRight(q, s.applied, f))
    && Tagged(s)
    && AskedRight(q, s.applied, v)
    && (!s.late ==> Right(q, v))
    && (!v.raced ==> v.at <= |q.rules| && s.armed == [] && Ledger(q, c, s, v.at))
  }

  ghost predicate After(q: Query, c: Schedule, s: State, turn: Option<Turn>) {
    match turn
    case None => Inv(q, c, s.(index := s.index + 1))
    case Some(Finish(v)) => Concluded(q, c, s, v)
    case Some(Send(_, _, _, _, _)) => s.armed == [] && Concluded(q, c, s, Conclude(q, turn.value))
    case Some(_) => Inv(q, c, s)
  }

  lemma NoWinnerBelow(q: Query, s: State)
    requires Means(q, s, s.index) && s.armed == []
    ensures forall j | 0 <= j < s.index :: !Winner(q, j)
  {
    forall j | 0 <= j < s.index ensures !Winner(q, j) { assert !IsArmed(s, j); }
  }

  /** A decision of the rule at the index, with nothing armed, concludes the query. */
  lemma StopConcludes(q: Query, c: Schedule, s: State, v: Verdict)
    requires Scoped(q.rules) && Inv(q, c, s) && s.armed == [] && v.at == s.index && !v.raced
    requires AskedRight(q, s.applied, v)
    requires !s.late ==> if s.index == |q.rules| then v == RunFrom(q, s.index, Abstract(q, s))
                         else StepAt(q, s.index, Abstract(q, s)) == Stop(v)
    ensures Concluded(q, c, s, v)
  {
    forall f | f in s.futures ensures LaunchedRight(q, s.applied, f) { assert FutureBooked(q, s, f); }
    if !s.late {
      NoWinnerBelow(q, s);
      StopRuns(q, s, v);
    }
  }

  lemma StopRuns(q: Query, s: State, v: Verdict)
    requires Scoped(q.rules) && Reaches(q, s.index, s)
    requires if s.index == |q.rules| then v == RunFrom(q, s.index, Abstract(q, s))
             else StepAt(q, s.index, Abstract(q, s)) == Stop(v)
    ensures v == Sequential(q)
  {
    hide Scoped, StepAt;
    ArriveRuns(q, s.index);
    if s.index < |q.rules| { StepAgrees(q, s.index, Arrive(q, s.index).value, Abstract(q, s)); }
  }

  /** The rule at the index was matched against everything it binds. */
  ghost predicate Faithful(q: Query, c: Schedule, s: State)
    requires s.index < |q.rules|
  {
    var r := q.rules[s.index];
    && !r.Races()
    && (r.anonymous && s.anon.Some? ==> Done(c, s.anon.value, s.now))
    && (!s.late && Shows(q.rules, s.index) ==> !Unsettled(r, s))
  }

  lemma AbstractAgrees(q: Query, s: State, tags: seq<Tag>)
    ensures AgreeOn(q, s, tags, Abstract(q, s))
  {
  }

  lemma MatchRight(q: Query, c: Schedule, s: State)
    requires s.index < |q.rules| && SettledRight(q, c, s) && Faithful(q, c, s) && !s.late && Shows(q.rules, s.index)
    ensures Matches(q, s.index, SeenOpt(q, c, s.anon, s.now), s.responses) == Hit(q, s.index, Abstract(q, s))
  {
    var r := q.rules[s.index];
    AbstractAgrees(q, s, r.tags);
    SameView(q, c, s, r, Abstract(q, s));
  }

  lemma InvGives(q: Query, c: Schedule, s: State)
    requires Inv(q, c, s)
    ensures SettledRight(q, c, s) && Booked(q, s) && s.index <= |q.rules| && s.options == Folded(q, s.applied, s.index)
    ensures forall i | i in s.applied :: i < s.index
    ensures s.index < |q.rules| ==> s.options == Folded(q, s.applied, s.index + 1)
  {
  }

  /** A rule that does not match, or finds no server, is passed by the interpreter too, or cannot show. */
  lemma PassStep(q: Query, s: State)
    requires Scoped(q.rules) && s.index < |q.rules|
    requires Shows(q.rules, s.index) ==> StepAt(q, s.index, Abstract(q, s)) == Next(Abstract(q, s))
    ensures StepsTo(q, s.index, Abstract(q, s), Abstract(q, s))
  {
    hide Shows, StepAt, LiveTag, LiveAnon, Scoped, Abstract;
    if !Shows(q.rules, s.index) { DeadStep(q, s.index, Abstract(q, s)); }
  }

  lemma ForgetStep(q: Query, s: State)
    requires Scoped(q.rules) && s.index < |q.rules| && !q.rules[s.index].Races()
    requires Shows(q.rules, s.index) ==> Hit(q, s.index, Abstract(q, s))
    requires q.rules[s.index].action.Evaluate? && q.rules[s.index].action.tag == ""
    requires Resolve(q, q.rules[s.index].action.server).None?
    ensures StepsTo(q, s.index, Abstract(q, s), Abstract(q, s.(anon := None)))
  {
    hide Shows, Hit, LiveTag, LiveAnon, Scoped;
    assert Abstract(q, s.(anon := None)) == Abstract(q, s).(anon := None);
    if !Shows(q.rules, s.index) {
      DeadStep(q, s.index, Abstract(q, s));
      WritesDead(q.rules, s.index);
    }
  }

  /** Launching is what the interpreter does on the spot, or cannot show. */
  lemma EvaluateStep(q: Query, s: State, s': State, f: Future)
    requires Scoped(q.rules) && s.index < |q.rules| && !q.rules[s.index].Races()
    requires Shows(q.rules, s.index) ==> Hit(q, s.index, Abstract(q, s))
    requires q.rules[s.index].action.Evaluate?
    requires var Evaluate(server, tag, _, own) := q.rules[s.index].action;
             Resolve(q, server) == Some(f.transport) && f.tag == tag && f.options == ApplyRouteOptions(s.options, own)
    requires s' == if f.tag == "" then s.(futures := s.futures + [f], anon := Some(f))
                   else s.(futures := s.futures + [f], named := s.named[f.tag := f])
    ensures StepsTo(q, s.index, Abstract(q, s), Abstract(q, s'))
  {
    hide Hit, ApplyRouteOptions, Shows, LiveTag, LiveAnon, Scoped;
    var e, e' := Abstract(q, s), Abstract(q, s');
    assert e' == if f.tag == "" then e.(anon := Some(EvalOf(q, f))) else e.(named := e.named[f.tag := EvalOf(q, f)]);
    if Shows(q.rules, s.index) {
      assert StepAt(q, s.index, e) == Next(e');
    } else {
      DeadStep(q, s.index, e);
      WritesDead(q.rules, s.index);
      AgreesTrans(q.rules, s.index + 1, StepAt(q, s.index, e).env, e, e');
    }
  }

  lemma EvaluateKeeps(q: Query, c: Schedule, s: State)
    requires Scoped(q.rules) && Inv(q, c, s) && s.index < |q.rules| && Faithful(q, c, s)
    requires q.rules[s.index].action.Evaluate?
    requires !s.late && Shows(q.rules, s.index) ==> Hit(q, s.index, Abstract(q, s))
    ensures var (s', turn) := Act(q, c, s); After(q, c, s', turn)
  {
    hide Inv, Concluded, Booked, SettledRight, Hit, Abstract, ApplyRouteOptions, Shows, StepsTo;
    InvGives(q, c, s);
    var Evaluate(server, tag, speculative, own) := q.rules[s.index].action;
    if server !in q.servers {
      if tag == "" {
        if !s.late { ForgetStep(q, s); }
        ForgetKeeps(q, c, s);
      } else {
        if !s.late { PassStep(q, s); }
        PassKeeps(q, c, s);
      }
    } else if speculative || s.armed == [] {
      EvaluateLaunches(q, c, s, Future(s.index, tag, false, q.servers[server], ApplyRouteOptions(s.options, own)));
    }
  }

  lemma EvaluateLaunches(q: Query, c: Schedule, s: State, f: Future)
    requires Scoped(q.rules) && Inv(q, c, s) && s.index < |q.rules| && !q.rules[s.index].Races()
    requires q.rules[s.index].action.Evaluate?
    requires !s.late && Shows(q.rules, s.index) ==> Hit(q, s.index, Abstract(q, s))
    requires var Evaluate(server, tag, _, own) := q.rules[s.index].action;
             server in q.servers
                 && f == Future(s.index, tag, false, q.servers[server], ApplyRouteOptions(s.options, own))
    ensures var s' := if f.tag == "" then s.(futures := s.futures + [f], anon := Some(f))
                      else s.(futures := s.futures + [f], named := s.named[f.tag := f]);
            Inv(q, c, s'.(index := s.index + 1))
  {
    hide Inv, Booked, SettledRight, Hit, Abstract, ApplyRouteOptions, Shows, StepsTo, Scoped;
    var s' := if f.tag == "" then s.(futures := s.futures + [f], anon := Some(f))
              else s.(futures := s.futures + [f], named := s.named[f.tag := f]);
    InvGives(q, c, s);
    assert LaunchedRight(q, s.applied, f);
    if !s.late { EvaluateStep(q, s, s', f); }
    LaunchKeeps(q, c, s, s', f);
  }

  lemma TickKeeps(q: Query, c: Schedule, s: State)
    requires Inv(q, c, s)
    ensures Inv(q, c, s.(now := s.now + 1))
  {
    AlikeKeeps(q, c, s, s.(now := s.now + 1));
  }

  lemma RespondKeeps(q: Query, c: Schedule, s: State)
    requires Scoped(q.rules) && Inv(q, c, s) && s.index < |q.rules| && Faithful(q, c, s)
    requires q.rules[s.index].action.Respond?
    requires !s.late ==> Hit(q, s.index, Abstract(q, s))
    ensures var (s', turn) := Act(q, c, s); After(q, c, s', turn)
  {
    hide Inv, Concluded, Booked, SettledRight, Hit;
    assert Shows(q.rules, s.index);
    InvGives(q, c, s);
    var r := q.rules[s.index];
    assert RespondScoped(r);
    if s.armed == [] {
      if r.responseTag != "" {
        if !s.late {
          AbstractAgrees(q, s, r.tags);
          NamedRight(q, c, s, r, Abstract(q, s));
        }
        StopConcludes(q, c, s, Verdict(s.index, false, None, Named(s, r.responseTag)));
      } else {
        var s1 := s.(now := s.now + 1);
        TickKeeps(q, c, s);
        if !(!r.Binds() && s1.anon.Some? && !Done(c, s1.anon.value, s1.now)) {
          assert Abstract(q, s1) == Abstract(q, s);
          StopConcludes(q, c, s1, Verdict(s.index, false, None, Anonymous(q, c, s1.anon, s1.now)));
        }
      }
    }
  }

  lemma RouteKeeps(q: Query, c: Schedule, s: State)
    requires Scoped(q.rules) && Inv(q, c, s) && s.index < |q.rules| && Faithful(q, c, s)
    requires q.rules[s.index].action.Route?
    requires !s.late ==> Hit(q, s.index, Abstract(q, s))
    ensures var (s', turn) := Act(q, c, s); After(q, c, s', turn)
  {
    hide Inv, Concluded, SettledRight, Hit, Scoped, StepsTo, Shows, RouteWith;
    InvGives(q, c, s);
    var Route(server, speculative, own) := q.rules[s.index].action;
    var target := ResolveRoute(q, server);
    if target.None? {
      if !s.late { PassStep(q, s); }
      PassKeeps(q, c, s);
    } else {
      var options := RouteWith(s.options, target.value, own);
      if s.armed != [] {
        if speculative && s.terminal.None? {
          SpeculateKeeps(q, c, s, Future(s.index, "", true, target.value, options));
        }
      } else if s.terminal.Some? && s.terminal.value.rule == s.index {
        assert FutureBooked(q, s, s.terminal.value);
        StopConcludes(q, c, s, Conclude(q, Send(s.index, false, s.terminal.value.transport, options, s.terminal)));
      } else {
        StopConcludes(q, c, s, Conclude(q, Send(s.index, false, target.value, options, None)));
      }
    }
  }

  lemma FinalKeeps(q: Query, c: Schedule, s: State, result: Result)
    requires Scoped(q.rules) && Inv(q, c, s) && s.index < |q.rules|
    requires Unasked(q.rules[s.index].action, s.index, result)
    requires !s.late ==> StepAt(q, s.index, Abstract(q, s)) == Stop(Verdict(s.index, false, None, result))
    ensures var (s', turn) := ActFinal(s, result); After(q, c, s', turn)
  {
    hide Inv, Concluded, Scoped, StepAt;
    if s.armed == [] { StopConcludes(q, c, s, Verdict(s.index, false, None, result)); }
  }

  lemma ReplyKeeps(q: Query, c: Schedule, s: State)
    requires Scoped(q.rules) && Inv(q, c, s) && s.index < |q.rules| && !q.rules[s.index].Races()
    requires q.rules[s.index].action == Reject(RejectReply)
    ensures Inv(q, c, s.(index := s.index + 1))
  {
    hide Inv, Scoped, StepsTo, StepAt;
    if !s.late { PassStep(q, s); }
    PassKeeps(q, c, s);
  }

  lemma ActKeeps(q: Query, c: Schedule, s: State)
    requires Scoped(q.rules) && Inv(q, c, s) && s.index < |q.rules| && Faithful(q, c, s)
    requires !s.late && Shows(q.rules, s.index) ==> Hit(q, s.index, Abstract(q, s))
    ensures var (s', turn) := Act(q, c, s); After(q, c, s', turn)
  {
    hide Inv, Concluded, Hit, ActRespond, ActEvaluate, ActRoute, Scoped, Abstract;
    match q.rules[s.index].action
    case SetOptions(own) => OptionsKeep(q, c, s, own);
    case Evaluate(_, _, _, _) => EvaluateKeeps(q, c, s);
    case Respond => RespondKeeps(q, c, s);
    case Route(_, _, _) => RouteKeeps(q, c, s);
    case Reject(RejectDefault) => FinalKeeps(q, c, s, Refused);
    case Reject(RejectDrop) => FinalKeeps(q, c, s, Dropped);
    case Reject(RejectReply) => if s.armed == [] { ReplyKeeps(q, c, s); }
    case Predefined => FinalKeeps(q, c, s, Preset(s.index));
  }

  lemma MatchKeeps(q: Query, c: Schedule, s: State)
    requires Scoped(q.rules) && Inv(q, c, s) && s.index < |q.rules| && !q.rules[s.index].Races()
    requires q.rules[s.index].anonymous && s.anon.Some? ==> Done(c, s.anon.value, s.now)
    ensures var (s', turn) := MatchAndAct(q, c, s); After(q, c, s', turn)
  {
    hide Inv, Act, After, SettledRight, Booked, Hit, Matches, Shows, Abstract, StepsTo, Scoped;
    var s1 := s.(late := s.late || Misses(q, s.index, s));
    InvGives(q, c, s);
    SettledLate(q, c, s, s1.late);
    AlikeKeeps(q, c, s, s1);
    assert Faithful(q, c, s1);
    if !s1.late && Shows(q.rules, s.index) { MatchRight(q, c, s1); }
    if Matches(q, s1.index, SeenOpt(q, c, s1.anon, s1.now), s1.responses) {
      ActKeeps(q, c, s1);
    } else {
      if !s1.late { PassStep(q, s1); }
      PassKeeps(q, c, s1);
      AfterPass(q, c, s1);
    }
  }

  lemma AfterPass(q: Query, c: Schedule, s: State)
    requires Inv(q, c, s.(index := s.index + 1))
    ensures After(q, c, s, None)
  {
  }

  lemma SettledLate(q: Query, c: Schedule, s: State, late: bool)
    requires SettledRight(q, c, s)
    ensures SettledRight(q, c, s.(late := late))
  {
  }
}
