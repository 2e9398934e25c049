// What a verdict of the rule walk means for the caller, said of the query alone: which server is asked, with
// which options and what for, when a route rule is passed over, and what the interpreter has at hand at a rule.
module DnsWalkVerdicts {
  import opened Base
  import opened DnsRules
  import opened DnsWalk
  import opened DnsReference
  import opened DnsWalkMeaning
  import opened DnsWalkTheorems

  // ---- exchanges

  /** A route rule may use its server. */
  predicate Usable(q: Query, server: string) {
    server in q.servers && (q.servers[server].fakeIP ==> q.allowFakeIP)
  }

  /** The caller's strategy, or the router's when the caller leaves it open. */
  function StrategyOf(q: Query): Strategy { if q.caller.strategy == AsIs then q.strategy else q.caller.strategy }

  /** Exchanging over t with the options o, as the caller sees it. */
  function ResultOf(q: Query, t: Transport, o: QueryOptions): Result {
    match q.exchange(t, o.(strategy := StrategyOf(q)))
    case Answer(m) => Reply(m, t)
    case Failure(error) => Failed(error, t)
  }

  /** The options of an exchange that rule i makes: the caller's, those of the applied route-options rules
      below it, its own, and no cache for fakeip. */
  function OptionsAt(q: Query, applied: set<nat>, i: nat, own: RouteOptions, fakeIP: bool): QueryOptions
    requires i <= |q.rules|
  {
    var o := Fold(q.caller, AppliedOptions(q, applied, i) + [own]);
    o.(disableCache := o.disableCache || fakeIP)
  }

  /** What an exchange of rule i must be. */
  ghost predicate ExchangeRight(q: Query, applied: set<nat>, i: nat, t: Transport, o: QueryOptions) {
    && i < |q.rules|
    && match q.rules[i].action
       case Route(server, _, own) =>
         Usable(q, server) && t == q.servers[server] && o == OptionsAt(q, applied, i, own, t.fakeIP)
       case Evaluate(server, _, _, own) =>
         server in q.servers && t == q.servers[server] && o == OptionsAt(q, applied, i, own, false)
       case _ => false
  }

  lemma FoldOne(q: Query, applied: set<nat>, i: nat, own: RouteOptions)
    requires i <= |q.rules|
    ensures Fold(q.caller, AppliedOptions(q, applied, i) + [own]) == ApplyRouteOptions(Folded(q, applied, i), own)
  {
    hide ApplyRouteOptions;
    SnapshotFolds(q, applied, i);
    var rs := AppliedOptions(q, applied, i);
    assert (rs + [own])[..|rs|] == rs;
  }

  lemma LaunchedMeans(q: Query, applied: set<nat>, f: Future)
    requires LaunchedRight(q, applied, f)
    ensures ExchangeRight(q, applied, f.rule, f.transport, f.options)
  {
    hide Folded, ApplyRouteOptions, Fold, AppliedOptions;
    match q.rules[f.rule].action
    case Evaluate(_, _, _, own) => FoldOne(q, applied, f.rule, own);
    case Route(_, _, own) => FoldOne(q, applied, f.rule, own);
    case _ =>
  }

  lemma AskedMeans(q: Query, applied: set<nat>, v: Verdict)
    requires AskedRight(q, applied, v) && v.asked.Some?
    ensures v.at < |q.rules| ==>
              q.rules[v.at].action.Route?
                  && ExchangeRight(q, applied, v.at, v.asked.value.transport, v.asked.value.options)
    ensures v.at >= |q.rules| ==>
              && v.at == |q.rules| && v.asked.value.transport == q.fallback
              && v.asked.value.options == Fold(q.caller, AppliedOptions(q, applied, v.at))
    ensures v.result == FromOutcome(q.exchange(v.asked.value.transport, Finalize(q, v.asked.value.options)),
                                    v.asked.value.transport)
  {
    hide Folded, ApplyRouteOptions, Fold, AppliedOptions;
    if v.at < |q.rules| {
      FoldOne(q, applied, v.at, q.rules[v.at].action.options);
    } else {
      SnapshotFolds(q, applied, v.at);
    }
  }

  lemma StrategyStays(q: Query, applied: set<nat>, i: nat, t: Transport, o: QueryOptions)
    requires ExchangeRight(q, applied, i, t, o)
    ensures o.strategy == q.caller.strategy
  {
    hide Fold, AppliedOptions;
    match q.rules[i].action
    case Route(_, _, own) => FoldFlags(q.caller, AppliedOptions(q, applied, i) + [own]);
    case Evaluate(_, _, _, own) => FoldFlags(q.caller, AppliedOptions(q, applied, i) + [own]);
    case _ =>
  }

  lemma OutcomeMeans(q: Query, t: Transport, o: QueryOptions)
    requires o.strategy == q.caller.strategy
    ensures FromOutcome(q.exchange(t, Finalize(q, o)), t) == ResultOf(q, t, o)
  {
    assert Finalize(q, o) == o.(strategy := StrategyOf(q));
  }

  /** In every run, whatever the schedule: every exchange goes to the server its rule names, over fakeip only
      where that is allowed and then without the cache; the default server is asked with the options of all
      applied rules; and the result is the outcome of the exchange under the caller's strategy or else the
      router's. A verdict without an exchange is that of an action that needs none. */
  lemma ExchangesReach(q: Query, c: Schedule)
    requires Scoped(q.rules)
    ensures var (s, v) := Exchange(q, c);
            && (forall f | f in s.futures :: ExchangeRight(q, s.applied, f.rule, f.transport, f.options))
            && (v.asked.None? ==> v.at < |q.rules| && Unasked(q.rules[v.at].action, v.at, v.result))
            && (v.asked.Some? ==>
                  var Ask(t, o) := v.asked.value;
                  && v.result == ResultOf(q, t, o)
                  && if v.at < |q.rules| then q.rules[v.at].action.Route? && ExchangeRight(q, s.applied, v.at, t, o)
                     else t == q.fallback && o == Fold(q.caller, AppliedOptions(q, s.applied, |q.rules|)))
  {
    hide Exchange, ExchangeRight, Fold, AppliedOptions, Folded, Finalize, FromOutcome, ResultOf;
    OptionSnapshots(q, c);
    var (s, v) := Exchange(q, c);
    forall f | f in s.futures ensures ExchangeRight(q, s.applied, f.rule, f.transport, f.options) {
      LaunchedMeans(q, s.applied, f);
    }
    if v.asked.Some? {
      AskedMeans(q, s.applied, v);
      var Ask(t, o) := v.asked.value;
      if v.at < |q.rules| {
        StrategyStays(q, s.applied, v.at, t, o);
      } else {
        FoldFlags(q.caller, AppliedOptions(q, s.applied, v.at));
      }
      OutcomeMeans(q, t, o);
    }
  }

  // ---- the interpreter, rule by rule

  /** The matcher accepts rule i with the responses at hand, of which it sees those the rule binds. */
  predicate Fires(q: Query, i: nat, e: Env)
    requires i < |q.rules|
  {
    var r := q.rules[i];
    q.matcher(i, if r.anonymous && e.anon.Some? then e.anon.value.response else None,
              map t | t in r.tags :: if t in e.named then e.named[t].response else None)
  }

  lemma FiresIsHit(q: Query, i: nat, e: Env)
    requires i < |q.rules|
    ensures Fires(q, i, e) == Hit(q, i, e)
  {
    var r := q.rules[i];
    assert (map t | t in r.tags :: if t in e.named then e.named[t].response else None) ==
           Restrict(r.tags, Responses(e));
  }

  /** The interpreter reaches rule i and the rule, which is not a race rule, fires. */
  ghost predicate Acts(q: Query, i: nat) {
    i < |q.rules| && Arrive(q, i).Some? && !q.rules[i].Races() && Fires(q, i, Arrive(q, i).value)
  }

  lemma {:induction false} RunsOn(q: Query, i: nat, e: Env)
    requires i <= |q.rules|
    ensures i <= RunFrom(q, i, e).at <= |q.rules| && !RunFrom(q, i, e).raced
    decreases |q.rules| - i
  {
    if i < |q.rules| {
      match StepAt(q, i, e)
      case Next(e1) => RunsOn(q, i + 1, e1);
      case Stop(_) =>
    }
  }

  /** A rule that fires decides the query unless its action is not final: route options, an evaluate, a reply
      rejection, and a route whose server is unknown, or fakeip where that is not allowed. */
  predicate Decisive(q: Query, i: nat)
    requires i < |q.rules|
  {
    match q.rules[i].action
    case SetOptions(_) => false
    case Evaluate(_, _, _, _) => false
    case Reject(how) => how != RejectReply
    case Route(server, _, _) => Usable(q, server)
    case Respond => true
    case Predefined => true
  }

  /** The interpreter decides at the first rule that fires and is decisive, or asks the default server when
      there is none. */
  lemma DecidesAtFirst(q: Query, i: nat)
    requires i <= |q.rules|
    ensures Sequential(q).at == i <==>
            && Arrive(q, i).Some? && (i < |q.rules| ==> Acts(q, i) && Decisive(q, i))
    ensures i < |q.rules| && Arrive(q, i).Some? ==>
              (Arrive(q, i + 1).None? <==> Acts(q, i) && Decisive(q, i))
  {
    if i < |q.rules| && Arrive(q, i).Some? {
      var e := Arrive(q, i).value;
      FiresIsHit(q, i, e);
      ArriveRuns(q, i);
      hide Hit, Fires, RouteWith;
      if StepAt(q, i, e).Next? { RunsOn(q, i + 1, StepAt(q, i, e).env); }
    } else if Arrive(q, i).Some? {
      ArriveRuns(q, i);
    } else {
      NotReached(q, i);
    }
  }

  /** A rule the interpreter does not reach does not decide. */
  lemma {:induction false} NotReached(q: Query, i: nat)
    requires i <= |q.rules| && Arrive(q, i).None?
    ensures Sequential(q).at < i
  {
    if Arrive(q, i - 1).None? {
      NotReached(q, i - 1);
    } else {
      ArriveRuns(q, i - 1);
      var e := Arrive(q, i - 1).value;
      assert StepAt(q, i - 1, e).Stop?;
      StopsHere(q, i - 1, e);
    }
  }

  lemma StopsHere(q: Query, i: nat, e: Env)
    requires i < |q.rules| && StepAt(q, i, e).Stop?
    ensures StepAt(q, i, e).verdict.at == i
  {
    hide Hit, RouteWith;
  }

  /** A race rule wins when it is reached, fires and would be decisive. */
  lemma WinsIff(q: Query, j: nat)
    requires j < |q.rules| && q.rules[j].Races()
    ensures Winner(q, j) <==> Arrive(q, j).Some? && Fires(q, j, Arrive(q, j).value) && Decisive(q, j)
  {
    if Arrive(q, j).Some? {
      FiresIsHit(q, j, Arrive(q, j).value);
      hide Hit, Fires, RouteWith, Arrive;
    }
  }

  /** So a run without a late match decides at the first rule that fires and is decisive, unless a race rule
      that fires and is decisive decided: a route to an unknown server, or to fakeip where that is not
      allowed, is passed over, and no other. */
  lemma RunDecides(q: Query, c: Schedule)
    requires Scoped(q.rules)
    ensures var (s, v) := Exchange(q, c);
            !s.late ==>
              && v.at <= |q.rules| && Arrive(q, v.at).Some?
              && (v.at < |q.rules| ==> Fires(q, v.at, Arrive(q, v.at).value) && Decisive(q, v.at))
              && (if v.raced then v.at < |q.rules| && q.rules[v.at].Races()
                  else && (forall i | 0 <= i < v.at :: !(Acts(q, i) && Decisive(q, i)))
                       && (forall j | 0 <= j < v.at && q.rules[j].Races() ::
                             !(Fires(q, j, Arrived(q, j)) && Decisive(q, j))))
  {
    hide Exchange;
    OrderedMeaning(q, c);
    var (s, v) := Exchange(q, c);
    if !s.late {
      if v.raced {
        WinsIff(q, v.at);
      } else {
        RunsOn(q, 0, Start(q));
        DecidesAtFirst(q, v.at);
        forall i | 0 <= i < v.at ensures !(Acts(q, i) && Decisive(q, i)) { DecidesAtFirst(q, i); }
        forall j | 0 <= j < v.at && q.rules[j].Races() ensures !(Fires(q, j, Arrived(q, j)) && Decisive(q, j)) {
          WinsIff(q, j);
          ArrivesEarlier(q, j, v.at);
        }
      }
    }
  }

  ghost function Arrived(q: Query, i: nat): Env
    requires i <= |q.rules|
  {
    if Arrive(q, i).Some? then Arrive(q, i).value else Start(q)
  }

  lemma {:induction false} ArrivesEarlier(q: Query, j: nat, i: nat)
    requires j <= i <= |q.rules| && Arrive(q, i).Some?
    ensures Arrive(q, j).Some?
  {
    if j < i { ArrivesEarlier(q, j, i - 1); }
  }

  // ---- what is at hand at a rule

  /** The options of the route-options rules below i that act, in rule order. */
  ghost function ActedOptions(q: Query, i: nat): seq<RouteOptions>
    requires i <= |q.rules|
  {
    if i == 0 then [] else
    ActedOptions(q, i - 1) +
      if Acts(q, i - 1) && q.rules[i - 1].action.SetOptions? then [q.rules[i - 1].action.options] else []
  }

  /** The last rule below i that acts and evaluates into the tag; one whose server is unknown counts for the
      anonymous response only, which it clears. */
  ghost function LastEvaluate(q: Query, i: nat, tag: Tag): (r: Option<nat>)
    requires i <= |q.rules|
    ensures r.Some? ==> r.value < i && Acts(q, r.value) && q.rules[r.value].action.Evaluate?
    ensures r.Some? ==> q.rules[r.value].action.tag == tag
  {
    if i == 0 then None else
    var a := q.rules[i - 1].action;
    if Acts(q, i - 1) && a.Evaluate? && a.tag == tag && (a.server in q.servers || tag == "") then Some(i - 1)
    else LastEvaluate(q, i - 1, tag)
  }

  /** What that rule's exchange brought, if it made one. */
  ghost function EvaluatedAt(q: Query, j: nat): Option<Evaluated>
    requires j < |q.rules| && q.rules[j].action.Evaluate?
  {
    var Evaluate(server, _, _, own) := q.rules[j].action;
    if server !in q.servers then None else
    var t := q.servers[server];
    var o := Fold(q.caller, ActedOptions(q, j) + [own]);
    match q.exchange(t, o.(strategy := StrategyOf(q)))
    case Answer(m) => Some(Evaluated(Some(m), t))
    case Failure(_) => Some(Evaluated(None, t))
  }

  ghost function LastEvaluated(q: Query, i: nat, tag: Tag): Option<Evaluated>
    requires i <= |q.rules|
  {
    var j := LastEvaluate(q, i, tag);
    if j.None? then None else EvaluatedAt(q, j.value)
  }

  /** The options of all that acted before, and under each tag the response last evaluated into it. */
  ghost predicate Hand(q: Query, i: nat, e: Env)
    requires i <= |q.rules|
  {
    && e.options == Fold(q.caller, ActedOptions(q, i))
    && e.anon == LastEvaluated(q, i, "")
    && forall t | t != "" :: LastEvaluated(q, i, t) == if t in e.named then Some(e.named[t]) else None
  }

  lemma {:induction false} Unfold(q: Query, i: nat)
    requires i < |q.rules| && Arrive(q, i).Some?
    ensures ActedOptions(q, i + 1) == ActedOptions(q, i) +
            if Acts(q, i) && q.rules[i].action.SetOptions? then [q.rules[i].action.options] else []
    ensures forall t :: LastEvaluate(q, i + 1, t) ==
                        if Acts(q, i) && Evaluates(q, i, t) then Some(i) else LastEvaluate(q, i, t)
    ensures Arrive(q, i + 1) ==
            if Acts(q, i) then match Enact(q, i, Arrive(q, i).value) case Next(e) => Some(e) case Stop(_) => None
            else Arrive(q, i)
  {
    FiresIsHit(q, i, Arrive(q, i).value);
    hide Fires, Hit, Enact;
  }

  /** Rule i is an evaluate that counts for the tag. */
  predicate Evaluates(q: Query, i: nat, t: Tag)
    requires i < |q.rules|
  {
    var a := q.rules[i].action;
    a.Evaluate? && a.tag == t && (a.server in q.servers || t == "")
  }

  /** That is what the interpreter has where it arrives. */
  lemma {:induction false} AtHand(q: Query, i: nat)
    requires i <= |q.rules| && Arrive(q, i).Some?
    ensures Hand(q, i, Arrive(q, i).value)
  {
    hide Hand, Acts, Arrive;
    if i == 0 {
      HandStart(q);
    } else {
      ArrivesEarlier(q, i - 1, i);
      AtHand(q, i - 1);
      var e, a := Arrive(q, i - 1).value, q.rules[i - 1].action;
      if Acts(q, i - 1) && a.SetOptions? {
        HandOptions(q, i - 1, e);
      } else if Acts(q, i - 1) && a.Evaluate? {
        HandEvaluate(q, i - 1, e);
      } else {
        HandOther(q, i - 1, e);
      }
    }
  }

  lemma HandStart(q: Query)
    ensures Arrive(q, 0).Some? && Hand(q, 0, Arrive(q, 0).value)
  {
  }

  lemma HandOther(q: Query, i: nat, e: Env)
    requires i < |q.rules| && Arrive(q, i) == Some(e) && Arrive(q, i + 1).Some? && Hand(q, i, e)
    requires Acts(q, i) ==> !q.rules[i].action.SetOptions? && !q.rules[i].action.Evaluate?
    ensures Hand(q, i + 1, Arrive(q, i + 1).value)
  {
    Unfold(q, i);
    assert ActedOptions(q, i) + [] == ActedOptions(q, i);
    hide Acts, Arrive, Fold, ActedOptions, LastEvaluate, EvaluatedAt;
    OtherArrives(q, i, e);
    hide Enact;
    forall t ensures LastEvaluated(q, i + 1, t) == LastEvaluated(q, i, t) { OtherLast(q, i, t); }
    hide LastEvaluated;
  }

  lemma OtherArrives(q: Query, i: nat, e: Env)
    requires i < |q.rules| && Arrive(q, i) == Some(e) && Arrive(q, i + 1).Some?
    requires Acts(q, i) ==> !q.rules[i].action.SetOptions? && !q.rules[i].action.Evaluate?
    ensures Arrive(q, i + 1) == Some(e)
  {
    Unfold(q, i);
    hide Acts, Arrive, ActedOptions, LastEvaluate, RouteWith;
  }

  lemma OtherLast(q: Query, i: nat, t: Tag)
    requires i < |q.rules| && Arrive(q, i).Some?
    requires Acts(q, i) ==> !q.rules[i].action.Evaluate?
    ensures LastEvaluated(q, i + 1, t) == LastEvaluated(q, i, t)
  {
    Unfold(q, i);
    hide Acts, Arrive, ActedOptions, LastEvaluate, EvaluatedAt, Enact;
  }

  lemma HandOptions(q: Query, i: nat, e: Env)
    requires i < |q.rules| && Arrive(q, i) == Some(e) && Hand(q, i, e)
    requires Acts(q, i) && q.rules[i].action.SetOptions?
    ensures Arrive(q, i + 1).Some? && Hand(q, i + 1, Arrive(q, i + 1).value)
  {
    Unfold(q, i);
    var rs, own := ActedOptions(q, i), q.rules[i].action.options;
    assert (rs + [own])[..|rs|] == rs;
    hide Acts, Arrive, ApplyRouteOptions, ActedOptions, LastEvaluate;
  }

  lemma EvaluateOptions(q: Query, i: nat, e: Env, own: RouteOptions)
    requires i <= |q.rules| && e.options == Fold(q.caller, ActedOptions(q, i))
    ensures var o := Fold(q.caller, ActedOptions(q, i) + [own]);
            Finalize(q, ApplyRouteOptions(e.options, own)) == o.(strategy := StrategyOf(q))
  {
    var rs := ActedOptions(q, i);
    assert (rs + [own])[..|rs|] == rs;
    assert Fold(q.caller, rs + [own]) == ApplyRouteOptions(e.options, own);
    FoldFlags(q.caller, rs + [own]);
    hide ApplyRouteOptions, Fold, ActedOptions;
  }

  /** What an evaluate leaves behind. */
  ghost function After(q: Query, i: nat, e: Env): Env
    requires i < |q.rules| && q.rules[i].action.Evaluate?
  {
    var x, tag := EvaluatedAt(q, i), q.rules[i].action.tag;
    if tag == "" then e.(anon := x) else if x.Some? then e.(named := e.named[tag := x.value]) else e
  }

  lemma EvaluateArrives(q: Query, i: nat, e: Env)
    requires i < |q.rules| && Arrive(q, i) == Some(e) && e.options == Fold(q.caller, ActedOptions(q, i))
    requires Acts(q, i) && q.rules[i].action.Evaluate?
    ensures Arrive(q, i + 1) == Some(After(q, i, e))
  {
    EvaluateEnacts(q, i, e);
    Unfold(q, i);
    hide Acts, Arrive, Fold, ActedOptions, LastEvaluate, Enact, After;
  }

  lemma EvaluateEnacts(q: Query, i: nat, e: Env)
    requires i < |q.rules| && q.rules[i].action.Evaluate? && e.options == Fold(q.caller, ActedOptions(q, i))
    ensures Enact(q, i, e) == Next(After(q, i, e))
  {
    hide ApplyRouteOptions, Fold, ActedOptions, Finalize;
    var Evaluate(server, tag, _, own) := q.rules[i].action;
    if server in q.servers {
      EvaluateOptions(q, i, e, own);
      var t := q.servers[server];
      var x := Evaluated(View(q.exchange(t, Finalize(q, ApplyRouteOptions(e.options, own)))), t);
      assert EvaluatedAt(q, i) == Some(x);
      hide EvaluatedAt;
    }
  }

  lemma LastStep(q: Query, i: nat, t: Tag)
    requires i < |q.rules| && Arrive(q, i).Some? && Acts(q, i)
    ensures LastEvaluated(q, i + 1, t) ==
            if Evaluates(q, i, t) then EvaluatedAt(q, i) else LastEvaluated(q, i, t)
  {
    Unfold(q, i);
    hide Acts, Arrive, ActedOptions, LastEvaluate, EvaluatedAt, Enact;
  }

  lemma HandTag(q: Query, i: nat, e: Env, t: Tag)
    requires i < |q.rules| && Arrive(q, i) == Some(e) && Hand(q, i, e) && t != ""
    requires Acts(q, i) && q.rules[i].action.Evaluate?
    ensures var e' := After(q, i, e); LastEvaluated(q, i + 1, t) == if t in e'.named then Some(e'.named[t]) else None
  {
    LastStep(q, i, t);
    assert EvaluatedAt(q, i).Some? <==> q.rules[i].action.server in q.servers;
    hide Acts, Arrive, Fold, ActedOptions, LastEvaluated, EvaluatedAt, Enact;
  }

  lemma HandEvaluate(q: Query, i: nat, e: Env)
    requires i < |q.rules| && Arrive(q, i) == Some(e) && Hand(q, i, e)
    requires Acts(q, i) && q.rules[i].action.Evaluate?
    ensures Arrive(q, i + 1).Some? && Hand(q, i + 1, Arrive(q, i + 1).value)
  {
    EvaluateArrives(q, i, e);
    Unfold(q, i);
    LastStep(q, i, "");
    assert ActedOptions(q, i) + [] == ActedOptions(q, i);
    hide Acts, Arrive, Fold, ActedOptions, LastEvaluate, LastEvaluated, EvaluatedAt, Enact;
    var e' := After(q, i, e);
    forall t | t != "" ensures LastEvaluated(q, i + 1, t) == if t in e'.named then Some(e'.named[t]) else None {
      HandTag(q, i, e, t);
    }
    assert e'.options == e.options && e'.anon == LastEvaluated(q, i + 1, "");
    hide After;
  }

  /** A rule that acts and responds gives the response last evaluated into its tag, with the server it came
      from, or says that there is none. */
  lemma RespondMeans(q: Query, i: nat)
    requires Acts(q, i) && q.rules[i].action.Respond?
    ensures var x := LastEvaluated(q, i, q.rules[i].responseTag);
            Sequential(q) == Verdict(i, false, None,
              if x.Some? && x.value.response.Some? then Reply(x.value.response.value, x.value.via) else MissingResponse)
  {
    AtHand(q, i);
    var e := Arrive(q, i).value;
    FiresIsHit(q, i, e);
    ArriveRuns(q, i);
    hide Fires, Hit, Fold, ActedOptions, LastEvaluated, Arrive;
  }

  /** A route that acts and is decisive asks the server it names, with the options of all that acted before it
      and its own, and without the cache when that is fakeip. */
  lemma RouteMeans(q: Query, i: nat)
    requires Acts(q, i) && q.rules[i].action.Route? && Decisive(q, i)
    ensures var Route(server, _, own) := q.rules[i].action;
            var t, o := q.servers[server], Fold(q.caller, ActedOptions(q, i) + [own]);
            var o := o.(disableCache := o.disableCache || t.fakeIP);
            Sequential(q) == Verdict(i, false, Some(Ask(t, o)), ResultOf(q, t, o))
  {
    AtHand(q, i);
    var e := Arrive(q, i).value;
    FiresIsHit(q, i, e);
    ArriveRuns(q, i);
    var Route(server, _, own) := q.rules[i].action;
    var rs := ActedOptions(q, i);
    assert (rs + [own])[..|rs|] == rs;
    var t, o := q.servers[server], Fold(q.caller, rs + [own]);
    assert o == ApplyRouteOptions(e.options, own);
    FoldFlags(q.caller, rs + [own]);
    hide Fires, Hit, Fold, ActedOptions, Arrive, ApplyRouteOptions, LastEvaluated;
    OutcomeMeans(q, t, RouteWith(e.options, t, own));
    assert RouteWith(e.options, t, own) == o.(disableCache := o.disableCache || t.fakeIP);
    hide RouteWith, ResultOf, FromOutcome, Finalize;
  }

  /** When no rule decides, the default server is asked with the options of all that acted. */
  lemma DefaultMeans(q: Query)
    requires Arrive(q, |q.rules|).Some?
    ensures var o := Fold(q.caller, ActedOptions(q, |q.rules|));
            Sequential(q) == Verdict(|q.rules|, false, Some(Ask(q.fallback, o)), ResultOf(q, q.fallback, o))
  {
    var n := |q.rules|;
    AtHand(q, n);
    ArriveRuns(q, n);
    FoldFlags(q.caller, ActedOptions(q, n));
    var e := Arrive(q, n).value;
    hide Fold, ActedOptions, Arrive, LastEvaluated;
    OutcomeMeans(q, q.fallback, e.options);
  }
}
