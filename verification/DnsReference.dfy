// The meaning of a rule list without any concurrency: evaluate actions run to completion on the
// spot, race rules are judged where they stand. Nothing here mentions futures, ticks, suspension
// or speculation.
module DnsReference {
  import opened Base
  import opened DnsRules
  import opened DnsWalk

  datatype Evaluated = Evaluated(response: Option<Msg>, via: Transport)
  datatype Env = Env(options: QueryOptions, anon: Option<Evaluated>, named: map<Tag, Evaluated>)
  datatype Step = Next(env: Env) | Stop(verdict: Verdict)

  function Start(q: Query): Env { Env(q.caller, None, map[]) }

  function Asked(q: Query, at: nat, raced: bool, t: Transport, o: QueryOptions): Verdict {
    Verdict(at, raced, Some(Ask(t, o)), FromOutcome(q.exchange(t, Finalize(q, o)), t))
  }

  function Responses(e: Env): map<Tag, Option<Msg>> { map t | t in e.named :: e.named[t].response }

  function AnonResponse(e: Env): Option<Msg> { if e.anon.Some? then e.anon.value.response else None }

  function ReplyWith(v: Option<Evaluated>): Result {
    if v.Some? && v.value.response.Some? then Reply(v.value.response.value, v.value.via) else MissingResponse
  }

  /** The response a respond action names. */
  function Chosen(r: Rule, e: Env): Option<Evaluated> {
    if r.responseTag == "" then e.anon
    else if r.responseTag in e.named then Some(e.named[r.responseTag]) else None
  }

  function Enact(q: Query, i: nat, e: Env): Step
    requires i < |q.rules|
  {
    var r := q.rules[i];
    match r.action
    case SetOptions(own) => Next(e.(options := ApplyRouteOptions(e.options, own)))
    case Evaluate(server, tag, _, own) =>
      (match Resolve(q, server)
       case None => Next(if tag == "" then e.(anon := None) else e)
       case Some(t) =>
         var v := Evaluated(View(q.exchange(t, Finalize(q, ApplyRouteOptions(e.options, own)))), t);
         Next(if tag == "" then e.(anon := Some(v)) else e.(named := e.named[tag := v])))
    case Respond => Stop(Verdict(i, false, None, ReplyWith(Chosen(r, e))))
    case Route(server, _, own) =>
      (match ResolveRoute(q, server)
       case None => Next(e)
       case Some(t) => Stop(Asked(q, i, false, t, RouteWith(e.options, t, own))))
    case Reject(RejectDefault) => Stop(Verdict(i, false, None, Refused))
    case Reject(RejectDrop) => Stop(Verdict(i, false, None, Dropped))
    case Reject(RejectReply) => Next(e)
    case Predefined => Stop(Verdict(i, false, None, Preset(i)))
  }

  predicate Hit(q: Query, i: nat, e: Env)
    requires i < |q.rules|
  {
    Matches(q, i, AnonResponse(e), Responses(e))
  }

  /** Rule i taken in order; race rules are passed over. */
  function StepAt(q: Query, i: nat, e: Env): Step
    requires i < |q.rules|
  {
    if q.rules[i].Races() || !Hit(q, i, e) then Next(e) else Enact(q, i, e)
  }

  /** What race rule i decides when judged with every response it binds, if it decides at all. */
  function RaceVerdict(q: Query, i: nat, e: Env): Option<Verdict>
    requires i < |q.rules|
  {
    if !Hit(q, i, e) then None else
    var r := q.rules[i];
    match r.action
    case Respond => Some(Verdict(i, true, None, ReplyWith(Chosen(r, e))))
    case Route(server, _, own) =>
      (match ResolveRoute(q, server)
       case None => None
       case Some(t) => Some(Asked(q, i, true, t, RouteWith(e.options, t, own))))
    case Reject(RejectDefault) => Some(Verdict(i, true, None, Refused))
    case Reject(RejectDrop) => Some(Verdict(i, true, None, Dropped))
    case Reject(RejectReply) => None
    case Predefined => Some(Verdict(i, true, None, Preset(i)))
    case SetOptions(_) => None
    case Evaluate(_, _, _, _) => None
  }

  /** The sequential interpreter from rule i on. */
  function RunFrom(q: Query, i: nat, e: Env): Verdict
    requires i <= |q.rules|
    decreases |q.rules| - i
  {
    if i == |q.rules| then Asked(q, i, false, q.fallback, e.options) else
    match StepAt(q, i, e)
    case Next(e1) => RunFrom(q, i + 1, e1)
    case Stop(v) => v
  }

  function Sequential(q: Query): Verdict { RunFrom(q, 0, Start(q)) }

  /** The environment in which the interpreter reaches rule i, if it gets that far. */
  function Arrive(q: Query, i: nat): Option<Env>
    requires i <= |q.rules|
  {
    if i == 0 then Some(Start(q)) else
    match Arrive(q, i - 1)
    case None => None
    case Some(e) => (match StepAt(q, i - 1, e) case Next(e1) => Some(e1) case Stop(_) => None)
  }

  lemma {:induction false} ArriveRuns(q: Query, i: nat)
    requires i <= |q.rules| && Arrive(q, i).Some?
    ensures RunFrom(q, i, Arrive(q, i).value) == Sequential(q)
  {
    if i > 0 { ArriveRuns(q, i - 1); }
  }

  /** A race rule that decides the query when it is judged. */
  ghost predicate Winner(q: Query, j: nat) {
    && j < |q.rules| && q.rules[j].Races()
    && Arrive(q, j).Some? && RaceVerdict(q, j, Arrive(q, j).value).Some?
  }

  /** What the walk must answer: either the sequential verdict, with no winning race rule before it,
      or the verdict of a winning race rule. */
  ghost predicate Right(q: Query, v: Verdict) {
    if v.raced then Winner(q, v.at) && RaceVerdict(q, v.at, Arrive(q, v.at).value) == Some(v)
    else v == Sequential(q) && forall j | 0 <= j < v.at :: !Winner(q, j)
  }

  /** The scoping every accepted rule list has: an evaluate tag is defined once, and never at or
      after a rule that binds it; a respond action binds exactly the response it returns. */
  ghost predicate Scoped(rules: seq<Rule>) {
    && (forall i, j, t | 0 <= i < j < |rules| && rules[i].Defines(t) :: !rules[j].Defines(t))
    && (forall i, j, t | 0 <= i <= j < |rules| && t in rules[i].tags :: !rules[j].Defines(t))
    && (forall i | 0 <= i < |rules| :: RespondScoped(rules[i]))
  }

  predicate RespondScoped(r: Rule) {
    r.action.Respond? ==> if r.responseTag == "" then r.tags == [] else r.tags == [r.responseTag] && !r.anonymous
  }

  // ---- what of an environment can still show

  /** A tag that some rule which shows reads. */
  ghost predicate LiveTag(rules: seq<Rule>, t: Tag) {
    exists k | 0 <= k < |rules| :: t in rules[k].tags && Shows(rules, k)
  }

  /** From rule i on, some rule which shows reads the anonymous response. */
  ghost predicate LiveAnon(rules: seq<Rule>, i: nat) {
    exists k | i <= k < |rules| :: ReadsFrom(rules[k], "") && Shows(rules, k)
  }

  ghost predicate AgreeNamed(rules: seq<Rule>, e: Env, e': Env) {
    forall t | LiveTag(rules, t) ::
        (t in e.named <==> t in e'.named) && (t in e.named && t in e'.named ==> e.named[t] == e'.named[t])
  }

  /** Two environments that no rule from i on which shows can tell apart. */
  ghost predicate Agrees(rules: seq<Rule>, i: nat, e: Env, e': Env) {
    && e.options == e'.options
    && (LiveAnon(rules, i) ==> e.anon == e'.anon)
    && AgreeNamed(rules, e, e')
  }

  /** One step of the interpreter leads, as far as can show, to the environment e'. */
  ghost predicate StepsTo(q: Query, i: nat, e: Env, e': Env)
    requires i < |q.rules|
  {
    StepAt(q, i, e).Next? && Agrees(q.rules, i + 1, StepAt(q, i, e).env, e')
  }

  lemma AgreesTrans(rules: seq<Rule>, i: nat, a: Env, b: Env, c: Env)
    requires Agrees(rules, i, a, b) && Agrees(rules, i, b, c)
    ensures Agrees(rules, i, a, c)
  {
    hide LiveTag, LiveAnon;
  }

  lemma AgreesOn(rules: seq<Rule>, i: nat, e: Env, e': Env)
    requires Agrees(rules, i, e, e')
    ensures Agrees(rules, i + 1, e, e')
  {
    if LiveAnon(rules, i + 1) {
      var k :| i + 1 <= k < |rules| && ReadsFrom(rules[k], "") && Shows(rules, k);
      assert LiveAnon(rules, i);
    }
  }

  lemma NoopApplies(o: QueryOptions, own: RouteOptions)
    requires Noop(own)
    ensures ApplyRouteOptions(o, own) == o
  {
  }

  /** A rule that shows reads live parts only. */
  lemma ReadsLive(rules: seq<Rule>, i: nat)
    requires i < |rules| && Shows(rules, i)
    ensures (forall t | t in rules[i].tags :: LiveTag(rules, t)) && (ReadsFrom(rules[i], "") ==> LiveAnon(rules, i))
  {
  }

  /** What an evaluate that does not show writes is dead. */
  lemma WritesDead(rules: seq<Rule>, i: nat)
    requires Scoped(rules) && i < |rules| && !Shows(rules, i) && !rules[i].Races() && rules[i].action.Evaluate?
    ensures var t := rules[i].action.tag; if t == "" then !LiveAnon(rules, i + 1) else !LiveTag(rules, t)
  {
    var t := rules[i].action.tag;
    if t != "" {
      assert rules[i].Defines(t);
      forall k | 0 <= k < |rules| && t in rules[k].tags ensures !Shows(rules, k) {
        assert i < k && ReadsFrom(rules[k], t);
      }
    }
  }

  lemma SameHit(q: Query, i: nat, e: Env, e': Env)
    requires i < |q.rules| && Shows(q.rules, i) && Agrees(q.rules, i, e, e')
    ensures Hit(q, i, e) == Hit(q, i, e')
  {
    hide Shows, LiveTag, LiveAnon;
    var r := q.rules[i];
    ReadsLive(q.rules, i);
    assert Restrict(r.tags, Responses(e)) == Restrict(r.tags, Responses(e')) by {
      forall t | t in r.tags
        ensures (if t in Responses(e) then Responses(e)[t] else None) ==
                  (if t in Responses(e') then Responses(e')[t] else None)
      {
        assert LiveTag(q.rules, t);
      }
    }
  }

  lemma SameChoice(rules: seq<Rule>, i: nat, e: Env, e': Env)
    requires i < |rules| && Shows(rules, i) && Agrees(rules, i, e, e') && rules[i].action.Respond?
    requires RespondScoped(rules[i])
    ensures Chosen(rules[i], e) == Chosen(rules[i], e')
  {
    hide Shows, LiveTag, LiveAnon;
    ReadsLive(rules, i);
  }

  /** A matched rule that shows does the same to environments that agree. */
  lemma EnactAgrees(q: Query, i: nat, e: Env, e': Env)
    requires i < |q.rules| && Shows(q.rules, i) && Agrees(q.rules, i, e, e') && RespondScoped(q.rules[i])
    ensures match Enact(q, i, e)
            case Stop(v) => Enact(q, i, e') == Stop(v)
            case Next(n) => Enact(q, i, e').Next? && Agrees(q.rules, i + 1, n, Enact(q, i, e').env)
  {
    hide Shows, LiveTag, LiveAnon;
    AgreesOn(q.rules, i, e, e');
    if q.rules[i].action.Respond? { SameChoice(q.rules, i, e, e'); }
  }

  /** A rule that does not show leaves an environment that agrees with the one it found. */
  lemma DeadStep(q: Query, i: nat, e: Env)
    requires Scoped(q.rules) && i < |q.rules| && !Shows(q.rules, i)
    ensures StepsTo(q, i, e, e)
  {
    hide LiveTag, LiveAnon, Scoped;
    var r := q.rules[i];
    if !r.Races() {
      if r.action.SetOptions? { NoopApplies(e.options, r.action.options); }
      if r.action.Evaluate? { WritesDead(q.rules, i); }
    }
  }

  /** The interpreter cannot tell environments that agree apart. */
  lemma StepAgrees(q: Query, i: nat, e: Env, e': Env)
    requires Scoped(q.rules) && i < |q.rules| && Agrees(q.rules, i, e, e')
    ensures match StepAt(q, i, e')
            case Stop(v) => StepAt(q, i, e) == Stop(v)
            case Next(n) => StepAt(q, i, e).Next? && Agrees(q.rules, i + 1, StepAt(q, i, e).env, n)
  {
    hide Shows, Enact, Hit, Agrees;
    assert RespondScoped(q.rules[i]);
    AgreesOn(q.rules, i, e, e');
    AgreesBack(q.rules, i, e, e');
    if Shows(q.rules, i) {
      SameHit(q, i, e, e');
      EnactAgrees(q, i, e', e);
      if StepAt(q, i, e').Next? { AgreesBack(q.rules, i + 1, StepAt(q, i, e').env, StepAt(q, i, e).env); }
    } else {
      DeadStep(q, i, e);
      DeadStep(q, i, e');
      AgreesTrans(q.rules, i + 1, StepAt(q, i, e).env, e, e');
      AgreesBack(q.rules, i + 1, StepAt(q, i, e').env, e');
      AgreesTrans(q.rules, i + 1, StepAt(q, i, e).env, e', StepAt(q, i, e').env);
    }
  }

  lemma AgreesBack(rules: seq<Rule>, i: nat, e: Env, e': Env)
    ensures Agrees(rules, i, e, e') ==> Agrees(rules, i, e', e)
  {
    hide LiveTag, LiveAnon;
  }
}
