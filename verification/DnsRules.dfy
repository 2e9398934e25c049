// Compiled DNS rules and the query options they rewrite (dns/router.go,
// route/rule/rule_dns.go, adapter/dns.go).
module DnsRules {
  import opened Base

  type Tag = string
  type Msg = string // a DNS response, identified by its wire form

  datatype Strategy = AsIs | PreferIPv4 | PreferIPv6 | IPv4Only | IPv6Only
  datatype Prefix = Prefix(address: seq<int>, bits: nat)

  /** adapter.DNSQueryOptions without the explicit transport, which bypasses the rules. */
  datatype QueryOptions = QueryOptions(
    strategy: Strategy,
    disableCache: bool,
    disableOptimisticCache: bool,
    rewriteTTL: Option<nat>,
    timeout: nat,
    clientSubnet: Option<Prefix>,
    removeClientSubnet: bool)

  /** The option fields a rule action carries. */
  datatype RouteOptions = RouteOptions(
    strategy: Strategy,
    disableCache: bool,
    disableOptimisticCache: bool,
    rewriteTTL: Option<nat>,
    timeout: nat,
    clientSubnet: Option<Prefix>,
    removeClientSubnet: bool)

  datatype RejectMethod = RejectDefault | RejectDrop | RejectReply

  datatype Action =
    | SetOptions(options: RouteOptions)
    | Evaluate(server: string, tag: Tag, speculative: bool, options: RouteOptions)
    | Respond
    | Route(server: string, speculative: bool, options: RouteOptions)
    | Reject(how: RejectMethod)
    | Predefined

  /** tags, anonymous and responseTag are MatchResponseTags, MatchResponseAnonymous and
      MatchResponseTag; the empty tag stands for "no tag" as in the source. */
  datatype Rule = Rule(action: Action, race: bool, tags: seq<Tag>, anonymous: bool, responseTag: Tag)
  {
    predicate Binds() { |tags| > 0 || anonymous }
    /** Such a rule is armed instead of being matched in place. */
    predicate Races() { race && Binds() }
    predicate Defines(t: Tag) { action.Evaluate? && action.tag == t && t != "" }
  }

  datatype Transport = Transport(tag: string, fakeIP: bool)
  datatype Outcome = Answer(response: Msg) | Failure(error: string)

  /** What one query is evaluated against: the rule list, the caller's options, the rule matcher,
      the exchange oracle and the transport manager. The matcher sees the rule index, the anonymous
      response and the named responses. */
  datatype Query = Query(
    rules: seq<Rule>,
    caller: QueryOptions,
    matcher: (nat, Option<Msg>, map<Tag, Option<Msg>>) -> bool,
    exchange: (Transport, QueryOptions) -> Outcome,
    servers: map<string, Transport>,
    fallback: Transport,
    allowFakeIP: bool,
    strategy: Strategy)

  function ApplyRouteOptions(o: QueryOptions, r: RouteOptions): QueryOptions {
    var o := if r.disableCache then o.(disableCache := true) else o;
    var o := if r.disableOptimisticCache then o.(disableOptimisticCache := true) else o;
    var o := if r.rewriteTTL.Some? then o.(rewriteTTL := r.rewriteTTL) else o;
    var o := if r.timeout > 0 then o.(timeout := r.timeout) else o;
    var o := if r.clientSubnet.Some? then o.(clientSubnet := r.clientSubnet, removeClientSubnet := false) else o;
    if r.removeClientSubnet then o.(clientSubnet := None, removeClientSubnet := true) else o
  }

  function Finalize(q: Query, o: QueryOptions): QueryOptions {
    if o.strategy == AsIs then o.(strategy := q.strategy) else o
  }

  function Resolve(q: Query, server: string): Option<Transport> {
    if server in q.servers then Some(q.servers[server]) else None
  }

  /** resolveDNSRoute: the transport a route action ends on, if it ends on one. */
  function ResolveRoute(q: Query, server: string): Option<Transport> {
    match Resolve(q, server)
    case Some(t) => if t.fakeIP && !q.allowFakeIP then None else Some(t)
    case None => None
  }

  /** The options a route action exchanges with, from the options in force. */
  function RouteWith(base: QueryOptions, t: Transport, own: RouteOptions): QueryOptions {
    var o := ApplyRouteOptions(base, own);
    if t.fakeIP then o.(disableCache := true) else o
  }

  /** A rule only sees the responses it binds. */
  function Matches(q: Query, i: nat, anon: Option<Msg>, named: map<Tag, Option<Msg>>): bool
    requires i < |q.rules|
  {
    var r := q.rules[i];
    q.matcher(i, if r.anonymous then anon else None, Restrict(r.tags, named))
  }

  function Restrict(tags: seq<Tag>, named: map<Tag, Option<Msg>>): map<Tag, Option<Msg>> {
    map t | t in tags :: if t in named then named[t] else None
  }

  // ---- what a sequence of route options amounts to

  function Fold(o: QueryOptions, rs: seq<RouteOptions>): QueryOptions {
    if rs == [] then o else ApplyRouteOptions(Fold(o, rs[..|rs| - 1]), rs[|rs| - 1])
  }

  predicate TouchesSubnet(r: RouteOptions) { r.clientSubnet.Some? || r.removeClientSubnet }

  /** One application, field by field. */
  lemma AppliedFields(o: QueryOptions, r: RouteOptions)
    ensures var a := ApplyRouteOptions(o, r);
            && a.strategy == o.strategy
            && a.disableCache == (o.disableCache || r.disableCache)
            && a.disableOptimisticCache == (o.disableOptimisticCache || r.disableOptimisticCache)
            && a.rewriteTTL == (if r.rewriteTTL.Some? then r.rewriteTTL else o.rewriteTTL)
            && a.timeout == (if r.timeout > 0 then r.timeout else o.timeout)
            && a.clientSubnet ==
                (if r.removeClientSubnet then None else if r.clientSubnet.Some? then r.clientSubnet else o.clientSubnet)
            && a.removeClientSubnet == (r.removeClientSubnet || (r.clientSubnet.None? && o.removeClientSubnet))
  {
  }

  /** A flag is on when the caller or any rule turns it on; the strategy stays the caller's. */
  lemma {:induction false} FoldFlags(o: QueryOptions, rs: seq<RouteOptions>)
    ensures Fold(o, rs).disableCache <==> o.disableCache || exists i | 0 <= i < |rs| :: rs[i].disableCache
    ensures Fold(o, rs).disableOptimisticCache <==>
              o.disableOptimisticCache || exists i | 0 <= i < |rs| :: rs[i].disableOptimisticCache
    ensures Fold(o, rs).strategy == o.strategy
  {
    hide ApplyRouteOptions;
    if rs != [] {
      var front := rs[..|rs| - 1];
      FoldFlags(o, front);
      AppliedFields(Fold(o, front), rs[|rs| - 1]);
      assert forall i | 0 <= i < |front| :: rs[i] == front[i];
    }
  }

  /** A value is the one the last rule that sets it sets. */
  lemma {:induction false} FoldLastWins(o: QueryOptions, rs: seq<RouteOptions>, k: nat)
    requires k < |rs|
    ensures rs[k].rewriteTTL.Some? && (forall i | k < i < |rs| :: rs[i].rewriteTTL.None?) ==>
              Fold(o, rs).rewriteTTL == rs[k].rewriteTTL
    ensures rs[k].timeout > 0 && (forall i | k < i < |rs| :: rs[i].timeout == 0) ==>
              Fold(o, rs).timeout == rs[k].timeout
    ensures TouchesSubnet(rs[k]) && (forall i | k < i < |rs| :: !TouchesSubnet(rs[i])) ==>
              if rs[k].removeClientSubnet then Fold(o, rs).clientSubnet.None? && Fold(o, rs).removeClientSubnet
              else Fold(o, rs).clientSubnet == rs[k].clientSubnet && !Fold(o, rs).removeClientSubnet
  {
    hide ApplyRouteOptions;
    var front := rs[..|rs| - 1];
    AppliedFields(Fold(o, front), rs[|rs| - 1]);
    if k < |front| {
      FoldLastWins(o, front, k);
      assert forall i | 0 <= i < |front| :: rs[i] == front[i];
    }
  }

  /** What no rule sets stays the caller's. */
  lemma {:induction false} FoldKeeps(o: QueryOptions, rs: seq<RouteOptions>)
    ensures (forall i | 0 <= i < |rs| :: rs[i].rewriteTTL.None?) ==> Fold(o, rs).rewriteTTL == o.rewriteTTL
    ensures (forall i | 0 <= i < |rs| :: rs[i].timeout == 0) ==> Fold(o, rs).timeout == o.timeout
    ensures (forall i | 0 <= i < |rs| :: !TouchesSubnet(rs[i])) ==>
              Fold(o, rs).clientSubnet == o.clientSubnet && Fold(o, rs).removeClientSubnet == o.removeClientSubnet
  {
    hide ApplyRouteOptions;
    if rs != [] {
      FoldKeeps(o, rs[..|rs| - 1]);
      AppliedFields(Fold(o, rs[..|rs| - 1]), rs[|rs| - 1]);
    }
  }

  // ---- which rules can be told from the verdict

  predicate Noop(own: RouteOptions) {
    && !own.disableCache && !own.disableOptimisticCache && own.rewriteTTL.None? && own.timeout == 0
    && own.clientSubnet.None? && !own.removeClientSubnet
  }

  /** A rule reads what an evaluate with the given tag writes; the empty tag is the anonymous response. */
  predicate ReadsFrom(r: Rule, t: Tag) {
    if t == "" then r.anonymous || (r.action.Respond? && r.responseTag == "") else t in r.tags
  }

  /** Whether rule i matches can show in the verdict: it decides, it sets an option, or it evaluates into
      a response that a later rule which shows reads. */
  predicate Shows(rules: seq<Rule>, i: nat)
    requires i < |rules|
    decreases |rules| - i
  {
    var r := rules[i];
    match r.action
    case SetOptions(own) => !r.Races() && !Noop(own)
    case Evaluate(_, tag, _, _) => !r.Races() && exists k | i < k < |rules| ::
        ReadsFrom(rules[k], tag) && Shows(rules, k)
    case Reject(how) => !how.RejectReply?
    case _ => true
  }
}
