// Legacy DNS mode: the matching loop and the retry loop of dns/router.go.
module DnsLegacy {
  import opened Base
  import opened DnsRules

  /** preMatch is LegacyPreMatch of this query; addressLimit is WithAddressLimit. */
  datatype LegacyRule = LegacyRule(action: Action, addressLimit: bool, preMatch: bool)

  datatype Reply = Answered(response: Msg) | Rejected | Broken(error: string)

  /** One query: the rules, the caller's options, whether it asks for addresses, the transports and
      the exchange oracle. The oracle is told which rule checks the response, if any does. */
  datatype LegacyQuery = LegacyQuery(
    rules: seq<LegacyRule>,
    caller: QueryOptions,
    addressQuery: bool,
    allowFakeIP: bool,
    servers: map<string, Transport>,
    fallback: Transport,
    ask: (Transport, QueryOptions, Option<nat>) -> Reply)

  datatype LegacyVerdict =
    | LegacyRefused(rule: nat)
    | LegacyDropped(rule: nat)
    | LegacyPreset(rule: nat)
    | NoTransport(rule: nat)   // an exchange over no transport, which the client cannot survive
    | Exchanged(rule: nat, transport: Transport, options: QueryOptions, reply: Reply)

  function LegacyApply(o: QueryOptions, r: RouteOptions): QueryOptions {
    var o := if r.strategy != AsIs then o.(strategy := r.strategy) else o;
    var o := if r.disableCache then o.(disableCache := true) else o;
    var o := if r.rewriteTTL.Some? then o.(rewriteTTL := r.rewriteTTL) else o;
    var o := if r.timeout > 0 then o.(timeout := r.timeout) else o;
    var o := if r.clientSubnet.Some? then o.(clientSubnet := r.clientSubnet, removeClientSubnet := false) else o;
    if r.removeClientSubnet then o.(clientSubnet := None, removeClientSubnet := true) else o
  }

  function LegacyRoute(o: QueryOptions, t: Transport, own: RouteOptions): QueryOptions {
    var o := LegacyApply(o, own);
    if t.fakeIP then o.(disableCache := true) else o
  }

  /** Legacy route options are the others' plus the strategy, and leave the optimistic cache alone. */
  lemma LegacyExtends(o: QueryOptions, r: RouteOptions)
    ensures LegacyApply(o, r) ==
            ApplyRouteOptions(o, r.(disableOptimisticCache := false)).(strategy := if r.strategy ==
                AsIs then o.strategy else r.strategy)
  {
  }

  // ---- the declarative reading

  predicate Eligible(q: LegacyQuery, i: nat)
    requires i < |q.rules|
  {
    (!q.rules[i].addressLimit || q.addressQuery) && q.rules[i].preMatch
  }

  function Target(q: LegacyQuery, server: string): Option<Transport> {
    if server in q.servers && (!q.servers[server].fakeIP || q.allowFakeIP) then Some(q.servers[server]) else None
  }

  /** Rule i ends one run of the matching loop. */
  predicate Stops(q: LegacyQuery, i: nat)
    requires i < |q.rules|
  {
    Eligible(q, i) &&
    match q.rules[i].action
    case Route(server, _, _) => Target(q, server).Some?
    case Reject(_) => true
    case Predefined => true
    case _ => false
  }

  /** The caller's options folded with the eligible route-options rules of [lo, k). */
  function Between(q: LegacyQuery, lo: nat, k: nat): QueryOptions
    requires lo <= k <= |q.rules|
    decreases k
  {
    if k == lo then q.caller else
    var o := Between(q, lo, k - 1);
    if Eligible(q, k - 1) && q.rules[k - 1].action.SetOptions? then LegacyApply(o, q.rules[k - 1].action.options) else o
  }

  /** One past the last rule below i that ends a run of the matching loop. */
  function Since(q: LegacyQuery, i: nat): (lo: nat)
    requires i <= |q.rules|
    ensures lo <= i && (lo > 0 ==> Stops(q, lo - 1)) && forall j | lo <= j < i :: !Stops(q, j)
  {
    if i == 0 then 0 else if Stops(q, i - 1) then i else Since(q, i - 1)
  }

  /** The exchange rule i makes when its turn comes: options are rebuilt from the caller's, so only
      route-options rules after the previously rejected rule count. */
  function Attempt(q: LegacyQuery, i: nat): (Transport, QueryOptions)
    requires i <= |q.rules| && (i < |q.rules| ==> q.rules[i].action.Route? && Stops(q, i))
  {
    var o := Between(q, Since(q, i), i);
    if i == |q.rules| then (q.fallback, o) else
    var Route(server, _, own) := q.rules[i].action;
    var t := Target(q, server).value;
    (t, LegacyRoute(o, t, own))
  }

  function ReplyAt(q: LegacyQuery, i: nat): Reply
    requires i <= |q.rules| && (i < |q.rules| ==> q.rules[i].action.Route? && Stops(q, i))
  {
    var (t, o) := Attempt(q, i);
    q.ask(t, o, if i < |q.rules| && q.rules[i].addressLimit then Some(i) else None)
  }

  /** Rule i is tried and its response thrown away. */
  predicate Discarded(q: LegacyQuery, i: nat)
    requires i < |q.rules|
  {
    Stops(q, i) && q.rules[i].action.Route? && q.rules[i].addressLimit && ReplyAt(q, i).Rejected?
  }

  function VerdictAt(q: LegacyQuery, i: nat): LegacyVerdict
    requires i <= |q.rules| && (i < |q.rules| ==> Stops(q, i))
  {
    if i < |q.rules| && q.rules[i].action == Reject(RejectDrop) then LegacyDropped(i)
    else if i < |q.rules| && q.rules[i].action == Reject(RejectReply) then NoTransport(i)
    else if i < |q.rules| && q.rules[i].action.Reject? then LegacyRefused(i)
    else if i < |q.rules| && q.rules[i].action.Predefined? then LegacyPreset(i)
    else var (t, o) := Attempt(q, i); Exchanged(i, t, o, ReplyAt(q, i))
  }

  /** The deciding rule (the number of rules stands for the default transport): it ends the search
      and is not discarded, and every earlier rule that ends a search is. */
  ghost predicate Decides(q: LegacyQuery, k: nat) {
    && k <= |q.rules|
    && (k < |q.rules| ==> Stops(q, k) && !Discarded(q, k))
    && forall i | 0 <= i < k :: Stops(q, i) ==> Discarded(q, i)
  }

  /** What a legacy verdict means for the caller, said of the query alone. The rule that decides matched, is for
      address queries only if this is one, and its action is final; a route goes to the server it names, to
      fakeip only where that is allowed and then without the cache, and has its response checked exactly when it
      limits addresses. */
  lemma VerdictMeans(q: LegacyQuery, k: nat)
    requires Decides(q, k)
    ensures var v := VerdictAt(q, k);
            if k == |q.rules| then
              v.Exchanged? && v.rule == k && v.transport == q.fallback
                  && v.reply == q.ask(q.fallback, v.options, None)
            else
              && q.rules[k].preMatch && (q.rules[k].addressLimit ==> q.addressQuery)
              && match q.rules[k].action
                 case Route(server, _, _) =>
                   && server in q.servers && (q.servers[server].fakeIP ==> q.allowFakeIP)
                   && v.Exchanged? && v.rule == k && v.transport == q.servers[server]
                   && (v.transport.fakeIP ==> v.options.disableCache)
                   && v.reply == q.ask(v.transport, v.options, if q.rules[k].addressLimit then Some(k) else None)
                   && (q.rules[k].addressLimit ==> !v.reply.Rejected?)
                 case Reject(RejectDefault) => v == LegacyRefused(k)
                 case Reject(RejectDrop) => v == LegacyDropped(k)
                 case Reject(RejectReply) => v == NoTransport(k)
                 case Predefined => v == LegacyPreset(k)
                 case _ => false
    ensures forall i | 0 <= i < k && Stops(q, i) ::
              && q.rules[i].action.Route? && q.rules[i].addressLimit
              && q.ask(Attempt(q, i).0, Attempt(q, i).1, Some(i)).Rejected?
  {
    hide LegacyApply, Between;
  }

  /** Which rules the search does not end at: those that do not match, those for address queries when this is
      none, those whose action is not final, and routes to a server that is unknown, or fakeip where that is not
      allowed. */
  lemma StopsMeans(q: LegacyQuery, i: nat)
    requires i < |q.rules|
    ensures !Stops(q, i) <==>
            || !q.rules[i].preMatch || (q.rules[i].addressLimit && !q.addressQuery)
            || q.rules[i].action.SetOptions? || q.rules[i].action.Evaluate? || q.rules[i].action.Respond?
            || (q.rules[i].action.Route? &&
                var server := q.rules[i].action.server;
                server !in q.servers || (q.servers[server].fakeIP && !q.allowFakeIP))
  {
  }

  lemma DecidesUnique(q: LegacyQuery, k: nat, l: nat)
    requires Decides(q, k) && Decides(q, l)
    ensures k == l
  {
  }

  // ---- the loops

  lemma SinceIs(q: LegacyQuery, lo: nat, k: nat)
    requires lo <= k <= |q.rules| && (lo > 0 ==> Stops(q, lo - 1)) && forall j | lo <= j < k :: !Stops(q, j)
    ensures Since(q, k) == lo
  {
  }

  /** matchDNS from rule index `from` on. */
  method MatchDns(q: LegacyQuery, from: nat) returns (k: nat, transport: Transport, options: QueryOptions)
    requires from <= |q.rules| && (from > 0 ==> Stops(q, from - 1))
    ensures from <= k <= |q.rules| && (k < |q.rules| ==> Stops(q, k)) && forall j | from <= j < k :: !Stops(q, j)
    ensures k == |q.rules| || q.rules[k].action.Route? ==> (transport, options) == Attempt(q, k)
  {
    options, transport := q.caller, q.fallback;
    k := from;
    while k < |q.rules|
      invariant from <= k <= |q.rules| && transport == q.fallback
      invariant options == Between(q, from, k)
      invariant forall j | from <= j < k :: !Stops(q, j)
    {
      var rule := q.rules[k];
      if !(rule.addressLimit && !q.addressQuery) && rule.preMatch {
        match rule.action {
          case Route(server, _, own) =>
            if server in q.servers && !(q.servers[server].fakeIP && !q.allowFakeIP) {
              transport := q.servers[server];
              options := LegacyRoute(options, transport, own);
              SinceIs(q, from, k);
              return;
            }
          case SetOptions(own) => options := LegacyApply(options, own);
          case Reject(_) => return;
          case Predefined => return;
          case _ =>
        }
      }
      k := k + 1;
    }
    SinceIs(q, from, k);
  }

  /** exchangeLegacy ends, and answers with the least rule that ends the search undiscarded. */
  method ExchangeLegacy(q: LegacyQuery) returns (v: LegacyVerdict)
    ensures exists k :: Decides(q, k) && v == VerdictAt(q, k)
  {
    hide Attempt, Eligible, Target, Since, Between;
    var next := 0;
    while true
      invariant next <= |q.rules| && (next > 0 ==> Stops(q, next - 1))
      invariant forall i | 0 <= i < next :: Stops(q, i) ==> Discarded(q, i)
      decreases |q.rules| - next
    {
      var k, transport, options := MatchDns(q, next);
      if k < |q.rules| {
        var action := q.rules[k].action;
        assert !action.Route? ==> Decides(q, k);
        match action {
          case Reject(RejectDefault) => return LegacyRefused(k);
          case Reject(RejectDrop) => return LegacyDropped(k);
          case Reject(RejectReply) => return NoTransport(k);
          case Predefined => return LegacyPreset(k);
          case _ =>
        }
      }
      var checked := k < |q.rules| && q.rules[k].addressLimit;
      var reply := q.ask(transport, options, if checked then Some(k) else None);
      if checked && reply.Rejected? {
        next := k + 1;
        continue;
      }
      assert Decides(q, k);
      return Exchanged(k, transport, options, reply);
    }
  }

  // ---- options of a retry

  /** The first attempt uses every eligible route-options rule before it. */
  lemma FirstAttemptFolds(q: LegacyQuery, i: nat)
    requires i < |q.rules| && q.rules[i].action.Route? && Stops(q, i) && forall j | 0 <= j < i :: !Stops(q, j)
    ensures var Route(server, _, own) := q.rules[i].action;
            Attempt(q, i).1 == LegacyRoute(Between(q, 0, i), Target(q, server).value, own)
  {
    SinceIs(q, 0, i);
  }

  datatype Field = StrategyField | CacheField | TtlField | TimeoutField | SubnetField

  predicate Sets(r: RouteOptions, f: Field) {
    match f
    case StrategyField => r.strategy != AsIs
    case CacheField => r.disableCache
    case TtlField => r.rewriteTTL.Some?
    case TimeoutField => r.timeout > 0
    case SubnetField => TouchesSubnet(r)
  }

  predicate SameField(o: QueryOptions, p: QueryOptions, f: Field) {
    match f
    case StrategyField => o.strategy == p.strategy
    case CacheField => o.disableCache == p.disableCache
    case TtlField => o.rewriteTTL == p.rewriteTTL
    case TimeoutField => o.timeout == p.timeout
    case SubnetField => o.clientSubnet == p.clientSubnet && o.removeClientSubnet == p.removeClientSubnet
  }

  /** An eligible route-options rule in [lo, hi) sets the field. */
  predicate SetIn(q: LegacyQuery, f: Field, lo: nat, hi: nat)
    requires hi <= |q.rules|
  {
    exists k | lo <= k < hi :: Eligible(q, k) && q.rules[k].action.SetOptions? && Sets(q.rules[k].action.options, f)
  }

  /** Rule i itself sets the field; a fakeip server turns the cache off. */
  predicate SetByOwn(q: LegacyQuery, i: nat, f: Field)
    requires i <= |q.rules| && (i < |q.rules| ==> q.rules[i].action.Route? && Stops(q, i))
  {
    i < |q.rules|
        && (Sets(q.rules[i].action.options, f) || (f == CacheField && Target(q, q.rules[i].action.server).value.fakeIP))
  }

  /** Every field that a route-options rule before the last stop sets is set again after it. */
  ghost predicate Restored(q: LegacyQuery, i: nat)
    requires i <= |q.rules| && (i < |q.rules| ==> q.rules[i].action.Route? && Stops(q, i))
  {
    forall f | SetIn(q, f, 0, Since(q, i)) :: SetIn(q, f, Since(q, i), i) || SetByOwn(q, i, f)
  }

  /** The options o folded with the eligible route-options rules of [lo, k). */
  function FoldFrom(q: LegacyQuery, o: QueryOptions, lo: nat, k: nat): QueryOptions
    requires lo <= k <= |q.rules|
    decreases k
  {
    if k == lo then o else
    var p := FoldFrom(q, o, lo, k - 1);
    if Eligible(q, k - 1) && q.rules[k - 1].action.SetOptions? then LegacyApply(p, q.rules[k - 1].action.options) else p
  }

  function Own(q: LegacyQuery, i: nat, o: QueryOptions): QueryOptions
    requires i <= |q.rules| && (i < |q.rules| ==> q.rules[i].action.Route? && Stops(q, i))
  {
    if i == |q.rules| then o else LegacyRoute(o, Target(q, q.rules[i].action.server).value, q.rules[i].action.options)
  }

  lemma ApplyField(o: QueryOptions, p: QueryOptions, r: RouteOptions, f: Field)
    ensures SameField(o, p, f) || Sets(r, f) ==> SameField(LegacyApply(o, r), LegacyApply(p, r), f)
    ensures !Sets(r, f) ==> SameField(LegacyApply(o, r), o, f)
    ensures LegacyApply(o, r).disableOptimisticCache == o.disableOptimisticCache
  {
    hide LegacyApply;
    LegacyFields(o, r);
    LegacyFields(p, r);
  }

  /** One application, field by field. */
  lemma LegacyFields(o: QueryOptions, r: RouteOptions)
    ensures var a := LegacyApply(o, r);
            && a.strategy == (if r.strategy == AsIs then o.strategy else r.strategy)
            && a.disableCache == (o.disableCache || r.disableCache)
            && a.disableOptimisticCache == o.disableOptimisticCache
            && a.rewriteTTL == (if r.rewriteTTL.Some? then r.rewriteTTL else o.rewriteTTL)
            && a.timeout == (if r.timeout > 0 then r.timeout else o.timeout)
            && a.clientSubnet ==
                 (if r.removeClientSubnet then None else if r.clientSubnet.Some? then r.clientSubnet
                     else o.clientSubnet)
            && a.removeClientSubnet == (r.removeClientSubnet || (r.clientSubnet.None? && o.removeClientSubnet))
  {
  }

  lemma {:induction false} FoldField(q: LegacyQuery, o: QueryOptions, p: QueryOptions, lo: nat, k: nat, f: Field)
    requires lo <= k <= |q.rules|
    ensures SameField(o, p, f) || SetIn(q, f, lo, k) ==> SameField(FoldFrom(q, o, lo, k), FoldFrom(q, p, lo, k), f)
    ensures !SetIn(q, f, lo, k) ==> SameField(FoldFrom(q, o, lo, k), o, f)
    ensures FoldFrom(q, o, lo, k).disableOptimisticCache == o.disableOptimisticCache
    decreases k
  {
    hide LegacyApply, Sets, SameField, Eligible;
    Reflexive(o, f);
    if k > lo {
      FoldField(q, o, p, lo, k - 1, f);
      var o', p' := FoldFrom(q, o, lo, k - 1), FoldFrom(q, p, lo, k - 1);
      if q.rules[k - 1].action.SetOptions? {
        ApplyField(o', p', q.rules[k - 1].action.options, f);
        if SameField(o', o, f) { Transitive(LegacyApply(o', q.rules[k - 1].action.options), o', o, f); }
      }
    }
  }

  lemma Reflexive(o: QueryOptions, f: Field)
    ensures SameField(o, o, f)
  {
  }

  lemma Transitive(o: QueryOptions, p: QueryOptions, r: QueryOptions, f: Field)
    requires SameField(p, r, f)
    ensures SameField(o, p, f) <==> SameField(o, r, f)
    ensures SameField(p, o, f) <==> SameField(r, o, f)
  {
  }

  lemma OwnField(q: LegacyQuery, i: nat, o: QueryOptions, p: QueryOptions, f: Field)
    requires i <= |q.rules| && (i < |q.rules| ==> q.rules[i].action.Route? && Stops(q, i))
    ensures SameField(o, p, f) || SetByOwn(q, i, f) ==> SameField(Own(q, i, o), Own(q, i, p), f)
    ensures !SetByOwn(q, i, f) ==> SameField(Own(q, i, o), o, f)
    ensures Own(q, i, o).disableOptimisticCache == o.disableOptimisticCache
  {
    hide LegacyApply, Eligible;
    if i < |q.rules| { ApplyField(o, p, q.rules[i].action.options, f); }
  }

  /** The same query from another caller. */
  function From(q: LegacyQuery, o: QueryOptions): LegacyQuery { q.(caller := o) }

  lemma {:induction false} BetweenFolds(q: LegacyQuery, o: QueryOptions, lo: nat, k: nat)
    requires lo <= k <= |q.rules|
    ensures Between(From(q, o), lo, k) == FoldFrom(q, o, lo, k)
    decreases k
  {
    if k > lo {
      BetweenFolds(q, o, lo, k - 1);
      assert Eligible(From(q, o), k - 1) == Eligible(q, k - 1);
    }
  }

  lemma {:induction false} FoldSplit(q: LegacyQuery, o: QueryOptions, m: nat, k: nat)
    requires m <= k <= |q.rules|
    ensures FoldFrom(q, FoldFrom(q, o, 0, m), m, k) == FoldFrom(q, o, 0, k)
    decreases k
  {
    if k > m { FoldSplit(q, o, m, k - 1); }
  }

  lemma {:induction false} SinceSame(q: LegacyQuery, o: QueryOptions, i: nat)
    requires i <= |q.rules|
    ensures Since(From(q, o), i) == Since(q, i)
  {
    if i > 0 {
      StopsSame(q, o, i - 1);
      SinceSame(q, o, i - 1);
    }
  }

  lemma StopsSame(q: LegacyQuery, o: QueryOptions, i: nat)
    requires i < |q.rules|
    ensures Stops(From(q, o), i) == Stops(q, i)
  {
    assert Eligible(From(q, o), i) == Eligible(q, i);
  }

  /** The options rule i would use if no rule before it had been rejected. */
  ghost function FullFold(q: LegacyQuery, o: QueryOptions, i: nat): QueryOptions
    requires i <= |q.rules| && (i < |q.rules| ==> q.rules[i].action.Route? && Stops(q, i))
  {
    Own(q, i, Between(From(q, o), 0, i))
  }

  lemma AttemptFolds(q: LegacyQuery, o: QueryOptions, i: nat)
    requires i <= |q.rules| && (i < |q.rules| ==> q.rules[i].action.Route? && Stops(q, i))
    ensures i < |q.rules| ==> Stops(From(q, o), i)
    ensures Attempt(From(q, o), i).1 == Own(q, i, FoldFrom(q, o, Since(q, i), i))
    ensures FullFold(q, o, i) == Own(q, i, FoldFrom(q, FoldFrom(q, o, 0, Since(q, i)), Since(q, i), i))
  {
    hide Between, FoldFrom, Since, Stops;
    var m := Since(q, i);
    if i < |q.rules| { StopsSame(q, o, i); }
    SinceSame(q, o, i);
    BetweenFolds(q, o, m, i);
    BetweenFolds(q, o, 0, i);
    FoldSplit(q, o, m, i);
    assert forall server :: Target(From(q, o), server) == Target(q, server);
  }

  /** Options that differ from o in the given field. */
  function Flip(o: QueryOptions, f: Field): (p: QueryOptions)
    ensures !SameField(o, p, f)
  {
    match f
    case StrategyField => o.(strategy := if o.strategy == IPv4Only then IPv6Only else IPv4Only)
    case CacheField => o.(disableCache := !o.disableCache)
    case TtlField => o.(rewriteTTL := if o.rewriteTTL.None? then Some(0) else None)
    case TimeoutField => o.(timeout := o.timeout + 1)
    case SubnetField => o.(removeClientSubnet := !o.removeClientSubnet)
  }

  lemma SameOptions(o: QueryOptions, p: QueryOptions)
    requires o.disableOptimisticCache == p.disableOptimisticCache && forall f :: SameField(o, p, f)
    ensures o == p
  {
    assert SameField(o, p, StrategyField) && SameField(o, p, CacheField) && SameField(o, p, TtlField);
    assert SameField(o, p, TimeoutField) && SameField(o, p, SubnetField);
  }

  /** Whatever the caller's options, attempt i uses all route-options rules before it, exactly when every
      field set before the previous stop is set again after it or by the rule itself. */
  lemma RetryKeepsOptionsIff(q: LegacyQuery, i: nat)
    requires i <= |q.rules| && (i < |q.rules| ==> q.rules[i].action.Route? && Stops(q, i))
    ensures (forall o :: (i < |q.rules| ==> Stops(From(q, o), i)) && Attempt(From(q, o), i).1 == FullFold(q, o, i))
            <==> Restored(q, i)
  {
    hide Attempt, FullFold, FoldFrom, Own, SameField, Stops, SetIn, SetByOwn;
    if Restored(q, i) {
      forall o ensures (i < |q.rules| ==> Stops(From(q, o), i)) && Attempt(From(q, o), i).1 == FullFold(q, o, i) {
        AttemptFolds(q, o, i);
        RestoredFolds(q, o, i);
      }
    } else {
      var f :| SetIn(q, f, 0, Since(q, i)) && !(SetIn(q, f, Since(q, i), i) || SetByOwn(q, i, f));
      var o := Flip(FoldFrom(q, q.caller, 0, Since(q, i)), f);
      AttemptFolds(q, o, i);
      Forgotten(q, o, i, f);
    }
  }

  lemma RestoredFolds(q: LegacyQuery, o: QueryOptions, i: nat)
    requires i <= |q.rules| && (i < |q.rules| ==> q.rules[i].action.Route? && Stops(q, i)) && Restored(q, i)
    ensures var m := Since(q, i);
            Own(q, i, FoldFrom(q, o, m, i)) == Own(q, i, FoldFrom(q, FoldFrom(q, o, 0, m), m, i))
  {
    hide FoldFrom, Own, SameField, Stops, SetIn, SetByOwn;
    var m := Since(q, i);
    var before := FoldFrom(q, o, 0, m);
    var x, y := FoldFrom(q, o, m, i), FoldFrom(q, before, m, i);
    forall f ensures SameField(Own(q, i, x), Own(q, i, y), f) {
      FoldField(q, o, o, 0, m, f);
      Symmetric(before, o, f);
      FoldField(q, o, before, m, i, f);
      OwnField(q, i, x, y, f);
    }
    FoldField(q, o, o, 0, m, CacheField);
    FoldField(q, o, before, m, i, CacheField);
    FoldField(q, before, o, m, i, CacheField);
    OwnField(q, i, x, y, CacheField);
    OwnField(q, i, y, x, CacheField);
    SameOptions(Own(q, i, x), Own(q, i, y));
  }

  lemma Symmetric(o: QueryOptions, p: QueryOptions, f: Field)
    ensures SameField(o, p, f) <==> SameField(p, o, f)
  {
  }

  /** A field that only rules before the stop set is lost. */
  lemma Forgotten(q: LegacyQuery, o: QueryOptions, i: nat, f: Field)
    requires i <= |q.rules| && (i < |q.rules| ==> q.rules[i].action.Route? && Stops(q, i))
    requires var m := Since(q, i); SetIn(q, f, 0, m) && !SetIn(q, f, m, i) && !SetByOwn(q, i, f)
    requires !SameField(FoldFrom(q, q.caller, 0, Since(q, i)), o, f)
    ensures var m := Since(q, i);
            Own(q, i, FoldFrom(q, o, m, i)) != Own(q, i, FoldFrom(q, FoldFrom(q, o, 0, m), m, i))
  {
    hide FoldFrom, Own, SameField, Stops, SetIn, SetByOwn;
    var m := Since(q, i);
    var a, b := FoldFrom(q, q.caller, 0, m), FoldFrom(q, o, 0, m);
    FoldField(q, q.caller, o, 0, m, f);
    Symmetric(a, b, f);
    Transitive(o, b, a, f);
    Symmetric(a, o, f);
    var x, y := FoldFrom(q, o, m, i), FoldFrom(q, b, m, i);
    FoldField(q, o, b, m, i, f);
    FoldField(q, b, o, m, i, f);
    OwnField(q, i, x, y, f);
    OwnField(q, i, y, x, f);
    Transitive(Own(q, i, x), x, o, f);
    Transitive(Own(q, i, y), y, b, f);
    var u := Own(q, i, x);
    if u == Own(q, i, y) {
      Symmetric(u, o, f);
      Transitive(o, u, b, f);
    }
  }

  const Plain := RouteOptions(AsIs, false, false, None, 0, None, false)
  const Defaults := QueryOptions(AsIs, false, false, None, 0, None, false)

  /** route-options sets a TTL; an address-limited route is rejected; the next route is tried. */
  function RetryExample(): LegacyQuery {
    LegacyQuery([LegacyRule(SetOptions(Plain.(rewriteTTL := Some(60))), false, true),
                 LegacyRule(Route("a", false, Plain), true, true),
                 LegacyRule(Route("b", false, Plain), false, true)],
                Defaults, true, true,
                map["a" := Transport("a", false), "b" := Transport("b", false)], Transport("b", false),
                (t: Transport, o: QueryOptions, r: Option<nat>) => if r.Some? then Rejected else Answered("b"))
  }

  /** A retry forgets the route-options rules that precede the rejected rule. */
  lemma RetryForgetsOptions()
    ensures var q := RetryExample();
            && Decides(q, 2)
            && Attempt(q, 1).1.rewriteTTL == Some(60)
            && VerdictAt(q, 2) == Exchanged(2, Transport("b", false), Defaults, Answered("b"))
  {
    var q := RetryExample();
    assert Between(q, 0, 1) == Defaults.(rewriteTTL := Some(60));
    assert !Stops(q, 0) && Stops(q, 1) && Stops(q, 2);
    SinceIs(q, 0, 1);
    assert Attempt(q, 1) == (Transport("a", false), Defaults.(rewriteTTL := Some(60)));
    assert ReplyAt(q, 1) == Rejected;
    assert Since(q, 2) == 2;
    assert Attempt(q, 2) == (Transport("b", false), Defaults);
  }
}
