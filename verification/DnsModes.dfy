// What the mode resolution is for (dns/router.go): the legacy engine and the rule walk each ignore some of
// what a rule can ask for, and a list runs in a mode only when that engine ignores nothing of it. All of it
// is said of the configured fields.
module DnsModes {
  import opened Base
  import opened DnsRules
  import opened DnsConfig
  import opened DnsLegacy

  // ---- the configured fields

  /** What the legacy engine has no notion of. */
  predicate AsksModern(store: Store, n: RuleOption) {
    || n.action.race
    || n.action.kind.KEvaluate? || n.action.kind.KRespond?
    || (n.action.kind.KRoute? && (n.action.speculative || n.action.disableOptimistic))
    || (n.action.kind.KRouteOptions? && n.action.disableOptimistic)
    || (n.DefaultRule? &&
        (|| n.options.response != NoMatch || n.options.responseFields || n.options.queryFields
         || exists t | t in n.options.ruleSets :: t in store && store[t].queryType))
  }

  predicate AsksStrategy(n: RuleOption) {
    n.action.hasStrategy && n.action.kind in {KRoute, KEvaluate, KRouteOptions}
  }

  /** What the rule walk has no notion of: a strategy, and addresses without a response to match. */
  predicate AsksLegacy(store: Store, n: RuleOption) {
    || AsksStrategy(n)
    || (n.DefaultRule? &&
        (|| n.options.acceptEmpty
         || (n.options.addressFields && n.options.response == NoMatch)
         || (!n.options.matchSource && exists t | t in n.options.ruleSets :: t in store && store[t].ipcidr)))
  }

  predicate Known(store: Store, n: RuleOption) { n.DefaultRule? ==> forall t | t in n.options.ruleSets :: t in store }

  lemma NodeFlags(store: Store, n: RuleOption)
    ensures Disables(store, n) <==> AsksModern(store, n)
    ensures NeedsLegacy(store, n) <==> AsksLegacy(store, n)
    ensures ActionHasStrategy(n.action) <==> AsksStrategy(n)
    ensures Missing(store, n) <==> !Known(store, n)
  {
  }

  /** The mode of a list: legacy when some rule asks for it and none for anything modern, the other one when
      some rule asks for something modern and none for a strategy, or when none asks for either. */
  lemma ModeMeans(store: Store, rules: seq<RuleOption>)
    ensures var nodes := AllNodes(rules);
            var known := forall n | n in nodes :: Known(store, n);
            var modern, legacy := (exists n | n in nodes :: AsksModern(store, n)), exists n | n in nodes ::
                AsksLegacy(store, n);
            && (ResolveMode(store, rules) == Some(true) <==> known && legacy && !modern)
            && (ResolveMode(store, rules) == Some(false) <==>
                  known && if modern then forall n | n in nodes :: !AsksStrategy(n) else !legacy)
  {
    hide Disables, NeedsLegacy, AsksModern, AsksLegacy, AsksStrategy, ActionHasStrategy, Missing, Known;
    forall n
      ensures && Disables(store, n) == AsksModern(store, n) && NeedsLegacy(store, n) == AsksLegacy(store, n)
              && ActionHasStrategy(n.action) == AsksStrategy(n) && Missing(store, n) == !Known(store, n)
    {
      NodeFlags(store, n);
    }
  }

  // ---- the compiled actions

  /** NewDNSRuleAction, of what the mode looks at. */
  predicate Carries(a: ActionOption, action: Action) {
    match action
    case Route(_, speculative, own) => a.kind.KRoute? && a.speculative == speculative && CarriesOptions(a, own)
    case Evaluate(_, tag, speculative, own) =>
      a.kind.KEvaluate? && a.tag == tag && a.speculative == speculative && CarriesOptions(a, own)
    case SetOptions(own) => a.kind.KRouteOptions? && CarriesOptions(a, own)
    case Respond => a.kind.KRespond?
    case Reject(_) => a.kind.KReject?
    case Predefined => a.kind.KPredefined?
  }

  predicate CarriesOptions(a: ActionOption, own: RouteOptions) {
    a.disableOptimistic == own.disableOptimisticCache && a.hasStrategy == (own.strategy != AsIs)
  }

  function OwnOptions(action: Action): Option<RouteOptions> {
    match action
    case Route(_, _, own) => Some(own)
    case Evaluate(_, _, _, own) => Some(own)
    case SetOptions(own) => Some(own)
    case _ => None
  }

  /** Everything a rule's options ask for, field by field. */
  function Wished(o: QueryOptions, own: RouteOptions): QueryOptions {
    QueryOptions(
      if own.strategy != AsIs then own.strategy else o.strategy,
      o.disableCache || own.disableCache,
      o.disableOptimisticCache || own.disableOptimisticCache,
      if own.rewriteTTL.Some? then own.rewriteTTL else o.rewriteTTL,
      if own.timeout > 0 then own.timeout else o.timeout,
      if own.removeClientSubnet then None else if own.clientSubnet.Some? then own.clientSubnet else o.clientSubnet,
      own.removeClientSubnet || (o.removeClientSubnet && own.clientSubnet.None?))
  }

  /** An engine that merges options with `merge` grants all that the action asks for. */
  ghost predicate Grants(merge: (QueryOptions, RouteOptions) -> QueryOptions, action: Action) {
    OwnOptions(action).Some? ==> forall o :: merge(o, OwnOptions(action).value) == Wished(o, OwnOptions(action).value)
  }

  lemma LegacyWish(o: QueryOptions, own: RouteOptions)
    ensures LegacyApply(o, own) == Wished(o, own) <==> o.disableOptimisticCache || !own.disableOptimisticCache
  {
    hide LegacyApply;
    LegacyFields(o, own);
    var a, w := LegacyApply(o, own), Wished(o, own);
    assert w.disableOptimisticCache <==> o.disableOptimisticCache || own.disableOptimisticCache;
    assert a == w.(disableOptimisticCache := o.disableOptimisticCache);
  }

  lemma WalkWish(o: QueryOptions, own: RouteOptions)
    ensures ApplyRouteOptions(o, own) == Wished(o, own) <==> own.strategy == AsIs || own.strategy == o.strategy
  {
    hide ApplyRouteOptions;
    AppliedFields(o, own);
    var a, w := ApplyRouteOptions(o, own), Wished(o, own);
    assert a == w.(strategy := o.strategy);
  }

  const PLAIN := QueryOptions(AsIs, false, false, None, 0, None, false)

  lemma LegacyGrants(action: Action)
    ensures Grants(LegacyApply, action) <==>
            (OwnOptions(action).Some? ==> !OwnOptions(action).value.disableOptimisticCache)
  {
    hide LegacyApply, Wished, OwnOptions;
    if OwnOptions(action).Some? {
      forall o ensures LegacyApply(o, OwnOptions(action).value) == Wished(o, OwnOptions(action).value) <==>
                       o.disableOptimisticCache || !OwnOptions(action).value.disableOptimisticCache
      {
        LegacyWish(o, OwnOptions(action).value);
      }
      LegacyWish(PLAIN, OwnOptions(action).value);
    }
  }

  lemma WalkGrants(action: Action)
    ensures Grants(ApplyRouteOptions, action) <==>
            (OwnOptions(action).Some? ==> OwnOptions(action).value.strategy == AsIs)
  {
    hide ApplyRouteOptions, Wished, OwnOptions;
    if OwnOptions(action).Some? {
      var own := OwnOptions(action).value;
      WalkWish(PLAIN, own);
      if own.strategy == AsIs {
        forall o ensures ApplyRouteOptions(o, own) == Wished(o, own) { WalkWish(o, own); }
      }
    }
  }

  ghost predicate CarriedAll(os: seq<RuleOption>, actions: seq<Action>) {
    |os| == |actions| && forall i | 0 <= i < |os| :: Carries(os[i].action, actions[i])
  }

  lemma {:induction false} TopIsNode(rules: seq<RuleOption>, i: nat)
    requires i < |rules|
    ensures rules[i] in AllNodes(rules)
  {
    AllNodesIn(rules, rules[i]);
    assert rules[i] in Nodes(rules[i]);
  }

  /** A list that runs in legacy mode asks for nothing the legacy engine ignores: no rule races, evaluates,
      responds or speculates, no rule matches a response or a query type, and the options of every rule are
      granted in full. */
  lemma LegacyDropsNothing(store: Store, os: seq<RuleOption>, actions: seq<Action>)
    requires ResolveMode(store, os) == Some(true) && CarriedAll(os, actions)
    ensures forall i | 0 <= i < |os| ::
              && !os[i].action.race && !actions[i].Evaluate? && !actions[i].Respond?
              && (actions[i].Route? ==> !actions[i].speculative)
              && Grants(LegacyApply, actions[i])
    ensures forall n | n in AllNodes(os) && n.DefaultRule? ::
              && n.options.response == NoMatch && !n.options.responseFields && !n.options.queryFields
              && forall t | t in n.options.ruleSets :: t in store && !store[t].queryType
  {
    ModeMeans(store, os);
    hide ResolveMode, Grants;
    forall i | 0 <= i < |os|
      ensures && !os[i].action.race && !actions[i].Evaluate? && !actions[i].Respond?
              && (actions[i].Route? ==> !actions[i].speculative)
              && Grants(LegacyApply, actions[i])
    {
      TopIsNode(os, i);
      assert !AsksModern(store, os[i]) && Carries(os[i].action, actions[i]);
      LegacyGrants(actions[i]);
    }
    forall n | n in AllNodes(os) && n.DefaultRule?
      ensures && n.options.response == NoMatch && !n.options.responseFields && !n.options.queryFields
              && forall t | t in n.options.ruleSets :: t in store && !store[t].queryType
    {
      assert !AsksModern(store, n) && Known(store, n);
    }
  }

  /** A list that starts in the other mode asks for nothing the rule walk ignores: the options of every rule
      are granted in full, and addresses are matched only in a response, or by a rule set that has more. */
  lemma WalkDropsNothing(store: Store, os: seq<RuleOption>, actions: seq<Action>)
    requires StartsIn(os, store, false) && CarriedAll(os, actions)
    ensures forall i | 0 <= i < |os| :: Grants(ApplyRouteOptions, actions[i])
    ensures forall n | n in AllNodes(os) && n.DefaultRule? ::
              && !n.options.acceptEmpty
              && (n.options.addressFields || n.options.responseFields ==> n.options.response != NoMatch)
              && (n.options.response == NoMatch ==>
                    forall t | t in n.options.ruleSets :: t in store && (store[t].nonIPCIDR || !store[t].ipcidr))
  {
    ModeMeans(store, os);
    hide ResolveMode, Grants, Accepted;
    forall i | 0 <= i < |os| ensures Grants(ApplyRouteOptions, actions[i]) {
      TopIsNode(os, i);
      NoStrategy(store, os, os[i]);
      assert Carries(os[i].action, actions[i]);
      WalkGrants(actions[i]);
    }
    forall n | n in AllNodes(os) && n.DefaultRule?
      ensures && !n.options.acceptEmpty
              && (n.options.addressFields || n.options.responseFields ==> n.options.response != NoMatch)
              && (n.options.response == NoMatch ==>
                    forall t | t in n.options.ruleSets :: t in store && (store[t].nonIPCIDR || !store[t].ipcidr))
    {
      AcceptedNode(store, os, n);
      assert Known(store, n);
    }
  }

  lemma NoStrategy(store: Store, os: seq<RuleOption>, n: RuleOption)
    requires ResolveMode(store, os) == Some(false) && n in AllNodes(os)
    ensures !AsksStrategy(n)
  {
    ModeMeans(store, os);
    hide ResolveMode;
    if forall m | m in AllNodes(os) :: !AsksLegacy(store, m) { assert !AsksLegacy(store, n); }
  }

  lemma AcceptedNode(store: Store, os: seq<RuleOption>, n: RuleOption)
    requires Accepted(store, os) && n in AllNodes(os)
    ensures NodeValid(store, n)
  {
    AllNodesIn(os, n);
    var i :| 0 <= i < |os| && n in Nodes(os[i]);
    assert InScope(store, os, i);
  }
}
