// Configured DNS rules (option.DNSRule trees): what the static validator accepts, which mode a rule
// list needs, and which rule-set updates the router accepts (dns/router.go).
module DnsConfig {
  import opened Base
  import opened DnsRules

  type TagName = t: string | t != "" witness "t"

  datatype MatchResponse = NoMatch | MatchAnonymous | MatchTag(tag: TagName)

  /** Of a rule action, what the validator and the mode resolution look at; each field belongs to
      the options of the action's own kind. */
  datatype Kind = KRoute | KEvaluate | KRespond | KRouteOptions | KReject | KPredefined
  datatype ActionOption = ActionOption(kind: Kind, race: bool, disableOptimistic: bool, speculative: bool,
      hasStrategy: bool, tag: Tag)

  datatype DefaultOptions = DefaultOptions(
    response: MatchResponse,
    responseFields: bool,     // response_rcode, response_answer, response_ns or response_extra
    addressFields: bool,      // ip_cidr, ip_is_private or ip_accept_any
    acceptEmpty: bool,        // rule_set_ip_cidr_accept_empty
    queryFields: bool,        // ip_version or query_type
    matchSource: bool,        // rule_set_ip_cidr_match_source
    ruleSets: seq<string>)

  datatype RuleOption =
    | DefaultRule(options: DefaultOptions, action: ActionOption)
    | LogicalRule(rules: seq<RuleOption>, action: ActionOption)

  datatype Metadata = Metadata(ipcidr: bool, nonIPCIDR: bool, queryType: bool)
  type Store = map<string, Metadata>

  // ---- rule trees

  /** Every node of the trees, in no order. */
  function Nodes(rule: RuleOption): set<RuleOption>
    decreases rule, 1
  {
    {rule} + if rule.LogicalRule? then AllNodes(rule.rules) else {}
  }

  function AllNodes(rules: seq<RuleOption>): set<RuleOption>
    decreases rules, 0
  {
    if rules == [] then {} else Nodes(rules[0]) + AllNodes(rules[1..])
  }

  lemma {:induction false} AllNodesAppend(rules: seq<RuleOption>, rule: RuleOption)
    ensures AllNodes(rules + [rule]) == AllNodes(rules) + Nodes(rule)
  {
    if rules == [] {
      assert rules + [rule] == [rule];
      assert [rule][1..] == [];
    } else {
      assert (rules + [rule])[0] == rules[0] && (rules + [rule])[1..] == rules[1..] + [rule];
      AllNodesAppend(rules[1..], rule);
    }
  }

  /** The rule a path of sub rule numbers leads to, if it leads anywhere. */
  function At(rule: RuleOption, path: seq<nat>): Option<RuleOption>
    decreases |path|
  {
    if path == [] then Some(rule)
    else if rule.LogicalRule? && path[0] < |rule.rules| then At(rule.rules[path[0]], path[1..]) else None
  }

  lemma {:induction false} PathInNodes(rule: RuleOption, path: seq<nat>)
    ensures At(rule, path).Some? ==> At(rule, path).value in Nodes(rule)
    decreases |path|
  {
    if path != [] && rule.LogicalRule? && path[0] < |rule.rules| {
      PathInNodes(rule.rules[path[0]], path[1..]);
      if At(rule, path).Some? { AllNodesIn(rule.rules, At(rule, path).value); }
    }
  }

  lemma {:induction false} NodeHasPath(rule: RuleOption, n: RuleOption) returns (path: seq<nat>)
    requires n in Nodes(rule)
    ensures At(rule, path) == Some(n)
    decreases rule
  {
    path := [];
    if n != rule {
      AllNodesIn(rule.rules, n);
      var i :| 0 <= i < |rule.rules| && n in Nodes(rule.rules[i]);
      var rest := NodeHasPath(rule.rules[i], n);
      path := [i] + rest;
      assert path[1..] == rest;
    }
  }

  /** The nodes of a tree are the rules its paths lead to. */
  lemma NodesArePaths(rule: RuleOption, n: RuleOption)
    ensures n in Nodes(rule) <==> exists path :: At(rule, path) == Some(n)
  {
    if n in Nodes(rule) { var path := NodeHasPath(rule, n); }
    if path :| At(rule, path) == Some(n) { PathInNodes(rule, path); }
  }

  /** The mode of a list does not depend on the order of its rules. */
  lemma OrderIrrelevant(store: Store, a: seq<RuleOption>, b: seq<RuleOption>)
    requires multiset(a) == multiset(b)
    ensures ResolveMode(store, a) == ResolveMode(store, b)
  {
    forall n ensures n in AllNodes(a) <==> n in AllNodes(b) {
      AllNodesIn(a, n);
      AllNodesIn(b, n);
      if i :| 0 <= i < |a| && n in Nodes(a[i]) { SameMembers(a, b, i); }
      if i :| 0 <= i < |b| && n in Nodes(b[i]) { SameMembers(b, a, i); }
    }
    assert AllNodes(a) == AllNodes(b);
  }

  lemma SameMembers(a: seq<RuleOption>, b: seq<RuleOption>, i: nat)
    requires multiset(a) == multiset(b) && i < |a|
    ensures exists j :: 0 <= j < |b| && b[j] == a[i]
  {
    assert a[i] in multiset(a);
    assert a[i] in b;
  }

  lemma {:induction false} AllNodesIn(rules: seq<RuleOption>, n: RuleOption)
    ensures n in AllNodes(rules) <==> exists i | 0 <= i < |rules| :: n in Nodes(rules[i])
  {
    if rules != [] {
      AllNodesIn(rules[1..], n);
      if n in AllNodes(rules[1..]) {
        var i :| 0 <= i < |rules[1..]| && n in Nodes(rules[1..][i]);
        assert n in Nodes(rules[i + 1]);
      }
      if i :| 0 <= i < |rules| && n in Nodes(rules[i]) {
        if i > 0 { assert n in Nodes(rules[1..][i - 1]); }
      }
    }
  }

  // ---- mode flags

  datatype Flags = Flags(disabled: bool, needed: bool, strategy: bool)

  predicate ActionDisables(a: ActionOption) {
    || a.race
    || (match a.kind
        case KRoute => a.disableOptimistic || a.speculative
        case KEvaluate => a.disableOptimistic || a.speculative
        case KRouteOptions => a.disableOptimistic
        case _ => false)
  }

  predicate ActionHasStrategy(a: ActionOption) {
    a.hasStrategy && (a.kind.KRoute? || a.kind.KEvaluate? || a.kind.KRouteOptions?)
  }

  predicate Missing(store: Store, n: RuleOption) {
    n.DefaultRule? && exists t | t in n.options.ruleSets :: t !in store
  }

  predicate Disables(store: Store, n: RuleOption) {
    || ActionDisables(n.action) || n.action.kind.KEvaluate? || n.action.kind.KRespond?
    || (n.DefaultRule? &&
        (|| !n.options.response.NoMatch? || n.options.responseFields || n.options.queryFields
         || exists t | t in n.options.ruleSets :: t in store && store[t].queryType))
  }

  predicate NeedsLegacy(store: Store, n: RuleOption) {
    || ActionHasStrategy(n.action)
    || (n.DefaultRule? &&
        (|| n.options.acceptEmpty || (n.options.response.NoMatch? && n.options.addressFields)
         || (!n.options.matchSource && exists t | t in n.options.ruleSets :: t in store && store[t].ipcidr)))
  }

  /** The mode flags of a set of rule nodes: an or over the nodes, so no order matters. */
  ghost function FlagsOf(store: Store, nodes: set<RuleOption>): Option<Flags> {
    if exists n | n in nodes :: Missing(store, n) then None
    else Some(Flags(exists n | n in nodes :: Disables(store, n),
                    exists n | n in nodes :: NeedsLegacy(store, n),
                    exists n | n in nodes :: ActionHasStrategy(n.action)))
  }

  function Merge(a: Flags, b: Flags): Flags {
    Flags(a.disabled || b.disabled, a.needed || b.needed, a.strategy || b.strategy)
  }

  lemma FlagsUnion(store: Store, a: set<RuleOption>, b: set<RuleOption>)
    ensures FlagsOf(store, a + b) ==
            match (FlagsOf(store, a), FlagsOf(store, b))
            case (Some(f), Some(g)) => Some(Merge(f, g))
            case _ => None
  {
  }

  method DefaultRequirements(store: Store, rule: RuleOption) returns (r: Option<Flags>)
    requires rule.DefaultRule?
    ensures r == FlagsOf(store, {rule})
  {
    var o, a := rule.options, rule.action;
    var strategy := ActionHasStrategy(a);
    var disabled := !o.response.NoMatch? || o.responseFields || a.kind.KEvaluate? || a.kind.KRespond?
        || o.queryFields || ActionDisables(a);
    var needed := o.acceptEmpty || (o.response.NoMatch? && o.addressFields) || strategy;
    ghost var disabled0, needed0 := disabled, needed;
    var k := 0;
    while k < |o.ruleSets|
      invariant k <= |o.ruleSets|
      invariant forall i | 0 <= i < k :: o.ruleSets[i] in store
      invariant disabled == (disabled0 || exists i | 0 <= i < k :: store[o.ruleSets[i]].queryType)
      invariant needed == (needed0 || (!o.matchSource && exists i | 0 <= i < k :: store[o.ruleSets[i]].ipcidr))
    {
      var t := o.ruleSets[k];
      if t !in store {
        assert Missing(store, rule);
        return None;
      }
      disabled := disabled || store[t].queryType;
      if !o.matchSource && store[t].ipcidr { needed := true; }
      k := k + 1;
    }
    forall t | t in o.ruleSets ensures t in store { }
    assert disabled == Disables(store, rule);
    assert needed == NeedsLegacy(store, rule);
    assert rule in {rule};
    r := Some(Flags(disabled, needed, strategy));
  }

  method RuleRequirements(store: Store, rule: RuleOption) returns (r: Option<Flags>)
    ensures r == FlagsOf(store, Nodes(rule))
    decreases rule
  {
    match rule {
      case DefaultRule(_, _) =>
        assert Nodes(rule) == {rule};
        r := DefaultRequirements(store, rule);
      case LogicalRule(rules, a) =>
        var strategy := ActionHasStrategy(a);
        var flags := Flags(a.kind.KEvaluate? || a.kind.KRespond? || ActionDisables(a), strategy, strategy);
        LogicalAlone(store, rule);
        var k := 0;
        while k < |rules|
          invariant k <= |rules|
          invariant Some(flags) == FlagsOf(store, {rule} + AllNodes(rules[..k]))
        {
          var sub := RuleRequirements(store, rules[k]);
          assert rules[..k + 1] == rules[..k] + [rules[k]];
          AllNodesAppend(rules[..k], rules[k]);
          FlagsUnion(store, {rule} + AllNodes(rules[..k]), Nodes(rules[k]));
          assert {rule} + AllNodes(rules[..k + 1]) == {rule} + AllNodes(rules[..k]) + Nodes(rules[k]);
          if sub.None? {
            StillMissing(store, rule, rules, k);
            return None;
          }
          flags := Merge(flags, sub.value);
          k := k + 1;
        }
        assert rules[..k] == rules;
        r := Some(flags);
    }
  }

  lemma LogicalAlone(store: Store, rule: RuleOption)
    requires rule.LogicalRule?
    ensures var a, strategy := rule.action, ActionHasStrategy(rule.action);
            FlagsOf(store, {rule} + AllNodes(rule.rules[..0])) ==
              Some(Flags(a.kind.KEvaluate? || a.kind.KRespond? || ActionDisables(a), strategy, strategy))
  {
    assert {rule} + AllNodes(rule.rules[..0]) == {rule};
    assert rule in {rule};
  }

  lemma StillMissing(store: Store, rule: RuleOption, rules: seq<RuleOption>, k: nat)
    requires rule.LogicalRule? && rule.rules == rules && k < |rules| && FlagsOf(store, Nodes(rules[k])).None?
    ensures FlagsOf(store, Nodes(rule)).None?
  {
    var n :| n in Nodes(rules[k]) && Missing(store, n);
    AllNodesIn(rules, n);
    assert n in Nodes(rule);
  }

  /** dnsRuleModeRequirements */
  method ModeRequirements(store: Store, rules: seq<RuleOption>) returns (r: Option<Flags>)
    ensures r == FlagsOf(store, AllNodes(rules))
  {
    var flags := Flags(false, false, false);
    var k := 0;
    while k < |rules|
      invariant k <= |rules|
      invariant Some(flags) == FlagsOf(store, AllNodes(rules[..k]))
    {
      var one := RuleRequirements(store, rules[k]);
      assert rules[..k + 1] == rules[..k] + [rules[k]];
      AllNodesAppend(rules[..k], rules[k]);
      FlagsUnion(store, AllNodes(rules[..k]), Nodes(rules[k]));
      if one.None? {
        ghost var n :| n in Nodes(rules[k]) && Missing(store, n);
        AllNodesIn(rules, n);
        return None;
      }
      flags := Merge(flags, one.value);
      k := k + 1;
    }
    assert rules[..k] == rules;
    r := Some(flags);
  }

  // ---- the static validator

  /** The evaluate tags the nodes of a tree refer to. */
  function Refs(rule: RuleOption): set<Tag> {
    set n | n in Nodes(rule) && n.DefaultRule? && n.options.response.MatchTag? :: n.options.response.tag
  }

  ghost predicate NeedsAnonymous(rule: RuleOption) {
    exists n | n in Nodes(rule) ::
      (n.DefaultRule? && n.options.response.MatchAnonymous?) ||
      (n.action.kind.KRespond? && !(n.DefaultRule? && n.options.response.MatchTag?))
  }

  predicate PureAddress(store: Store, t: string) {
    t !in store || (store[t].ipcidr && !store[t].nonIPCIDR)
  }

  /** What a single node must satisfy outside legacy mode, apart from its rule sets. */
  predicate NodeShaped(n: RuleOption) {
    match n
    case DefaultRule(o, a) => !o.acceptEmpty && (o.response.NoMatch? ==> !o.responseFields && !o.addressFields)
    case LogicalRule(_, a) => a.kind.KRespond? ==> Refs(n) == {}
  }

  /** What a single node must satisfy outside legacy mode. */
  predicate NodeValid(store: Store, n: RuleOption) {
    && NodeShaped(n)
    && (n.DefaultRule? && n.options.response.NoMatch? ==>
          forall t | t in n.options.ruleSets :: !PureAddress(store, t))
  }

  ghost predicate TreeValid(store: Store, rule: RuleOption) { forall n | n in Nodes(rule) :: NodeValid(store, n) }

  lemma LeafUse(rule: RuleOption)
    requires rule.DefaultRule?
    ensures Nodes(rule) == {rule}
    ensures Refs(rule) == if rule.options.response.MatchTag? then {rule.options.response.tag} else {}
    ensures NeedsAnonymous(rule) <==>
            rule.options.response.MatchAnonymous? || (rule.action.kind.KRespond? && !rule.options.response.MatchTag?)
  {
    assert rule in Nodes(rule);
  }

  method ValidateDefault(store: Store, rule: RuleOption) returns (ok: bool)
    requires rule.DefaultRule?
    ensures ok <==> NodeValid(store, rule)
  {
    var o := rule.options;
    if (o.responseFields || o.addressFields) && o.response.NoMatch? { return false; }
    if o.response.NoMatch? {
      var k := 0;
      while k < |o.ruleSets|
        invariant k <= |o.ruleSets| && forall i | 0 <= i < k :: !PureAddress(store, o.ruleSets[i])
      {
        if PureAddress(store, o.ruleSets[k]) {
          assert o.ruleSets[k] in o.ruleSets;
          return false;
        }
        k := k + 1;
      }
    }
    ok := !o.acceptEmpty;
  }

  /** The uses of the sub rules seen so far. */
  ghost predicate UsesOf(store: Store, rules: seq<RuleOption>, anon: bool, tags: seq<Tag>) {
    && (forall i | 0 <= i < |rules| :: TreeValid(store, rules[i]))
    && (anon <==> exists i | 0 <= i < |rules| :: NeedsAnonymous(rules[i]))
    && (forall t :: t in tags <==> exists i | 0 <= i < |rules| :: t in Refs(rules[i]))
  }

  lemma UsesAppend(store: Store, rules: seq<RuleOption>, rule: RuleOption, anon: bool, tags: seq<Tag>, anon': bool,
          tags': seq<Tag>)
    requires UsesOf(store, rules, anon, tags) && TreeValid(store, rule)
    requires anon' == NeedsAnonymous(rule) && forall t :: t in tags' <==> t in Refs(rule)
    ensures UsesOf(store, rules + [rule], anon || anon', tags + tags')
  {
    var all := rules + [rule];
    assert all[|rules|] == rule;
    assert forall i | 0 <= i < |rules| :: all[i] == rules[i];
    forall t ensures t in tags + tags' <==> exists i | 0 <= i < |all| :: t in Refs(all[i]) {
      if t in tags { var i :| 0 <= i < |rules| && t in Refs(rules[i]); assert t in Refs(all[i]); }
      if t in tags' { assert t in Refs(all[|rules|]); }
    }
    if anon { var i :| 0 <= i < |rules| && NeedsAnonymous(rules[i]); assert NeedsAnonymous(all[i]); }
    if anon' { assert NeedsAnonymous(all[|rules|]); }
  }

  lemma LogicalRefs(rule: RuleOption, t: Tag)
    requires rule.LogicalRule?
    ensures t in Refs(rule) <==> exists i | 0 <= i < |rule.rules| :: t in Refs(rule.rules[i])
  {
    if t in Refs(rule) {
      var n :| n in Nodes(rule) && n.DefaultRule? && n.options.response.MatchTag? && n.options.response.tag == t;
      AllNodesIn(rule.rules, n);
    }
    if i :| 0 <= i < |rule.rules| && t in Refs(rule.rules[i]) {
      var n :| n in Nodes(rule.rules[i]) && n.DefaultRule? && n.options.response.MatchTag?
          && n.options.response.tag == t;
      AllNodesIn(rule.rules, n);
      assert n in Nodes(rule);
    }
  }

  lemma LogicalAnonymous(rule: RuleOption)
    requires rule.LogicalRule?
    ensures NeedsAnonymous(rule) <==> rule.action.kind.KRespond? || exists i | 0 <= i < |rule.rules| ::
              NeedsAnonymous(rule.rules[i])
  {
    if NeedsAnonymous(rule) {
      var n :| n in Nodes(rule) &&
        ((n.DefaultRule? && n.options.response.MatchAnonymous?) ||
         (n.action.kind.KRespond? && !(n.DefaultRule? && n.options.response.MatchTag?)));
      AllNodesIn(rule.rules, n);
    }
    if rule.action.kind.KRespond? { assert rule in Nodes(rule); }
    if i :| 0 <= i < |rule.rules| && NeedsAnonymous(rule.rules[i]) {
      var n :| n in Nodes(rule.rules[i]) &&
        ((n.DefaultRule? && n.options.response.MatchAnonymous?) ||
         (n.action.kind.KRespond? && !(n.DefaultRule? && n.options.response.MatchTag?)));
      AllNodesIn(rule.rules, n);
      assert n in Nodes(rule);
    }
  }

  lemma LogicalValid(store: Store, rule: RuleOption)
    requires rule.LogicalRule?
    ensures TreeValid(store, rule) <==> NodeValid(store, rule) && forall i | 0 <= i < |rule.rules| ::
              TreeValid(store, rule.rules[i])
  {
    if TreeValid(store, rule) {
      assert rule in Nodes(rule);
      forall i, n | 0 <= i < |rule.rules| && n in Nodes(rule.rules[i]) ensures NodeValid(store, n) {
        AllNodesIn(rule.rules, n);
        assert n in Nodes(rule);
      }
    } else {
      var n :| n in Nodes(rule) && !NodeValid(store, n);
      AllNodesIn(rule.rules, n);
    }
  }

  method ValidateTree(store: Store, rule: RuleOption) returns (ok: bool, anon: bool, tags: seq<Tag>)
    ensures ok <==> TreeValid(store, rule)
    ensures ok ==> (anon <==> NeedsAnonymous(rule)) && forall t :: t in tags <==> t in Refs(rule)
    decreases rule
  {
    match rule {
      case DefaultRule(o, a) =>
        LeafUse(rule);
        ok := ValidateDefault(store, rule);
        tags := if o.response.MatchTag? then [o.response.tag] else [];
        anon := o.response.MatchAnonymous? || (a.kind.KRespond? && !o.response.MatchTag?);
      case LogicalRule(rules, a) =>
        anon, tags := false, [];
        var k := 0;
        while k < |rules|
          invariant k <= |rules| && UsesOf(store, rules[..k], anon, tags)
        {
          var ok', anon', tags' := ValidateTree(store, rules[k]);
          if !ok' {
            LogicalValid(store, rule);
            return false, anon, tags;
          }
          UsesAppend(store, rules[..k], rules[k], anon, tags, anon', tags');
          assert rules[..k] + [rules[k]] == rules[..k + 1];
          anon, tags := anon || anon', tags + tags';
          k := k + 1;
        }
        assert rules[..k] == rules;
        LogicalValid(store, rule);
        LogicalAnonymous(rule);
        forall t ensures t in tags <==> t in Refs(rule) { LogicalRefs(rule, t); }
        assert tags == [] <==> Refs(rule) == {} by {
          if tags != [] { assert tags[0] in Refs(rule); }
          if t :| t in Refs(rule) { assert t in tags; }
        }
        if a.kind.KRespond? {
          if tags != [] { return false, anon, tags; }
          anon := true;
        }
        ok := true;
    }
  }

  // ---- the whole list

  predicate DefinesTag(rule: RuleOption, t: Tag) { rule.action.kind.KEvaluate? && rule.action.tag == t && t != "" }
  predicate DefinesAnonymous(rule: RuleOption) { rule.action.kind.KEvaluate? && rule.action.tag == "" }

  /** What rule i reads an earlier evaluate provides, and the tag it defines no earlier evaluate defines. */
  ghost predicate Provided(rules: seq<RuleOption>, i: nat)
    requires i < |rules|
  {
    && (NeedsAnonymous(rules[i]) ==> exists j | 0 <= j < i :: DefinesAnonymous(rules[j]))
    && (forall t | t in Refs(rules[i]) :: exists j | 0 <= j < i :: DefinesTag(rules[j], t))
    && (forall t | DefinesTag(rules[i], t) :: forall j | 0 <= j < i :: !DefinesTag(rules[j], t))
  }

  /** Rule i is valid on its own and in scope. */
  ghost predicate InScope(store: Store, rules: seq<RuleOption>, i: nat)
    requires i < |rules|
  {
    TreeValid(store, rules[i]) && Provided(rules, i)
  }

  /** What the validator must accept. */
  ghost predicate Accepted(store: Store, rules: seq<RuleOption>) {
    forall i | 0 <= i < |rules| :: InScope(store, rules, i)
  }

  /** validateLegacyDNSModeDisabledRules accepts exactly the well-scoped lists. */
  method ValidateRules(store: Store, rules: seq<RuleOption>) returns (ok: bool)
    ensures ok <==> Accepted(store, rules)
  {
    var seenAnonymous := false;
    var defined: set<Tag> := {};
    var i := 0;
    while i < |rules|
      invariant i <= |rules|
      invariant seenAnonymous <==> exists j | 0 <= j < i :: DefinesAnonymous(rules[j])
      invariant forall t :: t in defined <==> exists j | 0 <= j < i :: DefinesTag(rules[j], t)
      invariant forall j | 0 <= j < i :: InScope(store, rules, j)
    {
      var rule := rules[i];
      var valid, anon, tags := ValidateTree(store, rule);
      if !valid || (anon && !seenAnonymous) {
        assert !InScope(store, rules, i);
        return false;
      }
      var k := 0;
      while k < |tags|
        invariant k <= |tags| && forall l | 0 <= l < k :: tags[l] in defined
      {
        if tags[k] !in defined {
          assert tags[k] in Refs(rules[i]);
          assert !InScope(store, rules, i);
          return false;
        }
        k := k + 1;
      }
      if rule.action.kind.KEvaluate? {
        if rule.action.tag == "" {
          seenAnonymous := true;
        } else {
          if rule.action.tag in defined {
            assert DefinesTag(rules[i], rule.action.tag);
            assert !InScope(store, rules, i);
            return false;
          }
          defined := defined + {rule.action.tag};
        }
      }
      assert InScope(store, rules, i);
      i := i + 1;
    }
    ok := true;
  }

  // ---- legacy mode

  /** resolveLegacyDNSMode; no result when it reports an error. */
  ghost function ResolveMode(store: Store, rules: seq<RuleOption>): Option<bool> {
    match FlagsOf(store, AllNodes(rules))
    case None => None
    case Some(f) =>
      if f.disabled && f.strategy then None else Some(!f.disabled && f.needed)
  }

  /** ValidateRuleSetMetadataUpdate while the router is started and not closing. */
  ghost predicate AcceptsUpdate(rules: seq<RuleOption>, legacy: bool, store: Store, tag: string, m: Metadata) {
    var candidate := store[tag := m];
    rules == [] ||
    (match ResolveMode(candidate, rules)
     case None => false
     case Some(mode) =>
       if legacy then mode || !FlagsOf(candidate, AllNodes(rules)).value.disabled
       else !mode && Accepted(candidate, rules))
  }

  /** The rule list is valid for the mode the router runs in. */
  ghost predicate SafeIn(rules: seq<RuleOption>, legacy: bool, store: Store) {
    var flags := FlagsOf(store, AllNodes(rules));
    && flags.Some?
    && (legacy ==> !flags.value.disabled)
    && (!legacy ==> ResolveMode(store, rules) == Some(false) && Accepted(store, rules))
  }

  /** buildRules at start-up: the mode is resolved, and outside legacy mode the list is validated. */
  ghost predicate StartsIn(rules: seq<RuleOption>, store: Store, legacy: bool) {
    ResolveMode(store, rules) == Some(legacy) && (!legacy ==> Accepted(store, rules))
  }

  /** The update check of a started router as the source runs it. */
  method CheckUpdate(rules: seq<RuleOption>, legacy: bool, store: Store, tag: string, m: Metadata) returns (ok: bool)
    ensures ok <==> AcceptsUpdate(rules, legacy, store, tag, m)
  {
    if rules == [] { return true; }
    var candidate := store[tag := m];
    var flags := ModeRequirements(candidate, rules);
    if flags.None? || (flags.value.disabled && flags.value.strategy) { return false; }
    var mode := !flags.value.disabled && flags.value.needed;
    if legacy { return mode || !flags.value.disabled; }
    if mode { return false; }
    ok := ValidateRules(candidate, rules);
  }

  /** The whole check: anything goes while closing, and before start-up an update is accepted exactly
      when the router could start with it. */
  method ValidateUpdate(rules: seq<RuleOption>, started: bool, closing: bool, legacy: bool, store: Store, tag: string,
          m: Metadata)
    returns (ok: bool)
    ensures closing ==> ok
    ensures !closing && started ==> (ok <==> AcceptsUpdate(rules, legacy, store, tag, m))
    ensures !closing && !started ==>
              (ok <==> StartsIn(rules, store[tag := m], true) || StartsIn(rules, store[tag := m], false))
  {
    var candidate := store[tag := m];
    if rules == [] {
      assert StartsIn(rules, candidate, false);
      return true;
    }
    if closing { return true; }
    if started {
      ok := CheckUpdate(rules, legacy, store, tag, m);
      return;
    }
    var flags := ModeRequirements(candidate, rules);
    if flags.None? || (flags.value.disabled && flags.value.strategy) { return false; }
    var mode := !flags.value.disabled && flags.value.needed;
    if mode {
      ok := true;
    } else {
      ok := ValidateRules(candidate, rules);
    }
    assert ok <==> StartsIn(rules, candidate, mode);
  }
}
