// Rule-set updates of a started router, interleaved. The goroutine that updates a rule set asks the
// router first (dns/router.go) and stores the new metadata afterwards, under a lock of its own
// (route/rule/rule_set_local.go, route/rule/rule_set_remote.go). The router reads the other rule sets one
// lookup at a time, so every lookup, the decision and the store are steps of their own.
module DnsUpdates {
  import opened Base
  import opened DnsConfig

  // ---- what a check looks up

  /** One rule set named by one rule: whether the rule matches it against the source only, and whether the
      rule has no match_response, so that the validator looks it up too. */
  datatype Lookup = Lookup(tag: string, source: bool, plain: bool)

  function Lookups(rule: RuleOption): seq<Lookup>
    decreases rule, 1
  {
    match rule
    case DefaultRule(o, _) =>
      seq(|o.ruleSets|, i requires 0 <= i < |o.ruleSets| =>
        Lookup(o.ruleSets[i], o.matchSource, o.response.NoMatch?))
    case LogicalRule(rules, _) => AllLookups(rules)
  }

  /** In the order of the rules. */
  function AllLookups(rules: seq<RuleOption>): seq<Lookup>
    decreases rules, 0
  {
    if rules == [] then [] else Lookups(rules[0]) + AllLookups(rules[1..])
  }

  predicate Asks(n: RuleOption, l: Lookup) {
    && n.DefaultRule? && l.tag in n.options.ruleSets
    && l.source == n.options.matchSource && l.plain == n.options.response.NoMatch?
  }

  lemma {:induction false} LookupsIn(rule: RuleOption, l: Lookup)
    ensures l in Lookups(rule) <==> exists n | n in Nodes(rule) :: Asks(n, l)
    decreases rule, 1
  {
    match rule
    case DefaultRule(o, _) =>
      assert Nodes(rule) == {rule};
      if Asks(rule, l) {
        var i :| 0 <= i < |o.ruleSets| && o.ruleSets[i] == l.tag;
        assert Lookups(rule)[i] == l;
      }
    case LogicalRule(rules, _) =>
      AllLookupsIn(rules, l);
      assert !Asks(rule, l);
      if n :| n in Nodes(rule) && Asks(n, l) { assert n in AllNodes(rules); }
  }

  lemma {:induction false} AllLookupsIn(rules: seq<RuleOption>, l: Lookup)
    ensures l in AllLookups(rules) <==> exists n | n in AllNodes(rules) :: Asks(n, l)
    decreases rules, 0
  {
    if rules != [] {
      LookupsIn(rules[0], l);
      AllLookupsIn(rules[1..], l);
    }
  }

  // ---- what the lookups decide

  predicate Covers(store: Store, ls: seq<Lookup>) { forall l | l in ls :: l.tag in store }

  function Read(store: Store, ls: seq<Lookup>): seq<Metadata>
    requires Covers(store, ls)
  {
    seq(|ls|, i requires 0 <= i < |ls| => store[ls[i].tag])
  }

  /** The flags the rules have without their rule sets. */
  ghost function OwnFlags(rules: seq<RuleOption>): Flags {
    Flags(exists n | n in AllNodes(rules) :: Disables(map[], n),
          exists n | n in AllNodes(rules) :: NeedsLegacy(map[], n),
          exists n | n in AllNodes(rules) :: ActionHasStrategy(n.action))
  }

  /** dnsRuleModeRequirements, given what its lookups returned. */
  ghost function FlagsFrom(rules: seq<RuleOption>, got: seq<Metadata>): Flags
    requires |got| == |AllLookups(rules)|
  {
    var ls, own := AllLookups(rules), OwnFlags(rules);
    Flags(own.disabled || exists k | 0 <= k < |ls| :: got[k].queryType,
          own.needed || exists k | 0 <= k < |ls| :: !ls[k].source && got[k].ipcidr,
          own.strategy)
  }

  /** What the validator demands of the rules without their rule sets. */
  ghost predicate Shaped(rules: seq<RuleOption>) {
    (forall n | n in AllNodes(rules) :: NodeShaped(n)) && forall i | 0 <= i < |rules| :: Provided(rules, i)
  }

  predicate Pure(m: Metadata) { m.ipcidr && !m.nonIPCIDR }

  /** The decision of ValidateRuleSetMetadataUpdate in a started router, given what the lookups of the mode
      resolution and then of the validator returned. */
  ghost predicate Admits(rules: seq<RuleOption>, legacy: bool, resolved: seq<Metadata>, validated: seq<Metadata>)
    requires |resolved| == |validated| == |AllLookups(rules)|
  {
    var ls := AllLookups(rules);
    var f := FlagsFrom(rules, resolved);
    && !(f.disabled && f.strategy)
    && (legacy ==> !f.disabled)
    && (!legacy ==>
        && (f.disabled || !f.needed)
        && Shaped(rules)
        && forall k | 0 <= k < |ls| && ls[k].plain :: !Pure(validated[k]))
  }

  // ---- a store read at once

  ghost predicate Disabled(rules: seq<RuleOption>, store: Store)
    requires Covers(store, AllLookups(rules))
  {
    OwnFlags(rules).disabled || exists l | l in AllLookups(rules) :: store[l.tag].queryType
  }

  ghost predicate Needed(rules: seq<RuleOption>, store: Store)
    requires Covers(store, AllLookups(rules))
  {
    OwnFlags(rules).needed || exists l | l in AllLookups(rules) :: !l.source && store[l.tag].ipcidr
  }

  /** No rule without match_response names a set of addresses only. */
  ghost predicate Mixed(rules: seq<RuleOption>, store: Store)
    requires Covers(store, AllLookups(rules))
  {
    forall l | l in AllLookups(rules) && l.plain :: !Pure(store[l.tag])
  }

  /** Nothing needs the legacy mode, or something disables it. */
  ghost predicate Quiet(rules: seq<RuleOption>, store: Store)
    requires Covers(store, AllLookups(rules))
  {
    Disabled(rules, store) || !Needed(rules, store)
  }

  lemma ReadFlags(rules: seq<RuleOption>, store: Store)
    requires Covers(store, AllLookups(rules))
    ensures FlagsFrom(rules, Read(store, AllLookups(rules)))
         == Flags(Disabled(rules, store), Needed(rules, store), OwnFlags(rules).strategy)
  {
    var ls := AllLookups(rules);
    hide AllLookups, OwnFlags;
    var got := Read(store, ls);
    if l :| l in ls && store[l.tag].queryType { var k :| 0 <= k < |ls| && ls[k] == l; assert got[k].queryType; }
    if l :| l in ls && !l.source && store[l.tag].ipcidr {
      var k :| 0 <= k < |ls| && ls[k] == l;
      assert !ls[k].source && got[k].ipcidr;
    }
  }

  lemma NoneMissing(rules: seq<RuleOption>, store: Store)
    ensures Covers(store, AllLookups(rules)) <==> forall n | n in AllNodes(rules) :: !Missing(store, n)
  {
    if n :| n in AllNodes(rules) && Missing(store, n) {
      var t :| t in n.options.ruleSets && t !in store;
      var l := Lookup(t, n.options.matchSource, n.options.response.NoMatch?);
      AllLookupsIn(rules, l);
      assert Asks(n, l);
    }
    if l :| l in AllLookups(rules) && l.tag !in store {
      AllLookupsIn(rules, l);
    }
  }

  lemma DisabledIs(rules: seq<RuleOption>, store: Store)
    requires Covers(store, AllLookups(rules))
    ensures Disabled(rules, store) <==> exists n | n in AllNodes(rules) :: Disables(store, n)
  {
    if n :| n in AllNodes(rules) && Disables(store, n) && !Disables(map[], n) {
      var t :| t in n.options.ruleSets && t in store && store[t].queryType;
      var l := Lookup(t, n.options.matchSource, n.options.response.NoMatch?);
      assert Asks(n, l);
      AllLookupsIn(rules, l);
    }
    if n :| n in AllNodes(rules) && Disables(map[], n) { assert Disables(store, n); }
    if l :| l in AllLookups(rules) && store[l.tag].queryType {
      AllLookupsIn(rules, l);
      var n :| n in AllNodes(rules) && Asks(n, l);
      assert Disables(store, n);
    }
  }

  lemma NeededIs(rules: seq<RuleOption>, store: Store)
    requires Covers(store, AllLookups(rules))
    ensures Needed(rules, store) <==> exists n | n in AllNodes(rules) :: NeedsLegacy(store, n)
  {
    if n :| n in AllNodes(rules) && NeedsLegacy(store, n) && !NeedsLegacy(map[], n) {
      var t :| t in n.options.ruleSets && t in store && store[t].ipcidr;
      var l := Lookup(t, n.options.matchSource, n.options.response.NoMatch?);
      assert Asks(n, l);
      AllLookupsIn(rules, l);
    }
    if n :| n in AllNodes(rules) && NeedsLegacy(map[], n) { assert NeedsLegacy(store, n); }
    if l :| l in AllLookups(rules) && !l.source && store[l.tag].ipcidr {
      AllLookupsIn(rules, l);
      var n :| n in AllNodes(rules) && Asks(n, l);
      assert NeedsLegacy(store, n);
    }
  }

  lemma FlagsAre(rules: seq<RuleOption>, store: Store)
    ensures FlagsOf(store, AllNodes(rules)) ==
            if Covers(store, AllLookups(rules))
            then Some(Flags(Disabled(rules, store), Needed(rules, store), OwnFlags(rules).strategy)) else None
  {
    hide Missing, Disables, NeedsLegacy;
    NoneMissing(rules, store);
    if Covers(store, AllLookups(rules)) {
      DisabledIs(rules, store);
      NeededIs(rules, store);
    }
  }

  lemma AcceptedIs(rules: seq<RuleOption>, store: Store)
    requires Covers(store, AllLookups(rules))
    ensures Accepted(store, rules) <==> Shaped(rules) && Mixed(rules, store)
  {
    hide Provided, NodeShaped;
    NodesValid(rules, store);
    if Accepted(store, rules) {
      forall n | n in AllNodes(rules) ensures NodeValid(store, n) {
        AllNodesIn(rules, n);
        var i :| 0 <= i < |rules| && n in Nodes(rules[i]);
        assert InScope(store, rules, i);
      }
      forall i | 0 <= i < |rules| ensures Provided(rules, i) { assert InScope(store, rules, i); }
    }
    if Shaped(rules) && Mixed(rules, store) {
      forall i, n | 0 <= i < |rules| && n in Nodes(rules[i]) ensures NodeValid(store, n) { AllNodesIn(rules, n); }
    }
  }

  lemma NodesValid(rules: seq<RuleOption>, store: Store)
    requires Covers(store, AllLookups(rules))
    ensures (forall n | n in AllNodes(rules) :: NodeValid(store, n))
            <==> (forall n | n in AllNodes(rules) :: NodeShaped(n)) && Mixed(rules, store)
  {
    hide NodeShaped;
    if forall n | n in AllNodes(rules) :: NodeValid(store, n) {
      forall l | l in AllLookups(rules) && l.plain ensures !Pure(store[l.tag]) {
        AllLookupsIn(rules, l);
        var n :| n in AllNodes(rules) && Asks(n, l);
        assert NodeValid(store, n);
      }
    }
    if Mixed(rules, store) {
      forall n, t | n in AllNodes(rules) && n.DefaultRule? && n.options.response.NoMatch? && t in n.options.ruleSets
        ensures !PureAddress(store, t)
      {
        var l := Lookup(t, n.options.matchSource, true);
        assert Asks(n, l);
        AllLookupsIn(rules, l);
      }
    }
  }

  lemma StrategyNeeds(rules: seq<RuleOption>)
    ensures OwnFlags(rules).strategy ==> OwnFlags(rules).needed
  {
  }

  /** What it takes to be valid for the running mode, lookup by lookup. */
  lemma SafeMeans(rules: seq<RuleOption>, legacy: bool, store: Store)
    ensures SafeIn(rules, legacy, store) <==>
            && Covers(store, AllLookups(rules))
            && (legacy ==> !Disabled(rules, store))
            && (!legacy ==> !OwnFlags(rules).strategy && Shaped(rules) && Mixed(rules, store) && Quiet(rules, store))
  {
    hide OwnFlags, Shaped, Mixed, Accepted, Disables, NeedsLegacy, Missing;
    FlagsAre(rules, store);
    StrategyNeeds(rules);
    if Covers(store, AllLookups(rules)) { AcceptedIs(rules, store); }
  }

  /** What both checks come down to on a store read at once. */
  ghost predicate Allows(rules: seq<RuleOption>, legacy: bool, store: Store)
    requires Covers(store, AllLookups(rules))
  {
    && !(Disabled(rules, store) && OwnFlags(rules).strategy)
    && (if legacy then !Disabled(rules, store) else Quiet(rules, store) && Shaped(rules) && Mixed(rules, store))
  }

  lemma AdmitsMeans(rules: seq<RuleOption>, legacy: bool, store: Store)
    requires Covers(store, AllLookups(rules))
    ensures var got := Read(store, AllLookups(rules)); Admits(rules, legacy, got, got) <==> Allows(rules, legacy, store)
  {
    ReadFlags(rules, store);
    MixedIs(rules, store);
    hide OwnFlags, Shaped, Mixed, Disabled, Needed, AllLookups, Read, FlagsFrom, Pure;
  }

  lemma AcceptsMeans(rules: seq<RuleOption>, legacy: bool, store: Store, tag: string, m: Metadata)
    requires Covers(store[tag := m], AllLookups(rules))
    ensures AcceptsUpdate(rules, legacy, store, tag, m) <==> Allows(rules, legacy, store[tag := m])
  {
    FlagsAre(rules, store[tag := m]);
    AcceptedIs(rules, store[tag := m]);
    if rules == [] { assert !OwnFlags(rules).disabled && !OwnFlags(rules).needed && Shaped(rules); }
    hide OwnFlags, Shaped, Accepted, AllLookups, FlagsOf;
  }

  /** With all lookups at one moment the decision is that of the update check on that store. */
  lemma AtOnce(rules: seq<RuleOption>, legacy: bool, store: Store, tag: string, m: Metadata)
    requires Covers(store[tag := m], AllLookups(rules))
    ensures var got := Read(store[tag := m], AllLookups(rules));
            Admits(rules, legacy, got, got) <==> AcceptsUpdate(rules, legacy, store, tag, m)
  {
    hide Admits, AcceptsUpdate, Allows, AllLookups;
    AdmitsMeans(rules, legacy, store[tag := m]);
    AcceptsMeans(rules, legacy, store, tag, m);
  }

  lemma MixedIs(rules: seq<RuleOption>, store: Store)
    requires Covers(store, AllLookups(rules))
    ensures var ls, got := AllLookups(rules), Read(store, AllLookups(rules));
            Mixed(rules, store) <==> forall k | 0 <= k < |ls| && ls[k].plain :: !Pure(got[k])
  {
    var ls, got := AllLookups(rules), Read(store, AllLookups(rules));
    hide AllLookups, Pure;
    if forall k | 0 <= k < |ls| && ls[k].plain :: !Pure(got[k]) {
      forall l | l in ls && l.plain ensures !Pure(store[l.tag]) {
        var k :| 0 <= k < |ls| && ls[k] == l;
        assert got[k] == store[l.tag];
      }
    }
  }

  // ---- the steps

  type Worker = nat

  /** A started router, and who updates each rule set. A local set has a watcher of its own, the remote sets
      share one goroutine, and an inline set has no worker and is never updated. */
  datatype Router = Router(rules: seq<RuleOption>, legacy: bool, workers: map<string, Worker>)

  datatype Stage =
    | Idle
    | Checking(tag: string, metadata: Metadata, got: seq<Metadata>)
    | Checked(tag: string, metadata: Metadata)

  datatype State = State(store: Store, stages: map<Worker, Stage>)

  datatype Event =
    | Begin(tag: string, metadata: Metadata)
    | Look(worker: Worker)
    | Decide(worker: Worker)
    | Apply(worker: Worker)

  function StageOf(s: State, w: Worker): Stage { if w in s.stages then s.stages[w] else Idle }

  function To(s: State, w: Worker, stage: Stage): State { s.(stages := s.stages[w := stage]) }

  /** The k-th lookup of a check: the mode resolution goes through the rules first, then the validator. */
  function Asked(ls: seq<Lookup>, k: nat): Lookup
    requires k < 2 * |ls|
  {
    if k < |ls| then ls[k] else ls[k - |ls|]
  }

  /** The step of an event that is possible in the state. A worker begins an update when it has none. A
      lookup sees the metadata under check for its own tag and otherwise what is stored by then. */
  ghost function Next(r: Router, s: State, e: Event): Option<State> {
    match e
    case Begin(t, m) =>
      if t in r.workers && StageOf(s, r.workers[t]).Idle? then Some(To(s, r.workers[t], Checking(t, m, []))) else None
    case Look(w) =>
      (match StageOf(s, w)
       case Checking(t, m, got) =>
         if |got| >= 2 * |AllLookups(r.rules)| then None else
         var l := Asked(AllLookups(r.rules), |got|);
         if l.tag == t then Some(To(s, w, Checking(t, m, got + [m])))
         else if l.tag in s.store then Some(To(s, w, Checking(t, m, got + [s.store[l.tag]])))
         else Some(To(s, w, Idle))
       case _ => None)
    case Decide(w) =>
      (match StageOf(s, w)
       case Checking(t, m, got) =>
         var n := |AllLookups(r.rules)|;
         if |got| != 2 * n then None
         else Some(To(s, w, if Admits(r.rules, r.legacy, got[..n], got[n..]) then Checked(t, m) else Idle))
       case _ => None)
    case Apply(w) =>
      (match StageOf(s, w)
       case Checked(t, m) => Some(To(s.(store := s.store[t := m]), w, Idle))
       case _ => None)
  }

  ghost function Run(r: Router, s: State, events: seq<Event>): Option<State> {
    if events == [] then Some(s) else
    match Run(r, s, events[..|events| - 1])
    case None => None
    case Some(s1) => Next(r, s1, events[|events| - 1])
  }

  // ---- when no interleaving can break the mode

  /** Every rule set that the rules name and that is ever updated belongs to one worker. */
  ghost predicate Sole(r: Router, w: Worker) {
    forall l | l in AllLookups(r.rules) && l.tag in r.workers :: r.workers[l.tag] == w
  }

  /** The legacy mode is disabled by a rule on its own, or by a rule set that is never updated. */
  ghost predicate AlwaysDisabled(r: Router, store: Store)
    requires Covers(store, AllLookups(r.rules))
  {
    || OwnFlags(r.rules).disabled
    || exists l | l in AllLookups(r.rules) && l.tag !in r.workers :: store[l.tag].queryType
  }

  /** A rule set that is never updated needs the legacy mode. */
  ghost predicate AlwaysNeeded(r: Router, store: Store)
    requires Covers(store, AllLookups(r.rules))
  {
    exists l | l in AllLookups(r.rules) && l.tag !in r.workers :: !l.source && store[l.tag].ipcidr
  }

  /** Two rule sets that different workers update: losing the one and changing the other can leave the
      rules in need of a mode that nothing disables any more. */
  ghost predicate Race(r: Router, store: Store, a: Lookup, b: Lookup)
    requires Covers(store, AllLookups(r.rules))
  {
    && a in AllLookups(r.rules) && b in AllLookups(r.rules)
    && a.tag in r.workers && b.tag in r.workers && r.workers[a.tag] != r.workers[b.tag]
    && (AlwaysNeeded(r, store) || !b.source)
  }

  ghost predicate Racy(r: Router, store: Store)
    requires Covers(store, AllLookups(r.rules))
  {
    !r.legacy && !AlwaysDisabled(r, store) && exists a, b :: Race(r, store, a, b)
  }

  // ---- what every step keeps

  /** The metadata a check has approved for a tag is right on its own. */
  ghost predicate Vetted(r: Router, t: string, m: Metadata) {
    forall l | l in AllLookups(r.rules) && l.tag == t ::
      (r.legacy ==> !m.queryType) && (!r.legacy && l.plain ==> !Pure(m))
  }

  ghost predicate StageRight(r: Router, store: Store, w: Worker, stage: Stage)
    requires Covers(store, AllLookups(r.rules))
  {
    match stage
    case Idle => true
    case Checking(t, m, got) =>
      && t in r.workers && r.workers[t] == w && |got| <= 2 * |AllLookups(r.rules)|
      && (forall k | 0 <= k < |got| && Asked(AllLookups(r.rules), k).tag == t :: got[k] == m)
      && (Sole(r, w) ==>
            forall k | 0 <= k < |got| :: got[k] == store[t := m][Asked(AllLookups(r.rules), k).tag])
    case Checked(t, m) =>
      && t in r.workers && r.workers[t] == w && Vetted(r, t, m)
      && (!r.legacy && Sole(r, w) ==> Quiet(r.rules, store[t := m]))
  }

  /** Stores that agree on every rule set the rules name. */
  ghost predicate Same(rules: seq<RuleOption>, a: Store, b: Store) {
    forall l | l in AllLookups(rules) :: l.tag in a && l.tag in b && a[l.tag] == b[l.tag]
  }

  ghost predicate Inv(r: Router, origin: Store, s: State) {
    && Covers(s.store, AllLookups(r.rules)) && SafeIn(r.rules, r.legacy, s.store)
    && (forall l | l in AllLookups(r.rules) && l.tag !in r.workers ::
          l.tag in origin && s.store[l.tag] == origin[l.tag])
    && (forall w | w in s.stages :: StageRight(r, s.store, w, s.stages[w]))
  }

  lemma SameQuiet(rules: seq<RuleOption>, a: Store, b: Store)
    requires Same(rules, a, b) && Covers(a, AllLookups(rules)) && Covers(b, AllLookups(rules))
    ensures Quiet(rules, a) <==> Quiet(rules, b)
  {
  }

  /** A stage does not notice the store of a rule set that a different worker updates. */
  lemma StageKeeps(r: Router, store: Store, w: Worker, stage: Stage, t: string, m: Metadata)
    requires Covers(store, AllLookups(r.rules)) && StageRight(r, store, w, stage)
    requires t in r.workers && r.workers[t] != w
    ensures StageRight(r, store[t := m], w, stage)
  {
    if Sole(r, w) {
      assert forall l | l in AllLookups(r.rules) :: l.tag != t;
      if stage.Checked? {
        SameQuiet(r.rules, store[stage.tag := stage.metadata], store[t := m][stage.tag := stage.metadata]);
      }
    }
  }

  lemma BeginKeeps(r: Router, origin: Store, s: State, t: string, m: Metadata)
    requires Inv(r, origin, s) && Next(r, s, Begin(t, m)).Some?
    ensures Inv(r, origin, Next(r, s, Begin(t, m)).value)
  {
    hide SafeIn, Vetted, Quiet;
    assert StageRight(r, s.store, r.workers[t], Checking(t, m, []));
  }

  lemma LookKeeps(r: Router, origin: Store, s: State, w: Worker)
    requires Inv(r, origin, s) && Next(r, s, Look(w)).Some?
    ensures Inv(r, origin, Next(r, s, Look(w)).value)
  {
    hide SafeIn, Vetted, Quiet, Sole, AllLookups;
    assert StageRight(r, s.store, w, s.stages[w]);
    assert StageRight(r, s.store, w, Next(r, s, Look(w)).value.stages[w]);
  }

  lemma DecideKeeps(r: Router, origin: Store, s: State, w: Worker)
    requires Inv(r, origin, s) && Next(r, s, Decide(w)).Some?
    ensures Inv(r, origin, Next(r, s, Decide(w)).value)
  {
    assert StageRight(r, s.store, w, s.stages[w]);
    var Checking(t, m, got) := s.stages[w];
    if Admits(r.rules, r.legacy, got[..|AllLookups(r.rules)|], got[|AllLookups(r.rules)|..]) {
      DecideVets(r, s.store, w, t, m, got);
    }
    hide SafeIn, Vetted, Quiet, Sole, AllLookups, Admits;
    assert StageRight(r, s.store, w, Next(r, s, Decide(w)).value.stages[w]);
  }

  lemma DecideVets(r: Router, store: Store, w: Worker, t: string, m: Metadata, got: seq<Metadata>)
    requires Covers(store, AllLookups(r.rules)) && StageRight(r, store, w, Checking(t, m, got))
    requires var n := |AllLookups(r.rules)|; |got| == 2 * n && Admits(r.rules, r.legacy, got[..n], got[n..])
    ensures Vetted(r, t, m) && (!r.legacy && Sole(r, w) ==> Quiet(r.rules, store[t := m]))
  {
    var ls := AllLookups(r.rules);
    hide AllLookups, Shaped, OwnFlags, Sole;
    forall l | l in ls && l.tag == t
      ensures (r.legacy ==> !m.queryType) && (!r.legacy && l.plain ==> !Pure(m))
    {
      var k :| 0 <= k < |ls| && ls[k] == l;
      assert Asked(ls, k) == l && Asked(ls, |ls| + k) == l;
      assert got[..|ls|][k] == got[k] == m && got[|ls|..][k] == got[|ls| + k] == m;
    }
    if !r.legacy && Sole(r, w) {
      assert got[..|ls|] == Read(store[t := m], ls) by {
        forall k | 0 <= k < |ls| ensures got[k] == store[t := m][ls[k].tag] { assert Asked(ls, k) == ls[k]; }
      }
      ReadFlags(r.rules, store[t := m]);
    }
  }

  /** Neither rule sets nor interleavings can break the mode. */
  ghost predicate Calm(r: Router, origin: Store)
    requires Covers(origin, AllLookups(r.rules))
  {
    || r.legacy || AlwaysDisabled(r, origin)
    || (!OwnFlags(r.rules).needed && forall l | l in AllLookups(r.rules) && !l.source ::
          l.tag !in r.workers && !origin[l.tag].ipcidr)
    || exists w :: Sole(r, w)
  }

  lemma ApplyQuiet(r: Router, origin: Store, s: State, w: Worker, t: string, m: Metadata)
    requires Inv(r, origin, s) && StageOf(s, w) == Checked(t, m) && !r.legacy
    requires Covers(origin, AllLookups(r.rules)) && Calm(r, origin) && Quiet(r.rules, s.store)
    ensures Quiet(r.rules, s.store[t := m])
  {
    hide SafeIn, OwnFlags, Vetted;
    assert StageRight(r, s.store, w, s.stages[w]);
    if x :| Sole(r, x) {
      if l :| l in AllLookups(r.rules) && l.tag == t {
        assert x == w;
      } else {
        SameQuiet(r.rules, s.store, s.store[t := m]);
      }
    }
  }

  lemma ApplySafe(r: Router, origin: Store, s: State, w: Worker, t: string, m: Metadata)
    requires Inv(r, origin, s) && StageOf(s, w) == Checked(t, m)
    requires Covers(origin, AllLookups(r.rules)) && Calm(r, origin)
    ensures SafeIn(r.rules, r.legacy, s.store[t := m])
  {
    assert StageRight(r, s.store, w, s.stages[w]);
    SafeMeans(r.rules, r.legacy, s.store);
    SafeMeans(r.rules, r.legacy, s.store[t := m]);
    if !r.legacy { ApplyQuiet(r, origin, s, w, t, m); }
    hide SafeIn, OwnFlags, Calm, Inv, Quiet, Shaped, AllLookups;
  }

  lemma ApplyKeeps(r: Router, origin: Store, s: State, w: Worker)
    requires Inv(r, origin, s) && Next(r, s, Apply(w)).Some?
    requires Covers(origin, AllLookups(r.rules)) && Calm(r, origin)
    ensures Inv(r, origin, Next(r, s, Apply(w)).value)
  {
    var Checked(t, m) := StageOf(s, w);
    ApplySafe(r, origin, s, w, t, m);
    hide SafeIn, Calm;
    assert StageRight(r, s.store, w, s.stages[w]);
    var s' := Next(r, s, Apply(w)).value;
    forall x | x in s'.stages ensures StageRight(r, s'.store, x, s'.stages[x]) {
      if x != w { StageKeeps(r, s.store, x, s.stages[x], t, m); }
    }
    hide StageRight;
  }

  lemma {:induction false} RunKeeps(r: Router, origin: Store, events: seq<Event>)
    requires SafeIn(r.rules, r.legacy, origin)
    requires Covers(origin, AllLookups(r.rules)) && Calm(r, origin)
    ensures var s := Run(r, State(origin, map[]), events); s.Some? ==> Inv(r, origin, s.value)
  {
    hide SafeIn, Calm, Next;
    if events != [] && Run(r, State(origin, map[]), events).Some? {
      var front, last := events[..|events| - 1], events[|events| - 1];
      RunKeeps(r, origin, front);
      var s := Run(r, State(origin, map[]), front).value;
      hide Inv;
      match last
      case Begin(t, m) => BeginKeeps(r, origin, s, t, m);
      case Look(w) => LookKeeps(r, origin, s, w);
      case Decide(w) => DecideKeeps(r, origin, s, w);
      case Apply(w) => ApplyKeeps(r, origin, s, w);
    }
  }

  lemma OwnNeedless(rules: seq<RuleOption>)
    requires Shaped(rules) && !OwnFlags(rules).strategy
    ensures !OwnFlags(rules).needed
  {
    assert forall n | n in AllNodes(rules) :: NodeShaped(n) && !ActionHasStrategy(n.action);
  }

  lemma CalmUnlessRacy(r: Router, origin: Store)
    requires SafeIn(r.rules, r.legacy, origin) && Covers(origin, AllLookups(r.rules)) && !Racy(r, origin)
    ensures Calm(r, origin)
  {
    SafeMeans(r.rules, r.legacy, origin);
    if !r.legacy && !AlwaysDisabled(r, origin) {
      OwnNeedless(r.rules);
      if b :| b in AllLookups(r.rules) && b.tag in r.workers && (AlwaysNeeded(r, origin) || !b.source) {
        forall a | a in AllLookups(r.rules) && a.tag in r.workers ensures r.workers[a.tag] == r.workers[b.tag] {
          assert !Race(r, origin, a, b);
        }
        assert Sole(r, r.workers[b.tag]);
      } else if AlwaysNeeded(r, origin) {
        assert Sole(r, 0);
      }
    }
  }

  // ---- a run that breaks the mode

  const DOMAINS := Metadata(false, true, false)
  const QUERIES := Metadata(false, true, true)
  const ADDRESSES := Metadata(true, true, false)

  lemma Extend(r: Router, s: State, events: seq<Event>, e: Event)
    ensures Run(r, s, events + [e]) ==
            match Run(r, s, events) case None => None case Some(s1) => Next(r, s1, e)
  {
    assert (events + [e])[..|events|] == events;
  }

  /** The lookups of a check with nothing in between. */
  lemma {:induction false} LookOn(r: Router, s0: State, events: seq<Event>, s: State, w: Worker, t: string,
          m: Metadata, k: nat) returns (more: seq<Event>)
    requires Covers(s.store, AllLookups(r.rules)) && k <= 2 * |AllLookups(r.rules)|
    requires var got := Read(s.store[t := m], AllLookups(r.rules));
             Run(r, s0, events) == Some(To(s, w, Checking(t, m, (got + got)[..k])))
    ensures var got := Read(s.store[t := m], AllLookups(r.rules));
            Run(r, s0, more) == Some(To(s, w, Checking(t, m, got + got)))
    decreases 2 * |AllLookups(r.rules)| - k
  {
    var ls := AllLookups(r.rules);
    var got := Read(s.store[t := m], ls);
    hide AllLookups, Run;
    if k == 2 * |ls| {
      assert (got + got)[..k] == got + got;
      more := events;
    } else {
      assert (got + got)[..k + 1] == (got + got)[..k] + [(got + got)[k]];
      assert (got + got)[k] == s.store[t := m][Asked(ls, k).tag];
      Extend(r, s0, events, Look(w));
      var s1 := To(s, w, Checking(t, m, (got + got)[..k]));
      assert Next(r, s1, Look(w)) == Some(To(s, w, Checking(t, m, (got + got)[..k + 1]))) by {
        assert s1.stages[w := Checking(t, m, (got + got)[..k + 1])]
            == s.stages[w := Checking(t, m, (got + got)[..k + 1])];
      }
      more := LookOn(r, s0, events + [Look(w)], s, w, t, m, k + 1);
    }
  }

  /** A check that is not interrupted and accepts. */
  lemma Check(r: Router, s0: State, events: seq<Event>, s: State, t: string, m: Metadata) returns (more: seq<Event>)
    requires Run(r, s0, events) == Some(s) && t in r.workers && StageOf(s, r.workers[t]).Idle?
    requires Covers(s.store, AllLookups(r.rules)) && AcceptsUpdate(r.rules, r.legacy, s.store, t, m)
    ensures Run(r, s0, more) == Some(To(s, r.workers[t], Checked(t, m)))
  {
    hide Run, AcceptsUpdate, Admits, AllLookups;
    var w, ls := r.workers[t], AllLookups(r.rules);
    var got := Read(s.store[t := m], ls);
    Extend(r, s0, events, Begin(t, m));
    assert (got + got)[..0] == [];
    more := LookOn(r, s0, events + [Begin(t, m)], s, w, t, m, 0);
    AtOnce(r.rules, r.legacy, s.store, t, m);
    Extend(r, s0, more, Decide(w));
    assert (got + got)[..|ls|] == got && (got + got)[|ls|..] == got;
    var s1 := To(s, w, Checking(t, m, got + got));
    assert s1.stages[w := Checked(t, m)] == s.stages[w := Checked(t, m)];
    more := more + [Decide(w)];
  }

  /** A whole update. */
  lemma Renew(r: Router, s0: State, events: seq<Event>, s: State, t: string, m: Metadata) returns (more: seq<Event>)
    requires Run(r, s0, events) == Some(s) && t in r.workers && forall w :: StageOf(s, w).Idle?
    requires Covers(s.store, AllLookups(r.rules)) && AcceptsUpdate(r.rules, r.legacy, s.store, t, m)
    ensures var s' := Run(r, s0, more);
            s'.Some? && s'.value.store == s.store[t := m] && forall w :: StageOf(s'.value, w).Idle?
  {
    hide Run, AcceptsUpdate, AllLookups;
    more := Check(r, s0, events, s, t, m);
    Extend(r, s0, more, Apply(r.workers[t]));
    more := more + [Apply(r.workers[t])];
    var s' := Run(r, s0, more).value;
    forall w ensures StageOf(s', w).Idle? { assert StageOf(s, w).Idle?; }
  }

  /** Outside legacy mode a mixed set of rules is accepted as long as another rule set disables the mode. */
  lemma AcceptsShaded(r: Router, store: Store, t: string, m: Metadata, l: Lookup)
    requires !r.legacy && Covers(store, AllLookups(r.rules)) && SafeIn(r.rules, false, store) && m.nonIPCIDR
    requires l in AllLookups(r.rules) && store[t := m][l.tag].queryType
    ensures AcceptsUpdate(r.rules, false, store, t, m) && SafeIn(r.rules, false, store[t := m])
  {
    hide OwnFlags, Shaped;
    SafeMeans(r.rules, false, store);
    SafeMeans(r.rules, false, store[t := m]);
    assert Mixed(r.rules, store[t := m]);
  }

  /** Every rule set of the first k lookups that has a worker, apart from two, holds nothing but domains. */
  ghost predicate Cleared(r: Router, store: Store, a: string, b: string, k: nat)
    requires k <= |AllLookups(r.rules)| && Covers(store, AllLookups(r.rules))
  {
    forall i | 0 <= i < k :: var t := AllLookups(r.rules)[i].tag;
      t in r.workers && t != a && t != b ==> store[t] == DOMAINS
  }

  /** A state without an update under way in which two rule sets disable the legacy mode. */
  ghost predicate Ready(r: Router, origin: Store, a: string, b: string, s: State) {
    && (forall w :: StageOf(s, w).Idle?)
    && Covers(s.store, AllLookups(r.rules)) && SafeIn(r.rules, false, s.store)
    && (exists l :: l in AllLookups(r.rules) && l.tag == a)
    && a in s.store && b in s.store && s.store[a] == QUERIES && s.store[b] == QUERIES
    && (forall t | t !in r.workers && t in origin :: t in s.store && s.store[t] == origin[t])
  }

  lemma {:induction false} Clear(r: Router, origin: Store, a: string, b: string, events: seq<Event>, s: State, k: nat)
    returns (more: seq<Event>, s': State)
    requires !r.legacy && Run(r, State(origin, map[]), events) == Some(s) && Ready(r, origin, a, b, s)
    requires k <= |AllLookups(r.rules)| && Cleared(r, s.store, a, b, k)
    ensures Run(r, State(origin, map[]), more) == Some(s') && Ready(r, origin, a, b, s')
    ensures Cleared(r, s'.store, a, b, |AllLookups(r.rules)|)
    decreases |AllLookups(r.rules)| - k
  {
    var ls := AllLookups(r.rules);
    hide Run, AllLookups, SafeIn, AcceptsUpdate;
    if k == |ls| {
      more, s' := events, s;
    } else if ls[k].tag !in r.workers || ls[k].tag == a || ls[k].tag == b {
      more, s' := Clear(r, origin, a, b, events, s, k + 1);
    } else {
      var t := ls[k].tag;
      var l :| l in ls && l.tag == a;
      AcceptsShaded(r, s.store, t, DOMAINS, l);
      more := Renew(r, State(origin, map[]), events, s, t, DOMAINS);
      s' := Run(r, State(origin, map[]), more).value;
      more, s' := Clear(r, origin, a, b, more, s', k + 1);
    }
  }

  /** Both rule sets of a race are made to disable the legacy mode. */
  lemma Prepare(r: Router, origin: Store, a: Lookup, b: Lookup) returns (events: seq<Event>, s: State)
    requires !r.legacy && SafeIn(r.rules, false, origin) && Covers(origin, AllLookups(r.rules)) && Race(r, origin, a, b)
    ensures Run(r, State(origin, map[]), events) == Some(s) && Ready(r, origin, a.tag, b.tag, s)
  {
    hide AllLookups, SafeIn, AcceptsUpdate;
    var s0 := State(origin, map[]);
    assert Run(r, s0, []) == Some(s0);
    hide Run;
    AcceptsShaded(r, origin, a.tag, QUERIES, a);
    events := Renew(r, s0, [], s0, a.tag, QUERIES);
    s := Run(r, s0, events).value;
    AcceptsShaded(r, s.store, b.tag, QUERIES, a);
    events := Renew(r, s0, events, s, b.tag, QUERIES);
    s := Run(r, s0, events).value;
  }

  /** Two checks against one store, and then both updates. */
  lemma CrossOver(r: Router, s0: State, events: seq<Event>, s: State, a: string, m: Metadata, b: string, n: Metadata)
    returns (more: seq<Event>)
    requires Run(r, s0, events) == Some(s) && forall w :: StageOf(s, w).Idle?
    requires a in r.workers && b in r.workers && r.workers[a] != r.workers[b] && Covers(s.store, AllLookups(r.rules))
    requires AcceptsUpdate(r.rules, r.legacy, s.store, a, m) && AcceptsUpdate(r.rules, r.legacy, s.store, b, n)
    ensures Run(r, s0, more).Some? && Run(r, s0, more).value.store == s.store[a := m][b := n]
  {
    hide Run, AllLookups, AcceptsUpdate;
    var v, w := r.workers[a], r.workers[b];
    assert StageOf(s, v).Idle? && StageOf(s, w).Idle?;
    more := Check(r, s0, events, s, a, m);
    more := Check(r, s0, more, To(s, v, Checked(a, m)), b, n);
    Extend(r, s0, more, Apply(v));
    more := more + [Apply(v)];
    Extend(r, s0, more, Apply(w));
    more := more + [Apply(w)];
  }

  /** When both updates are done nothing disables the legacy mode and something needs it. */
  lemma Exposes(r: Router, origin: Store, a: Lookup, b: Lookup, s: State)
    requires !r.legacy && Covers(origin, AllLookups(r.rules)) && Race(r, origin, a, b) && !AlwaysDisabled(r, origin)
    requires Ready(r, origin, a.tag, b.tag, s) && Cleared(r, s.store, a.tag, b.tag, |AllLookups(r.rules)|)
    ensures !SafeIn(r.rules, false, s.store[a.tag := DOMAINS][b.tag := Metadata(!b.source, true, false)])
  {
    hide OwnFlags, SafeIn, Shaped;
    var ls, store := AllLookups(r.rules), s.store[a.tag := DOMAINS][b.tag := Metadata(!b.source, true, false)];
    SafeMeans(r.rules, false, store);
    forall l | l in ls ensures !store[l.tag].queryType {
      var k :| 0 <= k < |ls| && ls[k] == l;
    }
    if b.source {
      var l :| l in ls && l.tag !in r.workers && !l.source && origin[l.tag].ipcidr;
      assert store[l.tag] == origin[l.tag];
    }
  }

  lemma RacyBreaks(r: Router, origin: Store) returns (events: seq<Event>)
    requires SafeIn(r.rules, r.legacy, origin) && Covers(origin, AllLookups(r.rules)) && Racy(r, origin)
    ensures var s := Run(r, State(origin, map[]), events); s.Some? && !SafeIn(r.rules, r.legacy, s.value.store)
  {
    hide Run, AllLookups, SafeIn, AcceptsUpdate, AlwaysDisabled;
    var a, b :| Race(r, origin, a, b);
    var s;
    events, s := Prepare(r, origin, a, b);
    events, s := Clear(r, origin, a.tag, b.tag, events, s, 0);
    AcceptsShaded(r, s.store, a.tag, DOMAINS, b);
    AcceptsShaded(r, s.store, b.tag, Metadata(!b.source, true, false), a);
    Exposes(r, origin, a, b, s);
    events := CrossOver(r, State(origin, map[]), events, s, a.tag, DOMAINS, b.tag, Metadata(!b.source, true, false));
  }

  lemma StartSafe(rules: seq<RuleOption>, store: Store, legacy: bool)
    requires StartsIn(rules, store, legacy)
    ensures SafeIn(rules, legacy, store) && Covers(store, AllLookups(rules))
  {
    SafeMeans(rules, legacy, store);
  }

  /** From the store a router started with, every interleaving of lookups, decisions and updates keeps its
      rules valid for the running mode, except when that is not the legacy mode, nothing fixed disables the
      legacy mode, and the rules name two rule sets of different workers, of which one may come to need the
      legacy mode or a fixed one needs it already. */
  lemma ModeSafetyIff(r: Router, origin: Store)
    requires StartsIn(r.rules, origin, r.legacy)
    ensures Covers(origin, AllLookups(r.rules))
    ensures (forall events :: var s := Run(r, State(origin, map[]), events);
               s.Some? ==> SafeIn(r.rules, r.legacy, s.value.store))
            <==> !Racy(r, origin)
  {
    hide Run, SafeIn, AllLookups, StartsIn;
    StartSafe(r.rules, origin, r.legacy);
    if Racy(r, origin) {
      var events := RacyBreaks(r, origin);
    } else {
      CalmUnlessRacy(r, origin);
      forall events ensures var s := Run(r, State(origin, map[]), events);
          s.Some? ==> SafeIn(r.rules, r.legacy, s.value.store) {
        RunKeeps(r, origin, events);
      }
    }
  }

  /** In legacy mode, and when one worker updates every rule set that the rules name, nothing breaks the mode. */
  lemma ModeSafety(r: Router, origin: Store, w: Worker, events: seq<Event>)
    requires StartsIn(r.rules, origin, r.legacy) && (r.legacy || Sole(r, w))
    ensures var s := Run(r, State(origin, map[]), events); s.Some? ==> SafeIn(r.rules, r.legacy, s.value.store)
  {
    hide Run, SafeIn, AllLookups, StartsIn, Sole;
    StartSafe(r.rules, origin, r.legacy);
    RunKeeps(r, origin, events);
  }

  /** A route rule that names two rule sets and has no other condition. */
  const TWO_SETS := DefaultRule(DefaultOptions(NoMatch, false, false, false, false, false, ["a", "b"]),
                                ActionOption(KRoute, false, false, false, false, ""))

  lemma TwoSetsAlone()
    ensures AllLookups([TWO_SETS]) == [Lookup("a", false, true), Lookup("b", false, true)]
    ensures OwnFlags([TWO_SETS]) == Flags(false, false, false) && Shaped([TWO_SETS])
  {
    var rule := TWO_SETS;
    assert AllNodes([rule]) == {rule} && Nodes(rule) == {rule} by { assert [rule][1..] == []; }
    assert AllLookups([rule]) == Lookups(rule) + [] by { assert [rule][1..] == []; }
  }

  lemma TwoSetsSafe(store: Store)
    requires "a" in store && "b" in store && store["a"].nonIPCIDR && store["b"].nonIPCIDR
    ensures SafeIn([TWO_SETS], false, store) <==>
            store["a"].queryType || store["b"].queryType || (!store["a"].ipcidr && !store["b"].ipcidr)
  {
    var rules := [TWO_SETS];
    TwoSetsAlone();
    SafeMeans(rules, false, store);
    hide OwnFlags, Shaped, AllLookups, SafeIn;
    var a, b := Lookup("a", false, true), Lookup("b", false, true);
    assert a in AllLookups(rules) && b in AllLookups(rules);
    assert Disabled(rules, store) <==> store[a.tag].queryType || store[b.tag].queryType;
    assert Needed(rules, store) <==> store[a.tag].ipcidr || store[b.tag].ipcidr;
  }

  /** The rule set with query types loses them while the other one gains addresses. Either update alone is
      accepted, and both together need the legacy mode. */
  lemma TwoUpdatesBreakMode()
    ensures var rules, store := [TWO_SETS], map["a" := QUERIES, "b" := DOMAINS];
            && StartsIn(rules, store, false)
            && AcceptsUpdate(rules, false, store, "a", DOMAINS) && AcceptsUpdate(rules, false, store, "b", ADDRESSES)
            && !SafeIn(rules, false, store["a" := DOMAINS]["b" := ADDRESSES])
            && (exists events ::
                  var s := Run(Router(rules, false, map["a" := 0, "b" := 1]), State(store, map[]), events);
                  s.Some? && !SafeIn(rules, false, s.value.store))
  {
    var rules, store := [TWO_SETS], map["a" := QUERIES, "b" := DOMAINS];
    hide SafeIn, Run, AcceptsUpdate, StartsIn;
    TwoSetsSafe(store);
    TwoSetsSafe(store["a" := DOMAINS]);
    TwoSetsSafe(store["b" := ADDRESSES]);
    TwoSetsSafe(store["a" := DOMAINS]["b" := ADDRESSES]);
    SafeStarts(rules, store);
    SafeAccepts(rules, store, "a", DOMAINS);
    SafeAccepts(rules, store, "b", ADDRESSES);
    TwoSetsAlone();
    hide OwnFlags, Shaped, AllLookups;
    var r := Router(rules, false, map["a" := 0, "b" := 1]);
    assert Race(r, store, AllLookups(rules)[0], AllLookups(rules)[1]);
    var events := RacyBreaks(r, store);
  }

  lemma SafeStarts(rules: seq<RuleOption>, store: Store)
    requires SafeIn(rules, false, store)
    ensures StartsIn(rules, store, false)
  {
  }

  lemma SafeAccepts(rules: seq<RuleOption>, store: Store, t: string, m: Metadata)
    requires SafeIn(rules, false, store[t := m])
    ensures AcceptsUpdate(rules, false, store, t, m)
  {
  }

  // ---- the start

  /** A check begun before the router is started accepts what the router could start with, in whichever
      mode; the router resolves its mode from the store as it is, and the update comes last. */
  ghost predicate EarlyAccepts(rules: seq<RuleOption>, store: Store, t: string, m: Metadata) {
    StartsIn(rules, store[t := m], true) || StartsIn(rules, store[t := m], false)
  }

  /** What such updates of the tags can do: nothing, exactly when no tag alone can turn the mode, with
      query types from the legacy mode and with addresses to it. */
  lemma StartWindowIff(rules: seq<RuleOption>, tags: set<string>, store: Store, legacy: bool)
    requires StartsIn(rules, store, legacy)
    ensures (forall t, m | t in tags && EarlyAccepts(rules, store, t, m) :: SafeIn(rules, legacy, store[t := m]))
            <==> !exists t | t in tags :: StartsIn(rules, store[t := if legacy then QUERIES else ADDRESSES], !legacy)
  {
    hide StartsIn, SafeIn;
    forall t, m | t in tags && EarlyAccepts(rules, store, t, m) && !SafeIn(rules, legacy, store[t := m])
      ensures StartsIn(rules, store[t := if legacy then QUERIES else ADDRESSES], !legacy)
    {
      if legacy { TurnsFromLegacy(rules, store, t, m); } else { TurnsToLegacy(rules, store, t, m); }
    }
    if t :| t in tags && StartsIn(rules, store[t := if legacy then QUERIES else ADDRESSES], !legacy) {
      var m := if legacy then QUERIES else ADDRESSES;
      assert EarlyAccepts(rules, store, t, m);
      TurnBreaks(rules, store, t, legacy);
    }
  }

  lemma StartMeans(rules: seq<RuleOption>, legacy: bool, store: Store)
    ensures StartsIn(rules, store, legacy) <==>
            && SafeIn(rules, legacy, store) && Covers(store, AllLookups(rules))
            && (legacy ==> Needed(rules, store))
  {
    SafeMeans(rules, legacy, store);
    FlagsAre(rules, store);
    hide OwnFlags, Shaped, Mixed, Accepted, Disables, NeedsLegacy, Missing, AllLookups;
  }

  lemma TurnsFromLegacy(rules: seq<RuleOption>, store: Store, t: string, m: Metadata)
    requires StartsIn(rules, store, true) && EarlyAccepts(rules, store, t, m) && !SafeIn(rules, true, store[t := m])
    ensures StartsIn(rules, store[t := QUERIES], false)
  {
    hide StartsIn, SafeIn, OwnFlags, Shaped, AllLookups;
    StartMeans(rules, true, store);
    StartMeans(rules, true, store[t := m]);
    StartMeans(rules, false, store[t := m]);
    StartMeans(rules, false, store[t := QUERIES]);
    SafeMeans(rules, true, store);
    SafeMeans(rules, true, store[t := m]);
    SafeMeans(rules, false, store[t := m]);
    SafeMeans(rules, false, store[t := QUERIES]);
    var l :| l in AllLookups(rules) && store[t := m][l.tag].queryType;
    assert l.tag == t && store[t := QUERIES][l.tag].queryType;
  }

  lemma TurnsToLegacy(rules: seq<RuleOption>, store: Store, t: string, m: Metadata)
    requires StartsIn(rules, store, false) && EarlyAccepts(rules, store, t, m) && !SafeIn(rules, false, store[t := m])
    ensures StartsIn(rules, store[t := ADDRESSES], true)
  {
    hide StartsIn, SafeIn, OwnFlags, Shaped, AllLookups;
    StartMeans(rules, false, store[t := m]);
    StartMeans(rules, true, store[t := m]);
    StartMeans(rules, true, store[t := ADDRESSES]);
    SafeMeans(rules, true, store[t := m]);
    SafeMeans(rules, true, store[t := ADDRESSES]);
    if l :| l in AllLookups(rules) && !l.source && store[t := m][l.tag].ipcidr {
      assert store[t := ADDRESSES][l.tag].ipcidr;
    }
  }

  lemma TurnBreaks(rules: seq<RuleOption>, store: Store, t: string, legacy: bool)
    requires StartsIn(rules, store, legacy)
    requires StartsIn(rules, store[t := if legacy then QUERIES else ADDRESSES], !legacy)
    ensures !SafeIn(rules, legacy, store[t := if legacy then QUERIES else ADDRESSES])
  {
    hide StartsIn, SafeIn, OwnFlags, Shaped, AllLookups;
    var store' := store[t := if legacy then QUERIES else ADDRESSES];
    StartMeans(rules, legacy, store);
    StartMeans(rules, !legacy, store');
    SafeMeans(rules, legacy, store);
    SafeMeans(rules, true, store');
    SafeMeans(rules, false, store');
    if legacy {
      if l :| l in AllLookups(rules) && l.tag == t {
        assert store'[l.tag].queryType;
      } else {
        SameQuiet(rules, store, store');
      }
    }
  }
}
