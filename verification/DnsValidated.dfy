// Accepted rule lists compile to well-scoped ones, so everything proved of the rule walk holds of
// every list the validator accepts.
module DnsValidated {
  import opened DnsRules
  import opened DnsConfig
  import opened DnsWalk
  import opened DnsReference
  import opened DnsWalkMeaning
  import opened DnsWalkTheorems
  import opened DnsWalkShield
  import opened DnsWalkGap

  ghost predicate BindsAnonymous(rule: RuleOption) {
    exists n | n in Nodes(rule) :: n.DefaultRule? && n.options.response.MatchAnonymous?
  }

  /** What NewDNSRule makes of a configured rule: a default rule binds its own response, a logical
      rule binds what its sub rules bind and names none; race needs a final action, and the reject
      method `reply` is refused. */
  ghost predicate Compiled(o: RuleOption, r: Rule) {
    && (r.action.Evaluate? <==> o.action.kind.KEvaluate?)
    && (r.action.Evaluate? ==> r.action.tag == o.action.tag)
    && (r.action.Respond? <==> o.action.kind.KRespond?)
    && r.race == o.action.race
    && (r.race ==> !r.action.SetOptions? && !r.action.Evaluate?)
    && r.action != Reject(RejectReply)
    && match o
       case DefaultRule(d, _) =>
         && r.tags == (if d.response.MatchTag? then [d.response.tag] else [])
         && r.anonymous == d.response.MatchAnonymous?
         && r.responseTag == (if d.response.MatchTag? then d.response.tag else "")
       case LogicalRule(_, _) =>
         && (forall t :: t in r.tags <==> t in Refs(o))
         && (r.anonymous <==> BindsAnonymous(o))
         && r.responseTag == ""
  }

  ghost predicate CompiledAll(os: seq<RuleOption>, rs: seq<Rule>) {
    |os| == |rs| && forall i | 0 <= i < |os| :: Compiled(os[i], rs[i])
  }

  lemma CompiledRefs(o: RuleOption, r: Rule)
    requires Compiled(o, r)
    ensures forall t :: t in r.tags <==> t in Refs(o)
  {
    if o.DefaultRule? { LeafUse(o); }
  }

  lemma SomeTag(tags: seq<Tag>)
    ensures tags != [] ==> exists t :: t in tags
  {
    if tags != [] { assert tags[0] in tags; }
  }

  lemma RespondCompiled(store: Store, o: RuleOption, r: Rule)
    requires Compiled(o, r) && TreeValid(store, o)
    ensures RespondScoped(r)
  {
    if r.action.Respond? && o.LogicalRule? {
      assert o in Nodes(o) && NodeValid(store, o);
      SomeTag(r.tags);
    }
  }

  /** In an accepted list every bound tag is defined exactly once, by a strictly earlier evaluate. */
  lemma BoundTagDefined(store: Store, os: seq<RuleOption>, rs: seq<Rule>, i: nat, t: Tag)
    requires Accepted(store, os) && CompiledAll(os, rs) && i < |rs| && t in rs[i].tags
    ensures exists j :: 0 <= j < i && rs[j].Defines(t) && forall k | 0 <= k < |rs| && rs[k].Defines(t) :: k == j
  {
    assert InScope(store, os, i) && Compiled(os[i], rs[i]);
    CompiledRefs(os[i], rs[i]);
    var j :| 0 <= j < i && DefinesTag(os[j], t);
    assert Compiled(os[j], rs[j]);
    forall k | 0 <= k < |rs| && rs[k].Defines(t) ensures k == j {
      assert Compiled(os[k], rs[k]) && InScope(store, os, k) && InScope(store, os, j);
      assert DefinesTag(os[k], t);
    }
  }

  /** In an accepted list a rule that matches or gives back the anonymous response has an earlier evaluate that
      provides it. */
  lemma BoundAnonymousDefined(store: Store, os: seq<RuleOption>, rs: seq<Rule>, i: nat)
    requires Accepted(store, os) && CompiledAll(os, rs) && i < |rs|
    requires rs[i].anonymous || (rs[i].action.Respond? && rs[i].responseTag == "")
    ensures exists j :: 0 <= j < i && rs[j].action.Evaluate? && rs[j].action.tag == ""
  {
    assert InScope(store, os, i) && Compiled(os[i], rs[i]);
    assert os[i] in Nodes(os[i]);
    if rs[i].anonymous && os[i].LogicalRule? {
      var n :| n in Nodes(os[i]) && n.DefaultRule? && n.options.response.MatchAnonymous?;
      assert NeedsAnonymous(os[i]);
    }
    var j :| 0 <= j < i && DefinesAnonymous(os[j]);
    assert Compiled(os[j], rs[j]);
  }

  lemma AcceptedScoped(store: Store, os: seq<RuleOption>, rs: seq<Rule>)
    requires Accepted(store, os) && CompiledAll(os, rs)
    ensures Scoped(rs)
  {
    forall i, j, t | 0 <= i < j < |rs| && rs[i].Defines(t) ensures !rs[j].Defines(t) {
      assert Compiled(os[i], rs[i]) && Compiled(os[j], rs[j]) && InScope(store, os, j);
      if rs[j].Defines(t) { assert DefinesTag(os[j], t) && DefinesTag(os[i], t); }
    }
    forall i, j, t | 0 <= i <= j < |rs| && t in rs[i].tags ensures !rs[j].Defines(t) {
      BoundTagDefined(store, os, rs, i, t);
    }
    forall i | 0 <= i < |rs| ensures RespondScoped(rs[i]) {
      assert InScope(store, os, i) && Compiled(os[i], rs[i]);
      RespondCompiled(store, os[i], rs[i]);
    }
  }

  /** Every run of an accepted list in which no rule that shows is matched late gives the sequential
      verdict or that of a winning race rule; and in every run a decision made by another rule comes
      after every race rule before it was judged, with everything it binds resolved, and declined. */
  lemma AcceptedMeaning(store: Store, os: seq<RuleOption>, q: Query, c: Schedule)
    requires Accepted(store, os) && CompiledAll(os, q.rules)
    ensures var (s, v) := Exchange(q, c);
            && (!s.late ==> Right(q, v))
            && (!v.raced ==> forall j | 0 <= j < v.at && j < |q.rules| && q.rules[j].Races() :: Examined(q, c, s, j))
            && (forall f, g | f in s.futures && g in s.futures && f.rule == g.rule :: f == g)
  {
    hide Exchange;
    AcceptedScoped(store, os, q.rules);
    OrderedMeaning(q, c);
    RacePriority(q, c);
    OptionSnapshots(q, c);
  }

  /** An accepted list keeps its order under every schedule exactly when the first rule to bind each tag
      does not show. */
  lemma AcceptedOrder(store: Store, os: seq<RuleOption>, rs: seq<Rule>)
    requires Accepted(store, os) && CompiledAll(os, rs)
    ensures (forall q: Query, c: Schedule | q.rules == rs :: Right(q, Exchange(q, c).1))
            <==> (forall i: nat, t | FirstBinder(rs, i, t) :: !Shows(rs, i))
  {
    hide Exchange, Right, Shows, Exposed;
    AcceptedScoped(store, os, rs);
    forall r | r in rs && r.Races()
        ensures !r.action.SetOptions? && !r.action.Evaluate? && r.action != Reject(RejectReply) {
      var i :| 0 <= i < |rs| && rs[i] == r;
      assert Compiled(os[i], rs[i]);
    }
    OrderSafeIff(rs);
    ExposedFirst(rs);
    forall i: nat, t | FirstBinder(rs, i, t) ensures exists j | 0 <= j < |rs| :: rs[j].Defines(t) {
      BoundTagDefined(store, os, rs, i, t);
    }
  }
}
