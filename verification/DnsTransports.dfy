// Dependency-ordered start-up of DNS transports (dns/transport_manager.go).
module DnsTransports {
  import opened Base

  datatype Server = Server(tag: string, dependencies: seq<string>, fakeIP: bool)

  datatype StartResult =
    | Started
    | StartFailed(tag: string)
    | Circular(path: seq<string>)
    | MissingDependency(tag: string, server: string)

  function Tags(servers: seq<Server>): set<string> { set s | s in servers :: s.tag }

  ghost predicate UniqueTags(servers: seq<Server>) {
    forall i, j | 0 <= i < j < |servers| :: servers[i].tag != servers[j].tag
  }

  // ---- the dependency graph

  ghost predicate DependsOn(servers: seq<Server>, a: string, b: string) {
    exists s | s in servers :: s.tag == a && b in s.dependencies
  }

  ghost predicate IsPath(servers: seq<Server>, path: seq<string>) {
    forall i | 0 <= i < |path| - 1 :: DependsOn(servers, path[i], path[i + 1])
  }

  /** A path that comes back to one of its own elements. */
  ghost predicate IsCycle(servers: seq<Server>, path: seq<string>) {
    |path| >= 2 && IsPath(servers, path) && path[|path| - 1] in path[..|path| - 1]
  }

  ghost predicate Acyclic(servers: seq<Server>) { forall path :: !IsCycle(servers, path) }

  ghost predicate Closed(servers: seq<Server>) {
    forall s, d | s in servers && d in s.dependencies :: d in Tags(servers)
  }

  /** Each started transport once, and after everything it depends on. */
  ghost predicate TopologicalOrder(servers: seq<Server>, order: seq<string>) {
    && (forall i, j | 0 <= i < j < |order| :: order[i] != order[j])
    && (forall t | t in order :: t in Tags(servers))
    && (forall i, s, d | 0 <= i < |order| && s in servers && s.tag == order[i] && d in s.dependencies ::
        d in order[..i])
  }

  lemma PathSuffix(servers: seq<Server>, path: seq<string>, k: nat)
    requires IsPath(servers, path) && k <= |path|
    ensures IsPath(servers, path[k..])
  {
    forall i | 0 <= i < |path[k..]| - 1 ensures DependsOn(servers, path[k..][i], path[k..][i + 1]) {
      assert DependsOn(servers, path[k + i], path[k + i + 1]);
    }
  }

  /** In a complete topological order every dependency is strictly earlier, so paths only go back. */
  lemma {:induction false} PathsGoBack(servers: seq<Server>, order: seq<string>, path: seq<string>, i: nat)
    requires TopologicalOrder(servers, order) && IsPath(servers, path) && |path| >= 2 && i < |order|
    requires order[i] == path[0]
    ensures path[|path| - 1] in order[..i]
    decreases |path|
  {
    assert DependsOn(servers, path[0], path[1]);
    var s :| s in servers && s.tag == path[0] && path[1] in s.dependencies;
    assert path[1] in order[..i];
    if |path| > 2 {
      var j :| 0 <= j < i && order[j] == path[1];
      var rest := path[1..];
      PathSuffix(servers, path, 1);
      PathsGoBack(servers, order, rest, j);
      assert rest[|rest| - 1] == path[|path| - 1];
    }
  }

  lemma CompleteOrderAcyclic(servers: seq<Server>, order: seq<string>)
    requires TopologicalOrder(servers, order) && forall t | t in Tags(servers) :: t in order
    ensures Acyclic(servers) && Closed(servers)
  {
    forall path ensures !IsCycle(servers, path) {
      if IsCycle(servers, path) {
        var last := |path| - 1;
        var k :| 0 <= k < last && path[k] == path[last];
        assert DependsOn(servers, path[k], path[k + 1]);
        assert path[k] in Tags(servers);
        var i :| 0 <= i < |order| && order[i] == path[k];
        var loop := path[k..];
        PathSuffix(servers, path, k);
        PathsGoBack(servers, order, loop, i);
      }
    }
    forall s, d | s in servers && d in s.dependencies ensures d in Tags(servers) {
      assert s.tag in Tags(servers);
      var i :| 0 <= i < |order| && order[i] == s.tag;
      assert d in order[..i];
    }
  }

  // ---- sizes

  lemma {:induction false} TagCount(servers: seq<Server>)
    requires UniqueTags(servers)
    ensures |Tags(servers)| == |servers|
  {
    if servers != [] {
      var n := |servers| - 1;
      var front := servers[..n];
      assert servers == front + [servers[n]];
      assert servers[n].tag !in Tags(front) by {
        forall s | s in front ensures s.tag != servers[n].tag {
          var i :| 0 <= i < n && front[i] == s;
          assert servers[i].tag != servers[n].tag;
        }
      }
      assert Tags(servers) == Tags(front) + {servers[n].tag};
      TagCount(front);
    }
  }

  lemma SubsetSize(a: set<string>, b: set<string>)
    requires a <= b
    ensures |a| <= |b| && (|a| == |b| ==> a == b)
  {
    assert b == a + (b - a);
    assert |b| == |a| + |b - a|;
  }

  // ---- startTransports

  predicate Ready(s: Server, started: set<string>) { forall d | d in s.dependencies :: d in started }

  function Find(servers: seq<Server>, tag: string): (r: Option<Server>)
    ensures r.Some? ==> r.value in servers && r.value.tag == tag
    ensures r.None? ==> tag !in Tags(servers)
  {
    if servers == [] then None else if servers[0].tag == tag then Some(servers[0]) else Find(servers[1..], tag)
  }

  lemma FindUnique(servers: seq<Server>, a: Server, b: Server)
    requires UniqueTags(servers) && a in servers && b in servers && a.tag == b.tag
    ensures a == b
  {
    var i :| 0 <= i < |servers| && servers[i] == a;
    var j :| 0 <= j < |servers| && servers[j] == b;
    assert i == j;
  }

  method FirstUnstarted(s: Server, started: set<string>) returns (d: string)
    requires !Ready(s, started)
    ensures d in s.dependencies && d !in started
  {
    ghost var m :| 0 <= m < |s.dependencies| && s.dependencies[m] !in started;
    var k := 0;
    while s.dependencies[k] in started
      invariant k <= m
      decreases m - k
    {
      k := k + 1;
    }
    d := s.dependencies[k];
  }

  /** The state in which no transport can be started any more. */
  ghost predicate Stuck(servers: seq<Server>, started: set<string>) {
    forall s | s in servers && s.tag !in started :: !Ready(s, started)
  }

  /** lintTransport ends, and what it reports is in the graph. */
  method Lint(servers: seq<Server>, started: set<string>, tree: seq<string>, current: Server) returns (r: StartResult)
    requires Stuck(servers, started) && current in servers && current.tag !in started
    requires |tree| > 0 && tree[|tree| - 1] == current.tag && IsPath(servers, tree)
    requires forall t | t in tree :: t in Tags(servers)
    ensures r.Circular? || r.MissingDependency?
    ensures r.Circular? ==> IsCycle(servers, r.path) && tree <= r.path
    ensures r.MissingDependency? ==> r.tag !in Tags(servers) && DependsOn(servers, r.server, r.tag)
    decreases Tags(servers) - (set t | t in tree)
  {
    var problem := FirstUnstarted(current, started);
    var path := tree + [problem];
    assert DependsOn(servers, current.tag, problem);
    assert IsPath(servers, path) by {
      forall i | 0 <= i < |path| - 1 ensures DependsOn(servers, path[i], path[i + 1]) {
        if i < |tree| - 1 { assert DependsOn(servers, tree[i], tree[i + 1]); }
      }
    }
    if problem in tree {
      assert path[..|path| - 1] == tree;
      return Circular(path);
    }
    var server := Find(servers, problem);
    if server.None? { return MissingDependency(problem, current.tag); }
    assert problem in Tags(servers) - (set t | t in tree);
    assert (set t | t in path) == (set t | t in tree) + {problem};
    r := Lint(servers, started, path, server.value);
  }

  /** One pass over the list. */
  method StartPass(servers: seq<Server>, fails: string -> bool, order: seq<string>)
    returns (order': seq<string>, failed: Option<string>)
    requires UniqueTags(servers) && TopologicalOrder(servers, order)
    ensures TopologicalOrder(servers, order') && order <= order'
    ensures failed.Some? ==> fails(failed.value) && order' != [] && order'[|order'| - 1] == failed.value
    ensures failed.None? && order' == order ==> Stuck(servers, set t | t in order)
  {
    order', failed := order, None;
    var k := 0;
    while k < |servers|
      invariant k <= |servers| && TopologicalOrder(servers, order') && order <= order'
      invariant order' == order ==>
                forall i | 0 <= i < k && servers[i].tag !in order :: !Ready(servers[i], set t | t in order)
    {
      var s := servers[k];
      if s.tag !in order' && forall d | d in s.dependencies :: d in order' {
        ExtendOrder(servers, order', s);
        order' := order' + [s.tag];
        if fails(s.tag) { return order', Some(s.tag); }
      } else if order' == order && s.tag !in order {
        assert !Ready(s, set t | t in order);
      }
      k := k + 1;
    }
  }

  lemma ExtendOrder(servers: seq<Server>, order: seq<string>, s: Server)
    requires UniqueTags(servers) && TopologicalOrder(servers, order) && s in servers
    requires s.tag !in order && forall d | d in s.dependencies :: d in order
    ensures TopologicalOrder(servers, order + [s.tag])
  {
    var order' := order + [s.tag];
    forall i, u, d | 0 <= i < |order'| && u in servers && u.tag == order'[i] && d in u.dependencies
        ensures d in order'[..i] {
      if i < |order| {
        assert order'[..i] == order[..i];
      } else {
        FindUnique(servers, u, s);
        assert order'[..i] == order;
      }
    }
  }

  lemma OrderSize(servers: seq<Server>, order: seq<string>)
    requires UniqueTags(servers) && TopologicalOrder(servers, order)
    ensures |set t | t in order| == |order| <= |servers|
    ensures |order| == |servers| <==> forall t | t in Tags(servers) :: t in order
  {
    TagCount(servers);
    DistinctCount(order);
    var done := set t | t in order;
    SubsetSize(done, Tags(servers));
    if forall t | t in Tags(servers) :: t in order { assert done == Tags(servers); }
  }

  lemma {:induction false} DistinctCount(order: seq<string>)
    requires forall i, j | 0 <= i < j < |order| :: order[i] != order[j]
    ensures |set t | t in order| == |order|
  {
    if order != [] {
      var n := |order| - 1;
      assert order == order[..n] + [order[n]];
      assert (set t | t in order) == (set t | t in order[..n]) + {order[n]};
      DistinctCount(order[..n]);
    }
  }

  /** startTransports ends. What it started is in dependency order, each transport once. It reports a
      start error, a dependency cycle or a missing dependency only if there is one, and without a
      start error it succeeds exactly when the graph is closed and acyclic. */
  method StartTransports(servers: seq<Server>, fails: string -> bool) returns (order: seq<string>, r: StartResult)
    requires UniqueTags(servers)
    ensures TopologicalOrder(servers, order)
    ensures r.Started? ==> forall t | t in Tags(servers) :: t in order
    ensures r.StartFailed? ==> fails(r.tag) && r.tag in Tags(servers) && order != [] && order[|order| - 1] == r.tag
    ensures r.Circular? ==> IsCycle(servers, r.path)
    ensures r.MissingDependency? ==> r.tag !in Tags(servers) && DependsOn(servers, r.server, r.tag)
    ensures !r.StartFailed? ==> (r.Started? <==> Closed(servers) && Acyclic(servers))
  {
    order := [];
    while true
      invariant TopologicalOrder(servers, order) && |order| <= |servers|
      decreases |servers| - |order|
    {
      var next, failed := StartPass(servers, fails, order);
      OrderSize(servers, next);
      if failed.Some? {
        assert next[|next| - 1] in next;
        return next, StartFailed(failed.value);
      }
      if |next| == |servers| {
        CompleteOrderAcyclic(servers, next);
        return next, Started;
      }
      if next == order {
        var started := set t | t in order;
        var s := FindPending(servers, started);
        r := Lint(servers, started, [s.tag], s);
        return order, r;
      }
      order := next;
    }
  }

  method FindPending(servers: seq<Server>, started: set<string>) returns (s: Server)
    requires exists t | t in Tags(servers) :: t !in started
    ensures s in servers && s.tag !in started
  {
    var k := 0;
    ghost var t :| t in Tags(servers) && t !in started;
    ghost var server :| server in servers && server.tag == t;
    while k < |servers| && servers[k].tag in started
      invariant k <= |servers| && forall i | 0 <= i < k :: servers[i].tag in started
    {
      k := k + 1;
    }
    assert k < |servers| by {
      var i :| 0 <= i < |servers| && servers[i] == server;
      assert servers[i].tag !in started;
    }
    s := servers[k];
  }

  // ---- the manager the list comes from

  class TransportManager {
    var transports: seq<Server>
    var byTag: map<string, Server>
    const defaultTag: string
    var started: bool
    var chosen: Option<Server>
    var fakeIP: Option<Server>

    /** The list and the map agree and no tag occurs twice. The default is no fakeip server and has the
        configured tag, if one is configured; as long as there is none, no server in the list could be it. */
    ghost predicate Valid()
      reads this
    {
      UniqueTags(transports) && Agree(transports, byTag) && DefaultRight(transports, defaultTag, chosen)
    }

    constructor (defaultTag: string)
      ensures Valid() && transports == [] && !started && chosen.None? && fakeIP.None?
    {
      this.defaultTag, started := defaultTag, false;
      transports, byTag, chosen, fakeIP := [], map[], None, None;
    }

    /** Create: a transport with a known tag replaces the old one, at the end of the list. The list stays
        even when the default or fakeip check then fails. An empty tag is refused and, once the manager
        has started, so is a transport that does not start or whose predecessor does not close; nothing
        has changed then. */
    method Create(s: Server, starts: bool, closes: bool) returns (ok: bool)
      requires Valid()
      modifies this
      ensures Valid() && started == old(started)
      ensures Refuses(s, old(byTag), started, starts, closes) ==> !ok && unchanged(this)
      ensures !Refuses(s, old(byTag), started, starts, closes) ==>
                && transports == Without(old(transports), s.tag) + [s]
                && byTag == old(byTag)[s.tag := s]
      ensures !Refuses(s, old(byTag), started, starts, closes) ==>
                var due := if defaultTag == "" then old(chosen).None? else s.tag == defaultTag;
                && ok == (!s.fakeIP || (!due && old(fakeIP).None?))
                && chosen == (if due && !s.fakeIP then Some(s) else old(chosen))
                && fakeIP == (if s.fakeIP && ok then Some(s) else old(fakeIP))
    {
      hide Without, UniqueTags, Agree;
      DefaultKept(transports, defaultTag, chosen, s);
      if s.tag == "" { return false; }
      if started && !starts { return false; }
      if started && s.tag in byTag && !closes { return false; }
      Replace(s);
      ok := true;
      if TakesDefault(s, chosen) {
        if s.fakeIP { return false; }
        chosen := Some(s);
      }
      if s.fakeIP {
        if fakeIP.Some? { return false; }
        fakeIP := Some(s);
      }
    }

    predicate TakesDefault(s: Server, chosen: Option<Server>) {
      s.tag == defaultTag || (defaultTag == "" && chosen.None?)
    }

    method Replace(s: Server)
      requires Valid()
      modifies this`transports, this`byTag
      ensures UniqueTags(transports) && Agree(transports, byTag)
      ensures transports == Without(old(transports), s.tag) + [s] && byTag == old(byTag)[s.tag := s]
    {
      if s.tag in byTag {
        var k := IndexOf(byTag[s.tag]);
        RemoveAt(transports, k);
        transports := transports[..k] + transports[k + 1..];
      } else {
        NothingRemoved(transports, s.tag);
      }
      ReplaceAgrees(old(transports), old(byTag), s);
      transports := transports + [s];
      byTag := byTag[s.tag := s];
    }

    static predicate Refuses(s: Server, byTag: map<string, Server>, started: bool, starts: bool, closes: bool) {
      s.tag == "" || (started && (!starts || (s.tag in byTag && !closes)))
    }

    method IndexOf(s: Server) returns (k: nat)
      requires s in transports
      ensures k < |transports| && transports[k] == s
    {
      ghost var m :| 0 <= m < |transports| && transports[m] == s;
      k := 0;
      while transports[k] != s
        invariant k <= m
        decreases m - k
      {
        k := k + 1;
      }
    }

    /** The start-up stage, over the manager's own list. */
    method Start(fails: string -> bool) returns (order: seq<string>, r: StartResult)
      requires Valid()
      ensures TopologicalOrder(transports, order)
      ensures r.Started? ==> forall t | t in byTag :: t in order
      ensures !r.StartFailed? ==> (r.Started? <==> Closed(transports) && Acyclic(transports))
    {
      order, r := StartTransports(transports, fails);
      assert forall t | t in byTag :: t in Tags(transports);
    }
  }

  ghost predicate DefaultRight(transports: seq<Server>, defaultTag: string, chosen: Option<Server>) {
    match chosen
    case Some(s) => !s.fakeIP && (defaultTag != "" ==> s.tag == defaultTag)
    case None => forall s | s in transports && (defaultTag == "" || s.tag == defaultTag) :: s.fakeIP
  }

  /** A new server leaves the default as it is unless it is due, and then takes its place unless it is fakeip. */
  lemma DefaultKept(transports: seq<Server>, defaultTag: string, chosen: Option<Server>, s: Server)
    requires DefaultRight(transports, defaultTag, chosen)
    ensures var due := if defaultTag == "" then chosen.None? else s.tag == defaultTag;
            DefaultRight(Without(transports, s.tag) + [s], defaultTag, if due && !s.fakeIP then Some(s) else chosen)
  {
    WithoutTag(transports, s.tag);
    hide Without;
  }

  ghost predicate Agree(transports: seq<Server>, byTag: map<string, Server>) {
    && (forall s | s in transports :: s.tag in byTag && byTag[s.tag] == s)
    && (forall t | t in byTag :: byTag[t] in transports && byTag[t].tag == t)
  }

  lemma ReplaceAgrees(transports: seq<Server>, byTag: map<string, Server>, s: Server)
    requires UniqueTags(transports) && Agree(transports, byTag)
    ensures UniqueTags(Without(transports, s.tag) + [s]) && Agree(Without(transports, s.tag) + [s], byTag[s.tag := s])
  {
    WithoutUnique(transports, s);
    WithoutTag(transports, s.tag);
  }

  function Without(servers: seq<Server>, tag: string): seq<Server> {
    if servers == [] then [] else (if servers[0].tag == tag then [] else [servers[0]]) + Without(servers[1..], tag)
  }

  lemma {:induction false} WithoutTag(servers: seq<Server>, tag: string)
    ensures forall s :: s in Without(servers, tag) <==> s in servers && s.tag != tag
  {
    if servers != [] { WithoutTag(servers[1..], tag); }
  }

  lemma {:induction false} NothingRemoved(servers: seq<Server>, tag: string)
    requires forall s | s in servers :: s.tag != tag
    ensures Without(servers, tag) == servers
  {
    if servers != [] { NothingRemoved(servers[1..], tag); }
  }

  lemma {:induction false} RemoveAt(servers: seq<Server>, k: nat)
    requires UniqueTags(servers) && k < |servers|
    ensures Without(servers, servers[k].tag) == servers[..k] + servers[k + 1..]
  {
    var tag := servers[k].tag;
    if k == 0 {
      forall s | s in servers[1..] ensures s.tag != tag {
        var i :| 0 <= i < |servers| - 1 && servers[1..][i] == s;
        assert servers[0].tag != servers[i + 1].tag;
      }
      NothingRemoved(servers[1..], tag);
    } else {
      RemoveAt(servers[1..], k - 1);
      assert servers[..k] == [servers[0]] + servers[1..][..k - 1];
      assert servers[1..][k..] == servers[k + 1..];
    }
  }

  lemma {:induction false} WithoutUnique(servers: seq<Server>, s: Server)
    requires UniqueTags(servers)
    ensures UniqueTags(Without(servers, s.tag) + [s])
  {
    WithoutTag(servers, s.tag);
    if servers != [] {
      var rest := Without(servers[1..], s.tag);
      WithoutUnique(servers[1..], s);
      WithoutTag(servers[1..], s.tag);
      if servers[0].tag != s.tag {
        var all := [servers[0]] + (rest + [s]);
        assert Without(servers, s.tag) + [s] == all;
        forall i, j | 0 <= i < j < |all| ensures all[i].tag != all[j].tag {
          if i == 0 {
            assert all[j] == (rest + [s])[j - 1];
            if j < |all| - 1 {
              assert all[j] in rest && all[j] in servers[1..];
              var m :| 0 <= m < |servers| - 1 && servers[1..][m] == all[j];
              assert servers[0].tag != servers[m + 1].tag;
            }
          } else {
            assert all[i] == (rest + [s])[i - 1] && all[j] == (rest + [s])[j - 1];
          }
        }
      } else {
        assert Without(servers, s.tag) + [s] == rest + [s];
      }
    }
  }
}
