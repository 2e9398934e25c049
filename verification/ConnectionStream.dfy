// The connection stream: the daemon's delta encoder (daemon/started_service.go) and the client that
// replays its events (experimental/libbox/command_types.go).
module ConnectionStream {
  import opened Base

  type Id = nat

  datatype Counters = Counters(up: int, down: int)
  {
    predicate AtMost(later: Counters) { up <= later.up && down <= later.down }
    function Plus(delta: Counters): Counters { Counters(up + delta.up, down + delta.down) }
    function Minus(earlier: Counters): Counters { Counters(up - earlier.up, down - earlier.down) }
  }

  const ZERO := Counters(0, 0)

  /** What the daemon last told the client about an open connection. */
  datatype Snapshot = Snapshot(total: Counters, hadTraffic: bool)
  type Snapshots = map<Id, Snapshot>

  datatype Active = Active(id: Id, total: Counters)
  /** closedAt is in milliseconds; 0 is the zero time. */
  datatype Ended = Ended(id: Id, total: Counters, closedAt: nat)

  /** A notification of the traffic manager. A Left without metadata has total None. */
  datatype Notice = Joined(id: Id, total: Counters) | Left(id: Id, closedAt: nat, recorded: nat, last: Option<Counters>)

  /** An event sent to the client; closedAt 0 means open. */
  datatype Event =
    | New(id: Id, total: Counters, closedAt: nat)
    | Update(id: Id, delta: Counters)
    | Closed(id: Id, closedAt: nat, last: Option<Counters>)

  // ---- the encoder, as functions

  function GreetActive(s: Snapshots, active: seq<Active>): (r: (Snapshots, seq<Event>)) {
    if active == [] then (s, []) else
    var (t, events) := GreetActive(s, active[..|active| - 1]);
    var a := active[|active| - 1];
    (t[a.id := Snapshot(a.total, false)], events + [New(a.id, a.total, 0)])
  }

  function GreetEnded(ended: seq<Ended>): seq<Event> {
    if ended == [] then [] else
    var e := ended[|ended| - 1];
    GreetEnded(ended[..|ended| - 1]) + [New(e.id, e.total, e.closedAt)]
  }

  /** buildInitialConnectionState */
  function Greet(s: Snapshots, active: seq<Active>, ended: seq<Ended>): (Snapshots, seq<Event>) {
    (GreetActive(s, active).0, GreetActive(s, active).1 + GreetEnded(ended))
  }

  function LeftAt(n: Notice, now: nat): nat
    requires n.Left?
  {
    if n.closedAt != 0 then n.closedAt else if n.recorded != 0 then n.recorded else now
  }

  /** applyConnectionEvent */
  function Hear(s: Snapshots, n: Notice, now: nat): (Snapshots, seq<Event>) {
    match n
    case Joined(id, total) => if id in s then (s, []) else (s[id := Snapshot(total, false)], [New(id, total, 0)])
    case Left(id, _, _, total) => (s - {id}, [Closed(id, LeftAt(n, now), total)])
  }

  function HearAll(s: Snapshots, notices: seq<Notice>, now: nat): (Snapshots, seq<Event>) {
    if notices == [] then (s, []) else
    var (t, events) := HearAll(s, notices[..|notices| - 1], now);
    var (u, more) := Hear(t, notices[|notices| - 1], now);
    (u, events + more)
  }

  /** One active connection of buildTrafficUpdates. */
  function Report(s: Snapshots, a: Active): (Snapshots, seq<Event>) {
    if a.id !in s then (s[a.id := Snapshot(a.total, false)], [New(a.id, a.total, 0)]) else
    var delta := a.total.Minus(s[a.id].total);
    var quiet := if s[a.id].hadTraffic then [Update(a.id, ZERO)] else [];
    if delta.up < 0 || delta.down < 0 then (s[a.id := Snapshot(a.total, false)], quiet)
    else if delta.up > 0 || delta.down > 0 then (s[a.id := Snapshot(a.total, true)], [Update(a.id, delta)])
    else (s[a.id := Snapshot(a.total, false)], quiet)
  }

  function ReportAll(s: Snapshots, active: seq<Active>): (Snapshots, seq<Event>) {
    if active == [] then (s, []) else
    var (t, events) := ReportAll(s, active[..|active| - 1]);
    var (u, more) := Report(t, active[|active| - 1]);
    (u, events + more)
  }

  function Index(ended: seq<Ended>): map<Id, Ended> {
    if ended == [] then map[] else Index(ended[..|ended| - 1])[ended[|ended| - 1].id := ended[|ended| - 1]]
  }

  function Farewell(id: Id, ended: map<Id, Ended>, now: nat): Event {
    if id !in ended then Closed(id, now, None) else
    Closed(id, if ended[id].closedAt != 0 then ended[id].closedAt else now, Some(ended[id].total))
  }

  function FarewellAll(order: seq<Id>, ended: map<Id, Ended>, now: nat): seq<Event> {
    if order == [] then [] else
    FarewellAll(order[..|order| - 1], ended, now) + [Farewell(order[|order| - 1], ended, now)]
  }

  function Ids(active: seq<Active>): set<Id> { set a | a in active :: a.id }

  function EndedIds(ended: seq<Ended>): set<Id> { set e | e in ended :: e.id }

  function Listed(order: seq<Id>): set<Id> { set id | id in order }

  /** buildTrafficUpdates; order is the order in which the map of snapshots yields the ids to close. */
  function Tick(s: Snapshots, active: seq<Active>, ended: seq<Ended>, order: seq<Id>, now: nat)
    : (Snapshots, seq<Event>)
  {
    var (t, events) := ReportAll(s, active);
    (t - Listed(order), events + FarewellAll(order, Index(ended), now))
  }

  ghost predicate StaleOrder(s: Snapshots, active: seq<Active>, order: seq<Id>) {
    Listed(order) == ReportAll(s, active).0.Keys - Ids(active)
  }

  // ---- the client, as functions

  datatype Conn = Conn(rate: Counters, total: Counters, closedAt: nat)
  type Shown = map<Id, Conn>

  function Apply(m: Shown, e: Event): Shown {
    match e
    case New(id, total, closedAt) => m[id := Conn(ZERO, total, closedAt)]
    case Update(id, delta) => if id in m then m[id := Conn(delta, m[id].total.Plus(delta), m[id].closedAt)] else m
    case Closed(id, closedAt, Some(total)) => m[id := Conn(ZERO, total, closedAt)]
    case Closed(id, closedAt, None) => if id in m then m[id := Conn(ZERO, m[id].total, closedAt)] else m
  }

  function ApplyAll(m: Shown, events: seq<Event>): Shown {
    if events == [] then m else Apply(ApplyAll(m, events[..|events| - 1]), events[|events| - 1])
  }

  const MAX_AGE := 300_000

  predicate Expired(c: Conn, now: nat) { c.closedAt != 0 && now - c.closedAt > MAX_AGE }

  function Evict(m: Shown, now: nat): Shown { map id | id in m && !Expired(m[id], now) :: m[id] }

  lemma {:induction false} ApplyAllAppend(m: Shown, a: seq<Event>, b: seq<Event>)
    ensures ApplyAll(m, a + b) == ApplyAll(ApplyAll(m, a), b)
  {
    if b == [] {
      assert a + b == a;
    } else {
      ApplyAllAppend(m, a, b[..|b| - 1]);
      assert (a + b)[..|a + b| - 1] == a + b[..|b| - 1];
    }
  }

  // ---- what the client sees is what the daemon remembers

  function Open(m: Shown): set<Id> { set id | id in m && m[id].closedAt == 0 }

  /** The client's open connections are the daemon's snapshots. */
  ghost predicate Mirrors(s: Snapshots, m: Shown) { Open(m) == s.Keys }

  /** The client's totals are the counters of the daemon's snapshots. */
  ghost predicate Counts(s: Snapshots, m: Shown) {
    Mirrors(s, m) && forall id | id in s :: id in m && m[id].total == s[id].total
  }

  lemma OpenIs(m: Shown, keys: set<Id>)
    requires forall id :: id in keys <==> id in m && m[id].closedAt == 0
    ensures Open(m) == keys
  {
  }

  lemma ReportMirrors(s: Snapshots, m: Shown, a: Active)
    requires Mirrors(s, m)
    ensures Mirrors(Report(s, a).0, ApplyAll(m, Report(s, a).1))
    ensures Counts(s, m) && (a.id in s ==> s[a.id].total.AtMost(a.total)) ==>
              Counts(Report(s, a).0, ApplyAll(m, Report(s, a).1))
  {
    var (t, events) := Report(s, a);
    assert forall id :: id in s.Keys <==> id in m && m[id].closedAt == 0 by { assert Open(m) == s.Keys; }
    if |events| == 1 {
      assert events[..0] == [];
      assert ApplyAll(m, events) == Apply(m, events[0]);
      OpenIs(Apply(m, events[0]), t.Keys);
    } else {
      OpenIs(m, t.Keys);
    }
  }

  lemma HearMirrors(s: Snapshots, m: Shown, n: Notice, now: nat)
    requires Mirrors(s, m) && now > 0
    ensures Mirrors(Hear(s, n, now).0, ApplyAll(m, Hear(s, n, now).1))
    ensures Counts(s, m) ==> Counts(Hear(s, n, now).0, ApplyAll(m, Hear(s, n, now).1))
  {
    var (t, events) := Hear(s, n, now);
    assert forall id :: id in s.Keys <==> id in m && m[id].closedAt == 0 by { assert Open(m) == s.Keys; }
    if |events| == 1 {
      assert events[..0] == [];
      assert ApplyAll(m, events) == Apply(m, events[0]);
      OpenIs(Apply(m, events[0]), t.Keys);
    }
  }

  lemma {:induction false} HearAllMirrors(s: Snapshots, m: Shown, notices: seq<Notice>, now: nat)
    requires Mirrors(s, m) && now > 0
    ensures Mirrors(HearAll(s, notices, now).0, ApplyAll(m, HearAll(s, notices, now).1))
    ensures Counts(s, m) ==> Counts(HearAll(s, notices, now).0, ApplyAll(m, HearAll(s, notices, now).1))
  {
    if notices != [] {
      var front := notices[..|notices| - 1];
      HearAllMirrors(s, m, front, now);
      var (t, events) := HearAll(s, front, now);
      HearMirrors(t, ApplyAll(m, events), notices[|notices| - 1], now);
      ApplyAllAppend(m, events, Hear(t, notices[|notices| - 1], now).1);
    }
  }

  predicate Distinct(active: seq<Active>) { forall i, j | 0 <= i < j < |active| :: active[i].id != active[j].id }

  /** The counters of a tick do not fall below what the snapshots hold. */
  predicate NoDrop(s: Snapshots, active: seq<Active>) {
    forall a | a in active :: a.id in s ==> s[a.id].total.AtMost(a.total)
  }

  lemma IdsOf(active: seq<Active>)
    ensures Ids(active) == if active == [] then {} else Ids(active[..|active| - 1]) + {active[|active| - 1].id}
  {
    if active != [] { assert active == active[..|active| - 1] + [active[|active| - 1]]; }
  }

  lemma ReportHolds(s: Snapshots, a: Active)
    ensures var t := Report(s, a).0; a.id in t && t[a.id].total == a.total && t == s[a.id := t[a.id]]
  {
  }

  /** After the active connections have been reported, their snapshots hold the current counters. */
  lemma {:induction false} ReportAllHolds(s: Snapshots, active: seq<Active>)
    requires Distinct(active)
    ensures var t := ReportAll(s, active).0;
            && t.Keys == s.Keys + Ids(active)
            && (forall a | a in active :: a.id in t && t[a.id].total == a.total)
            && (forall id | id in s && id !in Ids(active) :: t[id] == s[id])
  {
    hide Report, Ids;
    if active == [] {
      assert Ids(active) == {} by { IdsOf(active); }
    } else {
      var front, last := active[..|active| - 1], active[|active| - 1];
      ReportAllHolds(s, front);
      ReportHolds(ReportAll(s, front).0, last);
      IdsOf(active);
      assert forall a | a in active :: a in front || a == last;
      assert forall a | a in front :: a.id != last.id;
    }
  }

  lemma {:induction false} ReportAllMirrors(s: Snapshots, m: Shown, active: seq<Active>)
    requires Mirrors(s, m) && Distinct(active)
    ensures Mirrors(ReportAll(s, active).0, ApplyAll(m, ReportAll(s, active).1))
    ensures Counts(s, m) && NoDrop(s, active) ==>
              Counts(ReportAll(s, active).0, ApplyAll(m, ReportAll(s, active).1))
  {
    if active != [] {
      var front, last := active[..|active| - 1], active[|active| - 1];
      ReportAllMirrors(s, m, front);
      var (t, events) := ReportAll(s, front);
      assert NoDrop(s, active) ==> NoDrop(s, front);
      assert last.id in t ==> last.id in s && t[last.id] == s[last.id] by {
        ReportAllHolds(s, front);
        assert last.id !in Ids(front);
      }
      ReportMirrors(t, ApplyAll(m, events), last);
      ApplyAllAppend(m, events, Report(t, last).1);
    }
  }

  lemma FarewellMirrors(s: Snapshots, m: Shown, id: Id, ended: map<Id, Ended>, now: nat)
    requires Mirrors(s, m) && now > 0
    ensures Mirrors(s - {id}, Apply(m, Farewell(id, ended, now)))
    ensures Counts(s, m) ==> Counts(s - {id}, Apply(m, Farewell(id, ended, now)))
  {
    assert forall k :: k in s.Keys <==> k in m && m[k].closedAt == 0 by { assert Open(m) == s.Keys; }
    OpenIs(Apply(m, Farewell(id, ended, now)), (s - {id}).Keys);
  }

  lemma {:induction false} FarewellAllMirrors(s: Snapshots, m: Shown, order: seq<Id>, ended: map<Id, Ended>, now: nat)
    requires Mirrors(s, m) && now > 0
    ensures Mirrors(s - Listed(order), ApplyAll(m, FarewellAll(order, ended, now)))
    ensures Counts(s, m) ==> Counts(s - Listed(order), ApplyAll(m, FarewellAll(order, ended, now)))
  {
    if order == [] {
      assert s - Listed(order) == s;
    } else {
      var front, last := order[..|order| - 1], order[|order| - 1];
      FarewellAllMirrors(s, m, front, ended, now);
      FarewellMirrors(s - Listed(front), ApplyAll(m, FarewellAll(front, ended, now)), last, ended, now);
      ApplyAllAppend(m, FarewellAll(front, ended, now), [Farewell(last, ended, now)]);
      assert order == front + [last];
      assert s - Listed(order) == (s - Listed(front)) - {last};
      assert [Farewell(last, ended, now)][..0] == [];
    }
  }

  /** After a tick the client's open connections are exactly the active ones, and if no counter fell
      their totals are the current counters. */
  lemma TickReplays(s: Snapshots, m: Shown, active: seq<Active>, ended: seq<Ended>, order: seq<Id>, now: nat)
    requires Mirrors(s, m) && Distinct(active) && StaleOrder(s, active, order) && now > 0
    ensures var (t, events) := Tick(s, active, ended, order, now);
            && Mirrors(t, ApplyAll(m, events)) && t.Keys == Ids(active)
            && (Counts(s, m) && NoDrop(s, active) ==> Counts(t, ApplyAll(m, events)))
            && forall a | a in active :: t[a.id].total == a.total
  {
    var (t, events) := ReportAll(s, active);
    ReportAllMirrors(s, m, active);
    ReportAllHolds(s, active);
    FarewellAllMirrors(t, ApplyAll(m, events), order, Index(ended), now);
    ApplyAllAppend(m, events, FarewellAll(order, Index(ended), now));
  }

  // ---- a counter that falls

  lemma {:induction false} ApplyOthers(m: Shown, events: seq<Event>, id: Id)
    requires id in m && forall e | e in events :: e.id != id
    ensures id in ApplyAll(m, events) && ApplyAll(m, events)[id] == m[id]
  {
    if events != [] { ApplyOthers(m, events[..|events| - 1], id); }
  }

  lemma {:induction false} ReportAllNames(s: Snapshots, active: seq<Active>)
    ensures forall e | e in ReportAll(s, active).1 :: e.id in Ids(active)
  {
    if active != [] {
      ReportAllNames(s, active[..|active| - 1]);
      IdsOf(active);
    }
  }

  lemma {:induction false} FarewellNames(order: seq<Id>, ended: map<Id, Ended>, now: nat)
    ensures forall e | e in FarewellAll(order, ended, now) :: e.id in Listed(order)
  {
    if order != [] {
      FarewellNames(order[..|order| - 1], ended, now);
      assert forall id | id in order[..|order| - 1] :: id in order;
    }
  }

  /** A connection whose counter fell keeps its total on the client. */
  lemma {:induction false} DropKeepsTotal(s: Snapshots, m: Shown, active: seq<Active>, a: Active)
    requires Distinct(active) && a in active && a.id in s && a.id in m && !s[a.id].total.AtMost(a.total)
    ensures var n := ApplyAll(m, ReportAll(s, active).1); a.id in n && n[a.id].total == m[a.id].total
  {
    hide Ids, Report, ApplyAll;
    var front, last := active[..|active| - 1], active[|active| - 1];
    var (t, events) := ReportAll(s, front);
    var n := ApplyAll(m, events);
    ApplyAllAppend(m, events, Report(t, last).1);
    if a == last {
      ReportAllHolds(s, front);
      ReportAllNames(s, front);
      NotNamed(front, a.id);
      ApplyOthers(m, events, a.id);
      DropOne(t, n, a);
    } else {
      DropKeepsTotal(s, m, front, a);
      ReportNames(t, last);
      ApplyOthers(n, Report(t, last).1, a.id);
    }
  }

  lemma DropOne(s: Snapshots, m: Shown, a: Active)
    requires a.id in s && a.id in m && !s[a.id].total.AtMost(a.total)
    ensures var n := ApplyAll(m, Report(s, a).1); a.id in n && n[a.id].total == m[a.id].total
  {
    var events := Report(s, a).1;
    assert events == [] || (events == [Update(a.id, ZERO)] && events[..0] == []);
  }

  lemma ReportNames(s: Snapshots, a: Active)
    ensures forall e | e in Report(s, a).1 :: e.id == a.id
  {
  }

  lemma NotNamed(active: seq<Active>, id: Id)
    requires forall a | a in active :: a.id != id
    ensures id !in Ids(active)
  {
  }

  /** One tick keeps the client's totals equal to the counters exactly when no counter fell. */
  lemma TickConservesIff(s: Snapshots, m: Shown, active: seq<Active>, ended: seq<Ended>, order: seq<Id>, now: nat)
    requires Counts(s, m) && Distinct(active) && StaleOrder(s, active, order) && now > 0
    ensures var (t, events) := Tick(s, active, ended, order, now);
            Counts(t, ApplyAll(m, events)) <==> NoDrop(s, active)
  {
    TickReplays(s, m, active, ended, order, now);
    if a :| a in active && a.id in s && !s[a.id].total.AtMost(a.total) {
      var events, farewells := ReportAll(s, active).1, FarewellAll(order, Index(ended), now);
      DropKeepsTotal(s, m, active, a);
      FarewellNames(order, Index(ended), now);
      ApplyOthers(ApplyAll(m, events), farewells, a.id);
      ApplyAllAppend(m, events, farewells);
    }
  }

  // ---- how a closed connection is shown

  /** k is the last place of the list that has the id. */
  ghost predicate LastOf(ended: seq<Ended>, id: Id, k: nat) {
    k < |ended| && ended[k].id == id && forall j | k < j < |ended| :: ended[j].id != id
  }

  lemma {:induction false} IndexLast(ended: seq<Ended>, id: Id) returns (k: nat)
    ensures id in EndedIds(ended) <==> id in Index(ended)
    ensures id in EndedIds(ended) ==> LastOf(ended, id, k) && Index(ended)[id] == ended[k]
  {
    k := 0;
    if ended != [] {
      var n := |ended| - 1;
      assert ended == ended[..n] + [ended[n]];
      if ended[n].id == id {
        k := n;
        assert ended[n] in ended;
      } else {
        k := IndexLast(ended[..n], id);
        assert id in EndedIds(ended) <==> id in EndedIds(ended[..n]);
      }
    }
  }

  /** A connection that is gone, with what is known of it. */
  function Gone(total: Counters, id: Id, ended: map<Id, Ended>, now: nat): Conn {
    if id !in ended then Conn(ZERO, total, now)
    else Conn(ZERO, ended[id].total, if ended[id].closedAt == 0 then now else ended[id].closedAt)
  }

  lemma {:induction false} FarewellShown(m: Shown, order: seq<Id>, ended: map<Id, Ended>, now: nat, id: Id)
    requires id in m
    ensures var n := ApplyAll(m, FarewellAll(order, ended, now));
            id in n && n[id] == if id in order then Gone(m[id].total, id, ended, now) else m[id]
  {
    if order != [] {
      var front, last := order[..|order| - 1], order[|order| - 1];
      assert order == front + [last];
      FarewellShown(m, front, ended, now, id);
      ApplyAllAppend(m, FarewellAll(front, ended, now), [Farewell(last, ended, now)]);
      assert [Farewell(last, ended, now)][..0] == [];
    }
  }

  /** After a tick a connection that is not active any more is shown as closed: with the totals and the time of
      its last record, or with the totals the client had and the time of the tick when there is none. */
  lemma TickCloses(s: Snapshots, m: Shown, active: seq<Active>, ended: seq<Ended>, order: seq<Id>, now: nat, id: Id)
    requires Mirrors(s, m) && Distinct(active) && StaleOrder(s, active, order)
    requires id in s && id !in Ids(active)
    ensures var n := ApplyAll(m, Tick(s, active, ended, order, now).1);
            && id in m && id in n && n[id].rate == ZERO
            && (id !in EndedIds(ended) ==> n[id].total == m[id].total && n[id].closedAt == now)
            && (id in EndedIds(ended) ==>
                  exists k: nat :: LastOf(ended, id, k) && n[id].total == ended[k].total
                      && n[id].closedAt == if ended[k].closedAt != 0 then ended[k].closedAt else now)
  {
    assert id in m by { assert id in Open(m); }
    var (t, events) := ReportAll(s, active);
    ReportAllHolds(s, active);
    ReportAllNames(s, active);
    ApplyOthers(m, events, id);
    ApplyAllAppend(m, events, FarewellAll(order, Index(ended), now));
    FarewellShown(ApplyAll(m, events), order, Index(ended), now, id);
    assert id in Listed(order);
    hide ReportAll, FarewellAll, Index;
    var k := IndexLast(ended, id);
  }

  /** A connection is announced only when the daemon does not know it: neither a notice nor a tick announces one
      that is known, and a notice about a known connection changes nothing. */
  lemma AnnouncesUnknown(s: Snapshots, n: Notice, active: seq<Active>, now: nat)
    requires Distinct(active)
    ensures forall e | e in Hear(s, n, now).1 && e.New? :: e.id !in s && e.closedAt == 0
    ensures n.Joined? && n.id in s ==> Hear(s, n, now) == (s, [])
    ensures forall e | e in ReportAll(s, active).1 && e.New? :: e.id !in s && e.closedAt == 0
  {
    ReportsUnknown(s, active);
  }

  lemma {:induction false} ReportsUnknown(s: Snapshots, active: seq<Active>)
    requires Distinct(active)
    ensures forall e | e in ReportAll(s, active).1 && e.New? :: e.id !in s && e.closedAt == 0
  {
    if active != [] {
      var front, last := active[..|active| - 1], active[|active| - 1];
      ReportsUnknown(s, front);
      ReportAllHolds(s, front);
    }
  }

  /** A closing notice shows the connection as closed at the first time it gives, or now, with its last totals
      or those the client had; nothing else changes. */
  lemma HearCloses(s: Snapshots, m: Shown, n: Notice, now: nat)
    requires n.Left?
    ensures var m' := ApplyAll(m, Hear(s, n, now).1);
            && (forall id | id != n.id :: id in m' <==> id in m)
            && (forall id | id != n.id && id in m :: m'[id] == m[id])
            && (n.id in m' <==> n.id in m || n.last.Some?)
            && (n.id in m' ==>
                  && m'[n.id].rate == ZERO
                  && m'[n.id].total == (if n.last.Some? then n.last.value else m[n.id].total)
                  && m'[n.id].closedAt == if n.closedAt != 0 then n.closedAt else if n.recorded != 0 then n.recorded
                      else now)
  {
    var events := Hear(s, n, now).1;
    assert events[..0] == [];
    assert ApplyAll(m, events) == Apply(m, events[0]);
  }

  /** The first message shows the connections listed as closed with their last record. */
  lemma GreetShowsEnded(active: seq<Active>, ended: seq<Ended>, id: Id)
    requires id in EndedIds(ended)
    ensures var n := ApplyAll(map[], Greet(map[], active, ended).1);
            id in n && exists k: nat :: LastOf(ended, id, k) && n[id] == Conn(ZERO, ended[k].total, ended[k].closedAt)
  {
    var events := GreetActive(map[], active).1;
    ApplyAllAppend(map[], events, GreetEnded(ended));
    var k := EndedShown(ApplyAll(map[], events), ended, id);
  }

  lemma {:induction false} EndedShown(m: Shown, ended: seq<Ended>, id: Id) returns (k: nat)
    requires id in EndedIds(ended)
    ensures var n := ApplyAll(m, GreetEnded(ended));
            LastOf(ended, id, k) && id in n && n[id] == Conn(ZERO, ended[k].total, ended[k].closedAt)
  {
    var last := |ended| - 1;
    var e := New(ended[last].id, ended[last].total, ended[last].closedAt);
    assert ended == ended[..last] + [ended[last]];
    ApplyAllAppend(m, GreetEnded(ended[..last]), [e]);
    assert [e][..0] == [];
    if ended[last].id == id {
      k := last;
    } else {
      assert id in EndedIds(ended[..last]);
      k := EndedShown(m, ended[..last], id);
    }
  }

  // ---- rates

  /** A connection the daemon remembers as quiet is shown with rate zero. */
  ghost predicate QuietShown(s: Snapshots, m: Shown) {
    Mirrors(s, m) && forall id | id in s && !s[id].hadTraffic :: id in m && m[id].rate == ZERO
  }

  /** What a tick must show as a connection's rate: its growth since the last tick, or zero when it is
      new or its counter fell. */
  function Rate(s: Snapshots, a: Active): Counters {
    if a.id in s && s[a.id].total.AtMost(a.total) then a.total.Minus(s[a.id].total) else ZERO
  }

  lemma ReportRate(s: Snapshots, m: Shown, a: Active)
    requires QuietShown(s, m)
    ensures var (t, events) := Report(s, a);
            var n := ApplyAll(m, events);
            QuietShown(t, n) && a.id in n && n[a.id].rate == Rate(s, a)
  {
    ReportMirrors(s, m, a);
    var (t, events) := Report(s, a);
    assert forall id :: id in s.Keys <==> id in m && m[id].closedAt == 0 by { assert Open(m) == s.Keys; }
    if |events| == 1 {
      assert events[..0] == [];
      assert ApplyAll(m, events) == Apply(m, events[0]);
    }
  }

  lemma {:induction false} ReportAllRates(s: Snapshots, m: Shown, active: seq<Active>)
    requires QuietShown(s, m) && Distinct(active)
    ensures var (t, events) := ReportAll(s, active);
            var n := ApplyAll(m, events);
            QuietShown(t, n) && forall a | a in active :: a.id in n && n[a.id].rate == Rate(s, a)
  {
    hide Report, ApplyAll, Rate, Ids;
    if active == [] {
      assert ApplyAll(m, []) == m by { ApplyNone(m); }
    } else {
      var front, last := active[..|active| - 1], active[|active| - 1];
      ReportAllRates(s, m, front);
      var (t, events) := ReportAll(s, front);
      var n, more := ApplyAll(m, events), Report(t, last).1;
      ApplyAllAppend(m, events, more);
      ReportRate(t, n, last);
      ReportNames(t, last);
      SameRate(s, front, last);
      forall a | a in active ensures a.id in ApplyAll(n, more) && ApplyAll(n, more)[a.id].rate == Rate(s, a) {
        if a != last {
          assert a in front;
          ApplyOthers(n, more, a.id);
        }
      }
    }
  }

  lemma ApplyNone(m: Shown)
    ensures ApplyAll(m, []) == m
  {
  }

  /** Reporting other connections does not change a connection's rate. */
  lemma SameRate(s: Snapshots, front: seq<Active>, last: Active)
    requires Distinct(front) && forall a | a in front :: a.id != last.id
    ensures Rate(ReportAll(s, front).0, last) == Rate(s, last)
  {
    ReportAllHolds(s, front);
    NotNamed(front, last.id);
  }

  lemma FarewellAllRates(s: Snapshots, m: Shown, order: seq<Id>, ended: map<Id, Ended>, now: nat)
    requires QuietShown(s, m) && now > 0
    ensures QuietShown(s - Listed(order), ApplyAll(m, FarewellAll(order, ended, now)))
    ensures forall id | id in m && id !in Listed(order) ::
              id in ApplyAll(m, FarewellAll(order, ended, now))
                  && ApplyAll(m, FarewellAll(order, ended, now))[id] == m[id]
  {
    FarewellAllMirrors(s, m, order, ended, now);
    FarewellNames(order, ended, now);
    var n := ApplyAll(m, FarewellAll(order, ended, now));
    forall id | id in m && id !in Listed(order) ensures id in n && n[id] == m[id] {
      ApplyOthers(m, FarewellAll(order, ended, now), id);
    }
  }

  /** After a tick every active connection is shown with its rate. */
  lemma TickRates(s: Snapshots, m: Shown, active: seq<Active>, ended: seq<Ended>, order: seq<Id>, now: nat)
    requires QuietShown(s, m) && Distinct(active) && StaleOrder(s, active, order) && now > 0
    ensures var (t, events) := Tick(s, active, ended, order, now);
            var n := ApplyAll(m, events);
            QuietShown(t, n) && forall a | a in active :: a.id in n && n[a.id].rate == Rate(s, a)
  {
    hide Rate, QuietShown;
    var (t, events) := ReportAll(s, active);
    ReportAllRates(s, m, active);
    FarewellAllRates(t, ApplyAll(m, events), order, Index(ended), now);
    ApplyAllAppend(m, events, FarewellAll(order, Index(ended), now));
    assert forall a | a in active :: a.id in Ids(active);
  }

  lemma HearRates(s: Snapshots, m: Shown, n: Notice, now: nat)
    requires QuietShown(s, m) && now > 0
    ensures QuietShown(Hear(s, n, now).0, ApplyAll(m, Hear(s, n, now).1))
  {
    HearMirrors(s, m, n, now);
    var (t, events) := Hear(s, n, now);
    if |events| == 1 {
      assert events[..0] == [];
      assert ApplyAll(m, events) == Apply(m, events[0]);
    }
  }

  lemma {:induction false} HearAllRates(s: Snapshots, m: Shown, notices: seq<Notice>, now: nat)
    requires QuietShown(s, m) && now > 0
    ensures QuietShown(HearAll(s, notices, now).0, ApplyAll(m, HearAll(s, notices, now).1))
  {
    hide QuietShown, Hear;
    if notices != [] {
      var front := notices[..|notices| - 1];
      HearAllRates(s, m, front, now);
      var (t, events) := HearAll(s, front, now);
      HearRates(t, ApplyAll(m, events), notices[|notices| - 1], now);
      ApplyAllAppend(m, events, Hear(t, notices[|notices| - 1], now).1);
    }
  }

  // ---- the first message

  lemma {:induction false} GreetActiveReplays(active: seq<Active>)
    ensures var (t, events) := GreetActive(map[], active);
            t.Keys == Ids(active) && Counts(t, ApplyAll(map[], events)) && ApplyAll(map[], events).Keys == t.Keys
  {
    if active != [] {
      var front, last := active[..|active| - 1], active[|active| - 1];
      GreetActiveReplays(front);
      var (t, events) := GreetActive(map[], front);
      var m := ApplyAll(map[], events);
      assert active == front + [last];
      assert Ids(active) == Ids(front) + {last.id};
      ApplyAllAppend(map[], events, [New(last.id, last.total, 0)]);
      assert [New(last.id, last.total, 0)][..0] == [];
      assert forall id :: id in t.Keys <==> id in m && m[id].closedAt == 0 by { assert Open(m) == t.Keys; }
      OpenIs(m[last.id := Conn(ZERO, last.total, 0)], t.Keys + {last.id});
    }
  }

  predicate Dated(ended: seq<Ended>) { forall e | e in ended :: e.closedAt > 0 }

  lemma {:induction false} GreetEndedCloses(m: Shown, ended: seq<Ended>)
    requires Dated(ended)
    ensures var n := ApplyAll(m, GreetEnded(ended));
            && Open(n) == Open(m) - EndedIds(ended)
            && forall id | id in m && id !in EndedIds(ended) :: id in n && n[id] == m[id]
  {
    if ended != [] {
      var front, last := ended[..|ended| - 1], ended[|ended| - 1];
      GreetEndedCloses(m, front);
      assert ended == front + [last];
      assert last in ended && EndedIds(ended) == EndedIds(front) + {last.id};
      var n := ApplyAll(m, GreetEnded(front));
      ApplyAllAppend(m, GreetEnded(front), [New(last.id, last.total, last.closedAt)]);
      assert [New(last.id, last.total, last.closedAt)][..0] == [];
      assert Open(n[last.id := Conn(ZERO, last.total, last.closedAt)]) == Open(n) - {last.id};
    }
  }

  /** The first message gives the client the daemon's snapshots exactly when no connection is listed
      both as active and as closed, as can happen when one closes between the two listings. */
  lemma GreetReplays(active: seq<Active>, ended: seq<Ended>)
    requires Dated(ended)
    ensures var (t, events) := Greet(map[], active, ended);
            && t.Keys == Ids(active)
            && (Mirrors(t, ApplyAll(map[], events)) <==> Ids(active) !! EndedIds(ended))
            && (Mirrors(t, ApplyAll(map[], events)) ==> Counts(t, ApplyAll(map[], events)))
  {
    GreetActiveReplays(active);
    var (t, events) := GreetActive(map[], active);
    GreetEndedCloses(ApplyAll(map[], events), ended);
    ApplyAllAppend(map[], events, GreetEnded(ended));
  }

  // ---- whole subscriptions

  datatype Step =
    | Heard(notices: seq<Notice>, now: nat)
    | Ticked(active: seq<Active>, ended: seq<Ended>, order: seq<Id>, now: nat)

  datatype World = World(snapshots: Snapshots, shown: Shown, log: seq<Event>)

  function Deliver(w: World, r: (Snapshots, seq<Event>), now: nat): World {
    World(r.0, if r.1 == [] then w.shown else Evict(ApplyAll(w.shown, r.1), now), w.log + r.1)
  }

  function Next(w: World, step: Step): World {
    match step
    case Heard(notices, now) => Deliver(w, HearAll(w.snapshots, notices, now), now)
    case Ticked(active, ended, order, now) => Deliver(w, Tick(w.snapshots, active, ended, order, now), now)
  }

  /** The subscription after its first message. */
  function Subscribe(active: seq<Active>, ended: seq<Ended>, now: nat): World {
    Deliver(World(map[], map[], []), Greet(map[], active, ended), now)
  }

  function Run(w: World, steps: seq<Step>): World {
    if steps == [] then w else Next(Run(w, steps[..|steps| - 1]), steps[|steps| - 1])
  }

  /** The clock is past the epoch, ids are the keys of a map, and a tick's closings follow some order
      of the map of snapshots. */
  ghost predicate Proper(w: World, step: Step) {
    && step.now > 0
    && (step.Ticked? ==> Distinct(step.active) && StaleOrder(w.snapshots, step.active, step.order))
  }

  ghost predicate ProperRun(w: World, steps: seq<Step>) {
    steps == [] ||
    (ProperRun(w, steps[..|steps| - 1]) && Proper(Run(w, steps[..|steps| - 1]), steps[|steps| - 1]))
  }

  lemma EvictKeepsOpen(s: Snapshots, m: Shown, now: nat)
    ensures Mirrors(s, m) ==> Mirrors(s, Evict(m, now))
    ensures Counts(s, m) ==> Counts(s, Evict(m, now))
  {
    var n := Evict(m, now);
    assert forall id | id in m && m[id].closedAt == 0 :: !Expired(m[id], now) && id in n && n[id] == m[id];
    assert Open(n) == Open(m);
  }

  lemma DeliverMirrors(w: World, r: (Snapshots, seq<Event>), now: nat)
    requires Mirrors(r.0, ApplyAll(w.shown, r.1))
    ensures Mirrors(Deliver(w, r, now).snapshots, Deliver(w, r, now).shown)
    ensures Counts(r.0, ApplyAll(w.shown, r.1)) ==> Counts(Deliver(w, r, now).snapshots, Deliver(w, r, now).shown)
  {
    EvictKeepsOpen(r.0, ApplyAll(w.shown, r.1), now);
  }

  lemma NextMirrors(w: World, step: Step)
    requires Mirrors(w.snapshots, w.shown) && Proper(w, step)
    ensures Mirrors(Next(w, step).snapshots, Next(w, step).shown)
    ensures step.Ticked? ==> Open(Next(w, step).shown) == Ids(step.active)
    ensures Counts(w.snapshots, w.shown) && (step.Ticked? ==> NoDrop(w.snapshots, step.active)) ==>
              Counts(Next(w, step).snapshots, Next(w, step).shown)
  {
    match step
    case Heard(notices, now) =>
      HearAllMirrors(w.snapshots, w.shown, notices, now);
      DeliverMirrors(w, HearAll(w.snapshots, notices, now), now);
    case Ticked(active, ended, order, now) =>
      TickReplays(w.snapshots, w.shown, active, ended, order, now);
      DeliverMirrors(w, Tick(w.snapshots, active, ended, order, now), now);
  }

  /** On every run the client's open connections are the daemon's snapshots, and after a tick they are
      the connections that are active. */
  lemma {:induction false} StreamMirrors(w: World, steps: seq<Step>)
    requires Mirrors(w.snapshots, w.shown) && ProperRun(w, steps)
    ensures Mirrors(Run(w, steps).snapshots, Run(w, steps).shown)
    ensures steps != [] && steps[|steps| - 1].Ticked? ==>
              Open(Run(w, steps).shown) == Ids(steps[|steps| - 1].active)
  {
    if steps != [] {
      StreamMirrors(w, steps[..|steps| - 1]);
      NextMirrors(Run(w, steps[..|steps| - 1]), steps[|steps| - 1]);
    }
  }

  lemma DeliverRates(w: World, r: (Snapshots, seq<Event>), now: nat)
    requires QuietShown(r.0, ApplyAll(w.shown, r.1))
    ensures QuietShown(Deliver(w, r, now).snapshots, Deliver(w, r, now).shown)
    ensures forall id | id in r.0 ::
              id in ApplyAll(w.shown, r.1) && id in Deliver(w, r, now).shown
                  && Deliver(w, r, now).shown[id] == ApplyAll(w.shown, r.1)[id]
  {
    var m := ApplyAll(w.shown, r.1);
    DeliverMirrors(w, r, now);
    assert forall id | id in r.0 :: id in Open(m);
  }

  /** On every run a quiet connection is shown with rate zero, and after a tick every active connection
      is shown with exactly its growth since the snapshot before. */
  lemma {:induction false} StreamRates(w: World, steps: seq<Step>)
    requires QuietShown(w.snapshots, w.shown) && ProperRun(w, steps)
    ensures QuietShown(Run(w, steps).snapshots, Run(w, steps).shown)
    ensures steps != [] && steps[|steps| - 1].Ticked? ==>
              forall a | a in steps[|steps| - 1].active ::
                a.id in Run(w, steps).shown &&
                Run(w, steps).shown[a.id].rate == Rate(Run(w, steps[..|steps| - 1]).snapshots, a)
  {
    hide QuietShown, Rate, Deliver, HearAll, Tick;
    if steps != [] {
      var front := steps[..|steps| - 1];
      StreamRates(w, front);
      var v := Run(w, front);
      match steps[|steps| - 1]
      case Heard(notices, now) =>
        HearAllRates(v.snapshots, v.shown, notices, now);
        DeliverRates(v, HearAll(v.snapshots, notices, now), now);
      case Ticked(active, ended, order, now) =>
        assert Mirrors(v.snapshots, v.shown) by { QuietMirrors(v.snapshots, v.shown); }
        TickRates(v.snapshots, v.shown, active, ended, order, now);
        TickReplays(v.snapshots, v.shown, active, ended, order, now);
        DeliverRates(v, Tick(v.snapshots, active, ended, order, now), now);
        assert forall a | a in active :: a.id in Ids(active);
    }
  }

  lemma QuietMirrors(s: Snapshots, m: Shown)
    requires QuietShown(s, m)
    ensures Mirrors(s, m)
  {
  }

  // ---- totals

  /** The counters a step reads for a connection. */
  predicate Reads(step: Step, id: Id, total: Counters) {
    match step
    case Heard(notices, _) => Joined(id, total) in notices
    case Ticked(active, _, _, _) => Active(id, total) in active
  }

  /** Along the run no tick reads less than an earlier step, or the first message, read. */
  ghost predicate Rising(w: World, steps: seq<Step>) {
    && (forall j, id, total | 0 <= j < |steps| && steps[j].Ticked? && id in w.snapshots && Reads(steps[j], id, total) ::
          w.snapshots[id].total.AtMost(total))
    && (forall i, j, id, was, total | 0 <= i < j < |steps| && steps[j].Ticked? && Reads(steps[i], id, was)
          && Reads(steps[j], id, total) :: was.AtMost(total))
  }

  /** Every snapshot holds counters that were read before. */
  ghost predicate Sourced(w: World, steps: seq<Step>, s: Snapshots) {
    forall id | id in s ::
      || (id in w.snapshots && w.snapshots[id].total == s[id].total)
      || exists i | 0 <= i < |steps| :: Reads(steps[i], id, s[id].total)
  }

  lemma {:induction false} HearAllSource(s: Snapshots, notices: seq<Notice>, now: nat, id: Id)
    requires id in HearAll(s, notices, now).0
    ensures var t := HearAll(s, notices, now).0;
            (id in s && t[id] == s[id]) || Joined(id, t[id].total) in notices
  {
    if notices != [] {
      var front := notices[..|notices| - 1];
      assert notices == front + [notices[|notices| - 1]];
      if id in HearAll(s, front, now).0 { HearAllSource(s, front, now, id); }
    }
  }

  lemma NextSource(w: World, step: Step, id: Id)
    requires Proper(w, step) && id in Next(w, step).snapshots
    ensures var t := Next(w, step).snapshots;
            (id in w.snapshots && t[id].total == w.snapshots[id].total) || Reads(step, id, t[id].total)
  {
    match step
    case Heard(notices, now) => HearAllSource(w.snapshots, notices, now, id);
    case Ticked(active, ended, order, now) =>
      ReportAllHolds(w.snapshots, active);
      var a :| a in active && a.id == id;
      assert a == Active(id, a.total);
  }

  lemma {:induction false} RunSourced(w: World, steps: seq<Step>)
    requires ProperRun(w, steps)
    ensures Sourced(w, steps, Run(w, steps).snapshots)
  {
    if steps != [] {
      var front, last := steps[..|steps| - 1], steps[|steps| - 1];
      RunSourced(w, front);
      var s, t := Run(w, front).snapshots, Run(w, steps).snapshots;
      forall id | id in t
        ensures (id in w.snapshots && w.snapshots[id].total == t[id].total)
                || exists i | 0 <= i < |steps| :: Reads(steps[i], id, t[id].total)
      {
        NextSource(Run(w, front), last, id);
        if Reads(last, id, t[id].total) {
          assert Reads(steps[|steps| - 1], id, t[id].total);
        } else if exists i | 0 <= i < |front| :: Reads(front[i], id, s[id].total) {
          var i :| 0 <= i < |front| && Reads(front[i], id, s[id].total);
          assert Reads(steps[i], id, t[id].total);
        }
      }
    }
  }

  lemma NoDropWhenRising(w: World, steps: seq<Step>)
    requires steps != [] && ProperRun(w, steps) && Rising(w, steps) && steps[|steps| - 1].Ticked?
    ensures NoDrop(Run(w, steps[..|steps| - 1]).snapshots, steps[|steps| - 1].active)
  {
    var front, last := steps[..|steps| - 1], steps[|steps| - 1];
    RunSourced(w, front);
    var s := Run(w, front).snapshots;
    forall a | a in last.active && a.id in s
      ensures s[a.id].total.AtMost(a.total)
    {
      assert a == Active(a.id, a.total) && Reads(steps[|steps| - 1], a.id, a.total);
      if exists i | 0 <= i < |front| :: Reads(front[i], a.id, s[a.id].total) {
        var i :| 0 <= i < |front| && Reads(front[i], a.id, s[a.id].total);
        assert Reads(steps[i], a.id, s[a.id].total);
      }
    }
  }

  /** While counters only rise, the total the client has added up for an open connection is the counter
      the daemon last read; after a tick it is the current one. */
  lemma {:induction false} StreamConserves(w: World, steps: seq<Step>)
    requires Counts(w.snapshots, w.shown) && ProperRun(w, steps) && Rising(w, steps)
    ensures Counts(Run(w, steps).snapshots, Run(w, steps).shown)
    ensures steps != [] && steps[|steps| - 1].Ticked? ==>
              forall a | a in steps[|steps| - 1].active ::
                a.id in Run(w, steps).shown && Run(w, steps).shown[a.id].total == a.total
  {
    if steps != [] {
      var front, last := steps[..|steps| - 1], steps[|steps| - 1];
      StreamConserves(w, front);
      if last.Ticked? {
        NoDropWhenRising(w, steps);
        TickReplays(Run(w, front).snapshots, Run(w, front).shown, last.active, last.ended, last.order, last.now);
      }
      NextMirrors(Run(w, front), last);
    }
  }

  lemma {:induction false} GreetPlain(active: seq<Active>)
    ensures forall e | e in GreetActive(map[], active).1 :: e.New?
    ensures forall id | id in GreetActive(map[], active).0 :: !GreetActive(map[], active).0[id].hadTraffic
  {
    if active != [] { GreetPlain(active[..|active| - 1]); }
  }

  lemma {:induction false} GreetEndedPlain(ended: seq<Ended>)
    ensures forall e | e in GreetEnded(ended) :: e.New?
  {
    if ended != [] { GreetEndedPlain(ended[..|ended| - 1]); }
  }

  lemma {:induction false} NewsAreQuiet(m: Shown, events: seq<Event>)
    requires (forall e | e in events :: e.New?) && forall id | id in m :: m[id].rate == ZERO
    ensures forall id | id in ApplyAll(m, events) :: ApplyAll(m, events)[id].rate == ZERO
  {
    if events != [] { NewsAreQuiet(m, events[..|events| - 1]); }
  }

  // ---- connections listed both as active and as closed

  /** The client knows of a closing that the daemon has not noticed; a notice of it makes them even. */
  function Heal(lag: set<Id>, n: Notice): set<Id> { if n.Left? then lag - {n.id} else lag }

  function HealAll(lag: set<Id>, notices: seq<Notice>): set<Id> {
    if notices == [] then lag else Heal(HealAll(lag, notices[..|notices| - 1]), notices[|notices| - 1])
  }

  /** What is left of a lag after a run: closing notices shorten it and a tick ends it. */
  function Lagging(lag: set<Id>, steps: seq<Step>): set<Id> {
    if steps == [] then lag else
    match steps[|steps| - 1]
    case Heard(notices, _) => HealAll(Lagging(lag, steps[..|steps| - 1]), notices)
    case Ticked(_, _, _, _) => {}
  }

  /** But for the lag the client shows the daemon's snapshots, with no rate for the quiet ones and, where
      asked for, their totals. */
  ghost predicate Follows(s: Snapshots, m: Shown, lag: set<Id>, totals: bool) {
    lag <= s.Keys && QuietShown(s - lag, m) && (totals ==> Counts(s - lag, m))
  }

  lemma HearLag(s: Snapshots, m: Shown, lag: set<Id>, totals: bool, n: Notice, now: nat)
    requires Follows(s, m, lag, totals) && now > 0
    ensures var (t, events) := Hear(s, n, now); Follows(t, ApplyAll(m, events), Heal(lag, n), totals)
  {
    hide QuietShown, Counts;
    var (t, events) := Hear(s, n, now);
    if n.Joined? && n.id in lag {
      assert ApplyAll(m, []) == m;
    } else {
      QuietMirrors(s - lag, m);
      HearRates(s - lag, m, n, now);
      HearMirrors(s - lag, m, n, now);
      if n.Left? {
        assert (s - lag) - {n.id} == (s - {n.id}) - (lag - {n.id});
      } else {
        WithoutLag(s, lag, n.id, Snapshot(n.total, false));
      }
    }
  }

  lemma {:induction false} HearAllLag(s: Snapshots, m: Shown, lag: set<Id>, totals: bool, notices: seq<Notice>,
          now: nat)
    requires Follows(s, m, lag, totals) && now > 0
    ensures var (t, events) := HearAll(s, notices, now); Follows(t, ApplyAll(m, events), HealAll(lag, notices), totals)
  {
    hide Follows, Hear;
    if notices == [] {
      assert ApplyAll(m, []) == m;
    } else {
      var front, last := notices[..|notices| - 1], notices[|notices| - 1];
      HearAllLag(s, m, lag, totals, front, now);
      var (t, events) := HearAll(s, front, now);
      HearLag(t, ApplyAll(m, events), HealAll(lag, front), totals, last, now);
      ApplyAllAppend(m, events, Hear(t, last, now).1);
    }
  }

  /** Reporting active connections does not depend on the others. */
  lemma {:induction false} ReportAllLag(s: Snapshots, lag: set<Id>, active: seq<Active>)
    requires lag <= s.Keys && forall a | a in active :: a.id !in lag
    ensures ReportAll(s - lag, active) == (ReportAll(s, active).0 - lag, ReportAll(s, active).1)
    ensures lag <= ReportAll(s, active).0.Keys
  {
    hide Report;
    if active != [] {
      var front, last := active[..|active| - 1], active[|active| - 1];
      ReportAllLag(s, lag, front);
      ReportLag(ReportAll(s, front).0, lag, last);
    }
  }

  lemma ReportLag(s: Snapshots, lag: set<Id>, a: Active)
    requires lag <= s.Keys && a.id !in lag
    ensures Report(s - lag, a) == (Report(s, a).0 - lag, Report(s, a).1) && lag <= Report(s, a).0.Keys
  {
    WithoutLag(s, lag, a.id, Snapshot(a.total, false));
    WithoutLag(s, lag, a.id, Snapshot(a.total, true));
  }

  lemma WithoutLag(s: Snapshots, lag: set<Id>, id: Id, snapshot: Snapshot)
    requires id !in lag
    ensures (s - lag)[id := snapshot] == s[id := snapshot] - lag
  {
  }

  /** The first tick ends the lag. */
  lemma TickLag(s: Snapshots, m: Shown, lag: set<Id>, totals: bool, step: Step)
    requires Follows(s, m, lag, totals) && step.Ticked? && step.now > 0 && Ids(step.active) !! lag
    requires Distinct(step.active) && StaleOrder(s, step.active, step.order) && (totals ==> NoDrop(s, step.active))
    ensures var (t, events) := Tick(s, step.active, step.ended, step.order, step.now);
            Follows(t, ApplyAll(m, events), {}, totals) && t.Keys == Ids(step.active)
  {
    hide QuietShown, Counts, ReportAll, FarewellAll, ApplyAll;
    var Ticked(active, ended, order, now) := step;
    var (t, events) := ReportAll(s, active);
    ReportsFollow(s, m, lag, totals, active);
    ReportAllHolds(s, active);
    FarewellsFollow(t, ApplyAll(m, events), lag, totals, order, Index(ended), now);
    ApplyAllAppend(m, events, FarewellAll(order, Index(ended), now));
  }

  lemma ReportsFollow(s: Snapshots, m: Shown, lag: set<Id>, totals: bool, active: seq<Active>)
    requires Follows(s, m, lag, totals) && Ids(active) !! lag && Distinct(active) && (totals ==> NoDrop(s, active))
    ensures Follows(ReportAll(s, active).0, ApplyAll(m, ReportAll(s, active).1), lag, totals)
  {
    hide QuietShown, Counts, Report;
    assert forall a | a in active :: a.id in Ids(active);
    ReportAllLag(s, lag, active);
    QuietMirrors(s - lag, m);
    ReportAllRates(s - lag, m, active);
    ReportAllMirrors(s - lag, m, active);
  }

  /** Connections that are not active are dropped, and the lagging ones with them. */
  lemma FarewellsFollow(t: Snapshots, n: Shown, lag: set<Id>, totals: bool, order: seq<Id>,
          index: map<Id, Ended>, now: nat)
    requires Follows(t, n, lag, totals) && lag <= Listed(order) && now > 0
    ensures Follows(t - Listed(order), ApplyAll(n, FarewellAll(order, index, now)), {}, totals)
  {
    hide QuietShown, Counts, FarewellAll;
    QuietMirrors(t - lag, n);
    FarewellAllRates(t - lag, n, order, index, now);
    FarewellAllMirrors(t - lag, n, order, index, now);
    assert (t - lag) - Listed(order) == t - Listed(order) == (t - Listed(order)) - {};
  }

  lemma DeliverFollows(w: World, r: (Snapshots, seq<Event>), lag: set<Id>, totals: bool, now: nat)
    requires Follows(r.0, ApplyAll(w.shown, r.1), lag, totals)
    ensures Follows(Deliver(w, r, now).snapshots, Deliver(w, r, now).shown, lag, totals)
  {
    hide QuietShown, Counts;
    QuietMirrors(r.0 - lag, ApplyAll(w.shown, r.1));
    DeliverRates(w, (r.0 - lag, r.1), now);
    DeliverMirrors(w, (r.0 - lag, r.1), now);
  }

  /** Whatever the first message listed twice, the client follows the daemon but for the lag, which the
      first tick or the closing notices end; a connection that has ended is not active again. */
  lemma {:induction false} StreamFollows(w: World, lag: set<Id>, totals: bool, steps: seq<Step>)
    requires Follows(w.snapshots, w.shown, lag, totals) && ProperRun(w, steps) && (totals ==> Rising(w, steps))
    requires forall i | 0 <= i < |steps| && steps[i].Ticked? :: Ids(steps[i].active) !! lag
    ensures Follows(Run(w, steps).snapshots, Run(w, steps).shown, Lagging(lag, steps), totals)
    ensures Lagging(lag, steps) <= lag
  {
    hide Follows, HearAll, Tick, NoDrop, Deliver;
    if steps != [] {
      var front, last := steps[..|steps| - 1], steps[|steps| - 1];
      StreamFollows(w, lag, totals, front);
      var v, d := Run(w, front), Lagging(lag, front);
      match last
      case Heard(notices, now) =>
        HearAllLag(v.snapshots, v.shown, d, totals, notices, now);
        DeliverFollows(v, HearAll(v.snapshots, notices, now), HealAll(d, notices), totals, now);
        HealShrinks(d, notices);
      case Ticked(active, ended, order, now) =>
        assert Ids(steps[|steps| - 1].active) !! lag;
        if totals { NoDropWhenRising(w, steps); }
        TickLag(v.snapshots, v.shown, d, totals, last);
        DeliverFollows(v, Tick(v.snapshots, active, ended, order, now), {}, totals, now);
    }
  }

  lemma {:induction false} HealShrinks(lag: set<Id>, notices: seq<Notice>)
    ensures HealAll(lag, notices) <= lag
  {
    if notices != [] { HealShrinks(lag, notices[..|notices| - 1]); }
  }

  /** The first message leaves the client with the daemon's snapshots, their totals and no rates, but for
      the connections it lists both as active and as closed. */
  lemma SubscribeShows(active: seq<Active>, ended: seq<Ended>, now: nat)
    requires Dated(ended)
    ensures var w := Subscribe(active, ended, now);
            Follows(w.snapshots, w.shown, Ids(active) * EndedIds(ended), true) && w.snapshots.Keys == Ids(active)
  {
    var start, r := World(map[], map[], []), Greet(map[], active, ended);
    var lag := Ids(active) * EndedIds(ended);
    GreetPlain(active);
    GreetEndedPlain(ended);
    assert forall e | e in r.1 :: e.New?;
    NewsAreQuiet(map[], r.1);
    GreetCounts(active, ended);
    DeliverFollows(start, r, lag, true, now);
  }

  lemma GreetCounts(active: seq<Active>, ended: seq<Ended>)
    requires Dated(ended)
    ensures var (t, events) := Greet(map[], active, ended);
            Counts(t - Ids(active) * EndedIds(ended), ApplyAll(map[], events)) && t.Keys == Ids(active)
  {
    GreetActiveReplays(active);
    var (t, events) := GreetActive(map[], active);
    var m := ApplyAll(map[], events);
    GreetEndedCloses(m, ended);
    ApplyAllAppend(map[], events, GreetEnded(ended));
    var s := t - Ids(active) * EndedIds(ended);
    var n := ApplyAll(m, GreetEnded(ended));
    assert Open(n) == Ids(active) - EndedIds(ended) == s.Keys;
  }

  /** The results for a subscription from its first message on: but for the lag, which is gone after a
      tick, the client's open connections are the snapshots, the quiet ones have no rate, and while
      counters rise the totals are the counters last read. */
  lemma SubscriptionReplays(active: seq<Active>, ended: seq<Ended>, now: nat, steps: seq<Step>)
    requires Dated(ended) && ProperRun(Subscribe(active, ended, now), steps)
    requires forall i | 0 <= i < |steps| && steps[i].Ticked? :: Ids(steps[i].active) !! Ids(active) * EndedIds(ended)
    ensures var w := Run(Subscribe(active, ended, now), steps);
            var lag := Lagging(Ids(active) * EndedIds(ended), steps);
            && Open(w.shown) == w.snapshots.Keys - lag
            && (forall id | id in w.snapshots && id !in lag && !w.snapshots[id].hadTraffic ::
                  id in w.shown && w.shown[id].rate == ZERO)
            && (Rising(Subscribe(active, ended, now), steps) ==>
                  forall id | id in w.snapshots && id !in lag ::
                      id in w.shown && w.shown[id].total == w.snapshots[id].total)
    ensures (exists i :: 0 <= i < |steps| && steps[i].Ticked?) ==> Lagging(Ids(active) * EndedIds(ended), steps) == {}
  {
    hide Subscribe, Run, ProperRun, Rising;
    var w, lag := Subscribe(active, ended, now), Ids(active) * EndedIds(ended);
    SubscribeShows(active, ended, now);
    StreamFollows(w, lag, false, steps);
    if Rising(w, steps) { StreamFollows(w, lag, true, steps); }
    if i :| 0 <= i < |steps| && steps[i].Ticked? { TickEndsLag(lag, steps, i); }
  }

  lemma {:induction false} TickEndsLag(lag: set<Id>, steps: seq<Step>, i: nat)
    requires i < |steps| && steps[i].Ticked?
    ensures Lagging(lag, steps) == {}
  {
    if i < |steps| - 1 {
      TickEndsLag(lag, steps[..|steps| - 1], i);
      if steps[|steps| - 1].Heard? { HealShrinks({}, steps[|steps| - 1].notices); }
    }
  }

  // ---- zero updates

  predicate Zero(e: Event, id: Id) { e.Update? && e.id == id && e.delta == ZERO }

  predicate Positive(e: Event, id: Id) {
    e.Update? && e.id == id && e.delta.up >= 0 && e.delta.down >= 0 && e.delta != ZERO
  }

  /** Since its last positive update, if any, the connection has had no zero update. */
  predicate Moved(log: seq<Event>, id: Id) {
    log != [] &&
    var e := log[|log| - 1];
    if e.Update? && e.id == id then Positive(e, id) else Moved(log[..|log| - 1], id)
  }

  /** Two zero updates for one connection have a positive one between them. */
  ghost predicate Separated(log: seq<Event>) {
    forall i, j, id | 0 <= i < j < |log| && Zero(log[i], id) && Zero(log[j], id) ::
      exists k | i < k < j :: Positive(log[k], id)
  }

  /** Traffic is remembered only after a positive update that no zero update followed. */
  ghost predicate Remembers(s: Snapshots, log: seq<Event>) {
    forall id | id in s && s[id].hadTraffic :: Moved(log, id)
  }

  lemma {:induction false} MovedAfter(log: seq<Event>, id: Id, i: nat)
    requires Moved(log, id) && i < |log| && Zero(log[i], id)
    ensures exists k | i < k < |log| :: Positive(log[k], id)
  {
    var e := log[|log| - 1];
    if e.Update? && e.id == id {
      assert Positive(log[|log| - 1], id);
    } else {
      var front := log[..|log| - 1];
      MovedAfter(front, id, i);
      var k :| i < k < |front| && Positive(front[k], id);
      assert Positive(log[k], id);
    }
  }

  lemma SeparatedAppend(log: seq<Event>, e: Event)
    requires Separated(log) && forall id | Zero(e, id) :: Moved(log, id)
    ensures Separated(log + [e])
  {
    var longer := log + [e];
    forall i, j, id | 0 <= i < j < |longer| && Zero(longer[i], id) && Zero(longer[j], id)
      ensures exists k | i < k < j :: Positive(longer[k], id)
    {
      if j == |log| {
        MovedAfter(log, id, i);
        var k :| i < k < |log| && Positive(log[k], id);
        assert Positive(longer[k], id);
      } else {
        var k :| i < k < j && Positive(log[k], id);
        assert Positive(longer[k], id);
      }
    }
  }

  lemma MovedAppend(log: seq<Event>, e: Event, id: Id)
    ensures Moved(log + [e], id) == if e.Update? && e.id == id then Positive(e, id) else Moved(log, id)
  {
    assert (log + [e])[..|log + [e]| - 1] == log;
  }

  /** An event that is no update keeps the log separated and every memory justified. */
  lemma PlainKeeps(s: Snapshots, log: seq<Event>, e: Event)
    requires Separated(log) && Remembers(s, log) && !e.Update?
    ensures Separated(log + [e]) && Remembers(s, log + [e])
  {
    SeparatedAppend(log, e);
    forall id | id in s && s[id].hadTraffic ensures Moved(log + [e], id) { MovedAppend(log, e, id); }
  }

  lemma ReportKeeps(s: Snapshots, log: seq<Event>, a: Active)
    requires Separated(log) && Remembers(s, log)
    ensures Separated(log + Report(s, a).1) && Remembers(Report(s, a).0, log + Report(s, a).1)
  {
    var (t, events) := Report(s, a);
    if events == [] {
      assert log + events == log;
    } else {
      var e := events[0];
      assert events == [e];
      SeparatedAppend(log, e);
      forall id | id in t && t[id].hadTraffic ensures Moved(log + [e], id) { MovedAppend(log, e, id); }
    }
  }

  lemma {:induction false} ReportAllKeeps(s: Snapshots, log: seq<Event>, active: seq<Active>)
    requires Separated(log) && Remembers(s, log)
    ensures Separated(log + ReportAll(s, active).1) && Remembers(ReportAll(s, active).0, log + ReportAll(s, active).1)
  {
    if active == [] {
      assert log + [] == log;
    } else {
      var front, last := active[..|active| - 1], active[|active| - 1];
      ReportAllKeeps(s, log, front);
      var (t, events) := ReportAll(s, front);
      ReportKeeps(t, log + events, last);
      assert log + ReportAll(s, active).1 == (log + events) + Report(t, last).1;
    }
  }

  lemma {:induction false} PlainAllKeeps(s: Snapshots, log: seq<Event>, events: seq<Event>)
    requires Separated(log) && Remembers(s, log) && forall e | e in events :: !e.Update?
    ensures Separated(log + events) && Remembers(s, log + events)
  {
    if events == [] {
      assert log + events == log;
    } else {
      var front, last := events[..|events| - 1], events[|events| - 1];
      PlainAllKeeps(s, log, front);
      PlainKeeps(s, log + front, last);
      assert log + events == (log + front) + [last];
    }
  }

  lemma {:induction false} FarewellPlain(order: seq<Id>, ended: map<Id, Ended>, now: nat)
    ensures forall e | e in FarewellAll(order, ended, now) :: !e.Update?
  {
    if order != [] { FarewellPlain(order[..|order| - 1], ended, now); }
  }

  lemma {:induction false} HearAllQuiet(s: Snapshots, notices: seq<Notice>, now: nat)
    ensures forall e | e in HearAll(s, notices, now).1 :: !e.Update?
    ensures var t := HearAll(s, notices, now).0; forall id | id in t && t[id].hadTraffic :: id in s && s[id].hadTraffic
  {
    if notices != [] { HearAllQuiet(s, notices[..|notices| - 1], now); }
  }

  lemma NextKeeps(w: World, step: Step)
    requires Separated(w.log) && Remembers(w.snapshots, w.log)
    ensures Separated(Next(w, step).log) && Remembers(Next(w, step).snapshots, Next(w, step).log)
  {
    match step
    case Heard(notices, now) =>
      HearAllQuiet(w.snapshots, notices, now);
      PlainAllKeeps(w.snapshots, w.log, HearAll(w.snapshots, notices, now).1);
    case Ticked(active, ended, order, now) =>
      var (t, events) := ReportAll(w.snapshots, active);
      var farewells := FarewellAll(order, Index(ended), now);
      ReportAllKeeps(w.snapshots, w.log, active);
      FarewellPlain(order, Index(ended), now);
      PlainAllKeeps(t, w.log + events, farewells);
      assert w.log + (events + farewells) == (w.log + events) + farewells;
  }

  /** On every run, two zero updates for one connection are separated by a positive one. */
  lemma {:induction false} ZeroesSeparated(w: World, steps: seq<Step>)
    requires Separated(w.log) && Remembers(w.snapshots, w.log)
    ensures Separated(Run(w, steps).log) && Remembers(Run(w, steps).snapshots, Run(w, steps).log)
  {
    if steps != [] {
      ZeroesSeparated(w, steps[..|steps| - 1]);
      NextKeeps(Run(w, steps[..|steps| - 1]), steps[|steps| - 1]);
    }
  }

  lemma SubscriptionSeparated(active: seq<Active>, ended: seq<Ended>, now: nat, steps: seq<Step>)
    ensures Separated(Run(Subscribe(active, ended, now), steps).log)
  {
    GreetPlain(active);
    GreetEndedPlain(ended);
    var log := Subscribe(active, ended, now).log;
    assert forall i | 0 <= i < |log| :: log[i].New?;
    ZeroesSeparated(Subscribe(active, ended, now), steps);
  }

  // ---- the daemon's side in place

  class Encoder {
    var snapshots: Snapshots

    constructor ()
      ensures snapshots == map[]
    {
      snapshots := map[];
    }

    method BuildInitialConnectionState(active: seq<Active>, ended: seq<Ended>) returns (events: seq<Event>)
      modifies this
      ensures (snapshots, events) == Greet(old(snapshots), active, ended)
    {
      events := [];
      for i := 0 to |active|
        invariant (snapshots, events) == GreetActive(old(snapshots), active[..i])
      {
        events := events + [New(active[i].id, active[i].total, 0)];
        snapshots := snapshots[active[i].id := Snapshot(active[i].total, false)];
        assert active[..i + 1][..i] == active[..i];
      }
      assert active[..|active|] == active;
      ghost var greeted := events;
      for i := 0 to |ended|
        invariant snapshots == GreetActive(old(snapshots), active).0
        invariant events == greeted + GreetEnded(ended[..i])
      {
        events := events + [New(ended[i].id, ended[i].total, ended[i].closedAt)];
        assert ended[..i + 1][..i] == ended[..i];
      }
      assert ended[..|ended|] == ended;
    }

    method ApplyConnectionEvent(n: Notice, now: nat) returns (event: Option<Event>)
      modifies this
      ensures (snapshots, if event.Some? then [event.value] else []) == Hear(old(snapshots), n, now)
    {
      match n
      case Joined(id, total) =>
        if id in snapshots { return None; }
        snapshots := snapshots[id := Snapshot(total, false)];
        event := Some(New(id, total, 0));
      case Left(id, closedAt, recorded, last) =>
        snapshots := snapshots - {id};
        var at := closedAt;
        if at == 0 && recorded != 0 { at := recorded; }
        if at == 0 { at := now; }
        event := Some(Closed(id, at, last));
    }

    /** The notifications drained from the subscription before one message is sent. */
    method DrainNotices(notices: seq<Notice>, now: nat) returns (pending: seq<Event>)
      modifies this
      ensures (snapshots, pending) == HearAll(old(snapshots), notices, now)
    {
      pending := [];
      for i := 0 to |notices|
        invariant (snapshots, pending) == HearAll(old(snapshots), notices[..i], now)
      {
        var event := ApplyConnectionEvent(notices[i], now);
        pending := pending + if event.Some? then [event.value] else [];
        assert notices[..i + 1][..i] == notices[..i];
      }
      assert notices[..|notices|] == notices;
    }

    method ReportConnection(a: Active) returns (events: seq<Event>)
      modifies this
      ensures (snapshots, events) == Report(old(snapshots), a)
    {
      if a.id !in snapshots {
        snapshots := snapshots[a.id := Snapshot(a.total, false)];
        return [New(a.id, a.total, 0)];
      }
      var snapshot := snapshots[a.id];
      var delta := a.total.Minus(snapshot.total);
      if delta.up < 0 || delta.down < 0 {
        events := if snapshot.hadTraffic then [Update(a.id, ZERO)] else [];
        snapshots := snapshots[a.id := Snapshot(a.total, false)];
      } else if delta.up > 0 || delta.down > 0 {
        snapshots := snapshots[a.id := Snapshot(a.total, true)];
        events := [Update(a.id, delta)];
      } else if snapshot.hadTraffic {
        snapshots := snapshots[a.id := Snapshot(a.total, false)];
        events := [Update(a.id, ZERO)];
      } else {
        events := [];
        assert snapshots == snapshots[a.id := Snapshot(a.total, false)];
      }
    }

    /** The closings come in an order of the map's own choosing. */
    method CloseStale(activeIds: set<Id>, ended: seq<Ended>, now: nat)
      returns (events: seq<Event>, ghost order: seq<Id>)
      modifies this
      ensures Listed(order) == old(snapshots).Keys - activeIds
      ensures snapshots == old(snapshots) - Listed(order)
      ensures events == FarewellAll(order, Index(ended), now)
    {
      events, order := [], [];
      assert snapshots - Listed([]) == snapshots;
      var left := snapshots.Keys;
      while left != {}
        invariant left <= old(snapshots).Keys
        invariant Listed(order) == old(snapshots).Keys - activeIds - left
        invariant snapshots == old(snapshots) - Listed(order)
        invariant events == FarewellAll(order, Index(ended), now)
        decreases left
      {
        var id :| id in left;
        left := left - {id};
        if id !in activeIds {
          events := events + [Farewell(id, Index(ended), now)];
          snapshots := snapshots - {id};
          assert (order + [id])[..|order|] == order;
          assert Listed(order + [id]) == Listed(order) + {id};
          assert old(snapshots) - Listed(order + [id]) == (old(snapshots) - Listed(order)) - {id};
          order := order + [id];
        }
      }
    }

    method BuildTrafficUpdates(active: seq<Active>, ended: seq<Ended>, now: nat)
      returns (events: seq<Event>, ghost order: seq<Id>)
      requires Distinct(active)
      modifies this
      ensures StaleOrder(old(snapshots), active, order)
      ensures (snapshots, events) == Tick(old(snapshots), active, ended, order, now)
    {
      events := [];
      var activeIds := {};
      for i := 0 to |active|
        invariant (snapshots, events) == ReportAll(old(snapshots), active[..i])
        invariant activeIds == Ids(active[..i])
      {
        var more := ReportConnection(active[i]);
        events := events + more;
        activeIds := activeIds + {active[i].id};
        assert active[..i + 1] == active[..i] + [active[i]];
        assert Ids(active[..i + 1]) == Ids(active[..i]) + {active[i].id};
      }
      assert active[..|active|] == active;
      var farewells;
      farewells, order := CloseStale(activeIds, ended, now);
      events := events + farewells;
    }
  }

  // ---- the client's side in place

  class Connections {
    var connectionMap: Shown

    constructor ()
      ensures connectionMap == map[]
    {
      connectionMap := map[];
    }

    method EvictClosedConnections(now: nat)
      modifies this
      ensures connectionMap == Evict(old(connectionMap), now)
      ensures forall id :: id in connectionMap <==>
                && id in old(connectionMap)
                && (old(connectionMap)[id].closedAt == 0 || now <= old(connectionMap)[id].closedAt + 300_000)
      ensures forall id | id in connectionMap :: connectionMap[id] == old(connectionMap)[id]
    {
      var left := connectionMap.Keys;
      while left != {}
        invariant left <= old(connectionMap).Keys
        invariant connectionMap == map id | id in old(connectionMap) &&
                    (id in left || !Expired(old(connectionMap)[id], now)) :: old(connectionMap)[id]
        decreases left
      {
        var id :| id in left;
        left := left - {id};
        if Expired(connectionMap[id], now) { connectionMap := connectionMap - {id}; }
      }
    }

    method ApplyEvents(reset: bool, events: seq<Event>, now: nat)
      modifies this
      ensures connectionMap == Evict(ApplyAll(if reset then map[] else old(connectionMap), events), now)
    {
      if reset { connectionMap := map[]; }
      ghost var start := connectionMap;
      for i := 0 to |events|
        invariant connectionMap == ApplyAll(start, events[..i])
      {
        var id := events[i].id;
        match events[i] {
          case New(_, total, closedAt) =>
            connectionMap := connectionMap[id := Conn(ZERO, total, closedAt)];
          case Update(_, delta) =>
            if id in connectionMap {
              var conn := connectionMap[id];
              connectionMap := connectionMap[id := conn.(rate := delta, total := conn.total.Plus(delta))];
            }
          case Closed(_, closedAt, last) =>
            if last.Some? {
              connectionMap := connectionMap[id := Conn(ZERO, last.value, closedAt)];
            } else if id in connectionMap {
              connectionMap := connectionMap[id := connectionMap[id].(rate := ZERO, closedAt := closedAt)];
            }
        }
        assert events[..i + 1][..i] == events[..i];
      }
      assert events[..|events|] == events;
      EvictClosedConnections(now);
    }
  }
}
