// The rule walk as the source writes it: an object whose loops update its fields. Every method is
// proved equal to the transition function of the same name.
module DnsWalkMachine {
  import opened Base
  import opened DnsRules
  import W = DnsWalk
  import opened DnsReference
  import opened DnsWalkTheorems
  import opened DnsWalkSpeculation

  type Schedule = W.Schedule
  type State = W.State
  type Turn = W.Turn
  type Future = W.Future
  type Armed = W.Armed

  // ---- one unfolding of each loop

  lemma SettleUnfold(q: Query, c: Schedule, s: State, k: nat)
    requires k <= |s.futures|
    ensures if k == |s.futures| then W.SettleFrom(q, c, s, k) == s
            else W.SettleOnce(q, c, s, s.futures[k]).futures == s.futures
                 && W.SettleFrom(q, c, s, k) == W.SettleFrom(q, c, W.SettleOnce(q, c, s, s.futures[k]), k + 1)
  {
  }

  lemma SweepUnfold(q: Query, c: Schedule, s: State, k: nat)
    requires k <= |s.armed| && W.ArmedInRange(q, s)
    ensures if k == |s.armed| then W.Sweep(q, c, s, k) == (s, None) else
            var a, s1 := s.armed[k], s.(now := s.now + 1);
            var s2 := W.Disarm(q, c, s1, k);
            W.Sweep(q, c, s, k) ==
              if !W.Ready(c, a, s1.now) then W.Sweep(q, c, s1, k + 1)
              else if W.Judge(q, c, s1, a).Some? then (s2, W.Judge(q, c, s1, a)) else W.Sweep(q, c, s2, k)
  {
    hide W.Judge, W.Disarm, W.Ready;
  }

  lemma ResumeUnfold(q: Query, c: Schedule, s: State, turn: Turn)
    requires W.Sane(q, s) && !turn.Finish? && W.Waitable(s, turn)
    ensures var r := W.Iterate(q, c, s, turn);
            if r.Over? then W.Resume(q, c, s, turn) == (r.state, r.verdict)
            else W.Sane(q, r.state) && !r.turn.Finish? && W.Waitable(r.state, r.turn)
                 && W.Resume(q, c, s, turn) == W.Resume(q, c, r.state, r.turn)
  {
    hide W.Iterate, W.Sane;
    W.IterateProgress(q, c, s, turn);
  }

  lemma PendingStep(c: Schedule, tags: seq<Tag>, named: map<Tag, Future>, tail: seq<Future>, k: nat, now: nat)
    requires k < |tags|
    ensures var rest := W.Pending(c, W.TagFutures(tags[k + 1..], named) + tail, now);
            W.Pending(c, W.TagFutures(tags[k..], named) + tail, now) ==
              if tags[k] in named && !W.Done(c, named[tags[k]], now) then [named[tags[k]]] + rest else rest
  {
    assert tags[k..][1..] == tags[k + 1..];
    var rest := W.TagFutures(tags[k + 1..], named) + tail;
    if tags[k] in named {
      var f := named[tags[k]];
      assert W.TagFutures(tags[k..], named) + tail == [f] + rest;
      assert ([f] + rest)[1..] == rest;
    } else {
      assert W.TagFutures(tags[k..], named) + tail == rest;
    }
  }

  lemma PendingEnd(c: Schedule, tags: seq<Tag>, named: map<Tag, Future>, tail: seq<Future>, now: nat)
    requires tags == [] && |tail| <= 1
    ensures W.Pending(c, W.TagFutures(tags, named) + tail, now)
         == if tail != [] && !W.Done(c, tail[0], now) then tail else []
  {
    assert W.TagFutures(tags, named) + tail == tail;
  }

  class RuleWalk {
    const q: Query
    const c: Schedule
    var index: nat
    var options: QueryOptions
    var anon: Option<Future>
    var named: map<Tag, Future>
    var responses: map<Tag, Option<Msg>>
    var transports: map<Tag, Transport>
    var futures: seq<Future>
    var settled: set<nat>
    var armed: seq<Armed>
    var terminal: Option<Future>
    var now: nat
    var blocks: nat
    var drained: nat
    ghost var judged: set<W.Judgement>
    ghost var applied: set<nat>
    ghost var late: bool

    ghost function View(): State
      reads this
    {
      W.State(index, options, anon, named, responses, transports, futures, settled, armed, terminal,
              now, blocks, drained, judged, applied, late)
    }

    constructor (q: Query, c: Schedule)
      ensures this.q == q && this.c == c && View() == W.Initial(q)
    {
      this.q, this.c := q, c;
      index, options, anon, terminal := 0, q.caller, None, None;
      named, responses, transports := map[], map[], map[];
      futures, settled, armed := [], {}, [];
      now, blocks, drained := 0, 0, 0;
      judged, applied, late := {}, {}, false;
    }

    predicate Resolved(f: Future)
      reads this
    {
      c.completes(f.rule) <= now
    }

    method SettleFuture(f: Future)
      modifies this
      ensures View() == W.SettleOnce(q, c, old(View()), f)
    {
      if f.rule !in settled && Resolved(f) {
        settled := settled + {f.rule};
        if f.tag != "" {
          responses := responses[f.tag := W.Seen(q, c, f, now)];
          transports := transports[f.tag := f.transport];
        }
      }
    }

    method SettleFutures()
      modifies this
      ensures View() == W.Settle(q, c, old(View()))
    {
      hide W.SettleFrom, W.SettleOnce;
      now := now + 1;
      ghost var start := View();
      var k := 0;
      while k < |futures|
        invariant k <= |futures|
        invariant W.SettleFrom(q, c, View(), k) == W.SettleFrom(q, c, start, 0)
      {
        SettleUnfold(q, c, View(), k);
        SettleFuture(futures[k]);
        k := k + 1;
      }
      SettleUnfold(q, c, View(), k);
    }

    /** The unresolved futures a rule binds, in order. */
    method PendingFutures(r: Rule) returns (pending: seq<Future>)
      ensures pending == W.Pending(c, W.BoundFutures(r, View()), now)
    {
      hide W.Pending, W.TagFutures;
      pending := [];
      ghost var tail := if r.anonymous && anon.Some? then [anon.value] else [];
      assert r.tags[0..] == r.tags;
      ghost var goal := W.Pending(c, W.BoundFutures(r, View()), now);
      assert W.BoundFutures(r, View()) == W.TagFutures(r.tags[0..], named) + tail;
      hide W.BoundFutures;
      var k := 0;
      while k < |r.tags|
        invariant k <= |r.tags|
        invariant pending + W.Pending(c, W.TagFutures(r.tags[k..], named) + tail, now) == goal
      {
        PendingStep(c, r.tags, named, tail, k, now);
        if r.tags[k] in named && !Resolved(named[r.tags[k]]) { pending := pending + [named[r.tags[k]]]; }
        k := k + 1;
      }
      PendingEnd(c, r.tags[k..], named, tail, now);
      if r.anonymous && anon.Some? && !Resolved(anon.value) { pending := pending + [anon.value]; }
    }

    method IsReady(a: Armed) returns (ready: bool)
      ensures ready == W.Ready(c, a, now)
    {
      ready := true;
      var k := 0;
      while k < |a.futures| && ready
        invariant k <= |a.futures| && ready == forall i | 0 <= i < k :: Resolved(a.futures[i])
      {
        ready := Resolved(a.futures[k]);
        k := k + 1;
      }
      if !ready {
        ghost var i :| 0 <= i < k && !Resolved(a.futures[i]);
        assert a.futures[i] in a.futures;
      }
    }

    method DisarmRule(k: nat)
      requires k < |armed| && W.ArmedInRange(q, View())
      modifies this
      ensures View() == W.Disarm(q, c, old(View()), k) && |armed| == |old(armed)| - 1 && W.ArmedInRange(q, View())
      ensures W.Judge(q, c, View(), old(armed)[k]) == W.Judge(q, c, old(View()), old(armed)[k])
    {
      hide W.Misses;
      ghost var judgement := W.Judgement(armed[k], now, W.Judge(q, c, View(), armed[k]));
      late := late || W.Misses(q, armed[k].rule, View());
      judged := judged + {judgement};
      armed := armed[..k] + armed[k + 1..];
    }

    method SweepArmed() returns (turn: Option<Turn>)
      requires W.ArmedInRange(q, View())
      modifies this
      ensures (View(), turn) == W.Sweep(q, c, old(View()), 0)
    {
      hide W.Judge, W.Disarm, W.Sweep, W.Ready;
      var k := 0;
      while k < |armed|
        invariant k <= |armed| && W.ArmedInRange(q, View())
        invariant W.Sweep(q, c, View(), k) == W.Sweep(q, c, old(View()), 0)
        decreases |armed| - k
      {
        ghost var before := View();
        SweepUnfold(q, c, before, k);
        var a := armed[k];
        now := now + 1;
        var ready := IsReady(a);
        if !ready {
          k := k + 1;
          continue;
        }
        DisarmRule(k);
        var judgement := JudgeArmed(a);
        if judgement.Some? { return judgement; }
      }
      SweepUnfold(q, c, View(), k);
      turn := None;
    }

    method JudgeArmed(a: Armed) returns (turn: Option<Turn>)
      requires a.rule < |q.rules|
      ensures turn == W.Judge(q, c, View(), a)
    {
      var r := q.rules[a.rule];
      var seen := if a.anon.Some? then W.Seen(q, c, a.anon.value, now) else None;
      if !Matches(q, a.rule, seen, responses) { return None; }
      match r.action {
        case Respond =>
          var result;
          if r.responseTag != "" {
            result := NamedResult(r.responseTag);
          } else if a.anon.Some? {
            result := AnonymousResult(a.anon);
          } else {
            result := AnonymousResult(anon);
          }
          turn := Some(W.Finish(W.Verdict(a.rule, true, None, result)));
        case Route(server, _, own) =>
          var t := ResolveRoute(q, server);
          if t.None? { return None; }
          turn := Some(W.Send(a.rule, true, t.value, RouteWith(a.options, t.value, own), None));
        case Reject(RejectDefault) => turn := Some(W.Finish(W.Verdict(a.rule, true, None, W.Refused)));
        case Reject(RejectDrop) => turn := Some(W.Finish(W.Verdict(a.rule, true, None, W.Dropped)));
        case Predefined => turn := Some(W.Finish(W.Verdict(a.rule, true, None, W.Preset(a.rule))));
        case _ => turn := None;
      }
    }

    method NamedResult(tag: Tag) returns (result: W.Result)
      ensures result == W.Named(View(), tag)
    {
      if tag in responses && responses[tag].Some? && tag in transports {
        return W.Reply(responses[tag].value, transports[tag]);
      }
      result := W.MissingResponse;
    }

    method AnonymousResult(f: Option<Future>) returns (result: W.Result)
      ensures result == W.Anonymous(q, c, f, now)
    {
      if f.Some? && Resolved(f.value) {
        match W.OutcomeOf(q, f.value) {
          case Answer(m) => return W.Reply(m, f.value.transport);
          case Failure(_) =>
        }
      }
      result := W.MissingResponse;
    }

    method ArmRule() returns (turn: Option<Turn>)
      requires index < |q.rules| && W.ArmedInRange(q, View())
      modifies this
      ensures (View(), turn) == W.Arm(q, c, old(View()))
    {
      hide W.Sweep, W.Pending, W.BoundFutures;
      var r := q.rules[index];
      var pending := PendingFutures(r);
      armed := armed + [W.Armed(index, pending, if r.anonymous then anon else None, options)];
      turn := None;
      if pending == [] {
        turn := SweepArmed();
        if turn.Some? && turn.value.Send? { armed := []; }
      }
    }

    method LaunchEvaluate(server: string, tag: Tag, speculative: bool, own: RouteOptions) returns (turn: Option<Turn>)
      modifies this
      ensures (View(), turn) == W.ActEvaluate(q, old(View()), server, tag, speculative, own)
    {
      turn := None;
      if server !in q.servers {
        if tag == "" { anon := None; }
        return;
      }
      if !speculative && armed != [] { return Some(W.Drain); }
      var f := W.Future(index, tag, false, q.servers[server], ApplyRouteOptions(options, own));
      futures := futures + [f];
      if tag == "" { anon := Some(f); } else { named := named[tag := f]; }
    }

    method RespondNow(r: Rule) returns (turn: Option<Turn>)
      modifies this
      ensures (View(), turn) == W.ActRespond(q, c, old(View()), r)
    {
      if armed != [] { return Some(W.Drain); }
      var result;
      if r.responseTag != "" {
        result := NamedResult(r.responseTag);
      } else {
        now := now + 1;
        if !r.Binds() && anon.Some? && !Resolved(anon.value) { return Some(W.Await(anon.value)); }
        result := AnonymousResult(anon);
      }
      turn := Some(W.Finish(W.Verdict(index, false, None, result)));
    }

    method RouteNow(server: string, speculative: bool, own: RouteOptions) returns (turn: Option<Turn>)
      modifies this
      ensures (View(), turn) == W.ActRoute(q, old(View()), server, speculative, own)
    {
      var t := ResolveRoute(q, server);
      if t.None? { return None; }
      var queryOptions := RouteWith(options, t.value, own);
      if armed != [] {
        if speculative && terminal.None? {
          var f := W.Future(index, "", true, t.value, queryOptions);
          futures := futures + [f];
          terminal := Some(f);
        }
        return Some(W.Drain);
      }
      if terminal.Some? && terminal.value.rule == index {
        return Some(W.Send(index, false, terminal.value.transport, queryOptions, terminal));
      }
      turn := Some(W.Send(index, false, t.value, queryOptions, None));
    }

    method ActNow() returns (turn: Option<Turn>)
      requires index < |q.rules|
      modifies this
      ensures (View(), turn) == W.Act(q, c, old(View()))
    {
      hide W.ActEvaluate, W.ActRespond, W.ActRoute;
      var r := q.rules[index];
      turn := None;
      match r.action {
        case SetOptions(own) =>
          options := ApplyRouteOptions(options, own);
          applied := applied + {index};
        case Evaluate(server, tag, speculative, own) => turn := LaunchEvaluate(server, tag, speculative, own);
        case Respond => turn := RespondNow(r);
        case Route(server, speculative, own) => turn := RouteNow(server, speculative, own);
        case Reject(how) =>
          if armed != [] { return Some(W.Drain); }
          match how {
            case RejectDefault => turn := Some(W.Finish(W.Verdict(index, false, None, W.Refused)));
            case RejectDrop => turn := Some(W.Finish(W.Verdict(index, false, None, W.Dropped)));
            case RejectReply =>
          }
        case Predefined =>
          if armed != [] { return Some(W.Drain); }
          turn := Some(W.Finish(W.Verdict(index, false, None, W.Preset(index))));
      }
    }

    method MatchNow() returns (turn: Option<Turn>)
      requires index < |q.rules|
      modifies this
      ensures (View(), turn) == W.MatchAndAct(q, c, old(View()))
    {
      hide W.Act, W.Unsettled;
      late := late || W.Misses(q, index, View());
      var seen := if anon.Some? then W.Seen(q, c, anon.value, now) else None;
      turn := None;
      if Matches(q, index, seen, responses) { turn := ActNow(); }
    }

    method VisitRule() returns (turn: Option<Turn>)
      requires index < |q.rules| && W.ArmedInRange(q, View())
      modifies this
      ensures (View(), turn) == W.Visit(q, c, old(View()))
    {
      hide W.MatchAndAct, W.Arm, W.SettleFrom, W.Pending, W.BoundFutures;
      var r := q.rules[index];
      if r.Binds() {
        ghost var before := View();
        SettleFutures();
        W.SettleFrame(q, c, before.(now := before.now + 1), 0);
        now := now + 1;
        if r.race {
          turn := ArmRule();
          return;
        }
        var pending := PendingFutures(r);
        if pending != [] { return Some(W.Await(pending[0])); }
      }
      turn := MatchNow();
    }

    method WalkRules() returns (turn: Turn)
      requires W.Sane(q, View())
      modifies this
      ensures (View(), turn) == W.Walk(q, c, old(View()))
    {
      hide W.Visit, W.Sane;
      SaneIndex(q, View());
      while index < |q.rules|
        invariant index <= |q.rules| && W.Sane(q, View()) && W.ArmedInRange(q, View())
        invariant W.Walk(q, c, View()) == W.Walk(q, c, old(View()))
        decreases |q.rules| - index
      {
        W.VisitFrame(q, c, View());
        var stop := VisitRule();
        if stop.Some? { return stop.value; }
        SaneNext(q, View());
        index := index + 1;
        SaneIndex(q, View());
      }
      turn := if armed != [] then W.Drain else W.Send(index, false, q.fallback, options, None);
    }

    method PollNow() returns (swept: Option<Turn>)
      requires W.Sane(q, View())
      modifies this
      ensures (View(), swept) == W.Poll(q, c, old(View()))
    {
      hide W.Settle, W.Sweep, W.Sane;
      SettleAlike(q, c, View());
      AlikeSane(q, View(), W.Settle(q, c, View()));
      SaneIndex(q, W.Settle(q, c, View()));
      SettleFutures();
      swept := SweepArmed();
    }

    method ReceiveWake()
      modifies this
      ensures View() == W.Receive(c, old(View()))
    {
      var t := c.wakes(blocks);
      now := if t <= now then now + 1 else t;
      blocks, drained := blocks + 1, now;
    }

    /** One iteration of the resume loop: settle, sweep, then block on the wake channel or walk on. */
    method ResumeOnce(turn: Turn) returns (over: Option<W.Verdict>, next: Turn)
      requires W.Sane(q, View()) && !turn.Finish? && W.Waitable(View(), turn)
      modifies this
      ensures W.Iterate(q, c, old(View()), turn) == if over.Some? then W.Over(View(), over.value)
                else W.Again(View(), next)
    {
      hide W.Poll, W.Walk, W.Sane, W.Conclude, W.Receive;
      next := turn;
      W.PollFrame(q, c, View());
      var swept := PollNow();
      if swept.Some? {
        over := Some(W.Settled(q, swept.value));
        return;
      }
      if turn.Send? {
        over := Some(W.Conclude(q, turn));
        return;
      }
      ghost var polled := View();
      now := now + 1;
      AlikeSane(q, polled, View());
      over := None;
      if (turn.Await? && !Resolved(turn.future)) || (turn.Drain? && armed != []) {
        ReceiveWake();
      } else {
        next := WalkRules();
        if next.Finish? { over := Some(next.verdict); }
      }
    }

    /** The resume loop ends, whatever the schedule. */
    method ResumeExchange(suspension: Turn) returns (verdict: W.Verdict)
      requires W.Sane(q, View()) && !suspension.Finish? && W.Waitable(View(), suspension)
      modifies this
      ensures (View(), verdict) == W.Resume(q, c, old(View()), suspension)
    {
      hide W.Iterate, W.Sane, W.Resume, W.Left;
      var turn := suspension;
      while true
        invariant W.Sane(q, View()) && !turn.Finish? && W.Waitable(View(), turn)
        invariant W.Resume(q, c, View(), turn) == W.Resume(q, c, old(View()), suspension)
        decreases |q.rules| - index, W.TerminalLeft(View()), W.TurnLeft(turn), W.Left(c, View())
      {
        SaneIndex(q, View());
        W.IterateProgress(q, c, View(), turn);
        ResumeUnfold(q, c, View(), turn);
        var over, next := ResumeOnce(turn);
        if over.Some? { return over.value; }
        turn := next;
        SaneIndex(q, View());
      }
    }

    method ExchangeWithRules() returns (verdict: W.Verdict)
      requires View() == W.Initial(q)
      modifies this
      ensures (View(), verdict) == W.Exchange(q, c)
      ensures Scoped(q.rules) && !late ==> Right(q, verdict)
    {
      hide W.Walk, W.Resume;
      if Scoped(q.rules) { OrderedMeaning(q, c); }
      W.WalkFrame(q, c, View());
      var turn := WalkRules();
      if turn.Finish? { return turn.verdict; }
      verdict := ResumeExchange(turn);
    }
  }
}
