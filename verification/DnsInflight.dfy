// The per-key in-flight lock of the DNS client (dns/client.go) under every interleaving.
//
// Every exchange that may use the cache is an operation at one of the program points of Point.
// LoadOrStore, Delete and close are single steps, and any operation may take its next step at any
// time. The two steps of releasing the lock are separate, as in the source.
module DnsInflight {
  import opened Base

  type Key = string
  type Chan = nat
  type OpId = nat

  datatype Point =
    | Begin(wait: bool)                  // about to LoadOrStore; only a synchronous exchange may wait
    | Waiting(on: Chan)                  // blocked on another exchange's channel
    | Looking(owned: Option<Chan>)       // reading the cache and the rejection store
    | Asking(owned: Option<Chan>)        // the transport exchange is in flight
    | Closing(chan: Chan)                // entry deleted, channel not closed yet
    | Ended

  datatype Op = Op(point: Point, key: Key)

  /** `closings` is the log of closed channels, `holder` the operation each channel was made by. */
  datatype State = State(
    ops: map<OpId, Op>, locks: map<Key, Chan>, next: Chan, closings: seq<Chan>, holder: map<Chan, OpId>)

  datatype Event =
    | Arrive(op: OpId, key: Key, wait: bool)
    | Enter(op: OpId, again: Key)      // again: the key a restarted exchange computes
    | Wake(op: OpId, again: Key)       // the channel was closed; the key is computed anew
    | Cancel(op: OpId)                 // the caller's context ended while waiting
    | Answer(op: OpId)                 // fresh hit, stale hit or cached rejection
    | Miss(op: OpId)
    | Finish(op: OpId)                 // transport error, rejection or stored answer
    | Close(op: OpId)

  const Init := State(map[], map[], 0, [], map[])

  predicate Enabled(s: State, e: Event) {
    if e.Arrive? then e.op !in s.ops else
    e.op in s.ops &&
    match e
    case Enter(o, _) => s.ops[o].point.Begin?
    case Wake(o, _) => s.ops[o].point.Waiting? && s.ops[o].point.on in s.closings
    case Cancel(o) => s.ops[o].point.Waiting?
    case Answer(o) => s.ops[o].point.Looking?
    case Miss(o) => s.ops[o].point.Looking?
    case Finish(o) => s.ops[o].point.Asking?
    case Close(o) => s.ops[o].point.Closing?
    case _ => true
  }

  function Put(s: State, o: OpId, op: Op): State { s.(ops := s.ops[o := op]) }

  /** An operation makes a channel and enters it for its key. */
  function Own(s: State, o: OpId): State
    requires o in s.ops
  {
    Put(s, o, Op(Looking(Some(s.next)), s.ops[o].key)).(
      locks := s.locks[s.ops[o].key := s.next], next := s.next + 1, holder := s.holder[s.next := o])
  }

  /** beginExchange: own the key, wait for its owner, or restart as a waiting exchange. */
  function EnterLock(s: State, o: OpId, again: Key): State
    requires o in s.ops && s.ops[o].point.Begin?
  {
    var op := s.ops[o];
    if op.key in s.locks then
      Put(s, o, if op.point.wait then Op(Waiting(s.locks[op.key]), op.key) else Op(Begin(true), again))
    else Own(s, o)
  }

  /** The first half of release: the entry goes. */
  function Delete(s: State, o: OpId, owned: Option<Chan>): State
    requires o in s.ops
  {
    var op := s.ops[o];
    match owned
    case None => Put(s, o, Op(Ended, op.key))
    case Some(c) => Put(s, o, Op(Closing(c), op.key)).(locks := s.locks - {op.key})
  }

  function Step(s: State, e: Event): State
    requires Enabled(s, e)
  {
    match e
    case Arrive(o, key, wait) => Put(s, o, Op(Begin(wait), key))
    case Enter(o, again) => EnterLock(s, o, again)
    case Wake(o, again) => Put(s, o, Op(Looking(None), again))
    case Cancel(o) => Put(s, o, Op(Ended, s.ops[o].key))
    case Answer(o) => Delete(s, o, s.ops[o].point.owned)
    case Miss(o) => Put(s, o, Op(Asking(s.ops[o].point.owned), s.ops[o].key))
    case Finish(o) => Delete(s, o, s.ops[o].point.owned)
    case Close(o) => Put(s, o, Op(Ended, s.ops[o].key)).(closings := s.closings + [s.ops[o].point.chan])
  }

  function Run(events: seq<Event>): Option<State> {
    if events == [] then Some(Init) else
    var n := |events| - 1;
    match Run(events[..n])
    case None => None
    case Some(s) => if Enabled(s, events[n]) then Some(Step(s, events[n])) else None
  }

  // ---- what every step keeps

  /** The channel an operation is responsible for. */
  function Holds(op: Op): Option<Chan> {
    match op.point
    case Looking(owned) => owned
    case Asking(owned) => owned
    case Closing(c) => Some(c)
    case _ => None
  }

  /** It still has the map entry. */
  predicate Owns(op: Op) { (op.point.Looking? || op.point.Asking?) && Holds(op).Some? }

  ghost predicate Distinct(xs: seq<Chan>) { forall i, j | 0 <= i < j < |xs| :: xs[i] != xs[j] }

  ghost predicate HoldersRight(s: State) {
    forall o | o in s.ops && Holds(s.ops[o]).Some? ::
      var c := Holds(s.ops[o]).value;
      && c < s.next && c !in s.closings && c in s.holder && s.holder[c] == o
      && (Owns(s.ops[o]) ==> s.ops[o].key in s.locks && s.locks[s.ops[o].key] == c)
  }

  ghost predicate LocksRight(s: State) {
    forall k | k in s.locks ::
      var c := s.locks[k];
      c in s.holder && s.holder[c] in s.ops && Owns(s.ops[s.holder[c]]) && s.ops[s.holder[c]].key == k
          && Holds(s.ops[s.holder[c]]) == Some(c)
  }

  ghost predicate ChannelsRight(s: State) {
    && Distinct(s.closings)
    && (forall c | c in s.closings :: c < s.next)
    && (forall c | 0 <= c < s.next ::
        c in s.closings || (c in s.holder && s.holder[c] in s.ops && Holds(s.ops[s.holder[c]]) == Some(c)))
    && (forall o | o in s.ops && s.ops[o].point.Waiting? :: s.ops[o].point.on < s.next)
  }

  ghost predicate Inv(s: State) { HoldersRight(s) && LocksRight(s) && ChannelsRight(s) }

  /** A step of an operation that holds nothing before and after, and leaves the table alone. */
  lemma IdleKeeps(s: State, o: OpId, op: Op)
    requires Inv(s) && (o in s.ops ==> Holds(s.ops[o]).None?) && Holds(op).None?
    requires op.point.Waiting? ==> op.point.on < s.next
    ensures Inv(Put(s, o, op))
  {
    var s' := Put(s, o, op);
    assert forall p | p in s'.ops && p != o :: p in s.ops && s'.ops[p] == s.ops[p];
  }

  lemma OwnHolders(s: State, o: OpId)
    requires Inv(s) && o in s.ops && Holds(s.ops[o]).None? && s.ops[o].key !in s.locks
    ensures HoldersRight(Own(s, o))
  {
  }

  lemma OwnLocks(s: State, o: OpId)
    requires Inv(s) && o in s.ops && Holds(s.ops[o]).None? && s.ops[o].key !in s.locks
    ensures LocksRight(Own(s, o))
  {
    var s', key := Own(s, o), s.ops[o].key;
    forall k | k in s'.locks && k != key ensures s.locks[k] < s.next && s.holder[s.locks[k]] != o { }
  }

  lemma OwnChannels(s: State, o: OpId)
    requires Inv(s) && o in s.ops && Holds(s.ops[o]).None? && s.ops[o].key !in s.locks
    ensures ChannelsRight(Own(s, o))
  {
    hide HoldersRight, LocksRight;
  }

  lemma OwnKeeps(s: State, o: OpId)
    requires Inv(s) && o in s.ops && Holds(s.ops[o]).None? && s.ops[o].key !in s.locks
    ensures Inv(Own(s, o))
  {
    hide HoldersRight, LocksRight, ChannelsRight;
    OwnHolders(s, o);
    OwnLocks(s, o);
    OwnChannels(s, o);
  }

  lemma MoveKeeps(s: State, o: OpId)
    requires Inv(s) && o in s.ops && s.ops[o].point.Looking?
    ensures Inv(Put(s, o, Op(Asking(s.ops[o].point.owned), s.ops[o].key)))
  {
  }

  lemma DeleteHolders(s: State, o: OpId)
    requires HoldersRight(s) && o in s.ops && Owns(s.ops[o])
    ensures HoldersRight(Delete(s, o, s.ops[o].point.owned))
  {
  }

  lemma DeleteLocks(s: State, o: OpId)
    requires HoldersRight(s) && LocksRight(s) && o in s.ops && Owns(s.ops[o])
    ensures LocksRight(Delete(s, o, s.ops[o].point.owned))
  {
  }

  lemma DeleteChannels(s: State, o: OpId)
    requires ChannelsRight(s) && o in s.ops && Owns(s.ops[o])
    ensures ChannelsRight(Delete(s, o, s.ops[o].point.owned))
  {
    hide Distinct;
  }

  lemma DeleteKeeps(s: State, o: OpId)
    requires Inv(s) && o in s.ops && (s.ops[o].point.Looking? || s.ops[o].point.Asking?)
    ensures Inv(Delete(s, o, s.ops[o].point.owned))
  {
    hide HoldersRight, LocksRight, ChannelsRight;
    if s.ops[o].point.owned.None? {
      IdleKeeps(s, o, Op(Ended, s.ops[o].key));
    } else {
      DeleteHolders(s, o);
      DeleteLocks(s, o);
      DeleteChannels(s, o);
    }
  }

  lemma CloseKeeps(s: State, o: OpId)
    requires Inv(s) && o in s.ops && s.ops[o].point.Closing?
    ensures Inv(Step(s, Close(o)))
  {
    var c := s.ops[o].point.chan;
    var s' := Step(s, Close(o));
    assert Holds(s.ops[o]) == Some(c);
    forall p | p in s'.ops && Holds(s'.ops[p]).Some? ensures Holds(s'.ops[p]).value != c { }
  }

  lemma StepKeeps(s: State, e: Event)
    requires Inv(s) && Enabled(s, e)
    ensures Inv(Step(s, e))
  {
    hide Inv, Delete;
    match e
    case Arrive(o, key, wait) => IdleKeeps(s, o, Op(Begin(wait), key));
    case Enter(o, again) =>
      if s.ops[o].key in s.locks {
        LockedChannel(s, s.ops[o].key);
        IdleKeeps(s, o, if s.ops[o].point.wait then Op(Waiting(s.locks[s.ops[o].key]), s.ops[o].key)
            else Op(Begin(true), again));
      } else {
        OwnKeeps(s, o);
      }
    case Wake(o, again) => IdleKeeps(s, o, Op(Looking(None), again));
    case Cancel(o) => IdleKeeps(s, o, Op(Ended, s.ops[o].key));
    case Answer(o) => DeleteKeeps(s, o);
    case Miss(o) => MoveKeeps(s, o);
    case Finish(o) => DeleteKeeps(s, o);
    case Close(o) => CloseKeeps(s, o);
  }

  lemma LockedChannel(s: State, k: Key)
    requires Inv(s) && k in s.locks
    ensures s.locks[k] < s.next
  {
  }

  lemma {:induction false} RunKeeps(events: seq<Event>)
    ensures Run(events).Some? ==> Inv(Run(events).value)
  {
    if events != [] {
      var n := |events| - 1;
      RunKeeps(events[..n]);
      var s := Run(events[..n]);
      if s.Some? && Enabled(s.value, events[n]) { StepKeeps(s.value, events[n]); }
    }
  }

  // ---- the guarantees

  /** In every state of every interleaving a key has at most one owner, its entry is the open channel
      of that live owner, and no channel is closed twice. */
  lemma OneOwner(events: seq<Event>)
    requires Run(events).Some?
    ensures var s := Run(events).value;
            && (forall o, p | o in s.ops && p in s.ops && Owns(s.ops[o]) && Owns(s.ops[p])
                && s.ops[o].key == s.ops[p].key :: o == p)
            && (forall k | k in s.locks :: s.locks[k] !in s.closings &&
                  exists o | o in s.ops :: Owns(s.ops[o]) && s.ops[o].key == k && Holds(s.ops[o]) == Some(s.locks[k]))
            && Distinct(s.closings)
  {
    RunKeeps(events);
    var s := Run(events).value;
    forall k | k in s.locks ensures s.locks[k] !in s.closings &&
      exists o | o in s.ops :: Owns(s.ops[o]) && s.ops[o].key == k && Holds(s.ops[o]) == Some(s.locks[k])
    {
      var o := s.holder[s.locks[k]];
      assert o in s.ops && Owns(s.ops[o]);
    }
  }

  /** An operation that has ended holds nothing: every path that took the lock gave it back. */
  lemma EndedReleased(events: seq<Event>, c: Chan)
    requires Run(events).Some? && c < Run(events).value.next
    ensures var s := Run(events).value;
            c in s.closings <==> !exists o | o in s.ops :: Holds(s.ops[o]) == Some(c)
  {
    RunKeeps(events);
    var s := Run(events).value;
    if c !in s.closings { assert Holds(s.ops[s.holder[c]]) == Some(c); }
  }

  /** No waiter is stranded: its channel is closed, or a live operation holds it and can go on. */
  lemma NoStrandedWaiter(events: seq<Event>, w: OpId)
    requires Run(events).Some?
    requires var s := Run(events).value; w in s.ops && s.ops[w].point.Waiting?
    ensures var s := Run(events).value;
            || Enabled(s, Wake(w, s.ops[w].key))
            || exists o | o in s.ops ::
                Holds(s.ops[o]) == Some(s.ops[w].point.on)
                    && (Enabled(s, Finish(o)) || Enabled(s, Answer(o)) || Enabled(s, Close(o)))
  {
    RunKeeps(events);
    var s := Run(events).value;
    var c := s.ops[w].point.on;
    if c !in s.closings {
      var o := s.holder[c];
      assert o in s.ops && Holds(s.ops[o]) == Some(c);
      assert Enabled(s, Finish(o)) || Enabled(s, Answer(o)) || Enabled(s, Close(o));
    }
  }

  /** When no exchange is under way any more, the table is empty and every waiter can go on. */
  lemma QuietTableEmpty(events: seq<Event>)
    requires Run(events).Some?
    requires var s := Run(events).value; forall o | o in s.ops ::
              !s.ops[o].point.Looking? && !s.ops[o].point.Asking? && !s.ops[o].point.Closing?
    ensures var s := Run(events).value;
            && s.locks == map[]
            && (forall c | 0 <= c < s.next :: c in s.closings)
            && forall o | o in s.ops && s.ops[o].point.Waiting? :: Enabled(s, Wake(o, s.ops[o].key))
  {
    RunKeeps(events);
    var s := Run(events).value;
    assert forall k :: k !in s.locks;
  }

  // ---- who may look and ask, from the events alone

  /** An operation that looks or asks without owning its key was woken for that key. */
  ghost predicate WokenRight(events: seq<Event>, s: State) {
    forall o | o in s.ops && (s.ops[o].point.Looking? || s.ops[o].point.Asking?) && !Owns(s.ops[o]) ::
      Wake(o, s.ops[o].key) in events
  }

  /** An operation waits for a different one that had its key. */
  ghost predicate WaitersRight(s: State) {
    forall o | o in s.ops && s.ops[o].point.Waiting? ::
      var c := s.ops[o].point.on;
      c in s.holder && s.holder[c] in s.ops && s.holder[c] != o && s.ops[s.holder[c]].key == s.ops[o].key
  }

  /** What makes an operation end: giving up, or its own answer, which an owner follows by closing its
      channel. */
  ghost predicate EndsRight(events: seq<Event>, s: State) {
    forall o | o in s.ops ::
      && (s.ops[o].point.Closing? ==> Answer(o) in events || Finish(o) in events)
      && (s.ops[o].point.Ended? ==> Cancel(o) in events || Answer(o) in events || Finish(o) in events)
  }

  /** An operation that made a channel keeps its key from then on. */
  ghost predicate MakersRight(s: State) {
    forall c | c in s.holder ::
      && s.holder[c] in s.ops && c < s.next
      && (Holds(s.ops[s.holder[c]]) == Some(c) || s.ops[s.holder[c]].point.Ended?)
  }

  lemma WokenStep(events: seq<Event>, s: State, e: Event)
    requires WokenRight(events, s) && Enabled(s, e)
    ensures WokenRight(events + [e], Step(s, e))
  {
    var s' := Step(s, e);
    forall o | o in s'.ops && (s'.ops[o].point.Looking? || s'.ops[o].point.Asking?) && !Owns(s'.ops[o])
      ensures Wake(o, s'.ops[o].key) in events + [e]
    {
      if o != e.op { assert s'.ops[o] == s.ops[o]; }
    }
  }

  lemma EndsStep(events: seq<Event>, s: State, e: Event)
    requires EndsRight(events, s) && Enabled(s, e)
    ensures EndsRight(events + [e], Step(s, e))
  {
    var s' := Step(s, e);
    assert forall o | o in s'.ops && o != e.op :: o in s.ops && s'.ops[o] == s.ops[o];
    if e.Close? { assert s.ops[e.op].point.Closing?; }
  }

  lemma MakerStays(s: State, e: Event, c: Chan)
    requires Enabled(s, e) && c in s.holder && s.holder[c] in s.ops && c < s.next
    requires Holds(s.ops[s.holder[c]]) == Some(c) || s.ops[s.holder[c]].point.Ended?
    ensures var s', o := Step(s, e), s.holder[c];
            && c in s'.holder && s'.holder[c] == o && o in s'.ops && s'.ops[o].key == s.ops[o].key && c < s'.next
            && (Holds(s'.ops[o]) == Some(c) || s'.ops[o].point.Ended?)
  {
  }

  lemma MakersStep(s: State, e: Event)
    requires MakersRight(s) && Enabled(s, e)
    ensures MakersRight(Step(s, e))
  {
    var s' := Step(s, e);
    forall c | c in s'.holder
      ensures && s'.holder[c] in s'.ops && c < s'.next
              && (Holds(s'.ops[s'.holder[c]]) == Some(c) || s'.ops[s'.holder[c]].point.Ended?)
    {
      if c in s.holder { MakerStays(s, e, c); }
    }
  }

  lemma WaitersStep(s: State, e: Event)
    requires MakersRight(s) && WaitersRight(s) && LocksRight(s) && Enabled(s, e)
    ensures WaitersRight(Step(s, e))
  {
    var s' := Step(s, e);
    forall o | o in s'.ops && s'.ops[o].point.Waiting?
      ensures var c := s'.ops[o].point.on;
              c in s'.holder && s'.holder[c] in s'.ops && s'.holder[c] != o && s'.ops[s'.holder[c]].key == s'.ops[o].key
    {
      var c := s'.ops[o].point.on;
      if o == e.op { assert c == s.locks[s.ops[o].key]; }
      MakerStays(s, e, c);
    }
  }

  lemma LocksOf(s: State)
    requires Inv(s)
    ensures LocksRight(s)
  {
  }

  lemma {:induction false} HistoryKeeps(events: seq<Event>)
    requires Run(events).Some?
    ensures var s := Run(events).value;
            WokenRight(events, s) && EndsRight(events, s) && MakersRight(s) && WaitersRight(s)
  {
    if events != [] {
      var n := |events| - 1;
      var front, s := events[..n], Run(events[..n]).value;
      HistoryKeeps(front);
      RunKeeps(front);
      assert events == front + [events[n]];
      hide WokenRight, EndsRight, MakersRight, WaitersRight, Inv, Step;
      WokenStep(front, s, events[n]);
      EndsStep(front, s, events[n]);
      assert LocksRight(s) by { LocksOf(s); }
      MakersStep(s, events[n]);
      WaitersStep(s, events[n]);
    }
  }

  /** In every interleaving an exchange that looks or asks owns its key or was woken for it. So until
      somebody is woken, a key is looked up and asked for by one exchange at a time. */
  lemma OneAsker(events: seq<Event>)
    requires Run(events).Some?
    ensures var s := Run(events).value;
            && (forall o | o in s.ops && (s.ops[o].point.Looking? || s.ops[o].point.Asking?) ::
                  Owns(s.ops[o]) || Wake(o, s.ops[o].key) in events)
            && ((forall e | e in events :: !e.Wake?) ==>
                  forall o, p | o in s.ops && p in s.ops && s.ops[o].key == s.ops[p].key
                      && (s.ops[o].point.Looking? || s.ops[o].point.Asking?)
                      && (s.ops[p].point.Looking? || s.ops[p].point.Asking?) :: o == p)
  {
    HistoryKeeps(events);
    OneOwner(events);
    hide Run;
  }

  /** An exchange waits for a different exchange that had entered the same key, and is woken only after
      that one has ended. */
  lemma WaitsForOwner(events: seq<Event>, w: OpId)
    requires Run(events).Some?
    requires var s := Run(events).value; w in s.ops && s.ops[w].point.Waiting?
    ensures var s := Run(events).value;
            exists o | o in s.ops && o != w :: s.ops[o].key == s.ops[w].key &&
              (if s.ops[w].point.on in s.closings then s.ops[o].point.Ended?
               else Holds(s.ops[o]) == Some(s.ops[w].point.on))
  {
    HistoryKeeps(events);
    RunKeeps(events);
    var s := Run(events).value;
    var c := s.ops[w].point.on;
    assert s.holder[c] in s.ops;
  }

  /** A waiter is woken only when the exchange it waited for has ended with an answer. */
  lemma WokenAfterAnswer(events: seq<Event>, w: OpId, again: Key)
    requires Run(events + [Wake(w, again)]).Some?
    ensures Run(events).Some? &&
            var s := Run(events).value;
            && w in s.ops
            && exists o | o in s.ops && o != w ::
                 s.ops[o].key == s.ops[w].key && s.ops[o].point.Ended? && (Answer(o) in events || Finish(o) in events)
  {
    assert (events + [Wake(w, again)])[..|events|] == events;
    var s := Run(events).value;
    HistoryKeeps(events);
    RunKeeps(events);
    var c := s.ops[w].point.on;
    var o := s.holder[c];
    assert s.ops[o].point.Ended?;
    MakersAnswer(events, c);
  }

  lemma MakerEnds(s: State, e: Event, c: Chan)
    requires Enabled(s, e) && MakersRight(s) && c in s.holder
    ensures var s', o := Step(s, e), s.holder[c];
            && c in s'.holder && s'.holder[c] == o && o in s.ops
            && (o in s'.ops && s'.ops[o].point.Ended? ==>
                  s.ops[o].point.Ended? || s.ops[o].point.Closing? || e == Answer(o) || e == Finish(o))
  {
    MakerStays(s, e, c);
  }

  lemma MakerNew(s: State, e: Event, c: Chan)
    requires Enabled(s, e) && c !in s.holder && c in Step(s, e).holder
    ensures var s' := Step(s, e); s'.holder[c] in s'.ops && !s'.ops[s'.holder[c]].point.Ended?
  {
  }

  /** The maker of a channel ends by its answer, not by giving up: it never waits again. */
  lemma {:induction false} MakersAnswer(events: seq<Event>, c: Chan)
    requires Run(events).Some? && c in Run(events).value.holder
    ensures var s := Run(events).value;
            s.holder[c] in s.ops && s.ops[s.holder[c]].point.Ended? ==>
              Answer(s.holder[c]) in events || Finish(s.holder[c]) in events
  {
    if events != [] {
      var n := |events| - 1;
      var front, s := events[..n], Run(events[..n]).value;
      HistoryKeeps(front);
      assert events == front + [events[n]];
      hide Run;
      if c in s.holder {
        MakersAnswer(front, c);
        MakerEnds(s, events[n], c);
      } else {
        MakerNew(s, events[n], c);
      }
    }
  }

  /** No exchange ends before its caller gave up or its answer is there. */
  lemma EndsAnswered(events: seq<Event>, o: OpId)
    requires Run(events).Some?
    requires var s := Run(events).value; o in s.ops && s.ops[o].point.Ended?
    ensures Cancel(o) in events || Answer(o) in events || Finish(o) in events
  {
    HistoryKeeps(events);
  }

  /** What entering comes to, said of the operations alone: an exchange gets its key when nobody owns it,
      and otherwise waits for the owner's channel, or begins anew as one that may wait. */
  lemma EnterMeans(events: seq<Event>, o: OpId, again: Key)
    requires Run(events + [Enter(o, again)]).Some?
    ensures Run(events).Some? && o in Run(events).value.ops && Run(events).value.ops[o].point.Begin?
    ensures var s, s' := Run(events).value, Run(events + [Enter(o, again)]).value;
            var k := s.ops[o].key;
            && s'.ops.Keys == s.ops.Keys && (forall p | p in s.ops && p != o :: s'.ops[p] == s.ops[p])
            && (if exists p | p in s.ops :: Owns(s.ops[p]) && s.ops[p].key == k then
                  if s.ops[o].point.wait then
                    && s'.ops[o].point.Waiting? && s'.ops[o].key == k
                    && forall p | p in s.ops && Owns(s.ops[p]) && s.ops[p].key == k ::
                         Holds(s.ops[p]) == Some(s'.ops[o].point.on)
                  else s'.ops[o] == Op(Begin(true), again)
                else Owns(s'.ops[o]) && s'.ops[o].point.Looking? && s'.ops[o].key == k)
  {
    assert (events + [Enter(o, again)])[..|events|] == events;
    RunKeeps(events);
  }

  /** The last event of an operation. */
  function LastEvent(events: seq<Event>, o: OpId): Option<Event> {
    if events == [] then None else
    var n := |events| - 1;
    if events[n].op == o then Some(events[n]) else LastEvent(events[..n], o)
  }

  /** Where an event leaves its operation. */
  predicate LeftAt(e: Event, op: Op) {
    match e
    case Arrive(_, key, wait) => op == Op(Begin(wait), key)
    case Enter(_, again) =>
      op.point.Waiting? || op == Op(Begin(true), again) || (op.point.Looking? && op.point.owned.Some?)
    case Wake(_, again) => op == Op(Looking(None), again)
    case Cancel(_) => op.point.Ended?
    case Answer(_) => op.point.Closing? || op.point.Ended?
    case Miss(_) => op.point.Asking?
    case Finish(_) => op.point.Closing? || op.point.Ended?
    case Close(_) => op.point.Ended?
  }

  /** In every run an operation is where its last event left it. */
  lemma {:induction false} FollowsEvents(events: seq<Event>, o: OpId)
    requires Run(events).Some?
    ensures var s := Run(events).value;
            if o in s.ops then LastEvent(events, o).Some? && LeftAt(LastEvent(events, o).value, s.ops[o])
            else LastEvent(events, o).None?
  {
    if events != [] {
      var n := |events| - 1;
      FollowsEvents(events[..n], o);
      hide Step, Enabled, LeftAt;
      StepFollows(Run(events[..n]).value, events[n], o);
    }
  }

  lemma StepFollows(s: State, e: Event, o: OpId)
    requires Enabled(s, e)
    ensures var s' := Step(s, e);
            if o == e.op then o in s'.ops && LeftAt(e, s'.ops[o])
            else (o in s'.ops <==> o in s.ops) && (o in s.ops ==> s'.ops[o] == s.ops[o])
  {
  }
}
