// The service lifecycle of daemon/started_service.go under every interleaving of its callers.
//
// The lifecycle mutex admits one StartOrReloadService or CloseService at a time; `owner` is the
// program point of the caller that holds it. Between two points lies one critical section of the
// service mutex, or one call made without it. Interruption, SetError and Close only take the
// service mutex, so they may happen between any two points, any number of times.
module ServiceLifecycle {
  import opened Base

  datatype Status = Idle | Starting | Running | Stopping | Fatal

  datatype Owner =
    | Free
    | StartEnter                         // about to look at the old instance
    | StartCloseOld(old_: nat)           // old instance detached, not closed yet
    | StartAnnounce                      // about to publish STARTING
    | StartBuild                         // building the new instance
    | StartBuildFailed                   // about to publish the build error
    | StartStore(instance: nat)          // about to store the new instance
    | StartRun(instance: nat)            // inside instance.Start
    | StartDecide(instance: nat, ok: bool)
    | StartCloseNew(instance: nat)       // interrupted or failed: closing the new instance
    | CloseEnter
    | CloseInstance(target: Option<nat>)
    | CloseFinish

  /** The service's fields; instances are numbered in creation order. The rest is history: the
      closings performed, the statuses emitted, the instances published as STARTED and those whose
      start was interrupted. */
  datatype State = State(
    owner: Owner,
    closed: bool,
    interrupted: bool,
    status: Status,
    instance: Option<nat>,
    created: nat,
    closings: seq<nat>,
    emitted: seq<Status>,
    published: set<nat>,
    hit: set<nat>)

  datatype Event =
    | AcquireStart
    | AcquireClose
    | Proceed(ok: bool)    // the owner's next section or call; ok is its outcome where it has one
    | Interrupt
    | SetError
    | Shutdown

  const Init := State(Free, false, false, Idle, None, 0, [], [], {}, {})

  predicate Enabled(s: State, e: Event) {
    match e
    case AcquireStart => s.owner.Free?
    case AcquireClose => s.owner.Free?
    case Proceed(_) => !s.owner.Free?
    case _ => true
  }

  function Emit(s: State, status: Status): State { s.(status := status, emitted := s.emitted + [status]) }

  function Announce(s: State): State { Emit(s.(interrupted := false), Starting) }

  function InterruptStart(s: State): State {
    if s.status == Starting && s.instance.Some? then s.(interrupted := true, hit := s.hit + {s.instance.value}) else s
  }

  /** StartOrReloadService looks at the old instance: refuse, detach it, or announce at once. */
  function EnterStart(s: State): State {
    if s.closed then s.(owner := Free)
    else if s.instance.Some? then Emit(s.(instance := None, owner := StartCloseOld(s.instance.value)), Stopping)
    else Announce(s).(owner := StartBuild)
  }

  function DecideStart(s: State, i: nat, ok: bool): State {
    if s.interrupted then s.(interrupted := false, instance := None, owner := StartCloseNew(i))
    else if !ok then Emit(s.(instance := None, owner := StartCloseNew(i)), Fatal)
    else Emit(s.(owner := Free, published := s.published + {i}), Running)
  }

  function EnterClose(s: State): State {
    if s.instance.None? && s.status != Starting && s.status != Running then s.(owner := Free)
    else Emit(s.(instance := None, owner := CloseInstance(s.instance)), Stopping)
  }

  function Advance(s: State, ok: bool): State
    requires !s.owner.Free?
  {
    match s.owner
    case StartEnter => EnterStart(s)
    case StartCloseOld(i) => s.(closings := s.closings + [i], owner := StartAnnounce)
    case StartAnnounce => Announce(s).(owner := StartBuild)
    case StartBuild => if ok then s.(created := s.created + 1, owner := StartStore(s.created))
        else s.(owner := StartBuildFailed)
    case StartBuildFailed => Emit(s.(owner := Free), Fatal)
    case StartStore(i) => s.(instance := Some(i), owner := StartRun(i))
    case StartRun(i) => s.(owner := StartDecide(i, ok))
    case StartDecide(i, started) => DecideStart(s, i, started)
    case StartCloseNew(i) => s.(closings := s.closings + [i], owner := Free)
    case CloseEnter => EnterClose(s)
    case CloseInstance(target) =>
      (if target.Some? then s.(closings := s.closings + [target.value]) else s).(owner := CloseFinish)
    case CloseFinish => Emit(s.(owner := Free), Idle)
  }

  function Step(s: State, e: Event): State
    requires Enabled(s, e)
  {
    match e
    case AcquireStart => s.(owner := StartEnter)
    case AcquireClose => s.(owner := CloseEnter)
    case Proceed(ok) => Advance(s, ok)
    case Interrupt => InterruptStart(s)
    case SetError => Emit(s, Fatal)
    case Shutdown => s.(closed := true)
  }

  /** The state after a run, if every event of it is enabled in turn. */
  function Run(events: seq<Event>): Option<State> {
    if events == [] then Some(Init) else
    var n := |events| - 1;
    match Run(events[..n])
    case None => None
    case Some(s) => if Enabled(s, events[n]) then Some(Step(s, events[n])) else None
  }

  // ---- what every step keeps

  /** The one instance that may be open: the service's, or the one the owner still has to close. */
  function Live(s: State): Option<nat> {
    match s.owner
    case StartCloseOld(i) => Some(i)
    case StartStore(i) => Some(i)
    case StartRun(i) => Some(i)
    case StartDecide(i, _) => Some(i)
    case StartCloseNew(i) => Some(i)
    case CloseInstance(target) => target
    case StartAnnounce => None
    case StartBuild => None
    case StartBuildFailed => None
    case CloseFinish => None
    case _ => s.instance
  }

  ghost predicate Distinct(xs: seq<nat>) { forall i, j | 0 <= i < j < |xs| :: xs[i] != xs[j] }

  ghost predicate Conserved(s: State) {
    && Distinct(s.closings)
    && (forall i | i in s.closings :: i < s.created)
    && (forall i | 0 <= i < s.created :: i in s.closings <==> Live(s) != Some(i))
    && (Live(s).Some? ==> Live(s).value < s.created)
  }

  predicate Resting(o: Owner) { o.Free? || o.StartEnter? || o.CloseEnter? }
  predicate Launching(o: Owner) { o.StartRun? || o.StartDecide? }

  /** How the fields depend on the owner's program point. */
  ghost predicate Consistent(s: State) {
    && (!Resting(s.owner) ==> s.instance == if Launching(s.owner) then Live(s) else None)
    && (s.status == Running ==> s.instance.Some? && Resting(s.owner))
    && (s.status == Starting && s.instance.Some? ==> Launching(s.owner))
    && (s.interrupted ==> Launching(s.owner))
    && (s.emitted != [] ==> s.emitted[|s.emitted| - 1] == s.status)
  }

  ghost predicate Interruption(s: State) {
    && (forall i | i in s.hit :: i < s.created && i !in s.published)
    && (forall i | i in s.published :: i < s.created)
    && ((Launching(s.owner) || s.owner.StartStore?) ==> Live(s).value !in s.published)
    && (s.owner.StartStore? ==> Live(s).value !in s.hit)
    && (Launching(s.owner) ==> (s.interrupted <==> Live(s).value in s.hit))
  }

  /** Where the status log stands since the last STARTED. */
  datatype Phase = Fresh | Up | Down | Again

  function Move(p: Phase, status: Status): Phase {
    match (p, status)
    case (_, Running) => Up
    case (Up, Stopping) => Down
    case (Down, Starting) => Again
    case _ => p
  }

  function PhaseOf(log: seq<Status>): Phase {
    if log == [] then Fresh else Move(PhaseOf(log[..|log| - 1]), log[|log| - 1])
  }

  lemma PhaseAppend(log: seq<Status>, status: Status)
    ensures PhaseOf(log + [status]) == Move(PhaseOf(log), status)
  {
    assert (log + [status])[..|log|] == log;
  }

  ghost predicate Phased(s: State) {
    && (PhaseOf(s.emitted) == Up ==> s.instance.Some? && Resting(s.owner))
    && (s.owner.StartBuild? || s.owner.StartBuildFailed? || s.owner.StartStore? || Launching(s.owner)
        || s.owner.StartCloseNew? ==>
          PhaseOf(s.emitted).Fresh? || PhaseOf(s.emitted).Again?)
    && Disciplined(s.emitted)
  }

  /** STARTED is only emitted in a phase that allows it. */
  ghost predicate Disciplined(log: seq<Status>) {
    forall i | 0 <= i < |log| && log[i] == Running :: PhaseOf(log[..i]).Fresh? || PhaseOf(log[..i]).Again?
  }

  ghost predicate Inv(s: State) { Conserved(s) && Consistent(s) && Interruption(s) && Phased(s) }

  lemma DisciplinedAppend(log: seq<Status>, status: Status)
    requires Disciplined(log) && (status == Running ==> PhaseOf(log).Fresh? || PhaseOf(log).Again?)
    ensures Disciplined(log + [status])
  {
    var log' := log + [status];
    forall i | 0 <= i < |log'| && log'[i] == Running ensures PhaseOf(log'[..i]).Fresh? || PhaseOf(log'[..i]).Again? {
      assert log'[..i] == log[..i];
    }
  }

  lemma EmitPhase(s: State, status: Status)
    requires Disciplined(s.emitted) && (status == Running ==> PhaseOf(s.emitted).Fresh? || PhaseOf(s.emitted).Again?)
    ensures var s' := Emit(s, status);
            Disciplined(s'.emitted) && PhaseOf(s'.emitted) == Move(PhaseOf(s.emitted), status)
                && s'.emitted[|s'.emitted| - 1] == status
  {
    PhaseAppend(s.emitted, status);
    DisciplinedAppend(s.emitted, status);
  }

  lemma CloseKeeps(closings: seq<nat>, i: nat)
    requires Distinct(closings) && i !in closings
    ensures Distinct(closings + [i])
  {
  }

  lemma EnterStartKeeps(s: State)
    requires Inv(s) && s.owner.StartEnter?
    ensures Inv(EnterStart(s))
  {
    hide PhaseOf, Disciplined;
    EmitPhase(s.(instance := None), Stopping);
    EmitPhase(s.(interrupted := false), Starting);
  }

  lemma DecideConserves(s: State, i: nat, ok: bool)
    requires Conserved(s) && s.owner == StartDecide(i, ok) && s.instance == Some(i)
    ensures Conserved(DecideStart(s, i, ok))
  {
    hide Distinct;
  }

  lemma DecideConsistent(s: State, i: nat, ok: bool)
    requires Consistent(s) && s.owner == StartDecide(i, ok)
    ensures Consistent(DecideStart(s, i, ok))
  {
  }

  lemma DecideInterruption(s: State, i: nat, ok: bool)
    requires Interruption(s) && s.owner == StartDecide(i, ok) && i < s.created
    ensures Interruption(DecideStart(s, i, ok))
  {
  }

  lemma DecidePhased(s: State, i: nat, ok: bool)
    requires Phased(s) && s.owner == StartDecide(i, ok) && s.instance == Some(i)
    ensures Phased(DecideStart(s, i, ok))
  {
    hide PhaseOf, Disciplined;
    EmitPhase(s.(instance := None), Fatal);
    EmitPhase(s, Running);
  }

  lemma DecideKeeps(s: State, i: nat, ok: bool)
    requires Inv(s) && s.owner == StartDecide(i, ok)
    ensures Inv(DecideStart(s, i, ok))
  {
    hide Distinct, PhaseOf, Disciplined, DecideStart, Interruption, Phased;
    DecideConserves(s, i, ok);
    DecideConsistent(s, i, ok);
    DecideInterruption(s, i, ok);
    DecidePhased(s, i, ok);
  }

  lemma EnterCloseKeeps(s: State)
    requires Inv(s) && s.owner.CloseEnter?
    ensures Inv(EnterClose(s))
  {
    hide PhaseOf, Disciplined;
    EmitPhase(s.(instance := None), Stopping);
  }

  lemma TellKeeps(s: State, ok: bool)
    requires Inv(s) && (s.owner.StartAnnounce? || s.owner.StartBuildFailed?)
    ensures Inv(Advance(s, ok))
  {
    hide PhaseOf, Disciplined, Distinct;
    if s.owner.StartAnnounce? { EmitPhase(s.(interrupted := false), Starting); }
    if s.owner.StartBuildFailed? { EmitPhase(s, Fatal); }
  }

  lemma StartKeeps(s: State, ok: bool)
    requires Inv(s) && (s.owner.StartBuild? || s.owner.StartStore? || s.owner.StartRun?)
    ensures Inv(Advance(s, ok))
  {
    hide PhaseOf, Disciplined, Distinct;
  }

  predicate IsClosing(o: Owner) { o.StartCloseOld? || o.StartCloseNew? || o.CloseInstance? || o.CloseFinish? }

  lemma ClosingConserves(s: State, ok: bool)
    requires Conserved(s) && Consistent(s) && IsClosing(s.owner)
    ensures Conserved(Advance(s, ok))
  {
    hide Distinct;
    if Live(s).Some? { CloseKeeps(s.closings, Live(s).value); }
  }

  lemma ClosingConsistent(s: State, ok: bool)
    requires Consistent(s) && IsClosing(s.owner)
    ensures Consistent(Advance(s, ok))
  {
  }

  lemma ClosingInterruption(s: State, ok: bool)
    requires Interruption(s) && IsClosing(s.owner)
    ensures Interruption(Advance(s, ok))
  {
  }

  lemma ClosingPhased(s: State, ok: bool)
    requires Phased(s) && Consistent(s) && IsClosing(s.owner)
    ensures Phased(Advance(s, ok))
  {
    hide PhaseOf, Disciplined;
    if s.owner.CloseFinish? { EmitPhase(s, Idle); }
  }

  lemma ClosingKeeps(s: State, ok: bool)
    requires Inv(s) && IsClosing(s.owner)
    ensures Inv(Advance(s, ok))
  {
    hide Conserved, Consistent, Interruption, Phased, Advance, IsClosing;
    ClosingConserves(s, ok);
    ClosingConsistent(s, ok);
    ClosingInterruption(s, ok);
    ClosingPhased(s, ok);
  }

  lemma AdvanceKeeps(s: State, ok: bool)
    requires Inv(s) && !s.owner.Free?
    ensures Inv(Advance(s, ok))
  {
    hide Inv, EnterStart, DecideStart, EnterClose;
    match s.owner
    case StartEnter => EnterStartKeeps(s);
    case StartDecide(i, started) => DecideKeeps(s, i, started);
    case CloseEnter => EnterCloseKeeps(s);
    case StartAnnounce => TellKeeps(s, ok);
    case StartBuild => StartKeeps(s, ok);
    case StartBuildFailed => TellKeeps(s, ok);
    case StartStore(_) => StartKeeps(s, ok);
    case StartRun(_) => StartKeeps(s, ok);
    case _ => ClosingKeeps(s, ok);
  }

  lemma StepKeeps(s: State, e: Event)
    requires Inv(s) && Enabled(s, e)
    ensures Inv(Step(s, e))
  {
    hide Advance, PhaseOf, Disciplined;
    match e
    case Proceed(ok) => AdvanceKeeps(s, ok);
    case SetError => EmitPhase(s, Fatal);
    case _ =>
  }

  lemma {:induction false} RunKeeps(events: seq<Event>)
    ensures Run(events).Some? ==> Inv(Run(events).value)
  {
    if events != [] {
      var n := |events| - 1;
      RunKeeps(events[..n]);
      var s := Run(events[..n]);
      if s.Some? && Enabled(s.value, events[n]) { StepKeeps(s.value, events[n]); }
    }
  }

  // ---- the guarantees

  /** Instances that were created and not closed. */
  function OpenInstances(s: State): set<nat> { set i | 0 <= i < s.created && i !in s.closings }

  /** At most one un-closed instance exists, no instance is closed twice, and STARTED means there is
      an instance, in every state of every interleaving. */
  lemma OneInstance(events: seq<Event>)
    requires Run(events).Some?
    ensures var s := Run(events).value;
            && |OpenInstances(s)| <= 1
            && Distinct(s.closings)
            && (s.instance.Some? ==> s.instance.value in OpenInstances(s))
            && (s.status == Running ==> s.instance.Some?)
            && (s.owner.Free? ==> OpenInstances(s) == if s.instance.Some? then {s.instance.value} else {})
  {
    RunKeeps(events);
    var s := Run(events).value;
    if Live(s).Some? {
      assert OpenInstances(s) == {Live(s).value};
    } else {
      assert OpenInstances(s) == {};
    }
  }

  /** A start whose instance was interrupted never publishes STARTED, before or after. */
  lemma InterruptedNeverStarts(events: seq<Event>)
    requires Run(events).Some?
    ensures var s := Run(events).value; s.hit !! s.published
  {
    RunKeeps(events);
  }

  /** A start publishes STARTED exactly when the instance started and was never interrupted. */
  lemma PublishesIff(events: seq<Event>, i: nat, ok: bool)
    requires Run(events).Some? && Run(events).value.owner == StartDecide(i, ok)
    ensures var s := Run(events).value;
            (i in Step(s, Proceed(ok)).published <==> ok && i !in s.hit) && i !in s.published
  {
    RunKeeps(events);
  }

  /** An interruption takes effect exactly while the status is STARTING and the instance is stored and
      not decided on; at any other moment it changes nothing. */
  lemma InterruptWorksIff(events: seq<Event>)
    requires Run(events).Some?
    ensures var s := Run(events).value;
            if s.status == Starting && Launching(s.owner)
            then Step(s, Interrupt).hit == s.hit + {Live(s).value} && Step(s, Interrupt).interrupted
            else Step(s, Interrupt) == s
  {
    RunKeeps(events);
  }

  /** Between two STARTED emissions there is a STOPPING followed by a STARTING. */
  lemma RestartIsAnnounced(events: seq<Event>, i: nat, j: nat)
    requires Run(events).Some?
    requires var log := Run(events).value.emitted; i < j < |log| && log[i] == log[j] == Running
    ensures var log := Run(events).value.emitted; exists a, b ::
              i < a < b < j && log[a] == Stopping && log[b] == Starting
  {
    RunKeeps(events);
    var log := Run(events).value.emitted;
    assert log[..i + 1] == log[..i] + [log[i]];
    PhaseAppend(log[..i], Running);
    var a, b := FindRestart(log, i, j);
  }

  lemma {:induction false} FindRestart(log: seq<Status>, i: nat, k: nat) returns (a: nat, b: nat)
    requires i < k <= |log| && log[i] == Running
    ensures PhaseOf(log[..k]).Fresh? ==> false
    ensures PhaseOf(log[..k]).Down? ==> i < a < k && log[a] == Stopping
    ensures PhaseOf(log[..k]).Again? ==> i < a < b < k && log[a] == Stopping && log[b] == Starting
    decreases k
  {
    assert log[..k] == log[..k - 1] + [log[k - 1]];
    PhaseAppend(log[..k - 1], log[k - 1]);
    a, b := 0, 0;
    if k - 1 > i {
      a, b := FindRestart(log, i, k - 1);
      if PhaseOf(log[..k - 1]).Up? && log[k - 1] == Stopping { a := k - 1; }
      if PhaseOf(log[..k - 1]).Down? && log[k - 1] == Starting { b := k - 1; }
    }
  }

  /** An interruption only takes effect once the instance is stored: one that comes while the instance
      is being built is lost, and the start publishes STARTED. */
  lemma EarlyInterruptLost()
    ensures var events := [AcquireStart, Proceed(true), Interrupt, Proceed(true), Proceed(true), Proceed(true),
              Proceed(true)];
            Run(events).Some? && Run(events).value.emitted == [Starting, Running] && Run(events).value.hit == {}
  {
    hide Run;
    var s1 := Init.(owner := StartBuild, status := Starting, emitted := [Starting]);
    RunStart();
    assert [] + [Starting] == [Starting] && [Starting] + [Running] == [Starting, Running];
    RunNext([], AcquireStart, Init);
    RunNext([] + [AcquireStart], Proceed(true), Init.(owner := StartEnter));
    RunNext([] + [AcquireStart] + [Proceed(true)], Interrupt, s1);
    var events := [AcquireStart, Proceed(true), Interrupt];
    assert [] + [AcquireStart] + [Proceed(true)] + [Interrupt] == events;
    RunNext(events, Proceed(true), s1);
    RunNext(events + [Proceed(true)], Proceed(true), s1.(created := 1, owner := StartStore(0)));
    RunNext(events + [Proceed(true)] +
        [Proceed(true)], Proceed(true), s1.(created := 1, owner := StartRun(0), instance := Some(0)));
    RunNext(events + [Proceed(true)] + [Proceed(true)] + [Proceed(true)], Proceed(true),
            s1.(created := 1, owner := StartDecide(0, true), instance := Some(0)));
    assert events + [Proceed(true)] + [Proceed(true)] + [Proceed(true)] + [Proceed(true)] ==
           [AcquireStart, Proceed(true), Interrupt, Proceed(true), Proceed(true), Proceed(true), Proceed(true)];
  }

  lemma RunStart()
    ensures Run([]) == Some(Init)
  {
  }

  lemma RunNext(events: seq<Event>, e: Event, s: State)
    requires Run(events) == Some(s) && Enabled(s, e)
    ensures Run(events + [e]) == Some(Step(s, e))
  {
    assert (events + [e])[..|events|] == events;
  }

  // ---- what a whole call does

  /** Nobody else takes the lifecycle mutex. */
  ghost predicate Undisturbed(events: seq<Event>) { forall e | e in events :: !e.AcquireStart? && !e.AcquireClose? }

  /** The outcomes of the owner's own steps. */
  function Outcomes(events: seq<Event>): seq<bool> {
    if events == [] then [] else
    var e := events[|events| - 1];
    Outcomes(events[..|events| - 1]) + if e.Proceed? then [e.ok] else []
  }

  /** What was emitted since s0, errors left out. */
  function Told(log: seq<Status>): seq<Status> {
    if log == [] then [] else
    Told(log[..|log| - 1]) + if log[|log| - 1] == Fatal then [] else [log[|log| - 1]]
  }

  lemma ToldAppend(log: seq<Status>, status: Status)
    ensures Told(log + [status]) == Told(log) + if status == Fatal then [] else [status]
  {
    assert (log + [status])[..|log|] == log;
  }

  /** Since log0 the statuses were told, in this order, among errors; without a reported error they and the
      call's own error are all that was emitted. */
  ghost predicate News(log0: seq<Status>, log: seq<Status>, told: seq<Status>, failed: bool, quiet: bool) {
    && log0 <= log && Told(log[|log0|..]) == told
    && (quiet ==> log == log0 + told + if failed then [Fatal] else [])
  }

  lemma NewsEmit(log0: seq<Status>, log: seq<Status>, told: seq<Status>, status: Status, quiet: bool)
    requires News(log0, log, told, false, quiet)
    ensures if status == Fatal then News(log0, log + [status], told, true, quiet)
            else News(log0, log + [status], told + [status], false, quiet)
  {
    ToldAppend(log[|log0|..], status);
    assert (log + [status])[|log0|..] == log[|log0|..] + [status];
    if quiet { assert log0 + told + [] + [status] == log0 + (told + [status]) + []; }
  }

  lemma NewsError(log0: seq<Status>, log: seq<Status>, told: seq<Status>, failed: bool, quiet: bool)
    requires News(log0, log, told, failed, quiet)
    ensures News(log0, log + [Fatal], told, failed, false)
  {
    ToldAppend(log[|log0|..], Fatal);
    assert (log + [Fatal])[|log0|..] == log[|log0|..] + [Fatal];
  }

  function Listed(i: Option<nat>): seq<nat> { if i.Some? then [i.value] else [] }

  /** The call told this much, closed these instances, created so many and left this instance. */
  ghost predicate Done(s0: State, s: State, quiet: bool, told: seq<Status>, failed: bool, closings: seq<nat>,
          created: nat, instance: Option<nat>) {
    && News(s0.emitted, s.emitted, told, failed, quiet) && s.closings == s0.closings + closings
    && s.created == s0.created + created && s.instance == instance
  }

  // ---- CloseService

  /** A CloseService that got the mutex in s0, after n of its steps. */
  ghost predicate CloseTrack(s0: State, n: nat, quiet: bool, s: State) {
    match s.owner
    case CloseEnter =>
      n == 0 && Done(s0, s, quiet, [], false, [], 0, s0.instance) && (quiet ==> s.status == s0.status)
    case CloseInstance(target) =>
      && n == 1 && target == s0.instance && Done(s0, s, quiet, [Stopping], false, [], 0, None)
      && Closable(s0, quiet)
    case CloseFinish =>
      n == 2 && Done(s0, s, quiet, [Stopping], false, Listed(s0.instance), 0, None) && Closable(s0, quiet)
    case Free =>
      || (n == 3 && Done(s0, s, quiet, [Stopping, Idle], false, Listed(s0.instance), 0, None) && Closable(s0, quiet))
      || (n == 1 && s0.instance.None? && (quiet ==> s0.status != Starting)
          && Done(s0, s, quiet, [], false, [], 0, None))
    case _ => false
  }

  ghost predicate Closable(s0: State, quiet: bool) { quiet ==> s0.instance.Some? || s0.status == Starting }

  lemma DoneError(s0: State, s: State, quiet: bool, told: seq<Status>, failed: bool, closings: seq<nat>,
          created: nat, instance: Option<nat>)
    requires Done(s0, s, quiet, told, failed, closings, created, instance)
    ensures Done(s0, Emit(s, Fatal), false, told, failed, closings, created, instance)
  {
    hide News;
    NewsError(s0.emitted, s.emitted, told, failed, quiet);
  }

  lemma CloseError(s0: State, n: nat, quiet: bool, s: State)
    requires CloseTrack(s0, n, quiet, s)
    ensures CloseTrack(s0, n, false, Emit(s, Fatal))
  {
    hide Done;
    forall told, failed, closings, created, instance | Done(s0, s, quiet, told, failed, closings, created, instance)
      ensures Done(s0, Emit(s, Fatal), false, told, failed, closings, created, instance)
    {
      DoneError(s0, s, quiet, told, failed, closings, created, instance);
    }
  }

  lemma CloseAdvance(s0: State, n: nat, quiet: bool, s: State, ok: bool)
    requires CloseTrack(s0, n, quiet, s) && !s.owner.Free? && (s.status == Running ==> s.instance.Some?)
    ensures CloseTrack(s0, n + 1, quiet, Advance(s, ok))
  {
    hide News;
    if s.owner.CloseEnter? {
      NewsEmit(s0.emitted, s.emitted, [], Stopping, quiet);
      assert [] + [Stopping] == [Stopping];
    } else if s.owner.CloseFinish? {
      NewsEmit(s0.emitted, s.emitted, [Stopping], Idle, quiet);
      assert [Stopping] + [Idle] == [Stopping, Idle];
    }
  }

  lemma CloseStep(s0: State, n: nat, quiet: bool, s: State, e: Event)
    requires CloseTrack(s0, n, quiet, s) && Enabled(s, e) && (s.status == Running ==> s.instance.Some?)
    requires !e.AcquireStart? && !e.AcquireClose?
    ensures CloseTrack(s0, n + if e.Proceed? then 1 else 0, quiet && e != SetError, Step(s, e))
  {
    match e
    case Proceed(ok) => CloseAdvance(s0, n, quiet, s, ok);
    case SetError => CloseError(s0, n, quiet, s);
    case _ => hide News;
  }

  /** The last event of a run that goes on from a prefix. */
  lemma RunLast(events: seq<Event>, more: seq<Event>)
    requires more != [] && Run(events + more).Some?
    ensures var n := |more| - 1;
            && Run(events + more[..n]).Some? && Enabled(Run(events + more[..n]).value, more[n])
            && Run(events + more).value == Step(Run(events + more[..n]).value, more[n])
  {
    var all := events + more;
    assert all[..|all| - 1] == events + more[..|more| - 1] && all[|all| - 1] == more[|more| - 1];
  }

  lemma {:induction false} OutcomesLast(more: seq<Event>)
    requires more != []
    ensures var n := |more| - 1;
            && Outcomes(more) == Outcomes(more[..n]) + (if more[n].Proceed? then [more[n].ok] else [])
            && (SetError !in more <==> SetError !in more[..n] && more[n] != SetError)
  {
    hide Outcomes;
    var n := |more| - 1;
    OutcomesUnfold(more);
    assert SetError in more[..n] ==> SetError in more;
    if SetError in more {
      var i :| 0 <= i < |more| && more[i] == SetError;
      if i < n { assert more[..n][i] == SetError; }
    }
  }

  lemma {:induction false} OutcomesUnfold(more: seq<Event>)
    requires more != []
    ensures var n := |more| - 1;
            Outcomes(more) == Outcomes(more[..n]) + if more[n].Proceed? then [more[n].ok] else []
  {
  }

  lemma {:induction false} CloseTracks(events: seq<Event>, more: seq<Event>)
    requires Run(events).Some? && Run(events).value.owner.Free? && Undisturbed(more)
    requires Run(events + [AcquireClose] + more).Some?
    ensures CloseTrack(Run(events).value, |Outcomes(more)|, SetError !in more,
                       Run(events + [AcquireClose] + more).value)
    decreases |more|
  {
    var s0, base := Run(events).value, events + [AcquireClose];
    hide Run;
    RunNext(events, AcquireClose, s0);
    if more == [] {
      assert base + more == base;
    } else {
      var n := |more| - 1;
      UndisturbedFront(more);
      RunLast(base, more);
      OutcomesLast(more);
      hide CloseTrack, Step, Enabled, Undisturbed, Inv, Outcomes;
      CloseTracks(events, more[..n]);
      RunningHas(base + more[..n]);
      CloseStep(s0, |Outcomes(more[..n])|, SetError !in more[..n], Run(base + more[..n]).value, more[n]);
    }
  }

  lemma UndisturbedFront(more: seq<Event>)
    requires Undisturbed(more) && more != []
    ensures var n := |more| - 1; Undisturbed(more[..n]) && !more[n].AcquireStart? && !more[n].AcquireClose?
  {
  }

  lemma RunningHas(events: seq<Event>)
    requires Run(events).Some?
    ensures Inv(Run(events).value) && (Run(events).value.status == Running ==> Run(events).value.instance.Some?)
  {
    RunKeeps(events);
  }

  /** CloseService, whatever interruptions, errors and shutdowns come between: while it holds the
      lifecycle mutex it takes three steps, and when it gives the mutex back the instance it found is
      closed, the service has none, and STOPPING and IDLE were told. */
  lemma CloseEffect(events: seq<Event>, more: seq<Event>)
    requires Run(events).Some? && Run(events).value.instance.Some?
    requires Undisturbed(more) && Run(events + [AcquireClose] + more).Some?
    ensures var s0, s := Run(events).value, Run(events + [AcquireClose] + more).value;
            && s0.emitted <= s.emitted
            && (s.owner.Free? <==> |Outcomes(more)| == 3)
            && (s.owner.Free? ==>
                  && s.closings == s0.closings + [s0.instance.value] && s.instance.None? && s.created == s0.created
                  && Told(s.emitted[|s0.emitted|..]) == [Stopping, Idle]
                  && (SetError !in more ==> s.emitted == s0.emitted + [Stopping, Idle] && s.status == Idle))
  {
    hide Run;
    AcquiredFree(events, AcquireClose, more);
    CloseTracks(events, more);
    RunningHas(events + [AcquireClose] + more);
  }

  /** CloseService of a service without an instance tells STOPPING and IDLE when a start was interrupted
      before it, and otherwise nothing; it closes nothing. */
  lemma CloseNothing(events: seq<Event>, more: seq<Event>)
    requires Run(events).Some? && Run(events).value.instance.None?
    requires Undisturbed(more) && Run(events + [AcquireClose] + more).Some?
    ensures var s0, s := Run(events).value, Run(events + [AcquireClose] + more).value;
            && s.closings == s0.closings && s.instance.None? && s.created == s0.created
            && (s.owner.Free? && SetError !in more ==>
                  s.emitted == s0.emitted + if s0.status == Starting then [Stopping, Idle] else [])
  {
    hide Run;
    AcquiredFree(events, AcquireClose, more);
    CloseTracks(events, more);
  }

  /** A mutex that can be taken was free. */
  lemma {:induction false} AcquiredFree(events: seq<Event>, e: Event, more: seq<Event>)
    requires Run(events).Some? && (e.AcquireStart? || e.AcquireClose?) && Run(events + [e] + more).Some?
    ensures Run(events).value.owner.Free?
    decreases |more|
  {
    var all := events + [e] + more;
    if more == [] {
      assert all[..|all| - 1] == events && all[|all| - 1] == e;
    } else {
      assert all[..|all| - 1] == events + [e] + more[..|more| - 1];
      AcquiredFree(events, e, more[..|more| - 1]);
    }
  }

  // ---- StartOrReloadService

  /** Which of its own steps builds the new instance: the old one is detached, closed and announced first. */
  function BuildStep(s0: State): nat { if s0.instance.Some? then 3 else 1 }

  function Farewell(s0: State): seq<Status> { if s0.instance.Some? then [Stopping] else [] }

  /** A StartOrReloadService that got the mutex in s0 and whose steps had the outcomes so far. */
  ghost predicate StartTrack(s0: State, outcomes: seq<bool>, quiet: bool, s: State) {
    var n, b, new_ := |outcomes|, BuildStep(s0), s0.created;
    var told, closed := Farewell(s0) + [Starting], Listed(s0.instance);
    match s.owner
    case StartEnter => n == 0 && Done(s0, s, quiet, [], false, [], 0, s0.instance) && (s0.closed ==> s.closed)
    case StartCloseOld(i) =>
      n == 1 && s0.instance == Some(i) && Done(s0, s, quiet, [Stopping], false, [], 0, None) && !s0.closed
    case StartAnnounce =>
      n == 2 && s0.instance.Some? && Done(s0, s, quiet, [Stopping], false, closed, 0, None) && !s0.closed
    case StartBuild => n == b && Done(s0, s, quiet, told, false, closed, 0, None) && !s0.closed
    case StartBuildFailed =>
      n == b + 1 && !outcomes[b] && Done(s0, s, quiet, told, false, closed, 0, None) && !s0.closed
    case StartStore(i) =>
      n == b + 1 && outcomes[b] && i == new_ && Done(s0, s, quiet, told, false, closed, 1, None) && !s0.closed
    case StartRun(i) =>
      n == b + 2 && outcomes[b] && i == new_ && Done(s0, s, quiet, told, false, closed, 1, Some(i)) && !s0.closed
    case StartDecide(i, ok) =>
      && n == b + 3 && outcomes[b] && ok == outcomes[b + 2] && i == new_
      && Done(s0, s, quiet, told, false, closed, 1, Some(i)) && !s0.closed
    case StartCloseNew(i) =>
      && n == b + 4 && outcomes[b] && i == new_ && (i in s.hit || !outcomes[b + 2])
      && Done(s0, s, quiet, told, i !in s.hit, closed, 1, None) && !s0.closed
    case Free => StartOver(s0, outcomes, quiet, s)
    case _ => false
  }

  /** How a StartOrReloadService ends: refused because the service is closed, with a build error, interrupted
      or with a start error, or with the new instance running. */
  ghost predicate StartOver(s0: State, outcomes: seq<bool>, quiet: bool, s: State) {
    var n, b, new_ := |outcomes|, BuildStep(s0), s0.created;
    var told, closed := Farewell(s0) + [Starting], Listed(s0.instance);
    if n == 1 then s.closed && Done(s0, s, quiet, [], false, [], 0, s0.instance)
    else
      && n >= b + 2 && !s0.closed
      && if !outcomes[b] then n == b + 2 && Done(s0, s, quiet, told, true, closed, 0, None)
         else if n == b + 5 then
           && (new_ in s.hit || !outcomes[b + 2])
           && Done(s0, s, quiet, told, new_ !in s.hit, closed + [new_], 1, None)
         else
           && n == b + 4 && outcomes[b + 2] && new_ !in s.hit && new_ in s.published
           && Done(s0, s, quiet, told + [Running], false, closed, 1, Some(new_))
  }

  lemma StartError(s0: State, outcomes: seq<bool>, quiet: bool, s: State)
    requires StartTrack(s0, outcomes, quiet, s)
    ensures StartTrack(s0, outcomes, false, Emit(s, Fatal))
  {
    hide Done;
    forall told, failed, closings, created, instance | Done(s0, s, quiet, told, failed, closings, created, instance)
      ensures Done(s0, Emit(s, Fatal), false, told, failed, closings, created, instance)
    {
      DoneError(s0, s, quiet, told, failed, closings, created, instance);
    }
  }

  lemma StartFirst(s0: State, quiet: bool, s: State, ok: bool)
    requires StartTrack(s0, [], quiet, s) && s.owner.StartEnter?
    ensures StartTrack(s0, [ok], quiet, Advance(s, ok))
  {
    hide News;
    NewsEmit(s0.emitted, s.emitted, [], Stopping, quiet);
    NewsEmit(s0.emitted, s.emitted, [], Starting, quiet);
    assert [] + [Stopping] == [Stopping] && [] + [Starting] == [Starting];
  }

  lemma StartMiddle(s0: State, outcomes: seq<bool>, quiet: bool, s: State, ok: bool)
    requires StartTrack(s0, outcomes, quiet, s) && !s.owner.Free? && !s.owner.StartEnter? && !s.owner.StartDecide?
    ensures StartTrack(s0, outcomes + [ok], quiet, Advance(s, ok))
  {
    hide News;
    var told := Farewell(s0) + [Starting];
    if s.owner.StartAnnounce? { NewsEmit(s0.emitted, s.emitted, [Stopping], Starting, quiet); }
    if s.owner.StartBuildFailed? { NewsEmit(s0.emitted, s.emitted, told, Fatal, quiet); }
  }

  lemma StartDecided(s0: State, outcomes: seq<bool>, quiet: bool, s: State, ok: bool)
    requires StartTrack(s0, outcomes, quiet, s) && s.owner.StartDecide?
    requires s.interrupted <==> s0.created in s.hit
    ensures StartTrack(s0, outcomes + [ok], quiet, Advance(s, ok))
  {
    hide News;
    var told := Farewell(s0) + [Starting];
    NewsEmit(s0.emitted, s.emitted, told, Fatal, quiet);
    NewsEmit(s0.emitted, s.emitted, told, Running, quiet);
  }

  lemma StartStep(s0: State, outcomes: seq<bool>, quiet: bool, s: State, e: Event)
    requires StartTrack(s0, outcomes, quiet, s) && Enabled(s, e) && Inv(s)
    requires !e.AcquireStart? && !e.AcquireClose?
    ensures StartTrack(s0, outcomes + (if e.Proceed? then [e.ok] else []), quiet && e != SetError, Step(s, e))
  {
    assert outcomes + [] == outcomes;
    match e
    case Proceed(ok) =>
      if s.owner.StartEnter? {
        assert outcomes == [] && [] + [ok] == [ok];
        StartFirst(s0, quiet, s, ok);
      } else if s.owner.StartDecide? {
        StartDecided(s0, outcomes, quiet, s, ok);
      } else {
        StartMiddle(s0, outcomes, quiet, s, ok);
      }
    case SetError => StartError(s0, outcomes, quiet, s);
    case Interrupt => hide Done, Conserved, Phased;
    case Shutdown => hide Done, Inv;
  }

  lemma {:induction false} StartTracks(events: seq<Event>, more: seq<Event>)
    requires Run(events).Some? && Run(events).value.owner.Free? && Undisturbed(more)
    requires Run(events + [AcquireStart] + more).Some?
    ensures StartTrack(Run(events).value, Outcomes(more), SetError !in more,
                       Run(events + [AcquireStart] + more).value)
    decreases |more|
  {
    var s0, base := Run(events).value, events + [AcquireStart];
    hide Run;
    RunNext(events, AcquireStart, s0);
    if more == [] {
      assert base + more == base;
    } else {
      var n := |more| - 1;
      UndisturbedFront(more);
      RunLast(base, more);
      OutcomesLast(more);
      hide StartTrack, Step, Enabled, Undisturbed, Inv, Outcomes;
      StartTracks(events, more[..n]);
      RunningHas(base + more[..n]);
      StartStep(s0, Outcomes(more[..n]), SetError !in more[..n], Run(base + more[..n]).value, more[n]);
    }
  }

  /** StartOrReloadService, whatever interruptions, errors and shutdowns come between. */
  lemma StartEffect(events: seq<Event>, more: seq<Event>)
    requires Run(events).Some? && Undisturbed(more) && Run(events + [AcquireStart] + more).Some?
    ensures var s0, s, outcomes := Run(events).value, Run(events + [AcquireStart] + more).value, Outcomes(more);
            s.owner.Free? ==> StartOver(s0, outcomes, SetError !in more, s)
  {
    hide Run, StartOver;
    AcquiredFree(events, AcquireStart, more);
    StartTracks(events, more);
  }

  /** At every moment of a StartOrReloadService: when STARTING has been announced, the old instance is closed. */
  lemma OldClosedFirst(events: seq<Event>, more: seq<Event>)
    requires Run(events).Some? && Undisturbed(more) && Run(events + [AcquireStart] + more).Some?
    ensures var s0, s := Run(events).value, Run(events + [AcquireStart] + more).value;
            && s0.emitted <= s.emitted
            && (s0.instance.Some? && Starting in s.emitted[|s0.emitted|..] ==> s0.instance.value in s.closings)
  {
    hide Run;
    AcquiredFree(events, AcquireStart, more);
    StartTracks(events, more);
    var s0, s := Run(events).value, Run(events + [AcquireStart] + more).value;
    ToldKeeps(s.emitted[|s0.emitted|..], Starting);
  }

  lemma {:induction false} ToldKeeps(log: seq<Status>, status: Status)
    requires status != Fatal
    ensures status in log <==> status in Told(log)
  {
    if log != [] {
      var n := |log| - 1;
      assert log == log[..n] + [log[n]];
      ToldKeeps(log[..n], status);
    }
  }

  /** Once the service is shut down, no StartOrReloadService does anything any more. */
  lemma ClosedForGood(events: seq<Event>, more: seq<Event>)
    requires Run(events).Some? && Undisturbed(more) && Run(events + [AcquireStart] + more).Some?
    requires Shutdown in events
    ensures var s0, s := Run(events).value, Run(events + [AcquireStart] + more).value;
            && s0.emitted <= s.emitted && Told(s.emitted[|s0.emitted|..]) == []
            && s.closings == s0.closings && s.created == s0.created && s.instance == s0.instance
  {
    StaysClosed(events);
    hide Run;
    AcquiredFree(events, AcquireStart, more);
    StartTracks(events, more);
  }

  lemma {:induction false} StaysClosed(events: seq<Event>)
    requires Run(events).Some? && Shutdown in events
    ensures Run(events).value.closed
  {
    var n := |events| - 1;
    assert events == events[..n] + [events[n]];
    if events[n] != Shutdown { StaysClosed(events[..n]); }
  }

  /** A reported error is emitted at any time, and takes the effect out of an interruption after it. */
  lemma ErrorShown(events: seq<Event>)
    requires Run(events).Some?
    ensures var s := Run(events + [SetError]);
            && s.Some? && s.value.emitted == Run(events).value.emitted + [Fatal]
            && Run(events + [SetError] + [Interrupt]) == s
  {
    hide Run;
    var s := Run(events).value;
    RunNext(events, SetError, s);
    RunNext(events + [SetError], Interrupt, Step(s, SetError));
  }

  // ---- the service object

  /** The fields of StartedService; each method is one critical section of the service mutex or one
      call made between two of them. */
  class StartedService {
    var closed: bool
    var interrupted: bool
    var status: Status
    var instance: Option<nat>
    var owner: Owner
    var created: nat
    ghost var closings: seq<nat>
    ghost var emitted: seq<Status>
    ghost var published: set<nat>
    ghost var hit: set<nat>

    ghost function View(): State
      reads this
    {
      State(owner, closed, interrupted, status, instance, created, closings, emitted, published, hit)
    }

    constructor ()
      ensures View() == Init && Inv(View())
    {
      closed, interrupted, status, instance, owner, created := false, false, Idle, None, Free, 0;
      closings, emitted, published, hit := [], [], {}, {};
    }

    method UpdateStatus(status': Status)
      modifies this
      ensures View() == Emit(old(View()), status')
    {
      emitted := emitted + [status'];
      status := status';
    }

    method DoInterruptStart()
      requires Inv(View())
      modifies this
      ensures View() == Step(old(View()), Interrupt) && Inv(View())
    {
      StepKeeps(View(), Interrupt);
      if status == Starting && instance.Some? {
        interrupted := true;
        hit := hit + {instance.value};
      }
    }

    method DoSetError()
      requires Inv(View())
      modifies this
      ensures View() == Step(old(View()), SetError) && Inv(View())
    {
      StepKeeps(View(), SetError);
      UpdateStatus(Fatal);
    }

    /** The first section of StartOrReloadService. */
    method DoEnterStart()
      requires Inv(View()) && owner.StartEnter?
      modifies this
      ensures View() == Step(old(View()), Proceed(true)) && Inv(View())
    {
      hide Inv;
      StepKeeps(View(), Proceed(true));
      if closed {
        owner := Free;
        return;
      }
      if instance.Some? {
        owner := StartCloseOld(instance.value);
        instance := None;
        UpdateStatus(Stopping);
        return;
      }
      interrupted := false;
      UpdateStatus(Starting);
      owner := StartBuild;
    }

    /** The last section of StartOrReloadService, after instance.Start returned. */
    method DoDecide(i: nat, ok: bool)
      requires Inv(View()) && owner == StartDecide(i, ok)
      modifies this
      ensures View() == Step(old(View()), Proceed(ok)) && Inv(View())
    {
      hide Inv;
      StepKeeps(View(), Proceed(ok));
      if interrupted {
        interrupted := false;
        instance := None;
        owner := StartCloseNew(i);
        return;
      }
      if !ok {
        instance := None;
        UpdateStatus(Fatal);
        owner := StartCloseNew(i);
        return;
      }
      UpdateStatus(Running);
      published := published + {i};
      owner := Free;
    }

    /** The first section of CloseService. */
    method DoEnterClose()
      requires Inv(View()) && owner.CloseEnter?
      modifies this
      ensures View() == Step(old(View()), Proceed(true)) && Inv(View())
    {
      hide Inv;
      StepKeeps(View(), Proceed(true));
      var target := instance;
      if target.None? && status != Starting && status != Running {
        owner := Free;
        return;
      }
      instance := None;
      UpdateStatus(Stopping);
      owner := CloseInstance(target);
    }
  }
}
