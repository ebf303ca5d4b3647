/**
  Starting, stopping and shutting down a live meeting (desktop/forum-shell/src/runtime.rs).

  User threads call start, stop and begin_shutdown; one worker thread drains a bounded command
  queue and owns at most one meeting. Each step is one lock region, one atomic access, one
  channel operation or one call into the owned dispatcher, whose outcome is left open.
 */
module RuntimeStop {
  import opened Common

  type StopId = nat
  type StartId = nat

  const QUEUE_CAPACITY := 16

  /** A start call, with the stop generation it read and, as history, the stops that had returned by then. */
  datatype StartCall = StartCall(id: StartId, generation: nat, returnedStops: set<StopId>)

  datatype Command = Start(call: StartCall) | Stop(stop: StopId)

  /** Why a meeting entered its stopping phase or why the capture flag is up. */
  datatype Cause = ByStop(stop: StopId) | ByShutdown | Internal

  datatype Meeting = Meeting(call: StartCall, stopping: bool, causes: set<Cause>)

  datatype Worker =
    | Top                              // before looking at the shutdown channel
    | Commands                         // draining the command queue
    | CheckGeneration(call: StartCall) // before the generation lock region
    | Admitting(call: StartCall)       // repository and resource permit
    | CheckFlag(call: StartCall)       // before reloading the capture flag
    | Creating(call: StartCall)        // host, controller, dispatcher start
    | StartFailed(call: StartCall)     // dispatcher start reported an error, cleanup due
    | Watch                            // before the capture flag check of the body
    | Supervise                        // health, errors, timeouts
    | Cleanup                          // before the bounded cleanup attempt
    | Bottom                           // before the exit test
    | Finished

  /** What start and stop share under the generation lock, with the flag the worker also polls. */
  datatype Signal = Signal(
    generation: nat,
    flag: bool,                        // capture_stop_requested
    flagBy: set<Cause>,                // who raised the flag since it was last cleared
    watched: bool)                     // the worker checked the flag since the last stop

  /** User calls in progress. */
  datatype Calls = Calls(
    starting: set<StartCall>,          // start calls that read the generation but have not sent
    bumpedTo: map<StopId, nat>,        // stop calls whose lock region ran, with the generation it left
    returned: set<StopId>,             // stop calls that returned
    nextStart: StartId)

  /** What the worker owns. */
  datatype Owned = Owned(
    active: Option<Meeting>,
    started: set<StartId>,             // dispatchers whose start was attempted
    cleaned: set<StartId>)             // dispatchers whose cleanup succeeded

  datatype State = State(
    signal: Signal,
    calls: Calls,
    queue: seq<Command>,
    token: bool,                       // shutdown channel holds a message
    exiting: bool,
    worker: Worker,
    owned: Owned,
    contained: bool)

  const INITIAL := State(Signal(0, false, {}, true), Calls({}, map[], {}, 0), [], false, false, Top, Owned(None, {}, {}), false)

  datatype Action =
    | StartRead
    | StartSend(call: StartCall)
    | StopRegion(stop: StopId)
    | StopSend(stop: StopId)
    | ShutdownFlag
    | ShutdownSend
    | WorkerTop
    | WorkerCommand
    | WorkerCheckGeneration
    | WorkerAdmit(ok: bool)
    | WorkerCheckFlag
    | WorkerCreate(created: bool, ran: bool)
    | WorkerStartFailed(cleanup: bool)
    | WorkerWatch
    | WorkerSupervise(failed: bool)
    | WorkerCleanup(attempt: bool, ok: bool)
    | WorkerBottom

  predicate Finished(s: State) { s.worker.Finished? }

  // ----- Lock regions -----

  /** stop: one generation up and the flag raised, under the generation lock. */
  function RaiseStop(g: Signal, stop: StopId): Signal {
    Signal(g.generation + 1, true, g.flagBy + {ByStop(stop)}, false)
  }

  /** The worker's half of the same lock: a start that a stop overtook is refused, else the flag is lowered. */
  predicate Overtaken(g: Signal, call: StartCall) {
    g.generation != call.generation
  }

  function LowerFlag(g: Signal): Signal {
    g.(flag := false, flagBy := {})
  }

  function RequestStop(m: Meeting, causes: set<Cause>): Meeting {
    if m.stopping then m else m.(stopping := true, causes := causes)
  }

  // ----- Steps -----

  function Offer(s: State, command: Command): seq<Command> {
    if Finished(s) || |s.queue| >= QUEUE_CAPACITY then s.queue else s.queue + [command]
  }

  function UserNext(s: State, a: Action): Option<State> {
    var c := s.calls;
    match a
    case StartRead =>
      var call := StartCall(c.nextStart, s.signal.generation, c.returned);
      Some(s.(calls := c.(starting := c.starting + {call}, nextStart := c.nextStart + 1)))
    case StartSend(call) =>
      if call !in c.starting then None
      else Some(s.(calls := c.(starting := c.starting - {call}), queue := Offer(s, Start(call))))
    case StopRegion(stop) =>
      if stop in c.bumpedTo then None
      else
        var g := RaiseStop(s.signal, stop);
        Some(s.(calls := c.(bumpedTo := c.bumpedTo[stop := g.generation]), signal := g))
    case StopSend(stop) =>
      if stop !in c.bumpedTo || stop in c.returned then None
      else Some(s.(calls := c.(returned := c.returned + {stop}), queue := Offer(s, Stop(stop))))
    case ShutdownFlag => Some(s.(signal := s.signal.(flag := true, flagBy := s.signal.flagBy + {ByShutdown})))
    case ShutdownSend => Some(s.(token := s.token || !Finished(s)))
    case _ => None
  }

  function StopActive(o: Owned, causes: set<Cause>): Owned {
    if o.active.None? then o else o.(active := Some(RequestStop(o.active.value, causes)))
  }

  /** Draining the queue, and bringing one meeting up. */
  function LaunchNext(s: State, a: Action): Option<State> {
    var w := s.worker;
    match a
    case WorkerCommand =>
      if !w.Commands? then None
      else if s.queue == [] then Some(s.(worker := Watch))
      else
        var rest := s.queue[1..];
        (match s.queue[0]
         case Start(call) =>
           Some(s.(queue := rest, worker := if s.exiting || s.owned.active.Some? then w else CheckGeneration(call)))
         case Stop(stop) => Some(s.(queue := rest, owned := StopActive(s.owned, {ByStop(stop)}))))
    case WorkerCheckGeneration =>
      if !w.CheckGeneration? then None
      else if Overtaken(s.signal, w.call) then Some(s.(worker := Commands))
      else Some(s.(worker := Admitting(w.call), signal := LowerFlag(s.signal)))
    case WorkerAdmit(ok) =>
      if w.Admitting? then Some(s.(worker := if ok then CheckFlag(w.call) else Commands)) else None
    case WorkerCheckFlag =>
      if w.CheckFlag? then Some(s.(worker := if s.signal.flag then Commands else Creating(w.call))) else None
    case WorkerCreate(created, ran) =>
      if !w.Creating? then None
      else if !created then Some(s.(worker := Commands))
      else
        var o := s.owned.(started := s.owned.started + {w.call.id});
        if ran then Some(s.(worker := Commands, owned := o.(active := Some(Meeting(w.call, false, {})))))
        else Some(s.(worker := StartFailed(w.call), owned := o))
    case WorkerStartFailed(cleanup) =>
      if !w.StartFailed? then None
      else if cleanup then Some(s.(worker := Commands, owned := s.owned.(cleaned := s.owned.cleaned + {w.call.id})))
      else Some(s.(worker := Commands, owned := s.owned.(active := Some(Meeting(w.call, false, {})))))
    case _ => None
  }

  /** The rest of one pass over the meeting at hand. */
  function PassNext(s: State, a: Action): Option<State> {
    var w := s.worker;
    match a
    case WorkerTop =>
      if !w.Top? then None
      else if !s.token then Some(s.(worker := Commands))
      else Some(s.(worker := Commands, token := false, exiting := true, owned := StopActive(s.owned, {ByShutdown})))
    case WorkerWatch =>
      if !w.Watch? then None
      else
        var o := if s.signal.flag then StopActive(s.owned, s.signal.flagBy) else s.owned;
        Some(s.(worker := Supervise, signal := s.signal.(watched := true), owned := o))
    case WorkerSupervise(failed) =>
      if !w.Supervise? then None
      else Some(s.(worker := Cleanup, owned := if failed then StopActive(s.owned, {Internal}) else s.owned))
    case WorkerCleanup(attempt, ok) =>
      if !w.Cleanup? then None
      else if attempt && ok && s.owned.active.Some? && s.owned.active.value.stopping then
        Some(s.(worker := Bottom,
                owned := s.owned.(active := None, cleaned := s.owned.cleaned + {s.owned.active.value.call.id})))
      else Some(s.(worker := Bottom))
    case WorkerBottom =>
      if !w.Bottom? then None
      else if s.exiting && s.owned.active.None? then Some(s.(worker := Worker.Finished, contained := true))
      else Some(s.(worker := Top))
    case _ => None
  }

  predicate IsUser(a: Action) {
    a.StartRead? || a.StartSend? || a.StopRegion? || a.StopSend? || a.ShutdownFlag? || a.ShutdownSend?
  }

  predicate IsPass(a: Action) {
    a.WorkerTop? || a.WorkerWatch? || a.WorkerSupervise? || a.WorkerCleanup? || a.WorkerBottom?
  }

  function Next(s: State, a: Action): Option<State> {
    if IsUser(a) then UserNext(s, a) else if IsPass(a) then PassNext(s, a) else LaunchNext(s, a)
  }

  function Run(s: State, schedule: seq<Action>): Option<State> {
    if schedule == [] then Some(s)
    else
      var before := Run(s, schedule[..|schedule| - 1]);
      if before.None? then None else Next(before.value, schedule[|schedule| - 1])
  }

  ghost predicate Reachable(s: State) {
    exists schedule :: Run(INITIAL, schedule) == Some(s)
  }

  // ----- The invariant -----

  /** The start the worker is bringing up, past its generation check. */
  function Launching(w: Worker): Option<StartCall> {
    if w.Admitting? || w.CheckFlag? || w.Creating? || w.StartFailed? then Some(w.call) else None
  }

  /** No stop that had returned before the start was called is among the causes. */
  ghost predicate Innocent(call: StartCall, causes: set<Cause>) {
    forall stop :: stop in call.returnedStops ==> ByStop(stop) !in causes
  }

  /** A start call in progress: the stops that had returned by then had raised no later generation. */
  ghost predicate KnownCall(generation: nat, c: Calls, call: StartCall) {
    && call.generation <= generation
    && call.returnedStops <= c.returned
    && (forall stop :: stop in call.returnedStops && stop in c.bumpedTo ==> c.bumpedTo[stop] <= call.generation)
  }

  /** The start the worker has taken off the queue and not given up. */
  function CurrentCall(s: State): Option<StartCall> {
    if s.owned.active.Some? then Some(s.owned.active.value.call)
    else if s.worker.CheckGeneration? then Some(s.worker.call)
    else Launching(s.worker)
  }

  ghost predicate CallsKnown(s: State) {
    && s.calls.returned <= s.calls.bumpedTo.Keys
    && (forall stop :: stop in s.calls.bumpedTo ==> s.calls.bumpedTo[stop] <= s.signal.generation)
    && (forall call :: call in s.calls.starting ==> KnownCall(s.signal.generation, s.calls, call))
    && (forall i :: 0 <= i < |s.queue| && s.queue[i].Start? ==> KnownCall(s.signal.generation, s.calls, s.queue[i].call))
    && (CurrentCall(s).Some? ==> KnownCall(s.signal.generation, s.calls, CurrentCall(s).value))
  }

  /** A queued stop message had not returned when any start ahead of it was called. */
  ghost predicate MessagesInOrder(s: State) {
    && (forall i, j :: 0 <= i < j < |s.queue| && s.queue[i].Start? && s.queue[j].Stop? ==>
          s.queue[j].stop !in s.queue[i].call.returnedStops)
    && (forall j :: 0 <= j < |s.queue| && s.queue[j].Stop? && CurrentCall(s).Some? ==>
          s.queue[j].stop !in CurrentCall(s).value.returnedStops)
  }

  ghost predicate StopNotLost(s: State) {
    && (Launching(s.worker).Some? && Overtaken(s.signal, s.worker.call) ==> s.signal.flag && !s.signal.watched)
    && (s.owned.active.Some? && Overtaken(s.signal, s.owned.active.value.call) ==>
          s.owned.active.value.stopping || (s.signal.flag && !s.signal.watched))
  }

  ghost predicate CausesInnocent(s: State) {
    && (forall stop :: ByStop(stop) in s.signal.flagBy ==> stop in s.calls.bumpedTo)
    && (s.signal.flag <==> s.signal.flagBy != {})
    && (Launching(s.worker).Some? ==> Innocent(s.worker.call, s.signal.flagBy))
    && (s.owned.active.Some? ==>
          && Innocent(s.owned.active.value.call, s.signal.flagBy)
          && Innocent(s.owned.active.value.call, s.owned.active.value.causes)
          && (s.owned.active.value.stopping ==> s.owned.active.value.causes != {}))
  }

  /** While a start is being brought up there is no other meeting. */
  ghost predicate Exclusive(s: State) {
    s.worker.CheckGeneration? || Launching(s.worker).Some? ==> s.owned.active.None?
  }

  /** Every dispatcher that was started is cleaned up or owned by the one meeting at hand. */
  ghost predicate OneOwner(s: State) {
    && (forall id :: id in s.owned.started && id !in s.owned.cleaned ==>
          CurrentCall(s).Some? && CurrentCall(s).value.id == id && (s.owned.active.Some? || s.worker.StartFailed?))
    && (s.contained <==> s.worker.Finished?)
    && (s.worker.Finished? ==> s.exiting && s.owned.active.None?)
  }

  /** Once the worker has taken the shutdown message it brings nothing up, and its meeting is stopping. */
  ghost predicate ExitingInv(s: State) {
    && |s.queue| <= QUEUE_CAPACITY
    && (s.exiting ==> !s.worker.CheckGeneration? && Launching(s.worker).None?)
    && (s.exiting && s.owned.active.Some? ==> s.owned.active.value.stopping)
  }

  ghost predicate Inv(s: State) {
    CallsKnown(s) && MessagesInOrder(s) && StopNotLost(s) && CausesInnocent(s) && Exclusive(s) && OneOwner(s) && ExitingInv(s)
  }

  lemma UserKeepsCalls(s: State, a: Action)
    requires CallsKnown(s) && UserNext(s, a).Some?
    ensures CallsKnown(UserNext(s, a).value)
  {
  }

  lemma CommandKeepsCalls(s: State)
    requires CallsKnown(s) && Exclusive(s) && s.worker.Commands?
    ensures CallsKnown(LaunchNext(s, WorkerCommand).value)
  {
    var t := LaunchNext(s, WorkerCommand).value;
    if t.queue != s.queue {
      assert forall i :: 0 <= i < |t.queue| ==> t.queue[i] == s.queue[i + 1];
    }
  }

  /** The calls and the queue stay, and the call at hand is the same or none. */
  lemma SameCallKeepsCalls(s: State, t: State)
    requires CallsKnown(s) && t.calls == s.calls && t.queue == s.queue && t.signal.generation == s.signal.generation
    requires CurrentCall(t).None? || CurrentCall(t) == CurrentCall(s)
    ensures CallsKnown(t)
  {
  }

  lemma LaunchKeepsCalls(s: State, a: Action)
    requires CallsKnown(s) && Exclusive(s) && LaunchNext(s, a).Some?
    ensures CallsKnown(LaunchNext(s, a).value)
  {
    if a.WorkerCommand? {
      CommandKeepsCalls(s);
    } else {
      SameCallKeepsCalls(s, LaunchNext(s, a).value);
    }
  }

  lemma PassKeepsCalls(s: State, a: Action)
    requires CallsKnown(s) && Exclusive(s) && PassNext(s, a).Some?
    ensures CallsKnown(PassNext(s, a).value)
  {
  }

  lemma UserKeepsMessages(s: State, a: Action)
    requires CallsKnown(s) && MessagesInOrder(s) && UserNext(s, a).Some?
    ensures MessagesInOrder(UserNext(s, a).value)
  {
  }

  lemma CommandKeepsMessages(s: State)
    requires MessagesInOrder(s) && Exclusive(s) && s.worker.Commands?
    ensures MessagesInOrder(LaunchNext(s, WorkerCommand).value)
  {
    var t := LaunchNext(s, WorkerCommand).value;
    if s.queue != [] {
      assert forall i :: 0 <= i < |t.queue| ==> t.queue[i] == s.queue[i + 1];
    }
  }

  /** The queue stays, and the call at hand is the same or none. */
  lemma SameCallKeepsMessages(s: State, t: State)
    requires MessagesInOrder(s) && t.queue == s.queue && (CurrentCall(t).None? || CurrentCall(t) == CurrentCall(s))
    ensures MessagesInOrder(t)
  {
  }

  lemma LaunchKeepsMessages(s: State, a: Action)
    requires MessagesInOrder(s) && Exclusive(s) && LaunchNext(s, a).Some?
    ensures MessagesInOrder(LaunchNext(s, a).value)
  {
    if a.WorkerCommand? {
      CommandKeepsMessages(s);
    } else {
      var t := LaunchNext(s, a).value;
      SameCallKeepsMessages(s, t);
    }
  }

  lemma PassKeepsMessages(s: State, a: Action)
    requires MessagesInOrder(s) && Exclusive(s) && PassNext(s, a).Some?
    ensures MessagesInOrder(PassNext(s, a).value)
  {
  }

  lemma UserKeepsStops(s: State, a: Action)
    requires StopNotLost(s) && UserNext(s, a).Some?
    ensures StopNotLost(UserNext(s, a).value)
  {
  }

  lemma LaunchKeepsStops(s: State, a: Action)
    requires StopNotLost(s) && Exclusive(s) && LaunchNext(s, a).Some?
    ensures StopNotLost(LaunchNext(s, a).value)
  {
  }

  lemma PassKeepsStops(s: State, a: Action)
    requires StopNotLost(s) && Exclusive(s) && PassNext(s, a).Some?
    ensures StopNotLost(PassNext(s, a).value)
  {
  }

  lemma StepKeepsStops(s: State, a: Action)
    requires StopNotLost(s) && Exclusive(s) && Next(s, a).Some?
    ensures StopNotLost(Next(s, a).value)
  {
    if IsUser(a) {
      UserKeepsStops(s, a);
    } else if IsPass(a) {
      PassKeepsStops(s, a);
    } else {
      LaunchKeepsStops(s, a);
    }
  }

  lemma UserKeepsCauses(s: State, a: Action)
    requires CallsKnown(s) && CausesInnocent(s) && Exclusive(s) && UserNext(s, a).Some?
    ensures CausesInnocent(UserNext(s, a).value)
  {
  }

  lemma LaunchKeepsCauses(s: State, a: Action)
    requires MessagesInOrder(s) && CausesInnocent(s) && Exclusive(s) && LaunchNext(s, a).Some?
    ensures CausesInnocent(LaunchNext(s, a).value)
  {
    if a.WorkerCommand? {
      CommandKeepsCauses(s);
    }
  }

  lemma CommandKeepsCauses(s: State)
    requires MessagesInOrder(s) && CausesInnocent(s) && Exclusive(s) && s.worker.Commands?
    ensures CausesInnocent(LaunchNext(s, WorkerCommand).value)
  {
  }

  lemma PassKeepsCauses(s: State, a: Action)
    requires CausesInnocent(s) && Exclusive(s) && PassNext(s, a).Some?
    ensures CausesInnocent(PassNext(s, a).value)
  {
  }

  lemma LaunchKeepsOwner(s: State, a: Action)
    requires Exclusive(s) && OneOwner(s) && LaunchNext(s, a).Some?
    ensures Exclusive(LaunchNext(s, a).value) && OneOwner(LaunchNext(s, a).value)
  {
  }

  lemma PassKeepsOwner(s: State, a: Action)
    requires Exclusive(s) && OneOwner(s) && PassNext(s, a).Some?
    ensures Exclusive(PassNext(s, a).value) && OneOwner(PassNext(s, a).value)
  {
  }

  lemma StepKeepsOwner(s: State, a: Action)
    requires Exclusive(s) && OneOwner(s) && Next(s, a).Some?
    ensures Exclusive(Next(s, a).value) && OneOwner(Next(s, a).value)
  {
    if IsPass(a) {
      PassKeepsOwner(s, a);
    } else if !IsUser(a) {
      LaunchKeepsOwner(s, a);
    }
  }

  lemma StepKeepsExiting(s: State, a: Action)
    requires ExitingInv(s) && Next(s, a).Some?
    ensures ExitingInv(Next(s, a).value)
  {
  }

  lemma StepKeepsInv(s: State, a: Action)
    requires Inv(s) && Next(s, a).Some?
    ensures Inv(Next(s, a).value)
  {
    StepKeepsExiting(s, a);
    StepKeepsStops(s, a);
    StepKeepsOwner(s, a);
    if IsUser(a) {
      UserKeepsCalls(s, a);
      UserKeepsMessages(s, a);
      UserKeepsCauses(s, a);
    } else {
      if IsPass(a) {
        PassKeepsCauses(s, a);
        PassKeepsCalls(s, a);
        PassKeepsMessages(s, a);
      } else {
        LaunchKeepsCauses(s, a);
        LaunchKeepsCalls(s, a);
        LaunchKeepsMessages(s, a);
      }
    }
  }

  lemma {:induction false} RunKeepsInv(s: State, schedule: seq<Action>)
    requires Inv(s) && Run(s, schedule).Some?
    ensures Inv(Run(s, schedule).value)
  {
    if schedule != [] {
      RunKeepsInv(s, schedule[..|schedule| - 1]);
      StepKeepsInv(Run(s, schedule[..|schedule| - 1]).value, schedule[|schedule| - 1]);
    }
  }

  lemma ReachableKeepsInv(s: State)
    requires Reachable(s)
    ensures Inv(s)
  {
    var schedule :| Run(INITIAL, schedule) == Some(s);
    RunKeepsInv(INITIAL, schedule);
  }

  // ----- A stop is never lost -----

  /** This start can no longer run: it is not being brought up, and if its meeting exists it is stopping. */
  ghost predicate Halted(s: State, call: StartCall) {
    && Overtaken(s.signal, call) && call.generation <= s.signal.generation
    && Launching(s.worker) != Some(call)
    && (s.owned.active.Some? && s.owned.active.value.call == call ==> s.owned.active.value.stopping)
  }

  lemma HaltedStep(s: State, a: Action, call: StartCall)
    requires Halted(s, call) && Next(s, a).Some?
    ensures Halted(Next(s, a).value, call)
  {
  }

  lemma {:induction false} HaltedRun(s: State, schedule: seq<Action>, call: StartCall)
    requires Halted(s, call) && Run(s, schedule).Some?
    ensures Halted(Run(s, schedule).value, call)
  {
    if schedule != [] {
      HaltedRun(s, schedule[..|schedule| - 1], call);
      HaltedStep(Run(s, schedule[..|schedule| - 1]).value, schedule[|schedule| - 1], call);
    }
  }

  /** The worker's flag check halts every start that a stop has overtaken. */
  lemma WatchHalts(s: State, call: StartCall)
    requires Inv(s) && s.worker.Watch?
    requires Overtaken(s.signal, call) && call.generation <= s.signal.generation
    ensures Halted(PassNext(s, WorkerWatch).value, call)
  {
  }

  lemma GenerationsGrow(s: State, a: Action)
    requires Next(s, a).Some?
    ensures s.signal.generation <= Next(s, a).value.signal.generation
  {
  }

  lemma OvertakenStep(s: State, a: Action, call: StartCall)
    requires Inv(s) && Overtaken(s.signal, call) && call.generation < s.signal.generation && Next(s, a).Some?
    ensures call.generation < Next(s, a).value.signal.generation
    ensures a.WorkerWatch? || Halted(s, call) ==> Halted(Next(s, a).value, call)
  {
    GenerationsGrow(s, a);
    if Halted(s, call) {
      HaltedStep(s, a, call);
    } else if a.WorkerWatch? {
      WatchHalts(s, call);
    }
  }

  lemma {:induction false} OvertakenUntilWatch(s: State, schedule: seq<Action>, call: StartCall)
    requires Inv(s) && call.generation < s.signal.generation
    requires Run(s, schedule).Some?
    ensures call.generation < Run(s, schedule).value.signal.generation
    ensures WorkerWatch in schedule ==> Halted(Run(s, schedule).value, call)
  {
    if schedule != [] {
      var before, last := schedule[..|schedule| - 1], schedule[|schedule| - 1];
      OvertakenUntilWatch(s, before, call);
      RunKeepsInv(s, before);
      OvertakenStep(Run(s, before).value, last, call);
      assert WorkerWatch in schedule ==> WorkerWatch in before || last == WorkerWatch;
    }
  }

  /**
    A stop whose lock region follows a start's generation read halts that start for good: from
    the worker's next flag check on, the start is refused or its meeting is stopping. Nothing
    here needs the stop message, which a full queue drops.
   */
  lemma StopIsNeverLost(s: State, stop: StopId, call: StartCall, schedule: seq<Action>)
    requires Reachable(s) && call.generation <= s.signal.generation
    requires Next(s, StopRegion(stop)).Some?
    requires Run(Next(s, StopRegion(stop)).value, schedule).Some? && WorkerWatch in schedule
    ensures Halted(Run(Next(s, StopRegion(stop)).value, schedule).value, call)
  {
    ReachableKeepsInv(s);
    StepKeepsInv(s, StopRegion(stop));
    OvertakenUntilWatch(Next(s, StopRegion(stop)).value, schedule, call);
  }

  /** A start that is overtaken before the worker admits it is never brought up at all. */
  lemma OvertakenStartIsRefused(s: State, schedule: seq<Action>, call: StartCall)
    requires Overtaken(s.signal, call) && call.generation <= s.signal.generation
    requires Launching(s.worker) != Some(call) && (s.owned.active.Some? ==> s.owned.active.value.call != call)
    requires Run(s, schedule).Some?
    ensures Halted(Run(s, schedule).value, call)
  {
    HaltedRun(s, schedule, call);
  }

  // ----- Shutdown comes to an end -----

  /** A step of the worker that lets the meeting go if it is stopping: the cleanup it attempts succeeds. */
  predicate OwnStep(a: Action) {
    !IsUser(a) && (a.WorkerCleanup? ==> a.attempt && a.ok)
  }

  /** What the worker does next. */
  function OwnNext(w: Worker): Action {
    match w
    case Top => WorkerTop
    case Commands => WorkerCommand
    case CheckGeneration(_) => WorkerCheckGeneration
    case Admitting(_) => WorkerAdmit(true)
    case CheckFlag(_) => WorkerCheckFlag
    case Creating(_) => WorkerCreate(true, true)
    case StartFailed(_) => WorkerStartFailed(true)
    case Watch => WorkerWatch
    case Supervise => WorkerSupervise(false)
    case Cleanup => WorkerCleanup(true, true)
    case _ => WorkerBottom
  }

  /** At most how many steps are left of this pass: a queued start takes up to seven. */
  function PassRank(w: Worker, queued: nat): nat {
    match w
    case Top => 7 * queued + 6
    case Commands => 7 * queued + 5
    case CheckGeneration(_) => 7 * queued + 10
    case Admitting(_) => 7 * queued + 9
    case CheckFlag(_) => 7 * queued + 8
    case Creating(_) => 7 * queued + 7
    case StartFailed(_) => 7 * queued + 6
    case Watch => 7 * queued + 4
    case Supervise => 7 * queued + 3
    case Cleanup => 7 * queued + 2
    case Bottom => 7 * queued + 1
    case Finished => 0
  }

  /** And until it has finished: it takes the shutdown message at the head of a pass, and the pass that cleans up is the last. */
  function Rank(s: State): nat {
    var again := 7 * |s.queue| + 6;
    PassRank(s.worker, |s.queue|)
    + if Finished(s) || s.worker.Top? then 0
      else if !s.exiting || (s.worker.Bottom? && s.owned.active.Some?) then again
      else 0
  }

  lemma OwnLaunchStep(s: State, a: Action)
    requires ExitingInv(s) && LaunchNext(s, a).Some?
    ensures Rank(LaunchNext(s, a).value) < Rank(s) && LaunchNext(s, a).value.token == s.token
    ensures LaunchNext(s, a).value.exiting == s.exiting
  {
  }

  lemma OwnPassStep(s: State, a: Action)
    requires ExitingInv(s) && OneOwner(s) && (s.token || s.exiting) && OwnStep(a) && PassNext(s, a).Some?
    ensures Rank(PassNext(s, a).value) < Rank(s) && (PassNext(s, a).value.token || PassNext(s, a).value.exiting)
  {
  }

  lemma OwnNextIsPossible(s: State)
    requires !Finished(s)
    ensures OwnStep(OwnNext(s.worker)) && Next(s, OwnNext(s.worker)).Some?
  {
  }

  lemma {:induction false} OwnRun(s: State, schedule: seq<Action>)
    requires Inv(s) && (s.token || s.exiting) && Run(s, schedule).Some? && forall i :: 0 <= i < |schedule| ==> OwnStep(schedule[i])
    ensures var t := Run(s, schedule).value; Inv(t) && (t.token || t.exiting) && |schedule| + Rank(t) <= Rank(s)
  {
    if schedule != [] {
      var before, a := schedule[..|schedule| - 1], schedule[|schedule| - 1];
      OwnRun(s, before);
      var t := Run(s, before).value;
      StepKeepsInv(t, a);
      if IsPass(a) {
        OwnPassStep(t, a);
      } else {
        OwnLaunchStep(t, a);
      }
    }
  }

  /**
    A shutdown comes to its end. Once its message is in the channel, however the worker's calls turn
    out, as long as what it cleans up is cleaned up: it can always take a step of its own until it
    has finished, and it takes no more than 245 of them. Then everything it started is cleaned up.
   */
  lemma ShutdownComes(s: State, schedule: seq<Action>)
    requires Reachable(s) && (s.token || s.exiting)
    requires Run(s, schedule).Some? && forall i :: 0 <= i < |schedule| ==> OwnStep(schedule[i])
    ensures |schedule| <= 245
    ensures
      var t := Run(s, schedule).value;
      if Finished(t) then t.contained && t.owned.started <= t.owned.cleaned
      else OwnStep(OwnNext(t.worker)) && Next(t, OwnNext(t.worker)).Some?
  {
    ReachableKeepsInv(s);
    OwnRun(s, schedule);
    var t := Run(s, schedule).value;
    if !Finished(t) {
      OwnNextIsPossible(t);
    }
  }

  // ----- A stop never hits a later start -----

  /** A stop that had returned before a start was called is never why that start's meeting stops. */
  lemma EarlierStopNeverHits(s: State, stop: StopId)
    requires Reachable(s) && s.owned.active.Some? && s.owned.active.value.stopping
    requires stop in s.owned.active.value.call.returnedStops
    ensures s.owned.active.value.causes != {} && ByStop(stop) !in s.owned.active.value.causes
  {
    ReachableKeepsInv(s);
  }

  /** Nor is it why the start is refused by either check: the generation was raised, or the flag, by someone else. */
  lemma EarlierStopNeverRefuses(s: State, stop: StopId)
    requires Reachable(s) && (s.worker.CheckGeneration? || s.worker.CheckFlag?)
    requires stop in s.worker.call.returnedStops
    ensures s.worker.CheckFlag? && s.signal.flag ==> s.signal.flagBy != {} && ByStop(stop) !in s.signal.flagBy
    ensures s.worker.CheckGeneration? && Overtaken(s.signal, s.worker.call) ==>
              stop in s.calls.bumpedTo && s.calls.bumpedTo[stop] <= s.worker.call.generation < s.signal.generation
  {
    ReachableKeepsInv(s);
  }

  // ----- One meeting, cleaned up before it goes -----

  /**
    Every dispatcher ever started is cleaned up, or is the one meeting the worker holds; the
    reported containment means none is left.
   */
  lemma DispatchersAreOwned(s: State, id: StartId)
    requires Reachable(s) && id in s.owned.started
    ensures id in s.owned.cleaned || (CurrentCall(s).Some? && CurrentCall(s).value.id == id)
    ensures s.contained ==> id in s.owned.cleaned
  {
    ReachableKeepsInv(s);
  }

  /** A step that lets go of a started meeting is a successful cleanup of it. */
  lemma DroppedOnlyAfterCleanup(s: State, a: Action, m: Meeting)
    requires Reachable(s) && Next(s, a).Some? && s.owned.active == Some(m)
    ensures var t := Next(s, a).value;
            || (t.owned.active.Some? && t.owned.active.value.call == m.call)
            || (a == WorkerCleanup(true, true) && m.stopping && m.call.id in t.owned.cleaned)
  {
    ReachableKeepsInv(s);
  }

  lemma ContainedStep(s: State, a: Action)
    requires Inv(s) && s.contained && Next(s, a).Some?
    ensures Next(s, a).value.contained && Next(s, a).value.owned == s.owned
  {
    StepKeepsInv(s, a);
  }

  /** Once `shutdown_complete` can read containment, nothing is owned and nothing will be started again. */
  lemma {:induction false} ShutdownCompleteIsFinal(s: State, schedule: seq<Action>)
    requires Reachable(s) && s.contained && Run(s, schedule).Some?
    ensures Run(s, schedule).value.contained && Run(s, schedule).value.owned == s.owned
    ensures s.owned.started <= s.owned.cleaned
  {
    ReachableKeepsInv(s);
    if schedule != [] {
      ShutdownCompleteIsFinal(s, schedule[..|schedule| - 1]);
      RunKeepsInv(s, schedule[..|schedule| - 1]);
      ContainedStep(Run(s, schedule[..|schedule| - 1]).value, schedule[|schedule| - 1]);
    }
  }

  // ----- Calls and passes, step by step -----

  /** The schedule leads from `s` to `t`. The quantifier keeps `Run` folded where only this is needed. */
  ghost predicate Leads(s: State, schedule: seq<Action>, t: State) {
    forall steps :: steps == schedule ==> Run(s, steps) == Some(t)
  }

  lemma LeadsSelf(s: State)
    ensures Leads(s, [], s)
  {
  }

  lemma Then(s: State, schedule: seq<Action>, t: State, a: Action, u: State) returns (longer: seq<Action>)
    requires Leads(s, schedule, t) && Next(t, a) == Some(u)
    ensures longer == schedule + [a] && Leads(s, longer, u)
  {
    longer := schedule + [a];
    assert longer[..|schedule|] == schedule;
    assert Run(s, schedule) == Some(t);
  }

  lemma First(s: State, a: Action, t: State) returns (schedule: seq<Action>)
    requires Next(s, a) == Some(t)
    ensures schedule == [a] && Leads(s, schedule, t)
  {
    LeadsSelf(s);
    schedule := Then(s, [], s, a, t);
  }

  /** The queue with a message offered to it: full, or with nobody left to read it, it stays as it is. */
  function Offered(s: State, command: Command): seq<Command> {
    if s.worker.Finished? || |s.queue| >= 16 then s.queue else s.queue + [command]
  }

  /** A start call carries the generation of its reading to the queue. */
  lemma StartIsSent(s: State)
    requires forall call :: call in s.calls.starting ==> call.id < s.calls.nextStart
    ensures
      var call := StartCall(s.calls.nextStart, s.signal.generation, s.calls.returned);
      Leads(s, [StartRead, StartSend(call)],
            s.(calls := s.calls.(nextStart := call.id + 1), queue := Offered(s, Command.Start(call))))
  {
    var call := StartCall(s.calls.nextStart, s.signal.generation, s.calls.returned);
    var read := s.(calls := s.calls.(starting := s.calls.starting + {call}, nextStart := call.id + 1));
    var schedule := First(s, StartRead, read);
    assert read.calls.starting - {call} == s.calls.starting;
    schedule := Then(s, schedule, read, StartSend(call),
                     s.(calls := s.calls.(nextStart := call.id + 1), queue := Offered(s, Command.Start(call))));
  }

  /** A stop raises generation and flag, and offers its message. */
  lemma StopTakesEffect(s: State, stop: StopId)
    requires stop !in s.calls.bumpedTo && stop !in s.calls.returned
    ensures
      var g := s.signal.generation + 1;
      Leads(s, [StopRegion(stop), StopSend(stop)],
            s.(signal := Signal(g, true, s.signal.flagBy + {ByStop(stop)}, false), queue := Offered(s, Command.Stop(stop)),
               calls := s.calls.(bumpedTo := s.calls.bumpedTo[stop := g], returned := s.calls.returned + {stop})))
  {
    var g := s.signal.generation + 1;
    var raised := s.(signal := Signal(g, true, s.signal.flagBy + {ByStop(stop)}, false),
                     calls := s.calls.(bumpedTo := s.calls.bumpedTo[stop := g]));
    var schedule := First(s, StopRegion(stop), raised);
    schedule := Then(s, schedule, raised, StopSend(stop),
                     raised.(queue := Offered(s, Command.Stop(stop)), calls := raised.calls.(returned := s.calls.returned + {stop})));
  }

  /** A shutdown raises the flag and leaves its message to a worker that still runs. */
  lemma ShutdownTakesEffect(s: State)
    ensures
      Leads(s, [ShutdownFlag, ShutdownSend],
            s.(signal := Signal(s.signal.generation, true, s.signal.flagBy + {ByShutdown}, s.signal.watched),
               token := s.token || !s.worker.Finished?))
  {
    var flagged := s.(signal := Signal(s.signal.generation, true, s.signal.flagBy + {ByShutdown}, s.signal.watched));
    var schedule := First(s, ShutdownFlag, flagged);
    schedule := Then(s, schedule, flagged, ShutdownSend, flagged.(token := s.token || !s.worker.Finished?));
  }

  /** Only users move. */
  ghost predicate UsersOnly(schedule: seq<Action>) {
    forall i :: 0 <= i < |schedule| ==> IsUser(schedule[i])
  }

  ghost predicate HasStop(schedule: seq<Action>) {
    exists i :: 0 <= i < |schedule| && schedule[i].StopRegion?
  }

  ghost predicate HasShutdown(schedule: seq<Action>) {
    exists i :: 0 <= i < |schedule| && schedule[i].ShutdownFlag?
  }

  lemma UserStepEffect(s: State, a: Action)
    requires UserNext(s, a).Some?
    ensures
      var t := UserNext(s, a).value;
      && t.worker == s.worker && t.owned == s.owned && t.exiting == s.exiting
      && t.signal.generation == s.signal.generation + (if a.StopRegion? then 1 else 0)
      && (t.signal.flag <==> s.signal.flag || a.StopRegion? || a.ShutdownFlag?)
  {
  }

  lemma UsersLast(schedule: seq<Action>, last: nat)
    requires |schedule| == last + 1
    ensures UsersOnly(schedule) ==> UsersOnly(schedule[..last]) && IsUser(schedule[last])
    ensures HasStop(schedule) <==> HasStop(schedule[..last]) || schedule[last].StopRegion?
    ensures HasShutdown(schedule) <==> HasShutdown(schedule[..last]) || schedule[last].ShutdownFlag?
  {
    var before := schedule[..last];
    assert forall i :: 0 <= i < last ==> before[i] == schedule[i];
  }

  /** What users do leaves the worker where it is; stops raise the generation, and stops and shutdowns the flag. */
  lemma {:induction false} UsersRun(s: State, schedule: seq<Action>)
    requires UsersOnly(schedule) && Run(s, schedule).Some?
    ensures
      var t := Run(s, schedule).value;
      && t.worker == s.worker && t.owned == s.owned && t.exiting == s.exiting
      && t.signal.generation >= s.signal.generation && (t.signal.generation == s.signal.generation <==> !HasStop(schedule))
      && (t.signal.flag <==> s.signal.flag || HasStop(schedule) || HasShutdown(schedule))
  {
    if schedule != [] {
      var last := |schedule| - 1;
      UsersLast(schedule, last);
      UsersRun(s, schedule[..last]);
      UserStepEffect(Run(s, schedule[..last]).value, schedule[last]);
    }
  }

  /**
    Whatever users do before the worker compares generations, a start taken off the queue is admitted exactly when no
    stop has come since its reading, and then the flag is down.
   */
  lemma StartIsAdmittedIff(s: State, call: StartCall, early: seq<Action>, now: State, t: State)
    requires s.worker == CheckGeneration(call) && call.generation <= s.signal.generation
    requires UsersOnly(early) && Run(s, early) == Some(now) && Next(now, WorkerCheckGeneration) == Some(t)
    ensures t.worker == if s.signal.generation == call.generation && !HasStop(early) then Admitting(call) else Commands
    ensures t.worker.Admitting? ==> t.signal == Signal(now.signal.generation, false, {}, now.signal.watched)
    ensures t.worker.Commands? ==> t.signal == now.signal
    ensures t.owned == s.owned && t.queue == now.queue
  {
    UsersRun(s, early);
  }

  /**
    And an admitted start with its permit is brought up exactly when no stop and no shutdown has raised the flag by the
    time the worker looks at it, before the permit or behind it.
   */
  lemma StartIsBroughtUpIff(s: State, call: StartCall, middle: seq<Action>, now: State, permitted: State, late: seq<Action>, last: State, t: State)
    requires s.worker == Admitting(call) && !s.signal.flag
    requires UsersOnly(middle) && Run(s, middle) == Some(now) && Next(now, WorkerAdmit(true)) == Some(permitted)
    requires UsersOnly(late) && Run(permitted, late) == Some(last) && Next(last, WorkerCheckFlag) == Some(t)
    ensures t.worker == if HasStop(middle) || HasShutdown(middle) || HasStop(late) || HasShutdown(late) then Commands else Creating(call)
    ensures t.owned == s.owned
  {
    UsersRun(s, middle);
    UsersRun(permitted, late);
  }

  /** Without the repository or the permit an admitted start is dropped. */
  lemma StartWithoutPermitIsDropped(s: State, call: StartCall)
    requires s.worker == Admitting(call)
    ensures Leads(s, [WorkerAdmit(false)], s.(worker := Commands))
  {
    var schedule := First(s, WorkerAdmit(false), s.(worker := Commands));
  }

  /** What was created is the meeting at hand; if it does not run it is cleaned up, or kept until that succeeds. */
  lemma CreatedIsOwned(s: State, call: StartCall)
    requires s.worker == Creating(call)
    ensures
      var started, meeting := s.owned.started + {call.id}, Some(Meeting(call, false, {}));
      && Leads(s, [WorkerCreate(true, true)], s.(worker := Commands, owned := Owned(meeting, started, s.owned.cleaned)))
      && Leads(s, [WorkerCreate(false, true)], s.(worker := Commands))
      && Leads(s, [WorkerCreate(true, false), WorkerStartFailed(true)],
               s.(worker := Commands, owned := Owned(s.owned.active, started, s.owned.cleaned + {call.id})))
      && Leads(s, [WorkerCreate(true, false), WorkerStartFailed(false)],
               s.(worker := Commands, owned := Owned(meeting, started, s.owned.cleaned)))
  {
    var started, meeting := s.owned.started + {call.id}, Some(Meeting(call, false, {}));
    var schedule := First(s, WorkerCreate(true, true), s.(worker := Commands, owned := Owned(meeting, started, s.owned.cleaned)));
    schedule := First(s, WorkerCreate(false, true), s.(worker := Commands));
    var failed := s.(worker := StartFailed(call), owned := Owned(s.owned.active, started, s.owned.cleaned));
    schedule := First(s, WorkerCreate(true, false), failed);
    var longer := Then(s, schedule, failed, WorkerStartFailed(true),
                       s.(worker := Commands, owned := Owned(s.owned.active, started, s.owned.cleaned + {call.id})));
    longer := Then(s, schedule, failed, WorkerStartFailed(false), s.(worker := Commands, owned := Owned(meeting, started, s.owned.cleaned)));
  }

  /** Messages are taken oldest first: a start only when nothing is at hand and nothing is being shut down, a stop for what is at hand. */
  lemma MessageIsTaken(s: State, rest: seq<Command>)
    requires s.worker.Commands?
    ensures s.queue == [] ==> Leads(s, [WorkerCommand], s.(worker := Watch))
    ensures forall call :: s.queue == [Command.Start(call)] + rest ==>
              Leads(s, [WorkerCommand],
                    s.(queue := rest, worker := if s.exiting || s.owned.active.Some? then Commands else CheckGeneration(call)))
    ensures forall stop :: s.queue == [Command.Stop(stop)] + rest ==>
              Leads(s, [WorkerCommand], s.(queue := rest, owned := s.owned.(active := StoppedBy(s.owned.active, {ByStop(stop)}))))
  {
    if s.queue == [] {
      var schedule := First(s, WorkerCommand, s.(worker := Watch));
    } else if s.queue == [s.queue[0]] + rest {
      assert s.queue[1..] == rest;
      match s.queue[0]
      case Start(call) =>
        var schedule := First(s, WorkerCommand,
                              s.(queue := rest, worker := if s.exiting || s.owned.active.Some? then Commands else CheckGeneration(call)));
      case Stop(stop) =>
        var schedule := First(s, WorkerCommand, s.(queue := rest, owned := s.owned.(active := StoppedBy(s.owned.active, {ByStop(stop)}))));
    }
  }

  /** The meeting at hand, asked to stop; the first to ask is why. */
  function StoppedBy(active: Option<Meeting>, causes: set<Cause>): Option<Meeting> {
    match active
    case None => None
    case Some(Meeting(call, stopping, before)) => Some(Meeting(call, true, if stopping then before else causes))
  }

  /** A shutdown message makes the worker leave once nothing is at hand, and stops what is. */
  lemma ShutdownIsTaken(s: State)
    requires s.worker.Top?
    ensures
      Leads(s, [WorkerTop],
            if s.token then s.(worker := Commands, token := false, exiting := true,
                               owned := s.owned.(active := StoppedBy(s.owned.active, {ByShutdown})))
            else s.(worker := Commands))
  {
    var schedule := First(s, WorkerTop,
                          if s.token then s.(worker := Commands, token := false, exiting := true,
                                             owned := s.owned.(active := StoppedBy(s.owned.active, {ByShutdown})))
                          else s.(worker := Commands));
  }

  /** The meeting a pass leaves behind its look at the flag and at what supervision finds. */
  function Supervised(s: State, failed: bool): Option<Meeting> {
    var watched := if s.signal.flag then StoppedBy(s.owned.active, s.signal.flagBy) else s.owned.active;
    if failed then StoppedBy(watched, {Internal}) else watched
  }

  lemma PassSupervises(s: State, failed: bool) returns (schedule: seq<Action>)
    requires s.worker.Watch?
    ensures schedule == [WorkerWatch, WorkerSupervise(failed)]
    ensures
      Leads(s, schedule, s.(worker := Cleanup, signal := s.signal.(watched := true), owned := s.owned.(active := Supervised(s, failed))))
  {
    var watched := if s.signal.flag then StoppedBy(s.owned.active, s.signal.flagBy) else s.owned.active;
    var seen := s.(worker := Supervise, signal := s.signal.(watched := true), owned := s.owned.(active := watched));
    schedule := First(s, WorkerWatch, seen);
    schedule := Then(s, schedule, seen, WorkerSupervise(failed),
                     s.(worker := Cleanup, signal := s.signal.(watched := true), owned := s.owned.(active := Supervised(s, failed))));
  }

  /**
    The rest of a pass. A raised flag and a failure stop the meeting at hand; it is let go when it is stopping and its
    cleanup is due and succeeds; and the worker ends when it is leaving and has nothing.
   */
  lemma PassOutcome(s: State, failed: bool, attempt: bool, ok: bool)
    requires s.worker.Watch?
    ensures
      var m := Supervised(s, failed);
      var gone := m.Some? && m.value.stopping && attempt && ok;
      var left := if gone then Owned(None, s.owned.started, s.owned.cleaned + {m.value.call.id}) else s.owned.(active := m);
      var ended := s.exiting && left.active.None?;
      Leads(s, [WorkerWatch, WorkerSupervise(failed), WorkerCleanup(attempt, ok), WorkerBottom],
            s.(signal := s.signal.(watched := true), owned := left,
               worker := if ended then Worker.Finished else Top, contained := ended || s.contained))
  {
    var m := Supervised(s, failed);
    var gone := m.Some? && m.value.stopping && attempt && ok;
    var left := if gone then Owned(None, s.owned.started, s.owned.cleaned + {m.value.call.id}) else s.owned.(active := m);
    var ended := s.exiting && left.active.None?;
    var schedule := PassSupervises(s, failed);
    var supervised := s.(worker := Cleanup, signal := s.signal.(watched := true), owned := s.owned.(active := m));
    var bottom := s.(worker := Bottom, signal := s.signal.(watched := true), owned := left);
    schedule := Then(s, schedule, supervised, WorkerCleanup(attempt, ok), bottom);
    schedule := Then(s, schedule, bottom, WorkerBottom,
                     s.(signal := s.signal.(watched := true), owned := left,
                        worker := if ended then Worker.Finished else Top, contained := ended || s.contained));
  }

  /** A host begins with nothing stopped, nothing queued and nothing at hand, and its first start comes up. */
  lemma FirstStartComesUp()
    ensures
      var call := StartCall(0, 0, {});
      Leads(INITIAL,
            [StartRead, StartSend(call), WorkerTop, WorkerCommand, WorkerCheckGeneration, WorkerAdmit(true), WorkerCheckFlag, WorkerCreate(true, true)],
            State(Signal(0, false, {}, true), Calls({}, map[], {}, 1), [], false, false, Commands,
                  Owned(Some(Meeting(call, false, {})), {0}, {}), false))
  {
    var call := StartCall(0, 0, {});
    var schedule := FirstStartIsTaken();
    var taken := INITIAL.(calls := Calls({}, map[], {}, 1), worker := CheckGeneration(call));
    schedule := Then(INITIAL, schedule, taken, WorkerCheckGeneration, taken.(worker := Admitting(call)));
    schedule := Then(INITIAL, schedule, taken.(worker := Admitting(call)), WorkerAdmit(true), taken.(worker := CheckFlag(call)));
    schedule := Then(INITIAL, schedule, taken.(worker := CheckFlag(call)), WorkerCheckFlag, taken.(worker := Creating(call)));
    assert {} + {0} == {0};
    schedule := Then(INITIAL, schedule, taken.(worker := Creating(call)), WorkerCreate(true, true),
                     taken.(worker := Commands, owned := Owned(Some(Meeting(call, false, {})), {0}, {})));
  }

  lemma FirstStartIsTaken() returns (schedule: seq<Action>)
    ensures schedule == [StartRead, StartSend(StartCall(0, 0, {})), WorkerTop, WorkerCommand]
    ensures
      Leads(INITIAL, schedule,
            State(Signal(0, false, {}, true), Calls({}, map[], {}, 1), [], false, false, CheckGeneration(StartCall(0, 0, {})),
                  Owned(None, {}, {}), false))
  {
    var call := StartCall(0, 0, {});
    var read := INITIAL.(calls := Calls({call}, map[], {}, 1));
    assert {} + {call} == {call};
    schedule := First(INITIAL, StartRead, read);
    var sent := INITIAL.(calls := Calls({}, map[], {}, 1), queue := [Command.Start(call)]);
    assert {call} - {call} == {} && [] + [Command.Start(call)] == [Command.Start(call)] && [Command.Start(call)][1..] == [];
    schedule := Then(INITIAL, schedule, read, StartSend(call), sent);
    schedule := Then(INITIAL, schedule, sent, WorkerTop, sent.(worker := Commands));
    schedule := Then(INITIAL, schedule, sent.(worker := Commands), WorkerCommand, sent.(queue := [], worker := CheckGeneration(call)));
  }

  // ----- The shared fields in place -----

  /** The generation lock, the capture flag and the bounded command queue. */
  class Control {
    var generation: nat
    var flag: bool
    var queue: seq<Command>

    ghost predicate Valid()
      reads this
    {
      |queue| <= QUEUE_CAPACITY
    }

    constructor ()
      ensures Valid() && generation == 0 && !flag && queue == []
    {
      generation, flag, queue := 0, false, [];
    }

    method TrySend(command: Command) returns (sent: bool)
      requires Valid()
      modifies this`queue
      ensures Valid() && sent == (|old(queue)| < 16)
      ensures queue == if sent then old(queue) + [command] else old(queue)
    {
      sent := |queue| < QUEUE_CAPACITY;
      if sent {
        queue := queue + [command];
      }
    }

    /** A start reports a full queue; the call it sends carries the generation it read. */
    method Start(id: StartId) returns (sent: bool, read: nat)
      requires Valid()
      modifies this`queue
      ensures Valid() && read == generation && sent == (|old(queue)| < 16)
      ensures queue == if sent then old(queue) + [Command.Start(StartCall(id, old(generation), {}))] else old(queue)
    {
      read := generation;
      sent := TrySend(Command.Start(StartCall(id, read, {})));
    }

    /** A stop succeeds even when its message is dropped: the generation and the flag carry it. */
    method Stop(stop: StopId)
      requires Valid()
      modifies this
      ensures Valid() && generation == old(generation) + 1 && flag
      ensures queue == if |old(queue)| < 16 then old(queue) + [Command.Stop(stop)] else old(queue)
    {
      generation := generation + 1;
      flag := true;
      var _ := TrySend(Command.Stop(stop));
    }

    /** The worker's lock region for a start taken off the queue. */
    method Admit(call: StartCall) returns (admitted: bool)
      requires Valid()
      modifies this`flag
      ensures Valid() && admitted == (generation == call.generation)
      ensures flag == (old(flag) && !admitted)
    {
      admitted := generation == call.generation;
      if admitted {
        flag := false;
      }
    }
  }
}
