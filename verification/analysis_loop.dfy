/**
  The analysis loop of the desktop host (desktop/forum-shell/src/analysis.rs, run_loop and
  execute) with the admission gate it shares with live capture
  (desktop/crates/forum-runtime/src/resource_budget.rs) and the store actor behind it.

  The loop, the store actor, user requests, the live runtime and the shutdown poll interleave.
  Each step below is one store-actor closure, one atomic access, one lock region of the gate,
  or one thing a worker process does. A store call may be refused at once, or answered after
  the caller stopped waiting, and then still takes effect in its turn.
 */
module AnalysisLoop {
  import opened Common
  import opened AnalysisJobs

  /** One attempt at one job. */
  datatype Try = Try(id: Id, attempt: nat)

  datatype Checkpoint = Checkpoint(job: Try, step: nat)

  // ----- The admission gate -----

  datatype Gate = Gate(live: bool, preparing: bool, background: bool, backgroundLive: bool, shutdown: bool)

  predicate MayAdmit(g: Gate, eligible: bool) {
    !g.shutdown && !g.preparing && !g.background && (!g.live || eligible)
  }

  datatype LiveOwner = Off | Asking | Granted | On

  /** The scan thread of the speaker manager, the other owner of background permits. */
  datatype Speaker = NoPermit | HoldsPermit | RunsChild | LostChild

  // ----- The store actor -----

  datatype Call = Ask(request: Request) | Look(job: Try) | Confirm(checkpoint: Checkpoint, acceptable: bool)

  /** A queued closure, and whether the loop is waiting for its answer. */
  datatype Entry = Entry(call: Call, awaited: bool)

  predicate IsClaim(e: Entry) { e.call.Ask? && e.call.request.Claim? }

  function Forgotten(queue: seq<Entry>): (q: seq<Entry>)
    ensures |q| == |queue|
  {
    seq(|queue|, i requires 0 <= i < |queue| => queue[i].(awaited := false))
  }

  // ----- The loop -----

  datatype End = Produced(acceptable: bool, complete: bool) | SawCancel | Preempted | Erred

  datatype Host =
    | Top                                   // about to read the stop flag
    | Considering                           // looking at one listed job
    | Permitted(job: Try)                   // holds the permit
    | AwaitingClaim(job: Try)
    | Claimed(job: Try)
    | Working(job: Try)                     // worker process owned
    | AwaitingLook(job: Try)                // reading the job for a cancel request
    | AwaitingConfirm(job: Try, c: Checkpoint)
    | Acknowledging(job: Try, c: Checkpoint) // the store confirmed, the worker is not yet told
    | Ending(job: Try, end: End)            // worker to be stopped
    | Closing(job: Try, end: End)           // worker gone, or never spawned
    | AwaitingFinish(job: Try)
    | Releasing                             // permit to be dropped
    | Losing                                // worker exit not confirmed
    | Stopping                              // and contained already cleared
    | Finished

  /** The loop owns a worker process that it has not yet tried to stop. */
  predicate OwnsWorker(h: Host) {
    h.Working? || h.AwaitingLook? || h.AwaitingConfirm? || h.Acknowledging? || h.Ending?
  }

  predicate Lost(h: Host) { h.Losing? || h.Stopping? }

  predicate Awaiting(h: Host) {
    h.AwaitingClaim? || h.AwaitingLook? || h.AwaitingConfirm? || h.AwaitingFinish?
  }

  /** The store has answered the claim of this pass. */
  predicate PastClaim(h: Host) {
    OwnsWorker(h) || Lost(h) || h.Claimed? || h.Closing? || h.AwaitingFinish?
  }

  /** Where a store call leads that was refused or is no longer waited for. */
  function OnRefusal(h: Host): Host
    requires Awaiting(h)
  {
    match h
    case AwaitingClaim(_) => Releasing
    case AwaitingFinish(job) => Closing(job, Erred)
    case AwaitingLook(job) => Ending(job, Erred)
    case AwaitingConfirm(job, _) => Ending(job, Erred)
  }

  datatype Poll = NotPolling | SawContained

  datatype Log = Log(claimed: seq<Try>, spawned: seq<Try>, confirmed: set<Checkpoint>, acked: set<Checkpoint>)

  datatype State = State(
    table: Table,
    queue: seq<Entry>,
    host: Host,
    children: multiset<Try>,                // worker processes whose exit is not confirmed
    gate: Gate,
    owner: LiveOwner,
    speaker: Speaker,
    stopped: bool,
    contained: bool,
    poll: Poll,
    completed: bool,                        // some shutdown_complete call has returned true
    log: Log)

  /** The store has recovered its jobs; the loop begins by interrupting what is still active. */
  predicate Initial(s: State) {
    && (forall id :: id in s.table ==> 1 <= s.table[id].attempt <= s.table[id].maxAttempts && !Active(s.table[id]))
    && s == State(s.table, [Entry(Ask(InterruptAll), false)], Top, multiset{}, Gate(false, false, false, false, false), Off, NoPermit,
                  false, true, NotPolling, false, Log([], [], {}, {}))
  }

  datatype Action =
    | HostTop
    | HostSkip(request: Option<Request>)
    | HostAdmit(job: Try, eligible: bool, pressed: bool)
    | HostClaim(late: bool, stale: bool, accepted: bool)
    | HostSpawn(spawned: bool)
    | HostLook(accepted: bool)
    | HostConfirm(step: nat, acceptable: bool, accepted: bool)
    | HostAck(sent: bool)
    | HostEnd(end: End)
    | HostTimeout
    | HostStopWorker(confirmed: bool, accepted: bool)
    | HostClose(stale: bool, accepted: bool)
    | HostRelease
    | HostLose
    | StoreRun
    | UserAsk(r: Request)
    | LiveAsk
    | LiveGrant
    | LiveReady
    | LiveFinish
    | SpeakerAdmit(pressed: bool)
    | SpeakerStart
    | SpeakerStop(confirmed: bool)
    | SpeakerRelease
    | ShutdownFlag
    | ShutdownGate
    | PollStart
    | PollStep

  function Submit(s: State, r: Request): State {
    s.(queue := s.queue + [Entry(Ask(r), false)])
  }

  /** A call the loop waits for, as `waiting`. */
  function CallStore(s: State, c: Call, waiting: Host, accepted: bool): State
    requires Awaiting(waiting)
  {
    if accepted then s.(queue := s.queue + [Entry(c, true)], host := waiting) else s.(host := OnRefusal(waiting))
  }

  /** Looking for a job to run, up to the claim. */
  function AdmitNext(s: State, a: Action): Option<State> {
    match a
    case HostTop => if !s.host.Top? then None else Some(s.(host := if s.stopped then Finished else Considering))
    case HostSkip(r) =>
      if !s.host.Considering? || (r.Some? && !r.value.Wait? && !r.value.Fail?) then None
      else Some((if r.Some? then Submit(s, r.value) else s).(host := Top))
    case HostAdmit(job, eligible, pressed) =>
      if !s.host.Considering? || pressed || !MayAdmit(s.gate, eligible) then None
      else Some(s.(host := Permitted(job), gate := s.gate.(background := true, backgroundLive := eligible)))
    case HostClaim(late, stale, accepted) =>
      if !s.host.Permitted? then None
      else
        var job := s.host.job;
        Some(CallStore(s, Ask(Claim(job.id, job.attempt, late, stale)), AwaitingClaim(job), accepted))
    case HostTimeout =>
      if !Awaiting(s.host) then None else Some(s.(host := OnRefusal(s.host), queue := Forgotten(s.queue)))
    case _ => None
  }

  /** Running a worker for the claimed job. */
  function ExecuteNext(s: State, a: Action): Option<State> {
    match a
    case HostSpawn(spawned) =>
      if !s.host.Claimed? then None
      else if !spawned then Some(s.(host := Closing(s.host.job, Erred)))
      else
        Some(s.(host := Working(s.host.job), children := s.children + multiset{s.host.job},
                log := s.log.(spawned := s.log.spawned + [s.host.job])))
    case HostLook(accepted) =>
      if !s.host.Working? then None else Some(CallStore(s, Look(s.host.job), AwaitingLook(s.host.job), accepted))
    case HostConfirm(step, acceptable, accepted) =>
      if !s.host.Working? then None
      else
        var c := Checkpoint(s.host.job, step);
        Some(CallStore(s, Confirm(c, acceptable), AwaitingConfirm(s.host.job, c), accepted))
    case HostAck(sent) =>
      if !s.host.Acknowledging? then None
      else if !sent then Some(s.(host := Ending(s.host.job, Erred)))
      else Some(s.(host := Working(s.host.job), log := s.log.(acked := s.log.acked + {s.host.c})))
    case HostEnd(end) =>
      if !s.host.Working? || end.SawCancel? then None else Some(s.(host := Ending(s.host.job, end)))
    case _ => None
  }

  function MaySubmit(s: State, r: Request, accepted: bool): State {
    (if accepted then Submit(s, r) else s).(host := Releasing)
  }

  /** The attempt is over: what the loop asks of the store. */
  function CloseAttempt(s: State, stale: bool, accepted: bool): State
    requires s.host.Closing?
  {
    var job := s.host.job;
    match s.host.end
    case Produced(acceptable, complete) =>
      CallStore(s, Ask(Finish(job.id, job.attempt, acceptable, complete)), AwaitingFinish(job), accepted)
    case SawCancel => MaySubmit(s, CompleteCancel(job.id, job.attempt), accepted)
    case Preempted => MaySubmit(s, Requeue(job.id, job.attempt, !s.stopped, stale), accepted)
    case Erred => MaySubmit(s, Fail(job.id, job.attempt), accepted)
  }

  /** Stopping the worker, closing the attempt, releasing the permit. */
  function CloseNext(s: State, a: Action): Option<State> {
    match a
    case HostStopWorker(confirmed, accepted) =>
      if !s.host.Ending? then None
      else
        var job := s.host.job;
        if confirmed then Some(s.(host := Closing(job, s.host.end), children := s.children - multiset{job}))
        else Some((if accepted then Submit(s, Interrupt(job.id, job.attempt)) else s).(host := Losing))
    case HostClose(stale, accepted) =>
      if !s.host.Closing? then None else Some(CloseAttempt(s, stale, accepted))
    case HostRelease =>
      if !s.host.Releasing? then None else Some(s.(host := Top, gate := s.gate.(background := false)))
    case HostLose =>
      if s.host.Losing? then Some(s.(contained := false, host := Stopping))
      else if s.host.Stopping? then Some(s.(stopped := true, host := Finished))
      else None
    case _ => None
  }

  // ----- What the store actor does -----

  /** What answering the call at the head of the queue leaves in place of the loop's state. */
  function AfterLook(h: Host, t: Table): Host
    requires h.AwaitingLook?
  {
    var job := h.job;
    if job.id !in t then OnRefusal(h)
    else if t[job.id].attempt != job.attempt || t[job.id].phase.CancelRequested? then Ending(job, SawCancel)
    else Working(job)
  }

  /** A request has run, with this table and answer, and has claimed a job or not. */
  function AfterRequest(s: State, r: Request, awaited: bool, t: Table, ok: bool, claims: bool): State
    requires claims ==> r.Claim?
  {
    var log := if claims then s.log.(claimed := s.log.claimed + [Try(r.id, r.attempt)]) else s.log;
    var host :=
      if !awaited || !(s.host.AwaitingClaim? || s.host.AwaitingFinish?) then s.host
      else if !ok then OnRefusal(s.host)
      else if s.host.AwaitingClaim? && claims then Claimed(s.host.job)
      else Releasing;
    s.(table := t, log := log, host := host)
  }

  function AfterConfirm(s: State, c: Checkpoint, awaited: bool, ok: bool): State {
    var next := if ok then s.(log := s.log.(confirmed := s.log.confirmed + {c})) else s;
    if !awaited || !s.host.AwaitingConfirm? then next
    else next.(host := if ok then Acknowledging(s.host.job, c) else OnRefusal(s.host))
  }

  /** The oldest closure runs; the loop goes on if it still waits for this one. */
  function StoreNext(s: State): Option<State> {
    if s.queue == [] then None
    else
      var e := s.queue[0];
      var rest := s.(queue := s.queue[1..]);
      match e.call
      case Ask(r) =>
        var (t, ok) := Apply(s.table, r);
        Some(AfterRequest(rest, r, e.awaited, t, ok, Claims(s.table, r)))
      case Look(job) => Some(if e.awaited && s.host.AwaitingLook? then rest.(host := AfterLook(s.host, s.table)) else rest)
      case Confirm(c, acceptable) =>
        var ok := acceptable && Current(s.table, c.job.id, c.job.attempt) && s.table[c.job.id].phase.Running?;
        Some(AfterConfirm(rest, c, e.awaited, ok))
  }

  /** The scan thread keeps its permit for good when the exit of its child is not confirmed. */
  function SpeakerNext(s: State, a: Action): Option<State> {
    match a
    case SpeakerAdmit(pressed) =>
      if !s.speaker.NoPermit? || pressed || !MayAdmit(s.gate, true) then None
      else Some(s.(speaker := HoldsPermit, gate := s.gate.(background := true, backgroundLive := true)))
    case SpeakerStart => if s.speaker.HoldsPermit? then Some(s.(speaker := RunsChild)) else None
    case SpeakerStop(confirmed) =>
      if s.speaker.RunsChild? then Some(s.(speaker := if confirmed then HoldsPermit else LostChild)) else None
    case SpeakerRelease =>
      if !s.speaker.HoldsPermit? then None else Some(s.(speaker := NoPermit, gate := s.gate.(background := false)))
    case _ => None
  }

  predicate IsSpeaker(a: Action) { a.SpeakerAdmit? || a.SpeakerStart? || a.SpeakerStop? || a.SpeakerRelease? }

  /** Users, the live runtime and the shutdown poll. */
  function OutsideNext(s: State, a: Action): Option<State> {
    match a
    case UserAsk(r) => if r.Create? || r.Cancel? || r.Retry? then Some(Submit(s, r)) else None
    case LiveAsk =>
      if !s.owner.Off? then None else Some(s.(owner := Asking, gate := s.gate.(live := true, preparing := true)))
    case LiveGrant => if !s.owner.Asking? || s.gate.background then None else Some(s.(owner := Granted))
    case LiveReady => if !s.owner.Granted? then None else Some(s.(owner := On, gate := s.gate.(preparing := false)))
    case LiveFinish => Some(s.(owner := Off, gate := s.gate.(live := false, preparing := false)))
    case ShutdownFlag => Some(s.(stopped := true))
    case ShutdownGate => if !s.stopped then None else Some(s.(gate := s.gate.(shutdown := true)))
    case PollStart => if s.poll.NotPolling? && s.contained then Some(s.(poll := SawContained)) else None
    case PollStep =>
      if !s.poll.SawContained? then None
      else Some(s.(poll := NotPolling, completed := s.completed || s.host.Finished?))
    case _ => None
  }

  predicate IsAdmit(a: Action) { a.HostTop? || a.HostSkip? || a.HostAdmit? || a.HostClaim? || a.HostTimeout? }

  predicate IsExecute(a: Action) { a.HostSpawn? || a.HostLook? || a.HostConfirm? || a.HostAck? || a.HostEnd? }

  predicate IsClose(a: Action) { a.HostStopWorker? || a.HostClose? || a.HostRelease? || a.HostLose? }

  function Next(s: State, a: Action): Option<State> {
    if IsAdmit(a) then AdmitNext(s, a)
    else if IsExecute(a) then ExecuteNext(s, a)
    else if IsClose(a) then CloseNext(s, a)
    else if a.StoreRun? then StoreNext(s)
    else if IsSpeaker(a) then SpeakerNext(s, a)
    else OutsideNext(s, a)
  }

  function Run(s: State, schedule: seq<Action>): Option<State> {
    if schedule == [] then Some(s)
    else
      var before := Run(s, schedule[..|schedule| - 1]);
      if before.None? then None else Next(before.value, schedule[|schedule| - 1])
  }

  ghost predicate Reaches(s: State, t: State) {
    exists schedule :: Run(s, schedule) == Some(t)
  }

  ghost predicate Reachable(s: State) {
    exists s0 :: Initial(s0) && Reaches(s0, s)
  }

  // ----- The invariant -----

  ghost predicate ChildrenInv(s: State) {
    && (OwnsWorker(s.host) ==> s.children == multiset{s.host.job})
    && (Lost(s.host) ==> |s.children| == 1)
    && (s.host.Finished? ==> |s.children| <= 1 && (s.children == multiset{} <==> s.contained))
    && (!OwnsWorker(s.host) && !Lost(s.host) && !s.host.Finished? ==> s.children == multiset{})
    && (!s.contained ==> s.host.Stopping? || s.host.Finished?)
    && (s.host.Stopping? ==> !s.contained)
  }

  predicate LoopHoldsPermit(s: State) {
    !s.host.Top? && !s.host.Considering? && !(s.host.Finished? && s.contained)
  }

  /** Of the loop and the speaker manager one at most holds the permit, and the gate knows. */
  ghost predicate GateInv(s: State) {
    && (s.gate.background <==> LoopHoldsPermit(s) || !s.speaker.NoPermit?)
    && !(LoopHoldsPermit(s) && !s.speaker.NoPermit?)
    && (s.owner.Asking? || s.owner.Granted? ==> s.gate.preparing)
    && (s.owner.Granted? ==> !s.gate.background)
  }

  /** The call the loop is waiting for. */
  predicate Expected(h: Host, c: Call) {
    match h
    case AwaitingClaim(job) => c.Ask? && c.request.Claim? && c.request.id == job.id && c.request.attempt == job.attempt
    case AwaitingFinish(job) => c.Ask? && c.request.Finish?
    case AwaitingLook(job) => c == Look(job)
    case AwaitingConfirm(_, cp) => c.Confirm? && c.checkpoint == cp
    case _ => false
  }

  /** The call the loop waits for is behind every claim, and no claim is left once one was answered. */
  ghost predicate QueueInv(s: State) {
    && (forall i :: 0 <= i < |s.queue| && s.queue[i].awaited ==> Expected(s.host, s.queue[i].call))
    && (forall i, j :: 0 <= i < j < |s.queue| && s.queue[i].awaited ==> !IsClaim(s.queue[j]) && !s.queue[j].awaited)
    && (PastClaim(s.host) ==> forall i :: 0 <= i < |s.queue| ==> !IsClaim(s.queue[i]))
  }

  /** A request of a user. */
  predicate IsUsers(e: Entry) {
    !e.awaited && e.call.Ask? && (e.call.request.Create? || e.call.request.Cancel? || e.call.request.Retry?)
  }

  /** The call at `k` is the one the loop waits for, and behind it stand users' requests only. */
  ghost predicate AwaitedAt(queue: seq<Entry>, k: nat) {
    k < |queue| && queue[k].awaited && forall j :: k < j < |queue| ==> IsUsers(queue[j])
  }

  ghost predicate ClaimInv(s: State) {
    s.host.AwaitingClaim? ==> exists k: nat :: AwaitedAt(s.queue, k)
  }

  function Count(tries: seq<Try>, id: Id): nat {
    if tries == [] then 0 else Count(tries[..|tries| - 1], id) + if tries[|tries| - 1].id == id then 1 else 0
  }

  /** The number of entries for the job. */
  lemma {:induction false} CountIs(tries: seq<Try>, id: Id)
    ensures Count(tries, id) == |set i | 0 <= i < |tries| && tries[i].id == id|
  {
    if tries != [] {
      var last := |tries| - 1;
      var before := tries[..last];
      CountIs(before, id);
      var earlier := set i | 0 <= i < |before| && before[i].id == id;
      var all := set i | 0 <= i < |tries| && tries[i].id == id;
      assert all == if tries[last].id == id then earlier + {last} else earlier;
    }
  }

  ghost predicate LogInv(s: State) {
    && (forall id :: Count(s.log.claimed, id) <= TriedIn(s.table, id))
    && (forall id :: Count(s.log.spawned, id) + (if s.host.Claimed? && s.host.job.id == id then 1 else 0) <= Count(s.log.claimed, id))
    && s.log.acked <= s.log.confirmed
    && (s.host.Acknowledging? ==> s.host.c in s.log.confirmed)
  }

  ghost predicate Inv(s: State) {
    ChildrenInv(s) && GateInv(s) && QueueInv(s) && ClaimInv(s) && ValidTable(s.table) && LogInv(s)
  }

  /** Neither gains, loses nor reports a worker. */
  ghost predicate SameWorkers(s: State, t: State) {
    && t.children == s.children && t.contained == s.contained
    && OwnsWorker(t.host) == OwnsWorker(s.host) && (OwnsWorker(s.host) ==> t.host.job == s.host.job)
    && !Lost(s.host) && !Lost(t.host) && !s.host.Finished? && (t.host.Finished? ==> !OwnsWorker(s.host))
  }

  lemma SameWorkersKeepsChildren(s: State, t: State)
    requires ChildrenInv(s) && SameWorkers(s, t)
    ensures ChildrenInv(t)
  {
  }

  lemma AdmitKeepsChildren(s: State, a: Action)
    requires ChildrenInv(s) && AdmitNext(s, a).Some?
    ensures ChildrenInv(AdmitNext(s, a).value)
  {
    var t := AdmitNext(s, a).value;
    SameWorkersKeepsChildren(s, t);
  }

  lemma AdmitKeepsGate(s: State, a: Action)
    requires ChildrenInv(s) && GateInv(s) && AdmitNext(s, a).Some?
    ensures GateInv(AdmitNext(s, a).value)
  {
  }

  lemma SpawnKeepsChildren(s: State, spawned: bool)
    requires ChildrenInv(s) && s.host.Claimed?
    ensures ChildrenInv(ExecuteNext(s, HostSpawn(spawned)).value)
  {
    assert multiset{} + multiset{s.host.job} == multiset{s.host.job};
  }

  lemma ExecuteKeepsChildren(s: State, a: Action)
    requires ChildrenInv(s) && ExecuteNext(s, a).Some?
    ensures ChildrenInv(ExecuteNext(s, a).value)
  {
    if a.HostSpawn? {
      SpawnKeepsChildren(s, a.spawned);
    } else {
      var t := ExecuteNext(s, a).value;
      SameWorkersKeepsChildren(s, t);
    }
  }

  lemma ExecuteKeepsGate(s: State, a: Action)
    requires ChildrenInv(s) && GateInv(s) && ExecuteNext(s, a).Some?
    ensures GateInv(ExecuteNext(s, a).value)
  {
    SameGateKeepsGate(s, ExecuteNext(s, a).value);
  }

  lemma StopKeepsChildren(s: State, confirmed: bool, accepted: bool)
    requires ChildrenInv(s) && s.host.Ending?
    ensures ChildrenInv(CloseNext(s, HostStopWorker(confirmed, accepted)).value)
  {
    assert multiset{s.host.job} - multiset{s.host.job} == multiset{};
  }

  lemma LoseKeepsChildren(s: State)
    requires ChildrenInv(s) && Lost(s.host)
    ensures ChildrenInv(CloseNext(s, HostLose).value)
  {
  }

  lemma CloseKeepsChildren(s: State, a: Action)
    requires ChildrenInv(s) && CloseNext(s, a).Some?
    ensures ChildrenInv(CloseNext(s, a).value)
  {
    if a.HostStopWorker? {
      StopKeepsChildren(s, a.confirmed, a.accepted);
    } else if a.HostLose? {
      LoseKeepsChildren(s);
    } else {
      SameWorkersKeepsChildren(s, CloseNext(s, a).value);
    }
  }

  /** The permit stays where it is. */
  lemma SameGateKeepsGate(s: State, t: State)
    requires GateInv(s) && t.gate == s.gate && t.owner == s.owner && t.speaker == s.speaker
    requires LoopHoldsPermit(t) == LoopHoldsPermit(s)
    ensures GateInv(t)
  {
  }

  lemma ReleaseKeepsGate(s: State)
    requires GateInv(s) && s.host.Releasing?
    ensures GateInv(CloseNext(s, HostRelease).value)
  {
  }

  lemma CloseKeepsGate(s: State, a: Action)
    requires ChildrenInv(s) && GateInv(s) && CloseNext(s, a).Some?
    ensures GateInv(CloseNext(s, a).value)
  {
    match a
    case HostRelease => ReleaseKeepsGate(s);
    case HostClose(stale, accepted) =>
      CloseAttemptAsks(s, stale, accepted);
      SameGateKeepsGate(s, CloseAttempt(s, stale, accepted));
    case HostStopWorker(_, _) => SameGateKeepsGate(s, CloseNext(s, a).value);
    case HostLose => SameGateKeepsGate(s, CloseNext(s, a).value);
  }

  /** The speaker manager touches the gate only. */
  lemma SpeakerKeepsGate(s: State, a: Action)
    requires ChildrenInv(s) && GateInv(s) && SpeakerNext(s, a).Some?
    ensures GateInv(SpeakerNext(s, a).value)
  {
  }

  lemma OutsideKeepsChildren(s: State, a: Action)
    requires ChildrenInv(s) && OutsideNext(s, a).Some?
    ensures ChildrenInv(OutsideNext(s, a).value)
  {
  }

  lemma OutsideKeepsGate(s: State, a: Action)
    requires ChildrenInv(s) && GateInv(s) && OutsideNext(s, a).Some?
    ensures GateInv(OutsideNext(s, a).value)
  {
  }

  /** Until the loop waits, no queued call is awaited. */
  lemma NothingAwaited(s: State)
    requires QueueInv(s) && !Awaiting(s.host)
    ensures forall i :: 0 <= i < |s.queue| ==> !s.queue[i].awaited
  {
  }

  /** Adding one call, with the loop going on as `host`. */
  lemma CallKeepsQueue(s: State, e: Entry, host: Host)
    requires QueueInv(s) && (Awaiting(s.host) ==> host == s.host && !e.awaited && !IsClaim(e))
    requires if e.awaited then Expected(host, e.call) else !IsClaim(e)
    requires PastClaim(host) ==> PastClaim(s.host) && !IsClaim(e)
    ensures QueueInv(s.(queue := s.queue + [e], host := host))
  {
    if !Awaiting(s.host) {
      NothingAwaited(s);
    }
  }

  lemma ForgettingKeepsQueue(s: State)
    requires QueueInv(s) && Awaiting(s.host)
    ensures QueueInv(s.(host := OnRefusal(s.host), queue := Forgotten(s.queue)))
  {
  }

  lemma RefusalKeepsQueue(s: State, waiting: Host)
    requires QueueInv(s) && !Awaiting(s.host) && Awaiting(waiting) && (PastClaim(waiting) ==> PastClaim(s.host))
    ensures QueueInv(s.(host := OnRefusal(waiting)))
  {
    NothingAwaited(s);
  }

  lemma AdmitKeepsQueue(s: State, a: Action)
    requires QueueInv(s) && AdmitNext(s, a).Some?
    ensures QueueInv(AdmitNext(s, a).value)
  {
    match a
    case HostTimeout => ForgettingKeepsQueue(s);
    case HostSkip(r) =>
      if r.Some? {
        CallKeepsQueue(s, Entry(Ask(r.value), false), Top);
      }
    case HostClaim(late, stale, accepted) =>
      var job := s.host.job;
      CallKeepsQueue(s, Entry(Ask(Claim(job.id, job.attempt, late, stale)), true), AwaitingClaim(job));
      RefusalKeepsQueue(s, AwaitingClaim(job));
    case _ =>
  }

  /** The loop goes on without a store call. */
  lemma MoveKeepsQueue(s: State, t: State)
    requires QueueInv(s) && !Awaiting(s.host) && t.queue == s.queue && (PastClaim(t.host) ==> PastClaim(s.host))
    ensures QueueInv(t)
  {
    NothingAwaited(s);
  }

  lemma ExecuteKeepsQueue(s: State, a: Action)
    requires QueueInv(s) && ExecuteNext(s, a).Some?
    ensures QueueInv(ExecuteNext(s, a).value)
  {
    match a
    case HostLook(accepted) =>
      CallKeepsQueue(s, Entry(Look(s.host.job), true), AwaitingLook(s.host.job));
      RefusalKeepsQueue(s, AwaitingLook(s.host.job));
    case HostConfirm(step, acceptable, accepted) =>
      var c := Checkpoint(s.host.job, step);
      CallKeepsQueue(s, Entry(Confirm(c, acceptable), true), AwaitingConfirm(s.host.job, c));
      RefusalKeepsQueue(s, AwaitingConfirm(s.host.job, c));
    case HostSpawn(_) => ExecuteMoveKeepsQueue(s, a);
    case HostAck(_) => ExecuteMoveKeepsQueue(s, a);
    case HostEnd(_) => ExecuteMoveKeepsQueue(s, a);
  }

  lemma ExecuteMoveKeepsQueue(s: State, a: Action)
    requires QueueInv(s) && ExecuteNext(s, a).Some? && (a.HostSpawn? || a.HostAck? || a.HostEnd?)
    ensures QueueInv(ExecuteNext(s, a).value)
  {
    MoveKeepsQueue(s, ExecuteNext(s, a).value);
  }

  lemma ClosingKeepsQueue(s: State, stale: bool, accepted: bool)
    requires QueueInv(s) && s.host.Closing?
    ensures QueueInv(CloseNext(s, HostClose(stale, accepted)).value)
  {
    var job := s.host.job;
    match s.host.end
    case Produced(acceptable, complete) =>
      CallKeepsQueue(s, Entry(Ask(Finish(job.id, job.attempt, acceptable, complete)), true), AwaitingFinish(job));
      RefusalKeepsQueue(s, AwaitingFinish(job));
    case SawCancel => CallKeepsQueue(s, Entry(Ask(CompleteCancel(job.id, job.attempt)), false), Releasing);
    case Preempted => CallKeepsQueue(s, Entry(Ask(Requeue(job.id, job.attempt, !s.stopped, stale)), false), Releasing);
    case Erred => CallKeepsQueue(s, Entry(Ask(Fail(job.id, job.attempt)), false), Releasing);
  }

  lemma CloseKeepsQueue(s: State, a: Action)
    requires QueueInv(s) && CloseNext(s, a).Some?
    ensures QueueInv(CloseNext(s, a).value)
  {
    match a
    case HostClose(stale, accepted) => ClosingKeepsQueue(s, stale, accepted);
    case HostStopWorker(confirmed, accepted) =>
      if confirmed || !accepted {
        MoveKeepsQueue(s, CloseNext(s, a).value);
      } else {
        CallKeepsQueue(s, Entry(Ask(Interrupt(s.host.job.id, s.host.job.attempt)), false), Losing);
      }
    case HostRelease => MoveKeepsQueue(s, CloseNext(s, a).value);
    case HostLose => MoveKeepsQueue(s, CloseNext(s, a).value);
  }

  lemma OutsideKeepsQueue(s: State, a: Action)
    requires QueueInv(s) && OutsideNext(s, a).Some?
    ensures QueueInv(OutsideNext(s, a).value)
  {
  }

  // ----- The claim the loop waits for -----

  lemma AdmitKeepsClaim(s: State, a: Action)
    requires ClaimInv(s) && AdmitNext(s, a).Some?
    ensures ClaimInv(AdmitNext(s, a).value)
  {
    if a.HostClaim? && a.accepted {
      assert AwaitedAt(AdmitNext(s, a).value.queue, |s.queue|);
    }
  }

  lemma OutsideKeepsClaim(s: State, a: Action)
    requires ClaimInv(s) && OutsideNext(s, a).Some?
    ensures ClaimInv(OutsideNext(s, a).value)
  {
    if a.UserAsk? && s.host.AwaitingClaim? {
      var k: nat :| AwaitedAt(s.queue, k);
      assert AwaitedAt(s.queue + [Entry(Ask(a.r), false)], k);
    }
  }

  lemma StoreKeepsClaim(s: State)
    requires QueueInv(s) && ClaimInv(s) && StoreNext(s).Some?
    ensures ClaimInv(StoreNext(s).value)
  {
    if s.host.AwaitingClaim? && !s.queue[0].awaited {
      var k: nat :| AwaitedAt(s.queue, k);
      assert AwaitedAt(s.queue[1..], k - 1);
    }
  }

  // ----- The store actor -----

  /** The host after an answer: still past the claim, or now for the first time, or back before it. */
  lemma AnswerKeepsQueue(s: State, host: Host)
    requires QueueInv(s) && s.queue != []
    requires if s.queue[0].awaited then !Awaiting(host) else host == s.host
    ensures QueueInv(s.(queue := s.queue[1..], host := host))
  {
    var rest := s.queue[1..];
    assert forall i :: 0 <= i < |rest| ==> rest[i] == s.queue[i + 1];
    if s.queue[0].awaited {
      forall i | 0 <= i < |rest|
        ensures !rest[i].awaited && !IsClaim(rest[i])
      {
        assert !IsClaim(s.queue[i + 1]) && !s.queue[i + 1].awaited;
      }
    }
  }

  /** The request's answer keeps everything that does not depend on the table. */
  lemma RequestKeepsLoop(s: State, t: Table, ok: bool, claims: bool)
    requires ChildrenInv(s) && GateInv(s) && QueueInv(s)
    requires s.queue != [] && s.queue[0].call.Ask? && (claims ==> s.queue[0].call.request.Claim?)
    ensures
      var next := AfterRequest(s.(queue := s.queue[1..]), s.queue[0].call.request, s.queue[0].awaited, t, ok, claims);
      ChildrenInv(next) && GateInv(next) && QueueInv(next)
  {
    var next := AfterRequest(s.(queue := s.queue[1..]), s.queue[0].call.request, s.queue[0].awaited, t, ok, claims);
    AnswerKeepsQueue(s, next.host);
  }

  lemma LookKeepsLoop(s: State)
    requires ChildrenInv(s) && GateInv(s) && QueueInv(s) && s.queue != [] && s.queue[0].call.Look?
    ensures var next := StoreNext(s).value; ChildrenInv(next) && GateInv(next) && QueueInv(next)
  {
    AnswerKeepsQueue(s, StoreNext(s).value.host);
  }

  lemma ConfirmKeepsLoop(s: State, c: Checkpoint, ok: bool)
    requires ChildrenInv(s) && GateInv(s) && QueueInv(s) && s.queue != [] && s.queue[0].call.Confirm?
    ensures
      var next := AfterConfirm(s.(queue := s.queue[1..]), c, s.queue[0].awaited, ok);
      ChildrenInv(next) && GateInv(next) && QueueInv(next)
  {
    var next := AfterConfirm(s.(queue := s.queue[1..]), c, s.queue[0].awaited, ok);
    AnswerKeepsQueue(s, next.host);
    SameGateKeepsGate(s, next);
  }

  lemma StoreKeepsLoop(s: State)
    requires ChildrenInv(s) && GateInv(s) && QueueInv(s) && StoreNext(s).Some?
    ensures var next := StoreNext(s).value; ChildrenInv(next) && GateInv(next) && QueueInv(next)
  {
    match s.queue[0].call
    case Ask(r) => RequestKeepsLoop(s, Apply(s.table, r).0, Apply(s.table, r).1, Claims(s.table, r));
    case Look(_) => LookKeepsLoop(s);
    case Confirm(c, acceptable) =>
      ConfirmKeepsLoop(s, c, acceptable && Current(s.table, c.job.id, c.job.attempt) && s.table[c.job.id].phase.Running?);
  }

  lemma StoreKeepsTable(s: State)
    requires ValidTable(s.table) && StoreNext(s).Some?
    ensures ValidTable(StoreNext(s).value.table)
  {
    if s.queue[0].call.Ask? {
      ApplyKeepsValid(s.table, s.queue[0].call.request);
    }
  }

  // ----- The log -----

  lemma CountAppend(tries: seq<Try>, t: Try, id: Id)
    ensures Count(tries + [t], id) == Count(tries, id) + if t.id == id then 1 else 0
  {
    assert (tries + [t])[..|tries|] == tries;
  }

  /** One more claim is covered by one more attempt used up. */
  lemma RequestKeepsLog(s: State, r: Request, awaited: bool, t: Table, ok: bool, claims: bool)
    requires LogInv(s) && (claims ==> r.Claim?) && (s.host.AwaitingClaim? && awaited && r.Claim? ==> s.host.job.id == r.id)
    requires forall id :: TriedIn(t, id) >= TriedIn(s.table, id) + if claims && r.id == id then 1 else 0
    requires s.host.AwaitingClaim? && awaited ==> r.Claim?
    ensures LogInv(AfterRequest(s, r, awaited, t, ok, claims))
  {
    var next := AfterRequest(s, r, awaited, t, ok, claims);
    if claims {
      forall id
        ensures Count(next.log.claimed, id) == Count(s.log.claimed, id) + if r.id == id then 1 else 0
      {
        CountAppend(s.log.claimed, Try(r.id, r.attempt), id);
      }
    }
  }

  lemma RequestUsesAttempts(t: Table, r: Request)
    requires ValidTable(t)
    ensures forall id :: TriedIn(Apply(t, r).0, id) >= TriedIn(t, id) + if Claims(t, r) && r.id == id then 1 else 0
  {
    forall id
      ensures TriedIn(Apply(t, r).0, id) >= TriedIn(t, id) + if Claims(t, r) && r.id == id then 1 else 0
    {
      if id in t {
        ApplyIsMonotone(t, r, id);
      }
    }
  }

  lemma ConfirmKeepsLog(s: State, c: Checkpoint, awaited: bool, ok: bool)
    requires LogInv(s)
    ensures LogInv(AfterConfirm(s, c, awaited, ok))
  {
  }

  lemma StoreKeepsLog(s: State)
    requires LogInv(s) && QueueInv(s) && ValidTable(s.table) && StoreNext(s).Some?
    ensures LogInv(StoreNext(s).value)
  {
    var rest := s.(queue := s.queue[1..]);
    match s.queue[0].call
    case Ask(r) =>
      RequestUsesAttempts(s.table, r);
      RequestKeepsLog(rest, r, s.queue[0].awaited, Apply(s.table, r).0, Apply(s.table, r).1, Claims(s.table, r));
    case Look(_) =>
    case Confirm(c, acceptable) =>
      ConfirmKeepsLog(rest, c, s.queue[0].awaited,
        acceptable && Current(s.table, c.job.id, c.job.attempt) && s.table[c.job.id].phase.Running?);
  }

  lemma SpawnKeepsLog(s: State, spawned: bool)
    requires LogInv(s) && s.host.Claimed?
    ensures LogInv(ExecuteNext(s, HostSpawn(spawned)).value)
  {
    forall id
      ensures Count(s.log.spawned + [s.host.job], id) == Count(s.log.spawned, id) + if s.host.job.id == id then 1 else 0
    {
      CountAppend(s.log.spawned, s.host.job, id);
    }
  }

  /** Neither the store nor a worker has done anything. */
  lemma SameLogKeepsLog(s: State, t: State)
    requires LogInv(s) && t.log == s.log && t.table == s.table
    requires (t.host.Claimed? ==> t.host == s.host) && (t.host.Acknowledging? ==> t.host == s.host)
    ensures LogInv(t)
  {
  }

  lemma AdmitKeepsLog(s: State, a: Action)
    requires LogInv(s) && AdmitNext(s, a).Some?
    ensures LogInv(AdmitNext(s, a).value)
  {
    var t := AdmitNext(s, a).value;
    SameLogKeepsLog(s, t);
  }

  lemma AckKeepsLog(s: State, sent: bool)
    requires LogInv(s) && s.host.Acknowledging?
    ensures LogInv(ExecuteNext(s, HostAck(sent)).value)
  {
  }

  lemma ExecuteKeepsLog(s: State, a: Action)
    requires LogInv(s) && ExecuteNext(s, a).Some?
    ensures LogInv(ExecuteNext(s, a).value)
  {
    if a.HostSpawn? {
      SpawnKeepsLog(s, a.spawned);
    } else if a.HostAck? {
      AckKeepsLog(s, a.sent);
    } else {
      var t := ExecuteNext(s, a).value;
      SameLogKeepsLog(s, t);
    }
  }

  lemma ClosingKeepsLog(s: State, stale: bool, accepted: bool)
    requires LogInv(s) && s.host.Closing?
    ensures LogInv(CloseNext(s, HostClose(stale, accepted)).value)
  {
    CloseAttemptAsks(s, stale, accepted);
    SameLogKeepsLog(s, CloseAttempt(s, stale, accepted));
  }

  lemma CloseKeepsLog(s: State, a: Action)
    requires LogInv(s) && CloseNext(s, a).Some?
    ensures LogInv(CloseNext(s, a).value)
  {
    match a
    case HostClose(stale, accepted) => ClosingKeepsLog(s, stale, accepted);
    case HostStopWorker(_, _) => SameLogKeepsLog(s, CloseNext(s, a).value);
    case HostRelease => SameLogKeepsLog(s, CloseNext(s, a).value);
    case HostLose => SameLogKeepsLog(s, CloseNext(s, a).value);
  }

  lemma OutsideKeepsLog(s: State, a: Action)
    requires LogInv(s) && OutsideNext(s, a).Some?
    ensures LogInv(OutsideNext(s, a).value)
  {
  }

  // ----- Every run -----

  lemma AdmitKeepsTable(s: State, a: Action)
    requires AdmitNext(s, a).Some?
    ensures AdmitNext(s, a).value.table == s.table && AdmitNext(s, a).value.log == s.log
  {
  }

  lemma ExecuteKeepsTable(s: State, a: Action)
    requires ExecuteNext(s, a).Some?
    ensures ExecuteNext(s, a).value.table == s.table && ExecuteNext(s, a).value.log.claimed == s.log.claimed
  {
    match a
    case HostSpawn(_) =>
    case HostLook(_) =>
    case HostConfirm(_, _, _) =>
    case HostAck(_) =>
    case HostEnd(_) =>
  }

  /** The loop waits for a claim only from the step that makes it. */
  lemma ExecuteClaimsNothing(s: State, a: Action)
    requires ExecuteNext(s, a).Some?
    ensures !ExecuteNext(s, a).value.host.AwaitingClaim? && ClaimInv(ExecuteNext(s, a).value)
  {
    match a
    case HostSpawn(_) =>
    case HostLook(_) =>
    case HostConfirm(_, _, _) =>
    case HostAck(_) =>
    case HostEnd(_) =>
  }

  lemma CloseClaimsNothing(s: State, a: Action)
    requires CloseNext(s, a).Some?
    ensures !CloseNext(s, a).value.host.AwaitingClaim? && ClaimInv(CloseNext(s, a).value)
  {
    match a
    case HostStopWorker(_, _) =>
    case HostClose(stale, accepted) => CloseAttemptAsks(s, stale, accepted);
    case HostRelease =>
    case HostLose =>
  }

  lemma InvHolds(t: State)
    requires ChildrenInv(t) && GateInv(t) && QueueInv(t) && ClaimInv(t) && ValidTable(t.table) && LogInv(t)
    ensures Inv(t)
  {
  }

  lemma AdmitKeepsInv(s: State, a: Action)
    requires Inv(s) && AdmitNext(s, a).Some?
    ensures Inv(AdmitNext(s, a).value)
  {
    AdmitKeepsTable(s, a);
    AdmitKeepsChildren(s, a);
    AdmitKeepsGate(s, a);
    AdmitKeepsQueue(s, a);
    AdmitKeepsClaim(s, a);
    AdmitKeepsLog(s, a);
  }

  lemma ExecuteKeepsInv(s: State, a: Action)
    requires Inv(s) && ExecuteNext(s, a).Some?
    ensures Inv(ExecuteNext(s, a).value)
  {
    ExecuteKeepsTable(s, a);
    ExecuteKeepsChildren(s, a);
    ExecuteKeepsGate(s, a);
    ExecuteKeepsQueue(s, a);
    ExecuteClaimsNothing(s, a);
    ExecuteKeepsLog(s, a);
    InvHolds(ExecuteNext(s, a).value);
  }

  /** Closing an attempt only asks the store. */
  lemma CloseAttemptAsks(s: State, stale: bool, accepted: bool)
    requires s.host.Closing?
    ensures
      var t := CloseAttempt(s, stale, accepted);
      t == s.(queue := t.queue, host := t.host) && (t.host.Releasing? || t.host.AwaitingFinish? || t.host.Closing?)
  {
  }

  lemma StopKeepsTable(s: State, confirmed: bool, accepted: bool)
    requires s.host.Ending?
    ensures
      var t := CloseNext(s, HostStopWorker(confirmed, accepted)).value;
      t.table == s.table && t.log == s.log
  {
  }

  /** Only the store changes jobs, or claims one. */
  lemma CloseKeepsTable(s: State, a: Action)
    requires CloseNext(s, a).Some?
    ensures CloseNext(s, a).value.table == s.table && CloseNext(s, a).value.log == s.log
  {
    match a
    case HostStopWorker(confirmed, accepted) => StopKeepsTable(s, confirmed, accepted);
    case HostClose(stale, accepted) => CloseAttemptAsks(s, stale, accepted);
    case HostRelease =>
    case HostLose =>
  }

  lemma SpeakerKeepsInv(s: State, a: Action)
    requires Inv(s) && SpeakerNext(s, a).Some?
    ensures Inv(SpeakerNext(s, a).value)
  {
    SpeakerKeepsGate(s, a);
    var t := SpeakerNext(s, a).value;
    assert t == s.(gate := t.gate, speaker := t.speaker);
  }

  lemma CloseKeepsInv(s: State, a: Action)
    requires Inv(s) && CloseNext(s, a).Some?
    ensures Inv(CloseNext(s, a).value)
  {
    CloseKeepsTable(s, a);
    CloseKeepsChildren(s, a);
    CloseKeepsGate(s, a);
    CloseKeepsQueue(s, a);
    CloseClaimsNothing(s, a);
    CloseKeepsLog(s, a);
    InvHolds(CloseNext(s, a).value);
  }

  lemma OutsideKeepsInv(s: State, a: Action)
    requires Inv(s) && OutsideNext(s, a).Some?
    ensures Inv(OutsideNext(s, a).value)
  {
    OutsideKeepsChildren(s, a);
    OutsideKeepsGate(s, a);
    OutsideKeepsQueue(s, a);
    OutsideKeepsClaim(s, a);
    OutsideKeepsLog(s, a);
  }

  lemma StoreKeepsInv(s: State)
    requires Inv(s) && StoreNext(s).Some?
    ensures Inv(StoreNext(s).value)
  {
    StoreKeepsLoop(s);
    StoreKeepsClaim(s);
    StoreKeepsTable(s);
    StoreKeepsLog(s);
  }

  lemma StepKeepsInv(s: State, a: Action)
    requires Inv(s) && Next(s, a).Some?
    ensures Inv(Next(s, a).value)
  {
    if IsAdmit(a) {
      AdmitKeepsInv(s, a);
    } else if IsExecute(a) {
      ExecuteKeepsInv(s, a);
    } else if IsClose(a) {
      CloseKeepsInv(s, a);
    } else if a.StoreRun? {
      StoreKeepsInv(s);
    } else if IsSpeaker(a) {
      SpeakerKeepsInv(s, a);
    } else {
      OutsideKeepsInv(s, a);
    }
  }

  lemma {:induction false} RunKeepsInv(s: State, schedule: seq<Action>)
    requires Inv(s) && Run(s, schedule).Some?
    ensures Inv(Run(s, schedule).value)
  {
    if schedule != [] {
      RunKeepsInv(s, schedule[..|schedule| - 1]);
      StepKeepsInv(Run(s, schedule[..|schedule| - 1]).value, schedule[|schedule| - 1]);
    }
  }

  lemma ReachableKeepsInv(s: State)
    requires Reachable(s)
    ensures Inv(s)
  {
    var s0 :| Initial(s0) && Reaches(s0, s);
    var schedule :| Run(s0, schedule) == Some(s);
    RunKeepsInv(s0, schedule);
  }

  // ----- What the loop promises -----

  /** One worker process at most, and the gate counts it: the permit is given back only once its exit is confirmed. */
  lemma AtMostOneChild(s: State)
    requires Reachable(s)
    ensures |s.children| <= 1
    ensures s.children != multiset{} ==> s.gate.background && s.speaker.NoPermit?
  {
    ReachableKeepsInv(s);
  }

  /** So live capture is granted the machine only while no process of either owner is left, and none starts before it is ready. */
  lemma CaptureStartsAlone(s: State)
    requires Reachable(s) && s.owner.Granted?
    ensures s.children == multiset{} && s.speaker.NoPermit?
    ensures forall job, eligible, pressed :: Next(s, HostAdmit(job, eligible, pressed)).None?
    ensures forall pressed :: Next(s, SpeakerAdmit(pressed)).None?
  {
    ReachableKeepsInv(s);
  }

  /** A checkpoint is acknowledged to the worker only after the store has it. */
  lemma AcksAreConfirmed(s: State)
    requires Reachable(s)
    ensures s.log.acked <= s.log.confirmed
  {
    ReachableKeepsInv(s);
  }

  /** Whatever is retried or requeued, a job gets no more workers than attempts. */
  lemma SpawnsAreBounded(s: State, id: Id)
    requires Reachable(s)
    ensures Count(s.log.spawned, id) <= Count(s.log.claimed, id)
    ensures Count(s.log.claimed, id) <= if id in s.table then s.table[id].maxAttempts else 0
  {
    ReachableKeepsInv(s);
    assert Count(s.log.claimed, id) <= TriedIn(s.table, id);
  }

  // ----- After a worker whose exit is not confirmed -----

  /** The loop has lost a worker: it is about to stop for good, and no claim is on its way. */
  ghost predicate Uncontained(s: State) {
    && (Lost(s.host) || (s.host.Finished? && !s.contained))
    && forall i :: 0 <= i < |s.queue| ==> !IsClaim(s.queue[i])
  }

  lemma LostIsUncontained(s: State)
    requires Inv(s) && Lost(s.host)
    ensures Uncontained(s)
  {
  }

  /** Nothing was started or claimed from `s` to `t`. */
  ghost predicate NothingNew(s: State, t: State) {
    t.children == s.children && t.log.claimed == s.log.claimed && t.log.spawned == s.log.spawned
  }

  lemma UncontainedStoreStep(s: State)
    requires Uncontained(s) && StoreNext(s).Some?
    ensures var t := StoreNext(s).value; Uncontained(t) && NothingNew(s, t)
  {
    assert !IsClaim(s.queue[0]);
    assert forall i :: 0 <= i < |s.queue| - 1 ==> s.queue[1..][i] == s.queue[i + 1];
  }

  lemma UncontainedCloseStep(s: State, a: Action)
    requires ChildrenInv(s) && Uncontained(s) && CloseNext(s, a).Some?
    ensures var t := CloseNext(s, a).value; Uncontained(t) && NothingNew(s, t)
  {
  }

  lemma UncontainedOutsideStep(s: State, a: Action)
    requires Uncontained(s) && OutsideNext(s, a).Some?
    ensures var t := OutsideNext(s, a).value; Uncontained(t) && NothingNew(s, t)
  {
  }

  lemma UncontainedSpeakerStep(s: State, a: Action)
    requires Uncontained(s) && SpeakerNext(s, a).Some?
    ensures var t := SpeakerNext(s, a).value; Uncontained(t) && NothingNew(s, t)
  {
  }

  lemma UncontainedStep(s: State, a: Action)
    requires Inv(s) && Uncontained(s) && Next(s, a).Some?
    ensures var t := Next(s, a).value; Uncontained(t) && NothingNew(s, t)
  {
    if IsClose(a) {
      UncontainedCloseStep(s, a);
    } else if a.StoreRun? {
      UncontainedStoreStep(s);
    } else if IsSpeaker(a) {
      UncontainedSpeakerStep(s, a);
    } else if !IsAdmit(a) && !IsExecute(a) {
      UncontainedOutsideStep(s, a);
    }
  }

  lemma {:induction false} UncontainedRun(s: State, schedule: seq<Action>)
    requires Inv(s) && Uncontained(s) && Run(s, schedule).Some?
    ensures var t := Run(s, schedule).value; Uncontained(t) && NothingNew(s, t) && t.gate.background
  {
    RunKeepsInv(s, schedule);
    if schedule != [] {
      UncontainedRun(s, schedule[..|schedule| - 1]);
      RunKeepsInv(s, schedule[..|schedule| - 1]);
      UncontainedStep(Run(s, schedule[..|schedule| - 1]).value, schedule[|schedule| - 1]);
    }
  }

  /**
    Once a worker's exit could not be confirmed, nothing is claimed or started in any continuation,
    not even by a claim the store answers late, and the permit stays taken.
   */
  lemma NothingAfterUncontained(s: State, schedule: seq<Action>)
    requires Reachable(s) && Lost(s.host) && Run(s, schedule).Some?
    ensures var t := Run(s, schedule).value; NothingNew(s, t) && t.gate.background
  {
    ReachableKeepsInv(s);
    LostIsUncontained(s);
    UncontainedRun(s, schedule);
  }

  // ----- Shutdown -----

  ghost predicate StillFinished(s: State, t: State) {
    t.host.Finished? && t.children == s.children && t.log.spawned == s.log.spawned && t.contained == s.contained
  }

  lemma FinishedStoreStep(s: State)
    requires s.host.Finished? && StoreNext(s).Some?
    ensures StillFinished(s, StoreNext(s).value)
  {
  }

  lemma FinishedStep(s: State, a: Action)
    requires s.host.Finished? && Next(s, a).Some?
    ensures StillFinished(s, Next(s, a).value)
  {
    if a.StoreRun? {
      FinishedStoreStep(s);
    }
  }

  lemma UnfinishedStep(s: State, a: Action)
    requires !s.host.Finished? && !s.completed && Next(s, a).Some?
    ensures !Next(s, a).value.completed
  {
  }

  /** `shutdown_complete` answers true only with the loop gone, and then no worker is ever started. */
  ghost predicate CompletedInv(s: State) {
    s.completed ==> s.host.Finished?
  }

  lemma CompletedStep(s: State, a: Action)
    requires CompletedInv(s) && Next(s, a).Some?
    ensures CompletedInv(Next(s, a).value)
  {
    if s.host.Finished? {
      FinishedStep(s, a);
    } else {
      UnfinishedStep(s, a);
    }
  }

  lemma {:induction false} CompletedRun(s: State, schedule: seq<Action>)
    requires Inv(s) && CompletedInv(s) && Run(s, schedule).Some?
    ensures CompletedInv(Run(s, schedule).value)
  {
    if schedule != [] {
      CompletedRun(s, schedule[..|schedule| - 1]);
      RunKeepsInv(s, schedule[..|schedule| - 1]);
      CompletedStep(Run(s, schedule[..|schedule| - 1]).value, schedule[|schedule| - 1]);
    }
  }

  lemma {:induction false} FinishedRun(s: State, schedule: seq<Action>)
    requires s.host.Finished? && Run(s, schedule).Some?
    ensures StillFinished(s, Run(s, schedule).value)
  {
    if schedule != [] {
      FinishedRun(s, schedule[..|schedule| - 1]);
      FinishedStep(Run(s, schedule[..|schedule| - 1]).value, schedule[|schedule| - 1]);
    }
  }

  lemma NothingStartsAfterShutdownComplete(s: State, schedule: seq<Action>)
    requires Reachable(s) && s.completed && Run(s, schedule).Some?
    ensures Run(s, schedule).value.log.spawned == s.log.spawned
    ensures Run(s, schedule).value.children == s.children
  {
    var s0 :| Initial(s0) && Reaches(s0, s);
    var first :| Run(s0, first) == Some(s);
    CompletedRun(s0, first);
    ReachableKeepsInv(s);
    FinishedRun(s, schedule);
  }

  lemma ReachesSelf(s: State)
    ensures Reaches(s, s)
  {
    assert Run(s, []) == Some(s);
  }

  lemma RunStep(s: State, schedule: seq<Action>, a: Action)
    requires Run(s, schedule).Some?
    ensures Run(s, schedule + [a]) == Next(Run(s, schedule).value, a)
  {
    assert (schedule + [a])[..|schedule|] == schedule;
  }

  lemma ReachesNext(s: State, t: State, a: Action, u: State)
    requires Reaches(s, t) && Next(t, a) == Some(u)
    ensures Reaches(s, u)
  {
    var schedule :| Run(s, schedule) == Some(t);
    RunStep(s, schedule, a);
  }

  lemma {:induction false} RunAppend(s: State, first: seq<Action>, second: seq<Action>)
    requires Run(s, first).Some?
    ensures Run(s, first + second) == Run(Run(s, first).value, second)
  {
    if second == [] {
      assert first + second == first;
    } else {
      var before, a := second[..|second| - 1], second[|second| - 1];
      assert first + second == (first + before) + [a];
      RunAppend(s, first, before);
      if Run(s, first + before).Some? {
        RunStep(s, first + before, a);
      } else {
        assert (first + second)[..|first + before|] == first + before;
      }
    }
  }

  lemma ReachesTransitive(s: State, t: State, u: State)
    requires Reaches(s, t) && Reaches(t, u)
    ensures Reaches(s, u)
  {
    var first :| Run(s, first) == Some(t);
    var second :| Run(t, second) == Some(u);
    RunAppend(s, first, second);
  }

  // ----- Runs in which the loop passes over jobs in silence -----

  ghost predicate Quiet(schedule: seq<Action>) {
    forall i :: 0 <= i < |schedule| && schedule[i].HostSkip? ==> schedule[i].request.None?
  }

  ghost predicate ReachesQuietly(s: State, t: State) {
    exists schedule :: Quiet(schedule) && Run(s, schedule) == Some(t)
  }

  lemma QuietSelf(s: State)
    ensures ReachesQuietly(s, s)
  {
    assert Quiet([]) && Run(s, []) == Some(s);
  }

  lemma QuietNext(s: State, t: State, a: Action, u: State)
    requires ReachesQuietly(s, t) && Next(t, a) == Some(u) && (a.HostSkip? ==> a.request.None?)
    ensures ReachesQuietly(s, u)
  {
    var schedule :| Quiet(schedule) && Run(s, schedule) == Some(t);
    RunStep(s, schedule, a);
    assert Quiet(schedule + [a]);
  }

  lemma QuietTransitive(s: State, t: State, u: State)
    requires ReachesQuietly(s, t) && ReachesQuietly(t, u)
    ensures ReachesQuietly(s, u)
  {
    var first :| Quiet(first) && Run(s, first) == Some(t);
    var second :| Quiet(second) && Run(t, second) == Some(u);
    RunAppend(s, first, second);
    assert Quiet(first + second);
  }

  lemma QuietKeepsInv(s: State, t: State)
    requires Inv(s) && ReachesQuietly(s, t)
    ensures Reaches(s, t) && Inv(t)
  {
    var schedule :| Quiet(schedule) && Run(s, schedule) == Some(t);
    RunKeepsInv(s, schedule);
  }

  // ----- What the queue will come to -----

  /** The loop owns a worker, is about to start one, or has just lost one that it has not yet reported. */
  predicate MayLoseWorker(h: Host) { OwnsWorker(h) || h.Claimed? || h.Losing? }

  /** The table once the store has run one queued closure. */
  function RunEntry(t: Table, e: Entry): Table {
    if e.call.Ask? then Apply(t, e.call.request).0 else t
  }

  /** The table once it has run all that is queued. */
  function TableAfter(t: Table, queue: seq<Entry>): Table
    decreases |queue|
  {
    if queue == [] then t else TableAfter(RunEntry(t, queue[0]), queue[1..])
  }

  /** The claim that running this closure grants. */
  function ClaimOf(t: Table, e: Entry): seq<Try> {
    if e.call.Ask? && Claims(t, e.call.request) then [Try(e.call.request.id, e.call.request.attempt)] else []
  }

  /** The claims that running all that is queued grants. */
  function ClaimsOf(t: Table, queue: seq<Entry>): seq<Try>
    decreases |queue|
  {
    if queue == [] then [] else ClaimOf(t, queue[0]) + ClaimsOf(RunEntry(t, queue[0]), queue[1..])
  }

  function After(s: State): Table { TableAfter(s.table, s.queue) }

  /** Every claim that was granted, or will be by what is queued. */
  function AllGranted(s: State): seq<Try> { s.log.claimed + ClaimsOf(s.table, s.queue) }

  /** The store will grant the claim the loop waits for. */
  predicate WillClaim(t: Table, queue: seq<Entry>)
    decreases |queue|
  {
    if queue == [] then false
    else if queue[0].awaited then queue[0].call.Ask? && Claims(t, queue[0].call.request)
    else WillClaim(RunEntry(t, queue[0]), queue[1..])
  }

  /**
    No job is active, and this attempt of this one is in the queue, or users can still put it there:
    by creating the job, or by retries, cancelling each attempt that is not over.
   */
  predicate Claimable(t: Table, job: Try) {
    && !AnyActive(t)
    && (if job.id !in t then 1 <= job.attempt <= 3
        else (
          || (InQueue(t[job.id]) && t[job.id].attempt == job.attempt)
          || (t[job.id].attempt < job.attempt <= t[job.id].maxAttempts && !t[job.id].phase.Succeeded?)))
  }

  /** A worker can still come to be lost: there is one, or one to be started, or the claim for one can be granted. */
  predicate MayStillLose(s: State) {
    match s.host
    case Permitted(job) => Claimable(After(s), job)
    case AwaitingClaim(_) => WillClaim(s.table, s.queue)
    case _ => MayLoseWorker(s.host)
  }

  lemma {:induction false} TableAfterAppend(t: Table, queue: seq<Entry>, e: Entry)
    ensures TableAfter(t, queue + [e]) == RunEntry(TableAfter(t, queue), e)
    decreases |queue|
  {
    if queue == [] {
      assert queue + [e] == [e] && [e][1..] == [];
    } else {
      assert (queue + [e])[1..] == queue[1..] + [e];
      TableAfterAppend(RunEntry(t, queue[0]), queue[1..], e);
    }
  }

  lemma {:induction false} GrantedAppend(t: Table, queue: seq<Entry>, e: Entry)
    ensures ClaimsOf(t, queue + [e]) == ClaimsOf(t, queue) + ClaimOf(TableAfter(t, queue), e)
    decreases |queue|
  {
    if queue == [] {
      assert queue + [e] == [e] && [e][1..] == [];
    } else {
      assert (queue + [e])[1..] == queue[1..] + [e];
      var t' := RunEntry(t, queue[0]);
      GrantedAppend(t', queue[1..], e);
      Regroup(ClaimOf(t, queue[0]), ClaimsOf(t', queue[1..]), ClaimOf(TableAfter(t, queue), e));
    }
  }

  lemma Regroup(a: seq<Try>, b: seq<Try>, c: seq<Try>)
    ensures a + (b + c) == (a + b) + c
  {
  }

  ghost predicate SameCalls(q: seq<Entry>, q': seq<Entry>) {
    |q| == |q'| && forall i :: 0 <= i < |q| ==> q[i].call == q'[i].call
  }

  /** Who waits does not matter to the store. */
  lemma {:induction false} SameCallsRun(t: Table, q: seq<Entry>, q': seq<Entry>)
    requires SameCalls(q, q')
    ensures TableAfter(t, q) == TableAfter(t, q') && ClaimsOf(t, q) == ClaimsOf(t, q')
    decreases |q|
  {
    if q != [] {
      SameCallsRun(RunEntry(t, q[0]), q[1..], q'[1..]);
    }
  }

  lemma StoreRunsHead(s: State)
    requires StoreNext(s).Some?
    ensures StoreNext(s).value.table == RunEntry(s.table, s.queue[0]) && StoreNext(s).value.queue == s.queue[1..]
    ensures StoreNext(s).value.log.claimed == s.log.claimed + ClaimOf(s.table, s.queue[0])
  {
    match s.queue[0].call
    case Ask(_) =>
    case Look(_) =>
    case Confirm(_, _) =>
  }

  /** Running the oldest closure brings nothing about that was not on its way. */
  lemma StoreGrants(s: State)
    requires StoreNext(s).Some?
    ensures After(StoreNext(s).value) == After(s) && AllGranted(StoreNext(s).value) == AllGranted(s)
  {
    var e := s.queue[0];
    StoreRunsHead(s);
    Regroup(s.log.claimed, ClaimOf(s.table, e), ClaimsOf(RunEntry(s.table, e), s.queue[1..]));
  }

  ghost predicate NoneAwaited(queue: seq<Entry>) {
    forall i :: 0 <= i < |queue| ==> !queue[i].awaited
  }

  /** The claim comes last, so the store decides it on the table it will have then. */
  lemma {:induction false} WillClaimLast(t: Table, queue: seq<Entry>, e: Entry)
    requires NoneAwaited(queue) && e.awaited && e.call.Ask?
    ensures WillClaim(t, queue + [e]) <==> Claims(TableAfter(t, queue), e.call.request)
    decreases |queue|
  {
    if queue == [] {
      assert queue + [e] == [e];
    } else {
      assert (queue + [e])[1..] == queue[1..] + [e];
      WillClaimLast(RunEntry(t, queue[0]), queue[1..], e);
    }
  }

  /** What is queued behind it does not matter. */
  lemma {:induction false} WillClaimAppend(t: Table, queue: seq<Entry>, e: Entry)
    requires !e.awaited
    ensures WillClaim(t, queue + [e]) <==> WillClaim(t, queue)
    decreases |queue|
  {
    if queue == [] {
      assert queue + [e] == [e] && [e][1..] == [];
    } else {
      assert (queue + [e])[1..] == queue[1..] + [e];
      if !queue[0].awaited {
        WillClaimAppend(RunEntry(t, queue[0]), queue[1..], e);
      }
    }
  }

  lemma UsersActivateNothing(t: Table, r: Request)
    requires r.Create? || r.Cancel? || r.Retry?
    ensures AnyActive(Apply(t, r).0) <==> AnyActive(t)
  {
    var t' := Apply(t, r).0;
    if AnyActive(t) {
      var id :| id in t && Active(t[id]);
      assert id in t' && Active(t'[id]);
    }
  }

  /** Users cannot make an attempt claimable that they could not make claimable before. */
  lemma UsersKeepUnclaimable(t: Table, r: Request, job: Try)
    requires !Claimable(t, job) && (r.Create? || r.Cancel? || r.Retry?)
    ensures !Claimable(Apply(t, r).0, job)
  {
    UsersActivateNothing(t, r);
  }

  lemma ClaimedIsClaimable(t: Table, job: Try, late: bool, stale: bool)
    requires Claims(t, Claim(job.id, job.attempt, late, stale))
    ensures Claimable(t, job)
  {
  }

  /** No worker can be lost any more, or that was recorded before any poll looked. */
  ghost predicate Settled(s: State) {
    && s.stopped && s.gate.shutdown && !MayStillLose(s)
    && (s.contained || (!s.poll.SawContained? && !s.completed))
  }

  /** The loop has neither a permit it could still use nor a worker. */
  predicate Harmless(h: Host) { !h.Permitted? && !h.AwaitingClaim? && !MayLoseWorker(h) }

  lemma SettledStoreStep(s: State)
    requires Settled(s) && QueueInv(s) && StoreNext(s).Some?
    ensures Settled(StoreNext(s).value)
  {
    if s.host.Permitted? {
      assert !s.queue[0].awaited;
      assert StoreNext(s).value.table == RunEntry(s.table, s.queue[0]);
    } else if s.host.AwaitingClaim? {
      SettledClaimStep(s);
    } else {
      assert Harmless(s.host) && Harmless(StoreNext(s).value.host);
    }
  }

  lemma SettledClaimStep(s: State)
    requires Settled(s) && QueueInv(s) && s.host.AwaitingClaim? && StoreNext(s).Some?
    ensures Settled(StoreNext(s).value)
  {
    var e := s.queue[0];
    if e.awaited {
      assert e.call.Ask? && !Claims(s.table, e.call.request);
    } else {
      assert StoreNext(s).value.table == RunEntry(s.table, e);
    }
  }

  lemma SettledAdmitStep(s: State, a: Action)
    requires Settled(s) && QueueInv(s) && AdmitNext(s, a).Some?
    ensures Settled(AdmitNext(s, a).value)
  {
    if a.HostClaim? {
      var job := s.host.job;
      var e := Entry(Ask(Claim(job.id, job.attempt, a.late, a.stale)), true);
      NothingAwaited(s);
      WillClaimLast(s.table, s.queue, e);
      if Claims(TableAfter(s.table, s.queue), e.call.request) {
        ClaimedIsClaimable(TableAfter(s.table, s.queue), job, a.late, a.stale);
      }
    } else {
      assert Harmless(AdmitNext(s, a).value.host);
    }
  }

  lemma SettledCloseStep(s: State, a: Action)
    requires Inv(s) && Settled(s) && CloseNext(s, a).Some?
    ensures Settled(CloseNext(s, a).value)
  {
    assert Harmless(s.host) && Harmless(CloseNext(s, a).value.host);
  }

  lemma SettledAskStep(s: State, r: Request)
    requires Settled(s) && (r.Create? || r.Cancel? || r.Retry?)
    ensures Settled(Submit(s, r))
  {
    var e := Entry(Ask(r), false);
    if s.host.Permitted? {
      TableAfterAppend(s.table, s.queue, e);
      UsersKeepUnclaimable(TableAfter(s.table, s.queue), r, s.host.job);
    } else if s.host.AwaitingClaim? {
      WillClaimAppend(s.table, s.queue, e);
    }
  }

  lemma SettledOutsideStep(s: State, a: Action)
    requires Inv(s) && Settled(s) && OutsideNext(s, a).Some?
    ensures Settled(OutsideNext(s, a).value)
  {
    if a.UserAsk? {
      SettledAskStep(s, a.r);
    } else {
      var t := OutsideNext(s, a).value;
      assert t.host == s.host && t.queue == s.queue && t.table == s.table;
    }
  }

  lemma SettledSpeakerStep(s: State, a: Action)
    requires Settled(s) && SpeakerNext(s, a).Some?
    ensures Settled(SpeakerNext(s, a).value)
  {
    var t := SpeakerNext(s, a).value;
    assert t.host == s.host && t.queue == s.queue && t.table == s.table;
  }

  lemma SettledStep(s: State, a: Action)
    requires Inv(s) && Settled(s) && Next(s, a).Some?
    ensures Settled(Next(s, a).value)
  {
    if IsAdmit(a) {
      SettledAdmitStep(s, a);
    } else if IsClose(a) {
      SettledCloseStep(s, a);
    } else if a.StoreRun? {
      SettledStoreStep(s);
    } else if IsSpeaker(a) {
      SettledSpeakerStep(s, a);
    } else if !IsExecute(a) {
      SettledOutsideStep(s, a);
    }
  }

  lemma {:induction false} SettledRun(s: State, schedule: seq<Action>)
    requires Inv(s) && Settled(s) && Run(s, schedule).Some?
    ensures Settled(Run(s, schedule).value)
  {
    if schedule != [] {
      SettledRun(s, schedule[..|schedule| - 1]);
      RunKeepsInv(s, schedule[..|schedule| - 1]);
      SettledStep(Run(s, schedule[..|schedule| - 1]).value, schedule[|schedule| - 1]);
    }
  }

  // ----- A claim that can still be granted is granted in some run -----

  lemma OneEntry(e: Entry)
    ensures [] + [e] == [e] && [e][1..] == []
  {
  }

  /** The store runs what is queued; the loop, with its permit, does not notice. */
  lemma {:induction false} QueueIsRun(s: State) returns (t: State)
    requires s.host.Permitted?
    ensures ReachesQuietly(s, t) && t == s.(queue := [], table := After(s), log := t.log) && t.log.claimed == AllGranted(s)
    decreases |s.queue|
  {
    QuietSelf(s);
    if s.queue == [] {
      t := s;
    } else {
      var u := StoreNext(s).value;
      StoreRunsHead(s);
      StoreGrants(s);
      assert u == s.(queue := s.queue[1..], table := u.table, log := u.log);
      QuietNext(s, s, StoreRun, u);
      t := QueueIsRun(u);
      QuietTransitive(s, u, t);
    }
  }

  /** A user's request is made and run. */
  lemma UserIsAnswered(s: State, r: Request) returns (t: State)
    requires s.host.Permitted? && s.queue == [] && (r.Create? || r.Cancel? || r.Retry?)
    ensures ReachesQuietly(s, t) && t == s.(table := Apply(s.table, r).0)
  {
    QuietSelf(s);
    var asked := Submit(s, r);
    OneEntry(Entry(Ask(r), false));
    QuietNext(s, s, UserAsk(r), asked);
    t := s.(table := Apply(s.table, r).0);
    QuietNext(s, asked, StoreRun, t);
  }

  predicate ReadyToClaim(t: Table, job: Try) {
    !AnyActive(t) && job.id in t && InQueue(t[job.id]) && t[job.id].attempt == job.attempt
  }

  /** Nothing but the table differs, and in it at most this job. */
  lemma StaysInactive(t: Table, id: Id, j: Job)
    requires !AnyActive(t) && !Active(j)
    ensures !AnyActive(t[id := j])
  {
  }

  lemma CreateAlone(t: Table, id: Id)
    requires id !in t
    ensures Apply(t, Create(id, 3, {})).0 == t[id := Job(Queued, 1, 3)]
  {
  }

  /** One retry, after a cancel if the attempt is not over. */
  lemma AttemptIsRetried(s: State, job: Try) returns (t: State)
    requires s.host == Permitted(job) && s.queue == [] && Claimable(s.table, job)
    requires job.id in s.table && s.table[job.id].attempt < job.attempt
    ensures ReachesQuietly(s, t) && t == s.(table := t.table) && Claimable(t.table, job)
    ensures job.id in t.table && t.table[job.id].attempt == s.table[job.id].attempt + 1
  {
    QuietSelf(s);
    var j := s.table[job.id];
    var over := s;
    if InQueue(j) {
      over := UserIsAnswered(s, Cancel(job.id, j.attempt));
      StaysInactive(s.table, job.id, j.(phase := Cancelled));
    }
    var ended := over.table[job.id];
    assert MayRetry(ended) && !AnyActive(over.table);
    t := UserIsAnswered(over, Retry(job.id, j.attempt, false));
    StaysInactive(over.table, job.id, Retried(ended));
    QuietTransitive(s, over, t);
  }

  lemma {:induction false} AttemptsAreRetried(s: State, job: Try) returns (t: State)
    requires s.host == Permitted(job) && s.queue == [] && Claimable(s.table, job) && job.id in s.table
    ensures ReachesQuietly(s, t) && t == s.(table := t.table) && ReadyToClaim(t.table, job)
    decreases job.attempt - s.table[job.id].attempt
  {
    QuietSelf(s);
    if s.table[job.id].attempt == job.attempt {
      t := s;
    } else {
      var u := AttemptIsRetried(s, job);
      t := AttemptsAreRetried(u, job);
      QuietTransitive(s, u, t);
    }
  }

  lemma JobIsThere(s: State, job: Try) returns (t: State)
    requires s.host == Permitted(job) && s.queue == [] && Claimable(s.table, job)
    ensures ReachesQuietly(s, t) && t == s.(table := t.table) && Claimable(t.table, job) && job.id in t.table
  {
    QuietSelf(s);
    t := s;
    if job.id !in s.table {
      t := UserIsAnswered(s, Create(job.id, 3, {}));
      CreateAlone(s.table, job.id);
      StaysInactive(s.table, job.id, Job(Queued, 1, 3));
    }
  }

  lemma ClaimIsGranted(s: State, job: Try) returns (t: State)
    requires s.host == Permitted(job) && s.queue == [] && ReadyToClaim(s.table, job)
    ensures ReachesQuietly(s, t) && t.host.Claimed? && t.poll == s.poll && t.log.claimed == s.log.claimed + [job]
  {
    QuietSelf(s);
    var claim := Claim(job.id, job.attempt, false, false);
    OneEntry(Entry(Ask(claim), true));
    var waiting := s.(host := AwaitingClaim(job), queue := [Entry(Ask(claim), true)]);
    QuietNext(s, s, HostClaim(false, false, true), waiting);
    assert Claims(s.table, claim);
    t := StoreNext(waiting).value;
    QuietNext(s, waiting, StoreRun, t);
  }

  lemma PermitIsUsed(s: State) returns (t: State)
    requires s.host.Permitted? && Claimable(After(s), s.host.job)
    ensures ReachesQuietly(s, t) && t.host.Claimed? && t.poll == s.poll && t.log.claimed == AllGranted(s) + [s.host.job]
  {
    var job := s.host.job;
    var run := QueueIsRun(s);
    var there := JobIsThere(run, job);
    QuietTransitive(s, run, there);
    var ready := AttemptsAreRetried(there, job);
    QuietTransitive(s, there, ready);
    t := ClaimIsGranted(ready, job);
    QuietTransitive(s, ready, t);
  }

  /** Only the store and what it tells the loop have moved on. */
  ghost predicate OnlyStoreRan(s: State, t: State) {
    t == s.(table := t.table, queue := t.queue, host := t.host, log := t.log) && AllGranted(t) == AllGranted(s)
  }

  /** A claim on its way that the store will grant is granted if the loop only waits. */
  lemma {:induction false} ClaimIsAwaited(s: State) returns (t: State)
    requires QueueInv(s) && s.host.AwaitingClaim? && WillClaim(s.table, s.queue)
    ensures ReachesQuietly(s, t) && OnlyStoreRan(s, t) && t.host == Claimed(s.host.job)
    ensures Current(t.table, s.host.job.id, s.host.job.attempt) && Active(t.table[s.host.job.id])
    decreases |s.queue|
  {
    var u := HeadIsRun(s);
    if s.queue[0].awaited {
      t := u;
    } else {
      t := ClaimIsAwaited(u);
      QuietTransitive(s, u, t);
    }
  }

  lemma HeadIsRun(s: State) returns (t: State)
    requires QueueInv(s) && s.host.AwaitingClaim? && WillClaim(s.table, s.queue)
    ensures ReachesQuietly(s, t) && OnlyStoreRan(s, t) && t.queue == s.queue[1..] && QueueInv(t)
    ensures !s.queue[0].awaited ==> t.host == s.host && WillClaim(t.table, t.queue)
    ensures s.queue[0].awaited ==>
              t.host == Claimed(s.host.job) && Current(t.table, s.host.job.id, s.host.job.attempt) && Active(t.table[s.host.job.id])
  {
    QuietSelf(s);
    t := StoreNext(s).value;
    QuietNext(s, s, StoreRun, t);
    StoreRunsHead(s);
    StoreGrants(s);
    HeadAnswered(s);
    AnswerKeepsQueue(s, t.host);
  }

  lemma HeadAnswered(s: State)
    requires QueueInv(s) && s.host.AwaitingClaim? && WillClaim(s.table, s.queue)
    ensures
      var t := StoreNext(s).value;
      && t == s.(table := t.table, queue := t.queue, host := t.host, log := t.log)
      && if s.queue[0].awaited
         then t.host == Claimed(s.host.job) && Current(t.table, s.host.job.id, s.host.job.attempt) && Active(t.table[s.host.job.id])
         else t.host == s.host
  {
    match s.queue[0].call
    case Ask(_) =>
    case Look(_) =>
    case Confirm(_, _) =>
  }

  /** From a worker that is to be stopped to having lost it, with the poll in between. */
  lemma WorkerIsLost(s: State) returns (t: State)
    requires s.host.Ending? || s.host.Losing?
    requires s.contained && s.poll.NotPolling? && |s.children| == 1
    ensures Reaches(s, t) && t.completed && |t.children| == 1
  {
    ReachesSelf(s);
    var polling := s.(poll := SawContained);
    ReachesNext(s, s, PollStart, polling);
    var losing := polling;
    if s.host.Ending? {
      losing := Submit(polling, Interrupt(s.host.job.id, s.host.job.attempt)).(host := Losing);
      ReachesNext(s, polling, HostStopWorker(false, true), losing);
    }
    t := LoopEnds(losing);
    ReachesTransitive(s, losing, t);
  }

  /** The loop reports the lost worker and ends, and the poll sees it gone. */
  lemma LoopEnds(s: State) returns (t: State)
    requires s.host.Losing? && s.poll.SawContained?
    ensures Reaches(s, t) && t.completed && t.children == s.children
  {
    ReachesSelf(s);
    var stopping := s.(contained := false, host := Stopping);
    ReachesNext(s, s, HostLose, stopping);
    var finished := stopping.(stopped := true, host := Finished);
    ReachesNext(s, stopping, HostLose, finished);
    t := finished.(poll := NotPolling, completed := true);
    ReachesNext(s, finished, PollStep, t);
  }

  /** Every state with a worker can come to its stop. */
  lemma ReachEnding(s: State) returns (t: State)
    requires Inv(s) && MayLoseWorker(s.host) && s.poll.NotPolling?
    ensures Reaches(s, t)
    ensures (t.host.Ending? || t.host.Losing?) && t.poll.NotPolling? && t.contained && |t.children| == 1
  {
    ReachesSelf(s);
    t := s;
    if s.host.Claimed? {
      t := ExecuteNext(s, HostSpawn(true)).value;
      ReachesNext(s, s, HostSpawn(true), t);
      assert t.children == multiset{s.host.job};
    }
    var a := if Awaiting(s.host) then HostTimeout else if s.host.Acknowledging? then HostAck(false) else HostEnd(Erred);
    if !s.host.Ending? && !s.host.Losing? {
      var u := Next(t, a).value;
      ReachesNext(s, t, a, u);
      t := u;
    }
  }

  /** A poll that overlaps a worker that cannot be stopped: it reads contained, the worker is lost, the loop ends. */
  lemma ContainmentLostDuringPoll(s: State) returns (t: State)
    requires Inv(s) && MayLoseWorker(s.host) && s.poll.NotPolling?
    ensures Reaches(s, t) && t.completed && |t.children| == 1
  {
    var ending := ReachEnding(s);
    t := WorkerIsLost(ending);
    ReachesTransitive(s, ending, t);
  }

  /** Whatever stands in the way of a worker, a state that may still lose one can come to have one. */
  lemma ReachWorker(s: State) returns (t: State)
    requires Inv(s) && MayStillLose(s)
    ensures Reaches(s, t) && Inv(t) && MayLoseWorker(t.host) && t.poll == s.poll
  {
    QuietSelf(s);
    if s.host.Permitted? {
      t := PermitIsUsed(s);
    } else if s.host.AwaitingClaim? {
      t := ClaimIsAwaited(s);
    } else {
      t := s;
    }
    QuietKeepsInv(s, t);
  }

  /**
    What a true answer says about worker processes. Containment is read before the thread's end, so
    an answer proves that no worker is left, in every continuation, just when none can be lost as
    polling begins: the loop has no worker and is not about to start one, the claim it waits for
    will be refused on the table the store will have by then, and the claim it has a permit for
    would be.
   */
  lemma TrueAnswerProvesContainmentIff(s: State)
    requires Reachable(s) && s.stopped && s.gate.shutdown && s.poll.NotPolling? && !s.completed
    ensures (forall t :: Reaches(s, t) && t.completed ==> t.children == multiset{}) <==> !MayStillLose(s)
  {
    ReachableKeepsInv(s);
    if MayStillLose(s) {
      var u := ReachWorker(s);
      var t := ContainmentLostDuringPoll(u);
      ReachesTransitive(s, u, t);
    } else {
      forall t | Reaches(s, t) && t.completed
        ensures t.children == multiset{}
      {
        var schedule :| Run(s, schedule) == Some(t);
        SettledRun(s, schedule);
        RunKeepsInv(s, schedule);
        CompletedRun(s, schedule);
      }
    }
  }

  // ----- A job the loop has lost sight of -----

  /** This closure ends the attempt. A failure or a result does so only while no cancel request is recorded. */
  predicate EndsAttempt(e: Entry, job: Try, running: bool) {
    e.call.Ask?
    && (e.call.request.InterruptAll?
        || ((e.call.request.CompleteCancel? || e.call.request.Interrupt? || e.call.request.Requeue?
             || (running && (e.call.request.Fail? || e.call.request.Finish?)))
            && e.call.request.id == job.id && e.call.request.attempt == job.attempt))
  }

  predicate Handles(h: Host, job: Try) {
    (OwnsWorker(h) || h.Claimed? || h.Closing? || h.AwaitingFinish?) && h.job == job
  }

  /**
    Once the store has run what is queued the job will be active, and the loop does not have it and
    will not get it.
   */
  ghost predicate Stuck(s: State, job: Try) {
    && Current(After(s), job.id, job.attempt) && Active(After(s)[job.id])
    && !Handles(s.host, job) && !(s.host.AwaitingClaim? && WillClaim(s.table, s.queue))
  }

  /** What a request leaves of a job that it does not end. */
  ghost predicate StaysActive(t: Table, t': Table, job: Try)
    requires job.id in t
  {
    && Current(t', job.id, job.attempt) && Active(t'[job.id])
    && (t[job.id].phase.CancelRequested? ==> t'[job.id].phase.CancelRequested?)
  }

  /** No request claims a job beside this one, and this one ends it only as it says. */
  lemma StuckRequest(t: Table, r: Request, job: Try)
    requires Current(t, job.id, job.attempt) && Active(t[job.id])
    requires !EndsAttempt(Entry(Ask(r), false), job, t[job.id].phase.Running?)
    ensures !Claims(t, r) && StaysActive(t, Apply(t, r).0, job)
  {
    assert AnyActive(t);
  }

  /** The job is as stuck as it was, and no further claim is on its way. */
  ghost predicate StaysStuck(s: State, t: State, job: Try)
    requires Stuck(s, job)
  {
    Stuck(t, job) && AllGranted(t) == AllGranted(s) && StaysActive(After(s), After(t), job)
  }

  lemma StuckStoreStep(s: State, job: Try)
    requires QueueInv(s) && Stuck(s, job) && StoreNext(s).Some?
    ensures StaysStuck(s, StoreNext(s).value, job)
  {
    StoreRunsHead(s);
    StoreGrants(s);
    match s.queue[0].call
    case Ask(_) =>
    case Look(_) =>
    case Confirm(_, _) =>
  }

  /** The loop goes on with another job, or with none. */
  lemma StuckMoves(s: State, t: State, job: Try)
    requires Stuck(s, job) && t.table == s.table && t.queue == s.queue && t.log.claimed == s.log.claimed
    requires !Handles(t.host, job) && !(t.host.AwaitingClaim? && !s.host.AwaitingClaim?)
    ensures StaysStuck(s, t, job)
  {
  }

  /** It asks nothing that would end this one. */
  lemma StuckAsks(s: State, t: State, e: Entry, job: Try)
    requires QueueInv(s) && Stuck(s, job)
    requires t.table == s.table && t.queue == s.queue + [e] && t.log.claimed == s.log.claimed && !Handles(t.host, job)
    requires t.host.AwaitingClaim? ==> if e.awaited then !Awaiting(s.host) && e.call.Ask? else s.host.AwaitingClaim?
    requires !EndsAttempt(e, job, After(s)[job.id].phase.Running?)
    ensures StaysStuck(s, t, job)
  {
    TableAfterAppend(s.table, s.queue, e);
    GrantedAppend(s.table, s.queue, e);
    if e.call.Ask? {
      StuckRequest(After(s), e.call.request, job);
    }
    if t.host.AwaitingClaim? {
      if e.awaited {
        NothingAwaited(s);
        WillClaimLast(s.table, s.queue, e);
      } else {
        WillClaimAppend(s.table, s.queue, e);
      }
    }
  }

  lemma ForgettingKeepsStuck(s: State, job: Try)
    requires Stuck(s, job) && Awaiting(s.host)
    ensures StaysStuck(s, AdmitNext(s, HostTimeout).value, job)
  {
    SameCallsRun(s.table, s.queue, Forgotten(s.queue));
  }

  lemma StuckClosing(s: State, stale: bool, accepted: bool, job: Try)
    requires QueueInv(s) && Stuck(s, job) && s.host.Closing?
    ensures StaysStuck(s, CloseAttempt(s, stale, accepted), job)
  {
    var t := CloseAttempt(s, stale, accepted);
    var mine := s.host.job;
    if !accepted {
      StuckMoves(s, t, job);
    } else {
      match s.host.end
      case Produced(acceptable, complete) =>
        StuckAsks(s, t, Entry(Ask(Finish(mine.id, mine.attempt, acceptable, complete)), true), job);
      case SawCancel => StuckAsks(s, t, Entry(Ask(CompleteCancel(mine.id, mine.attempt)), false), job);
      case Preempted => StuckAsks(s, t, Entry(Ask(Requeue(mine.id, mine.attempt, !s.stopped, stale)), false), job);
      case Erred => StuckAsks(s, t, Entry(Ask(Fail(mine.id, mine.attempt)), false), job);
    }
  }

  lemma StuckCloseStep(s: State, a: Action, job: Try)
    requires QueueInv(s) && Stuck(s, job) && CloseNext(s, a).Some?
    ensures StaysStuck(s, CloseNext(s, a).value, job)
  {
    match a
    case HostClose(stale, accepted) => StuckClosing(s, stale, accepted, job);
    case HostStopWorker(confirmed, accepted) =>
      if confirmed || !accepted {
        StuckMoves(s, CloseNext(s, a).value, job);
      } else {
        StuckAsks(s, CloseNext(s, a).value, Entry(Ask(Interrupt(s.host.job.id, s.host.job.attempt)), false), job);
      }
    case HostRelease => StuckMoves(s, CloseNext(s, a).value, job);
    case HostLose => StuckMoves(s, CloseNext(s, a).value, job);
  }

  /** Passing over a listed job, the loop fails this attempt. */
  predicate SkipFails(a: Action, job: Try) {
    a.HostSkip? && a.request == Some(Fail(job.id, job.attempt))
  }

  lemma StuckAdmitStep(s: State, a: Action, job: Try)
    requires QueueInv(s) && Stuck(s, job) && AdmitNext(s, a).Some?
    requires SkipFails(a, job) ==> After(s)[job.id].phase.CancelRequested?
    ensures StaysStuck(s, AdmitNext(s, a).value, job)
  {
    var t := AdmitNext(s, a).value;
    match a
    case HostTimeout => ForgettingKeepsStuck(s, job);
    case HostTop => StuckMoves(s, t, job);
    case HostAdmit(_, _, _) => StuckMoves(s, t, job);
    case HostSkip(r) =>
      if r.Some? {
        StuckAsks(s, t, Entry(Ask(r.value), false), job);
      } else {
        StuckMoves(s, t, job);
      }
    case HostClaim(late, stale, accepted) =>
      if accepted {
        StuckAsks(s, t, Entry(Ask(Claim(s.host.job.id, s.host.job.attempt, late, stale)), true), job);
      } else {
        StuckMoves(s, t, job);
      }
  }

  lemma StuckExecuteStep(s: State, a: Action, job: Try)
    requires QueueInv(s) && Stuck(s, job) && ExecuteNext(s, a).Some?
    ensures StaysStuck(s, ExecuteNext(s, a).value, job)
  {
    var t := ExecuteNext(s, a).value;
    match a
    case HostLook(accepted) =>
      if accepted {
        StuckAsks(s, t, Entry(Look(s.host.job), true), job);
      } else {
        StuckMoves(s, t, job);
      }
    case HostConfirm(step, acceptable, accepted) =>
      if accepted {
        StuckAsks(s, t, Entry(Confirm(Checkpoint(s.host.job, step), acceptable), true), job);
      } else {
        StuckMoves(s, t, job);
      }
    case HostSpawn(_) => StuckMoves(s, t, job);
    case HostAck(_) => StuckMoves(s, t, job);
    case HostEnd(_) => StuckMoves(s, t, job);
  }

  lemma StuckOutsideStep(s: State, a: Action, job: Try)
    requires QueueInv(s) && Stuck(s, job) && OutsideNext(s, a).Some?
    ensures StaysStuck(s, OutsideNext(s, a).value, job)
  {
    if a.UserAsk? {
      StuckAsks(s, OutsideNext(s, a).value, Entry(Ask(a.r), false), job);
    } else {
      StuckMoves(s, OutsideNext(s, a).value, job);
    }
  }

  lemma StuckSpeakerStep(s: State, a: Action, job: Try)
    requires Stuck(s, job) && SpeakerNext(s, a).Some?
    ensures StaysStuck(s, SpeakerNext(s, a).value, job)
  {
    StuckMoves(s, SpeakerNext(s, a).value, job);
  }

  lemma StuckStep(s: State, a: Action, job: Try)
    requires Inv(s) && Stuck(s, job) && Next(s, a).Some?
    requires SkipFails(a, job) ==> After(s)[job.id].phase.CancelRequested?
    ensures StaysStuck(s, Next(s, a).value, job)
  {
    if IsAdmit(a) {
      StuckAdmitStep(s, a, job);
    } else if IsExecute(a) {
      StuckExecuteStep(s, a, job);
    } else if IsClose(a) {
      StuckCloseStep(s, a, job);
    } else if a.StoreRun? {
      StuckStoreStep(s, job);
    } else if IsSpeaker(a) {
      StuckSpeakerStep(s, a, job);
    } else {
      StuckOutsideStep(s, a, job);
    }
  }

  /**
    The loop passes over what the store lists as queued, and lists again after each pass, so it does
    not fail an attempt that is claimed.
   */
  ghost predicate NeverSkipped(schedule: seq<Action>, job: Try) {
    forall i :: 0 <= i < |schedule| ==> !SkipFails(schedule[i], job)
  }

  lemma {:induction false} StuckStays(s: State, schedule: seq<Action>, job: Try)
    requires Inv(s) && Stuck(s, job) && Run(s, schedule).Some?
    requires After(s)[job.id].phase.CancelRequested? || NeverSkipped(schedule, job)
    ensures StaysStuck(s, Run(s, schedule).value, job)
  {
    if schedule != [] {
      var before := schedule[..|schedule| - 1];
      StuckStays(s, before, job);
      RunKeepsInv(s, before);
      StuckStep(Run(s, before).value, schedule[|schedule| - 1], job);
    }
  }

  /** No run that does not fail this attempt in passing claims anything beyond what was on its way. */
  ghost predicate NothingMoreClaimed(s: State, job: Try) {
    forall schedule :: Run(s, schedule).Some? && NeverSkipped(schedule, job) ==> Run(s, schedule).value.log.claimed <= AllGranted(s)
  }

  /** While a job is stuck, no job at all is claimed that was not on its way: with a cancel request recorded, in every run. */
  lemma StuckStopsAllClaims(s: State, schedule: seq<Action>, job: Try)
    requires Inv(s) && Stuck(s, job) && Run(s, schedule).Some?
    requires After(s)[job.id].phase.CancelRequested? || NeverSkipped(schedule, job)
    ensures Stuck(Run(s, schedule).value, job) && s.log.claimed <= Run(s, schedule).value.log.claimed <= AllGranted(s)
  {
    StuckStays(s, schedule, job);
    ClaimedGrows(s, schedule);
  }

  lemma {:induction false} UnendedAfter(t: Table, queue: seq<Entry>, job: Try)
    requires Current(t, job.id, job.attempt) && Active(t[job.id])
    requires forall i :: 0 <= i < |queue| ==> !EndsAttempt(queue[i], job, t[job.id].phase.Running?)
    ensures StaysActive(t, TableAfter(t, queue), job) && ClaimsOf(t, queue) == [] && !WillClaim(t, queue)
    decreases |queue|
  {
    if queue != [] {
      if queue[0].call.Ask? {
        StuckRequest(t, queue[0].call.request, job);
      }
      UnendedAfter(RunEntry(t, queue[0]), queue[1..], job);
    }
  }

  /** A job that is active now, that the loop does not have and that no queued call ends, is stuck, and no claim at all is on its way. */
  lemma UnendedIsStuck(s: State, job: Try)
    requires Current(s.table, job.id, job.attempt) && Active(s.table[job.id]) && !Handles(s.host, job)
    requires forall i :: 0 <= i < |s.queue| ==> !EndsAttempt(s.queue[i], job, s.table[job.id].phase.Running?)
    ensures Stuck(s, job) && AllGranted(s) == s.log.claimed
  {
    UnendedAfter(s.table, s.queue, job);
  }

  lemma StepClaims(s: State, a: Action)
    requires Next(s, a).Some?
    ensures s.log.claimed <= Next(s, a).value.log.claimed
  {
    if IsAdmit(a) {
      AdmitKeepsTable(s, a);
    } else if IsExecute(a) {
      ExecuteKeepsTable(s, a);
    } else if IsClose(a) {
      CloseKeepsTable(s, a);
    } else if a.StoreRun? {
      StoreRunsHead(s);
    }
  }

  lemma {:induction false} ClaimedGrows(s: State, schedule: seq<Action>)
    requires Run(s, schedule).Some?
    ensures s.log.claimed <= Run(s, schedule).value.log.claimed
  {
    if schedule != [] {
      ClaimedGrows(s, schedule[..|schedule| - 1]);
      StepClaims(Run(s, schedule[..|schedule| - 1]).value, schedule[|schedule| - 1]);
    }
  }

  // ----- When the queue is blocked -----

  /** The loop is between two jobs, or on its way to one. */
  predicate HoldsNoJob(h: Host) { h.Top? || h.Considering? || h.Permitted? || h.AwaitingClaim? || h.Releasing? }

  /** Nothing is being shut down, and no process of the speaker manager keeps the permit for good. */
  predicate MayGoOn(s: State) { !s.stopped && !s.gate.shutdown && !s.speaker.LostChild? }

  /** Some job will be active once the queue has run, and it is not the one the loop is going to get. */
  ghost predicate Blocked(s: State) {
    AnyActive(After(s)) && !(s.host.AwaitingClaim? && WillClaim(s.table, s.queue))
  }

  /** The loop has got there without failing a job in passing, and no claim was granted that was not on its way. */
  ghost predicate OnTheWay(s: State, t: State) {
    ReachesQuietly(s, t) && Inv(t) && MayGoOn(t) && AllGranted(t) == AllGranted(s)
  }

  lemma OnTheWaySelf(s: State)
    requires Inv(s) && MayGoOn(s)
    ensures OnTheWay(s, s)
  {
    QuietSelf(s);
  }

  lemma OnTheWayNext(s: State, t: State, a: Action, u: State)
    requires OnTheWay(s, t) && Next(t, a) == Some(u) && (a.HostSkip? ==> a.request.None?)
    requires MayGoOn(u) && AllGranted(u) == AllGranted(t)
    ensures OnTheWay(s, u)
  {
    QuietNext(s, t, a, u);
    StepKeepsInv(t, a);
  }

  lemma OnTheWayOn(s: State, t: State, u: State)
    requires OnTheWay(s, t) && OnTheWay(t, u)
    ensures OnTheWay(s, u)
  {
    QuietTransitive(s, t, u);
  }

  lemma ReachTopFromReleasing(s: State) returns (t: State)
    requires Inv(s) && MayGoOn(s) && s.host.Releasing?
    ensures OnTheWay(s, t) && t.host.Top? && After(t) == After(s)
  {
    OnTheWaySelf(s);
    t := s.(host := Top, gate := s.gate.(background := false));
    OnTheWayNext(s, s, HostRelease, t);
  }

  /** From a permit, or a claim that will be refused, back to the top of the loop. */
  lemma PermitIsGivenUp(s: State) returns (t: State)
    requires Inv(s) && MayGoOn(s) && (s.host.Permitted? || s.host.AwaitingClaim?)
    ensures OnTheWay(s, t) && t.host.Top? && After(t) == After(s)
  {
    OnTheWaySelf(s);
    var releasing := s.(host := Releasing);
    if s.host.Permitted? {
      OnTheWayNext(s, s, HostClaim(false, false, false), releasing);
    } else {
      releasing := s.(host := Releasing, queue := Forgotten(s.queue));
      SameCallsRun(s.table, s.queue, releasing.queue);
      OnTheWayNext(s, s, HostTimeout, releasing);
    }
    t := ReachTopFromReleasing(releasing);
    OnTheWayOn(s, releasing, t);
  }

  /** No job is active but this attempt. */
  ghost predicate OnlyActive(t: Table, job: Try) {
    forall id :: id in t && Active(t[id]) ==> id == job.id && t[id].attempt == job.attempt
  }

  lemma OnlyActiveRequest(t: Table, e: Entry, job: Try)
    requires OnlyActive(t, job) && !IsClaim(e)
    ensures OnlyActive(RunEntry(t, e), job)
  {
  }

  lemma {:induction false} OnlyActiveAfter(t: Table, queue: seq<Entry>, job: Try)
    requires OnlyActive(t, job) && forall i :: 0 <= i < |queue| ==> !IsClaim(queue[i])
    ensures OnlyActive(TableAfter(t, queue), job)
    decreases |queue|
  {
    if queue != [] {
      OnlyActiveRequest(t, queue[0], job);
      OnlyActiveAfter(RunEntry(t, queue[0]), queue[1..], job);
    }
  }

  lemma RequeueEndsIt(t: Table, job: Try, resume: bool)
    requires OnlyActive(t, job)
    ensures !AnyActive(Apply(t, Requeue(job.id, job.attempt, resume, true)).0)
  {
  }

  /** The loop begins to run the claimed job, and is told to give way. */
  lemma JobIsPreempted(s: State, job: Try) returns (t: State)
    requires Inv(s) && MayGoOn(s) && s.host == Claimed(job)
    ensures OnTheWay(s, t) && t.host == Closing(job, Preempted) && t.table == s.table && t.queue == s.queue
  {
    OnTheWaySelf(s);
    var working := ExecuteNext(s, HostSpawn(true)).value;
    OnTheWayNext(s, s, HostSpawn(true), working);
    var ending := working.(host := Ending(job, Preempted));
    OnTheWayNext(s, working, HostEnd(Preempted), ending);
    t := CloseNext(ending, HostStopWorker(true, true)).value;
    OnTheWayNext(s, ending, HostStopWorker(true, true), t);
  }

  /** The attempt is handed back to the store. */
  lemma JobIsHandedBack(s: State, job: Try) returns (t: State)
    requires Inv(s) && MayGoOn(s) && s.host == Closing(job, Preempted) && OnlyActive(After(s), job)
    ensures OnTheWay(s, t) && t.host.Top? && !AnyActive(After(t))
  {
    OnTheWaySelf(s);
    var requeue := Requeue(job.id, job.attempt, true, true);
    var e := Entry(Ask(requeue), false);
    var releasing := s.(host := Releasing, queue := s.queue + [e]);
    TableAfterAppend(s.table, s.queue, e);
    GrantedAppend(s.table, s.queue, e);
    RequeueEndsIt(After(s), job, true);
    OnTheWayNext(s, s, HostClose(true, true), releasing);
    t := ReachTopFromReleasing(releasing);
    OnTheWayOn(s, releasing, t);
  }

  /** A claim that will be granted is awaited, and its job let go again. */
  lemma ClaimedJobIsLetGo(s: State) returns (t: State)
    requires Inv(s) && MayGoOn(s) && s.host.AwaitingClaim? && WillClaim(s.table, s.queue)
    ensures OnTheWay(s, t) && t.host.Top? && !AnyActive(After(t))
  {
    var job := s.host.job;
    var claimed := ClaimIsAwaited(s);
    QuietKeepsInv(s, claimed);
    assert OnTheWay(s, claimed);
    var closing := JobIsPreempted(claimed, job);
    OnTheWayOn(s, claimed, closing);
    OnlyActiveAfter(claimed.table, claimed.queue, job);
    t := JobIsHandedBack(closing, job);
    OnTheWayOn(s, closing, t);
  }

  /** A loop that is not blocked can come to its top with no job active, now or by what is queued. */
  lemma ReachTop(s: State) returns (t: State)
    requires Inv(s) && MayGoOn(s) && HoldsNoJob(s.host) && !Blocked(s)
    ensures OnTheWay(s, t) && t.host.Top? && !AnyActive(After(t))
  {
    OnTheWaySelf(s);
    if s.host.AwaitingClaim? && WillClaim(s.table, s.queue) {
      t := ClaimedJobIsLetGo(s);
    } else if s.host.Permitted? || s.host.AwaitingClaim? {
      t := PermitIsGivenUp(s);
    } else if s.host.Releasing? {
      t := ReachTopFromReleasing(s);
    } else if s.host.Considering? {
      t := s.(host := Top);
      OnTheWayNext(s, s, HostSkip(None), t);
    } else {
      t := s;
    }
  }

  /** The speaker manager gives its permit back. */
  lemma SpeakerLetsGo(s: State) returns (t: State)
    requires Inv(s) && MayGoOn(s)
    ensures OnTheWay(s, t) && t.host == s.host && t.speaker.NoPermit? && After(t) == After(s) && t.gate.live == s.gate.live
    ensures t.gate.preparing == s.gate.preparing
  {
    OnTheWaySelf(s);
    var holding := s;
    if s.speaker.RunsChild? {
      holding := s.(speaker := HoldsPermit);
      OnTheWayNext(s, s, SpeakerStop(true), holding);
    }
    t := holding;
    if holding.speaker.HoldsPermit? {
      t := holding.(speaker := NoPermit, gate := holding.gate.(background := false));
      OnTheWayNext(s, holding, SpeakerRelease, t);
    }
  }

  lemma GateOpens(s: State) returns (t: State)
    requires Inv(s) && MayGoOn(s) && s.host.Top?
    ensures OnTheWay(s, t) && t.host.Top? && MayAdmit(t.gate, true) && After(t) == After(s)
  {
    OnTheWaySelf(s);
    var quiet := s.(owner := Off, gate := s.gate.(live := false, preparing := false));
    OnTheWayNext(s, s, LiveFinish, quiet);
    t := SpeakerLetsGo(quiet);
    OnTheWayOn(s, quiet, t);
    assert GateInv(t) && !LoopHoldsPermit(t);
  }

  lemma {:induction false} NewId(ids: set<Id>) returns (id: Id)
    ensures forall x :: x in ids ==> x < id
  {
    if ids == {} {
      id := 0;
    } else {
      var x :| x in ids;
      var above := NewId(ids - {x});
      id := Max(above, x + 1);
      assert forall y :: y in ids ==> y == x || y in ids - {x};
    }
  }

  /** The loop gets a permit for a job that a user is about to create. */
  lemma NewJobIsPermitted(s: State) returns (t: State)
    requires Inv(s) && MayGoOn(s) && s.host.Top? && MayAdmit(s.gate, true) && !AnyActive(After(s))
    ensures OnTheWay(s, t) && t.host.Permitted? && Claimable(After(t), t.host.job)
  {
    OnTheWaySelf(s);
    var id := NewId(After(s).Keys);
    var job := Try(id, 1);
    var considering := s.(host := Considering);
    OnTheWayNext(s, s, HostTop, considering);
    t := considering.(host := Permitted(job), gate := s.gate.(background := true, backgroundLive := true));
    OnTheWayNext(s, considering, HostAdmit(job, true, false), t);
  }

  /** So a loop that is not blocked comes to claim a job that was not on its way. */
  lemma MoreIsClaimed(s: State) returns (t: State)
    requires Inv(s) && MayGoOn(s) && HoldsNoJob(s.host) && !Blocked(s)
    ensures ReachesQuietly(s, t) && |t.log.claimed| > |AllGranted(s)|
  {
    var top := ReachTop(s);
    var open := GateOpens(top);
    OnTheWayOn(s, top, open);
    var permitted := NewJobIsPermitted(open);
    OnTheWayOn(s, open, permitted);
    t := PermitIsUsed(permitted);
    QuietTransitive(s, permitted, t);
  }

  /** Whatever job is active then is stuck. */
  lemma BlockedIsStuck(s: State) returns (job: Try)
    requires Inv(s) && HoldsNoJob(s.host) && Blocked(s)
    ensures Stuck(s, job) && NothingMoreClaimed(s, job)
  {
    var id :| id in After(s) && Active(After(s)[id]);
    job := Try(id, After(s)[id].attempt);
    StuckForGood(s, job);
  }

  lemma StuckForGood(s: State, job: Try)
    requires Inv(s) && Stuck(s, job)
    ensures NothingMoreClaimed(s, job)
  {
    forall schedule | Run(s, schedule).Some? && NeverSkipped(schedule, job)
      ensures Run(s, schedule).value.log.claimed <= AllGranted(s)
    {
      StuckStopsAllClaims(s, schedule, job);
    }
  }

  /**
    The exact condition under which the queue stands still, however it came about. While the loop
    has no job of its own, and nothing is being stopped, some job keeps every other from being
    claimed just when a job is active once the store has run what is queued, and it is not the one
    the loop is about to get.
   */
  lemma BlockedIff(s: State)
    requires Reachable(s) && HoldsNoJob(s.host) && MayGoOn(s)
    ensures (exists job :: NothingMoreClaimed(s, job)) <==> Blocked(s)
  {
    ReachableKeepsInv(s);
    if Blocked(s) {
      var job := BlockedIsStuck(s);
    } else {
      var t := MoreIsClaimed(s);
      var schedule :| Quiet(schedule) && Run(s, schedule) == Some(t);
      forall job
        ensures !NothingMoreClaimed(s, job)
      {
        assert NeverSkipped(schedule, job);
      }
    }
  }

  /**
    A call that closes an attempt and is refused, too, leaves the job stuck behind a loop that goes
    on, unless something that is queued ends the attempt anyway.
   */
  lemma RefusedCloseSticksIff(s: State, job: Try, stale: bool)
    requires Inv(s) && s.host.Closing? && s.host.job == job && !s.host.end.Produced?
    ensures
      var t := CloseNext(s, HostClose(stale, false)).value;
      && t.host.Releasing?
      && (Stuck(t, job) <==> Current(After(s), job.id, job.attempt) && Active(After(s)[job.id]))
      && (Stuck(t, job) ==> NothingMoreClaimed(t, job))
  {
    var t := CloseNext(s, HostClose(stale, false)).value;
    StepKeepsInv(s, HostClose(stale, false));
    assert t == s.(host := Releasing);
    if Stuck(t, job) {
      StuckForGood(t, job);
    }
  }

  // ----- A claim that is given up -----

  function StoreRuns(n: nat): seq<Action> {
    if n == 0 then [] else StoreRuns(n - 1) + [StoreRun]
  }

  /** The store will grant the claim at place `k` of its queue. */
  predicate ClaimsAt(t: Table, queue: seq<Entry>, k: nat)
    requires k < |queue|
    decreases k
  {
    if k == 0 then queue[0].call.Ask? && Claims(t, queue[0].call.request) else ClaimsAt(RunEntry(t, queue[0]), queue[1..], k - 1)
  }

  lemma {:induction false} ClaimsAtAwaited(t: Table, queue: seq<Entry>, k: nat)
    requires k < |queue| && queue[k].awaited && forall i :: 0 <= i < k ==> !queue[i].awaited
    ensures ClaimsAt(t, queue, k) <==> WillClaim(t, queue)
    decreases k
  {
    if k > 0 {
      var m := k - 1;
      ClaimsAtAwaited(RunEntry(t, queue[0]), queue[1..], m);
    }
  }

  lemma {:induction false} SameCallsClaim(t: Table, q: seq<Entry>, q': seq<Entry>, k: nat)
    requires SameCalls(q, q') && k < |q|
    ensures ClaimsAt(t, q, k) <==> ClaimsAt(t, q', k)
    decreases k
  {
    if k > 0 {
      var m := k - 1;
      SameCallsClaim(RunEntry(t, q[0]), q[1..], q'[1..], m);
    }
  }

  lemma {:induction false} UsersKeepActive(t: Table, queue: seq<Entry>, job: Try)
    requires Current(t, job.id, job.attempt) && Active(t[job.id]) && forall i :: 0 <= i < |queue| ==> IsUsers(queue[i])
    ensures Current(TableAfter(t, queue), job.id, job.attempt) && Active(TableAfter(t, queue)[job.id])
    decreases |queue|
  {
    if queue != [] {
      StuckRequest(t, queue[0].call.request, job);
      UsersKeepActive(RunEntry(t, queue[0]), queue[1..], job);
    }
  }

  predicate IsClaimOf(c: Call, job: Try) {
    c.Ask? && c.request.Claim? && c.request.id == job.id && c.request.attempt == job.attempt
  }

  /** A claim that will be granted leaves its job active behind users' requests. */
  lemma {:induction false} GrantedStaysActive(t: Table, queue: seq<Entry>, k: nat, job: Try)
    requires k < |queue| && IsClaimOf(queue[k].call, job) && forall j :: k < j < |queue| ==> IsUsers(queue[j])
    requires ClaimsAt(t, queue, k)
    ensures Current(TableAfter(t, queue), job.id, job.attempt) && Active(TableAfter(t, queue)[job.id])
    decreases k
  {
    if k == 0 {
      UsersKeepActive(RunEntry(t, queue[0]), queue[1..], job);
    } else {
      var m := k - 1;
      GrantedStaysActive(RunEntry(t, queue[0]), queue[1..], m, job);
    }
  }

  /** The store comes closer to place `k`, and what will come of the queue stays the same. */
  ghost predicate Nearer(s: State, k: nat, t: State, left: nat) {
    && t.host == s.host && After(t) == After(s)
    && k < |s.queue| && left < |t.queue| && t.queue[left].call == s.queue[k].call
    && (ClaimsAt(t.table, t.queue, left) <==> ClaimsAt(s.table, s.queue, k))
  }

  lemma NearerStep(s: State, k: nat, left: nat)
    requires !Awaiting(s.host) && k == left + 1 < |s.queue|
    ensures StoreNext(s).Some? && Nearer(s, k, StoreNext(s).value, left)
  {
    StoreRunsHead(s);
    StoreGrants(s);
    HostIsNotTold(s);
  }

  lemma HostIsNotTold(s: State)
    requires !Awaiting(s.host) && StoreNext(s).Some?
    ensures StoreNext(s).value.host == s.host
  {
    match s.queue[0].call
    case Ask(_) =>
    case Look(_) =>
    case Confirm(_, _) =>
  }

  lemma NearerOn(s: State, k: nat, t: State, m: nat, u: State, left: nat)
    requires Nearer(s, k, t, m) && Nearer(t, m, u, left)
    ensures Nearer(s, k, u, left)
  {
  }

  lemma OneMoreRun(s: State, m: nat, n: nat, t: State)
    requires n == m + 1 && Run(s, StoreRuns(m)) == Some(t)
    ensures Run(s, StoreRuns(n)) == StoreNext(t)
  {
    RunStep(s, StoreRuns(m), StoreRun);
  }

  lemma OneNearer(s: State, k: nat, t: State, m: nat, left: nat)
    requires !Awaiting(s.host) && Nearer(s, k, t, m) && m == left + 1
    ensures StoreNext(t).Some? && Nearer(s, k, StoreNext(t).value, left)
  {
    NearerStep(t, m, left);
    NearerOn(s, k, t, m, StoreNext(t).value, left);
  }

  /** After `n` closures, with `left` to go to place `k`; the loop waits for none of them. */
  lemma {:induction false} StoreComesNearer(s: State, k: nat, n: nat, left: nat) returns (t: State)
    requires !Awaiting(s.host) && n + left == k < |s.queue|
    ensures Run(s, StoreRuns(n)) == Some(t) && Nearer(s, k, t, left)
    decreases n
  {
    if n == 0 {
      t := s;
    } else {
      var m, more := n - 1, left + 1;
      var before := StoreComesNearer(s, k, m, more);
      OneMoreRun(s, m, n, before);
      OneNearer(s, k, before, more, left);
      t := StoreNext(before).value;
    }
  }

  /** The store has granted the job's claim to nobody: the job is claimed, and stuck. */
  ghost predicate JustClaimed(before: State, after: State, job: Try) {
    after.log.claimed == before.log.claimed + [job] && Stuck(after, job)
  }

  /** The store runs the claim at the head of its queue. */
  lemma ClaimDecides(s: State, job: Try)
    requires s.host.Releasing? && s.queue != [] && IsClaimOf(s.queue[0].call, job)
    requires ClaimsAt(s.table, s.queue, 0) ==> Current(After(s), job.id, job.attempt) && Active(After(s)[job.id])
    ensures StoreNext(s).Some? && (JustClaimed(s, StoreNext(s).value, job) <==> ClaimsAt(s.table, s.queue, 0))
  {
    StoreRunsHead(s);
    StoreGrants(s);
    HostIsNotTold(s);
  }

  /** What giving up a claim leaves behind. */
  lemma GivenUpQueue(s: State, job: Try, k: nat, given: State)
    requires QueueInv(s) && s.host == AwaitingClaim(job) && AwaitedAt(s.queue, k)
    requires given == s.(host := Releasing, queue := Forgotten(s.queue))
    ensures IsClaimOf(given.queue[k].call, job)
    ensures ClaimsAt(given.table, given.queue, k) <==> WillClaim(s.table, s.queue)
    ensures WillClaim(s.table, s.queue) ==> Current(After(given), job.id, job.attempt) && Active(After(given)[job.id])
  {
    ClaimsAtAwaited(s.table, s.queue, k);
    SameCallsClaim(s.table, s.queue, given.queue, k);
    if WillClaim(s.table, s.queue) {
      GrantedStaysActive(given.table, given.queue, k, job);
    }
  }

  /** The store comes to it and decides it. */
  lemma GivenUpRuns(s: State, job: Try, k: nat) returns (before: State, after: State)
    requires s.host.Releasing? && k < |s.queue| && IsClaimOf(s.queue[k].call, job)
    requires ClaimsAt(s.table, s.queue, k) ==> Current(After(s), job.id, job.attempt) && Active(After(s)[job.id])
    ensures Run(s, StoreRuns(k)) == Some(before) && Next(before, StoreRun) == Some(after)
    ensures JustClaimed(before, after, job) <==> ClaimsAt(s.table, s.queue, k)
  {
    before := StoreComesNearer(s, k, k, 0);
    ClaimDecides(before, job);
    after := StoreNext(before).value;
  }

  /**
    A claim the loop gives up, wherever it stands in the queue. Once the store has come to it, its
    job has been claimed and is stuck just when the store would have granted the claim to the
    waiting loop. Then nothing beyond what is queued is ever claimed, from the moment it is given up.
   */
  lemma GivenUpClaimIff(s: State, job: Try) returns (k: nat, before: State, after: State)
    requires Reachable(s) && s.host == AwaitingClaim(job)
    ensures AwaitedAt(s.queue, k)
    ensures
      var given := s.(host := Releasing, queue := Forgotten(s.queue));
      && Next(s, HostTimeout) == Some(given)
      && Run(given, StoreRuns(k)) == Some(before) && Next(before, StoreRun) == Some(after)
      && (JustClaimed(before, after, job) <==> WillClaim(s.table, s.queue))
      && (WillClaim(s.table, s.queue) ==> Stuck(given, job) && NothingMoreClaimed(given, job))
  {
    ReachableKeepsInv(s);
    k :| AwaitedAt(s.queue, k);
    var given := s.(host := Releasing, queue := Forgotten(s.queue));
    assert Next(s, HostTimeout) == Some(given);
    StepKeepsInv(s, HostTimeout);
    GivenUpQueue(s, job, k, given);
    before, after := GivenUpRuns(given, job, k);
    if WillClaim(s.table, s.queue) {
      StuckForGood(given, job);
    }
  }

  /** A job is to be claimed. */
  lemma ClaimIsSent(s0: State, job: Try) returns (s: State)
    requires Initial(s0) && s0.table == map[job.id := Job(Queued, 1, 3)] && job.attempt == 1
    ensures Reaches(s0, s) && s.host == AwaitingClaim(job) && s.queue == [Entry(Ask(Claim(job.id, 1, false, false)), true)]
    ensures s.table == s0.table && !s.stopped && s.contained && s.children == multiset{} && s.log == s0.log
  {
    ReachesSelf(s0);
    var recovered := s0.(queue := []);
    OneEntry(Entry(Ask(InterruptAll), false));
    assert Apply(s0.table, InterruptAll).0 == s0.table;
    ReachesNext(s0, s0, StoreRun, recovered);
    var considering := recovered.(host := Considering);
    ReachesNext(s0, recovered, HostTop, considering);
    var permitted := considering.(host := Permitted(job), gate := considering.gate.(background := true));
    ReachesNext(s0, considering, HostAdmit(job, false, false), permitted);
    var claim := Ask(Claim(job.id, 1, false, false));
    OneEntry(Entry(claim, true));
    s := permitted.(host := AwaitingClaim(job), queue := [Entry(claim, true)]);
    ReachesNext(s0, permitted, HostClaim(false, false, true), s);
  }

  /** The store grants the claim at the head of its queue. */
  lemma ClaimIsRun(s: State, job: Try, awaited: bool) returns (t: State)
    requires s.queue == [Entry(Ask(Claim(job.id, 1, false, false)), awaited)] && job.attempt == 1
    requires s.table == map[job.id := Job(Queued, 1, 3)] && s.log.claimed == []
    requires awaited ==> s.host == AwaitingClaim(job)
    ensures Reaches(s, t) && t.queue == [] && t.table == map[job.id := Job(Running, 1, 3)]
    ensures t == s.(host := if awaited then Claimed(job) else s.host, queue := [], table := t.table, log := t.log)
  {
    ReachesSelf(s);
    var claim := Claim(job.id, 1, false, false);
    OneEntry(Entry(Ask(claim), awaited));
    t := s.(host := if awaited then Claimed(job) else s.host, queue := [], table := map[job.id := Job(Running, 1, 3)],
            log := s.log.(claimed := [job]));
    assert !AnyActive(s.table);
    assert s.table[job.id := Job(Running, 1, 3)] == t.table;
    assert Apply(s.table, claim) == (t.table, true);
    assert [] + [job] == [job] && Try(job.id, 1) == job;
    ReachesNext(s, s, StoreRun, t);
  }

  /** A job is claimed. */
  lemma JobIsClaimed(s0: State, job: Try) returns (s: State)
    requires Initial(s0) && s0.table == map[job.id := Job(Queued, 1, 3)] && job.attempt == 1
    ensures Reaches(s0, s) && s.host == Claimed(job) && s.queue == [] && s.table == map[job.id := Job(Running, 1, 3)]
    ensures !s.stopped && s.contained && s.children == multiset{}
  {
    var sent := ClaimIsSent(s0, job);
    s := ClaimIsRun(sent, job, true);
    ReachesTransitive(s0, sent, s);
  }

  /** The loop gives the claim up, and goes on to the next job. */
  lemma ClaimIsGivenUp(s: State, job: Try) returns (t: State)
    requires s.host == AwaitingClaim(job) && s.queue == [Entry(Ask(Claim(job.id, 1, false, false)), true)]
    ensures Reaches(s, t) && t.host.Top? && t.queue == [Entry(Ask(Claim(job.id, 1, false, false)), false)]
    ensures t == s.(host := Top, queue := t.queue, gate := s.gate.(background := false))
  {
    ReachesSelf(s);
    var queue := [Entry(Ask(Claim(job.id, 1, false, false)), false)];
    assert Forgotten(s.queue) == queue;
    var releasing := s.(host := Releasing, queue := queue);
    ReachesNext(s, s, HostTimeout, releasing);
    t := PermitIsReleased(releasing);
    ReachesTransitive(s, releasing, t);
  }

  /**
    A claim that the store answers after the loop has given it up leaves the job running with
    nobody to run it: from there on no job is ever claimed, unless this attempt is failed in passing.
   */
  lemma LateClaimStopsAnalysis(job: Try) returns (s: State)
    requires job.attempt == 1
    ensures Reachable(s) && s.host.Top? && s.children == multiset{} && !s.stopped && s.contained && s.queue == []
    ensures job.id in s.table && s.table[job.id] == Job(Running, 1, 3) && Stuck(s, job)
    ensures NothingClaimedBeside(s, job)
  {
    var s0 := State(map[job.id := Job(Queued, 1, 3)], [Entry(Ask(InterruptAll), false)], Top, multiset{},
                    Gate(false, false, false, false, false), Off, NoPermit, false, true, NotPolling, false, Log([], [], {}, {}));
    var sent := ClaimIsSent(s0, job);
    var given := ClaimIsGivenUp(sent, job);
    ReachesTransitive(s0, sent, given);
    s := ClaimIsRun(given, job, false);
    ReachesTransitive(s0, given, s);
    ReachableKeepsInv(s);
    forall schedule | Run(s, schedule).Some? && NeverSkipped(schedule, job)
      ensures Run(s, schedule).value.log.claimed == s.log.claimed
    {
      StuckStopsAllClaims(s, schedule, job);
    }
  }

  /** Its worker has a result, and a cancel request is on its way. */
  lemma CancelIsAsked(s: State, job: Try) returns (t: State)
    requires s.host == Claimed(job) && s.queue == [] && s.children == multiset{}
    ensures Reaches(s, t) && t.host == Ending(job, Produced(true, true)) && t.children == multiset{job}
    ensures t.queue == [Entry(Ask(Cancel(job.id, 1)), false)] && t.table == s.table
    ensures t.stopped == s.stopped && t.contained == s.contained
  {
    ReachesSelf(s);
    var working := s.(host := Working(job), children := multiset{job}, log := s.log.(spawned := s.log.spawned + [job]));
    assert multiset{} + multiset{job} == multiset{job};
    ReachesNext(s, s, HostSpawn(true), working);
    var ending := working.(host := Ending(job, Produced(true, true)));
    ReachesNext(s, working, HostEnd(Produced(true, true)), ending);
    OneEntry(Entry(Ask(Cancel(job.id, 1)), false));
    t := ending.(queue := [Entry(Ask(Cancel(job.id, 1)), false)]);
    ReachesNext(s, ending, UserAsk(Cancel(job.id, 1)), t);
  }

  /** It is recorded before the worker is stopped. */
  lemma CancelIsRecorded(s: State, job: Try) returns (t: State)
    requires s.host == Ending(job, Produced(true, true)) && s.children == multiset{job}
    requires s.queue == [Entry(Ask(Cancel(job.id, 1)), false)] && s.table == map[job.id := Job(Running, 1, 3)]
    ensures Reaches(s, t) && t.host == Closing(job, Produced(true, true)) && t.queue == [] && t.children == multiset{}
    ensures t.table == map[job.id := Job(CancelRequested, 1, 3)]
    ensures t.stopped == s.stopped && t.contained == s.contained
  {
    ReachesSelf(s);
    var cancel := Cancel(job.id, 1);
    OneEntry(Entry(Ask(cancel), false));
    var cancelled := s.(queue := [], table := map[job.id := Job(CancelRequested, 1, 3)]);
    assert s.table[job.id := Job(CancelRequested, 1, 3)] == cancelled.table;
    assert Apply(s.table, cancel) == (cancelled.table, true);
    ReachesNext(s, s, StoreRun, cancelled);
    t := cancelled.(host := Closing(job, Produced(true, true)), children := multiset{});
    assert multiset{job} - multiset{job} == multiset{};
    ReachesNext(s, cancelled, HostStopWorker(true, true), t);
  }

  /** The result is refused, */
  lemma ResultIsRefused(s: State, job: Try) returns (t: State)
    requires s.host == Closing(job, Produced(true, true)) && s.queue == [] && job.attempt == 1
    requires s.table == map[job.id := Job(CancelRequested, 1, 3)]
    ensures Reaches(s, t) && t == s.(host := Closing(job, Erred))
  {
    ReachesSelf(s);
    var finish := Finish(job.id, 1, true, true);
    OneEntry(Entry(Ask(finish), true));
    var finishing := s.(host := AwaitingFinish(job), queue := [Entry(Ask(finish), true)]);
    ReachesNext(s, s, HostClose(false, true), finishing);
    t := s.(host := Closing(job, Erred));
    assert Apply(s.table, finish) == (s.table, false);
    ReachesNext(s, finishing, StoreRun, t);
  }

  /** and so is the failure; the loop goes on to the next job. */
  lemma FailureIsRefused(s: State, job: Try) returns (t: State)
    requires s.host == Closing(job, Erred) && s.queue == [] && job.attempt == 1
    requires s.table == map[job.id := Job(CancelRequested, 1, 3)]
    ensures Reaches(s, t) && t == s.(host := Top, gate := s.gate.(background := false))
  {
    ReachesSelf(s);
    var fail := Fail(job.id, 1);
    OneEntry(Entry(Ask(fail), false));
    var failing := s.(host := Releasing, queue := [Entry(Ask(fail), false)]);
    ReachesNext(s, s, HostClose(false, true), failing);
    var released := s.(host := Releasing);
    assert Apply(s.table, fail) == (s.table, false);
    ReachesNext(s, failing, StoreRun, released);
    t := PermitIsReleased(released);
    ReachesTransitive(s, released, t);
  }

  lemma PermitIsReleased(s: State) returns (t: State)
    requires s.host.Releasing?
    ensures Reaches(s, t) && t == s.(host := Top, gate := s.gate.(background := false))
  {
    ReachesSelf(s);
    t := s.(host := Top, gate := s.gate.(background := false));
    ReachesNext(s, s, HostRelease, t);
  }

  ghost predicate NothingClaimedFrom(s: State) {
    forall t :: Reaches(s, t) ==> t.log.claimed == s.log.claimed
  }

  /** Nor by any run that does not fail this attempt in passing. */
  ghost predicate NothingClaimedBeside(s: State, job: Try) {
    forall schedule :: Run(s, schedule).Some? && NeverSkipped(schedule, job) ==> Run(s, schedule).value.log.claimed == s.log.claimed
  }

  lemma StuckClaimsNothing(s: State, job: Try)
    requires Inv(s) && s.queue == [] && Stuck(s, job) && After(s)[job.id].phase.CancelRequested?
    ensures NothingClaimedFrom(s)
  {
    forall t | Reaches(s, t)
      ensures t.log.claimed == s.log.claimed
    {
      var schedule :| Run(s, schedule) == Some(t);
      StuckStopsAllClaims(s, schedule, job);
    }
  }

  lemma LateCancelSticks(s0: State, job: Try) returns (s: State)
    requires Initial(s0) && s0.table == map[job.id := Job(Queued, 1, 3)] && job.attempt == 1
    ensures Reaches(s0, s) && s.host.Top? && s.children == multiset{} && !s.stopped && s.contained && s.queue == []
    ensures Stuck(s, job) && After(s)[job.id].phase.CancelRequested?
  {
    var claimed := JobIsClaimed(s0, job);
    var asked := CancelIsAsked(claimed, job);
    ReachesTransitive(s0, claimed, asked);
    var closing := CancelIsRecorded(asked, job);
    ReachesTransitive(s0, asked, closing);
    var refused := ResultIsRefused(closing, job);
    ReachesTransitive(s0, closing, refused);
    s := FailureIsRefused(refused, job);
    ReachesTransitive(s0, refused, s);
  }

  /**
    A cancel request that arrives between the loop's last look and its result stops the whole queue:
    with every worker gone, nothing stopped and no call lost, no job is ever claimed again.
   */
  lemma LateCancelStopsAnalysis(job: Try) returns (s: State)
    requires job.attempt == 1
    ensures Reachable(s) && s.host.Top? && s.children == multiset{} && !s.stopped && s.contained && s.queue == []
    ensures NothingClaimedFrom(s)
  {
    var s0 := State(map[job.id := Job(Queued, 1, 3)], [Entry(Ask(InterruptAll), false)], Top, multiset{},
                    Gate(false, false, false, false, false), Off, NoPermit, false, true, NotPolling, false, Log([], [], {}, {}));
    s := LateCancelSticks(s0, job);
    ReachableKeepsInv(s);
    StuckClaimsNothing(s, job);
  }

  // ----- What an undisturbed pass does -----

  /** The schedule leads from `s` to `t`. The quantifier keeps `Run` folded where only this is needed. */
  ghost predicate Leads(s: State, schedule: seq<Action>, t: State) {
    forall steps :: steps == schedule ==> Run(s, steps) == Some(t)
  }

  lemma LeadsSelf(s: State)
    ensures Leads(s, [], s)
  {
  }

  lemma Then(s: State, schedule: seq<Action>, t: State, a: Action, u: State) returns (longer: seq<Action>)
    requires Leads(s, schedule, t) && Next(t, a) == Some(u)
    ensures longer == schedule + [a] && Leads(s, longer, u)
  {
    longer := schedule + [a];
    assert longer[..|schedule|] == schedule;
    assert Run(s, schedule) == Some(t);
  }

  lemma First(s: State, a: Action, t: State) returns (schedule: seq<Action>)
    requires Next(s, a) == Some(t)
    ensures schedule == [a] && Leads(s, schedule, t)
  {
    LeadsSelf(s);
    schedule := Then(s, [], s, a, t);
  }

  lemma LeadsOn(s: State, first: seq<Action>, t: State, second: seq<Action>, u: State)
    requires Leads(s, first, t) && Leads(t, second, u)
    ensures Leads(s, first + second, u)
  {
    assert Run(s, first) == Some(t) && Run(t, second) == Some(u);
    RunAppend(s, first, second);
  }

  /** A pass begins unless the loop was told to stop; a job it passes over is failed, made to wait or left alone. */
  lemma PassBegins(s: State, r: Option<Request>)
    requires s.host.Top?
    ensures s.stopped ==> Leads(s, [HostTop], s.(host := Finished))
    ensures !s.stopped ==> Leads(s, [HostTop], s.(host := Considering))
    ensures !s.stopped && r.None? ==> Leads(s, [HostTop, HostSkip(r)], s)
    ensures !s.stopped && r.Some? && (r.value.Wait? || r.value.Fail?) ==>
              Leads(s, [HostTop, HostSkip(r)], s.(queue := s.queue + [Entry(Ask(r.value), false)]))
  {
    var schedule := First(s, HostTop, s.(host := if s.stopped then Finished else Considering));
    if !s.stopped && (r.None? || r.value.Wait? || r.value.Fail?) {
      schedule := Then(s, schedule, s.(host := Considering), HostSkip(r),
                       if r.None? then s else s.(queue := s.queue + [Entry(Ask(r.value), false)]));
    }
  }

  /** The permit is given when nothing is pressed, the gate is open, nobody has it, and live capture is off or lets the job pass. */
  lemma PermitIsGivenIff(s: State, job: Try, eligible: bool, pressed: bool)
    requires s.host.Considering?
    ensures
      var g := s.gate;
      var free := !pressed && !g.shutdown && !g.preparing && !g.background && (!g.live || eligible);
      Next(s, HostAdmit(job, eligible, pressed))
      == if free then Some(s.(host := Permitted(job), gate := Gate(g.live, g.preparing, true, eligible, g.shutdown))) else None
  {
  }

  /** With the permit and an answering store: the job is claimed when its claim sets it running, and otherwise the permit goes back. */
  lemma ClaimIsAnswered(s: State, job: Try, late: bool, stale: bool)
    requires s.host == Permitted(job) && s.queue == []
    ensures
      var (t, ok) := Apply(s.table, Claim(job.id, job.attempt, late, stale));
      var claimed := ok && t[job.id].phase == Running;
      Leads(s, [HostClaim(late, stale, true), StoreRun],
            if claimed then s.(table := t, host := Claimed(job), log := s.log.(claimed := s.log.claimed + [job]))
            else s.(table := t, host := Releasing))
  {
    ClaimOutcome(s.table, job.id, job.attempt, late, stale);
    var r := Claim(job.id, job.attempt, late, stale);
    var waiting := s.(queue := [Entry(Ask(r), true)], host := AwaitingClaim(job));
    assert [] + [Entry(Ask(r), true)] == [Entry(Ask(r), true)] && [Entry(Ask(r), true)][1..] == [];
    var schedule := First(s, HostClaim(late, stale, true), waiting);
    var (t, ok) := Apply(s.table, r);
    var claimed := ok && t[job.id].phase == Running;
    assert claimed <==> Claims(s.table, r);
    assert Try(job.id, job.attempt) == job;
    schedule := Then(s, schedule, waiting, StoreRun,
                     if claimed then s.(table := t, host := Claimed(job), log := s.log.(claimed := s.log.claimed + [job]))
                     else s.(table := t, host := Releasing));
  }

  /** A refused call and one that is not waited for: the claim gives the permit back, everything else ends the attempt in error. */
  lemma CallIsLost(s: State, job: Try, late: bool, stale: bool, step: nat, acceptable: bool)
    ensures s.host == Permitted(job) ==>
              && Leads(s, [HostClaim(late, stale, false)], s.(host := Releasing))
              && Leads(s, [HostClaim(late, stale, true), HostTimeout],
                       s.(host := Releasing, queue := Forgotten(s.queue + [Entry(Ask(Claim(job.id, job.attempt, late, stale)), true)])))
    ensures s.host == Working(job) ==>
              && Leads(s, [HostLook(false)], s.(host := Ending(job, Erred)))
              && Leads(s, [HostConfirm(step, acceptable, false)], s.(host := Ending(job, Erred)))
              && Leads(s, [HostLook(true), HostTimeout],
                       s.(host := Ending(job, Erred), queue := Forgotten(s.queue + [Entry(Look(job), true)])))
  {
    if s.host == Permitted(job) {
      ClaimIsLost(s, job, late, stale);
    } else if s.host == Working(job) {
      LookIsLost(s, job, step, acceptable);
    }
  }

  lemma ClaimIsLost(s: State, job: Try, late: bool, stale: bool)
    requires s.host == Permitted(job)
    ensures Leads(s, [HostClaim(late, stale, false)], s.(host := Releasing))
    ensures Leads(s, [HostClaim(late, stale, true), HostTimeout],
                  s.(host := Releasing, queue := Forgotten(s.queue + [Entry(Ask(Claim(job.id, job.attempt, late, stale)), true)])))
  {
    var schedule := First(s, HostClaim(late, stale, false), s.(host := Releasing));
    var e := Entry(Ask(Claim(job.id, job.attempt, late, stale)), true);
    schedule := First(s, HostClaim(late, stale, true), s.(host := AwaitingClaim(job), queue := s.queue + [e]));
    schedule := Then(s, schedule, s.(host := AwaitingClaim(job), queue := s.queue + [e]), HostTimeout,
                     s.(host := Releasing, queue := Forgotten(s.queue + [e])));
  }

  lemma LookIsLost(s: State, job: Try, step: nat, acceptable: bool)
    requires s.host == Working(job)
    ensures Leads(s, [HostLook(false)], s.(host := Ending(job, Erred)))
    ensures Leads(s, [HostConfirm(step, acceptable, false)], s.(host := Ending(job, Erred)))
    ensures Leads(s, [HostLook(true), HostTimeout], s.(host := Ending(job, Erred), queue := Forgotten(s.queue + [Entry(Look(job), true)])))
  {
    var schedule := First(s, HostLook(false), s.(host := Ending(job, Erred)));
    schedule := First(s, HostConfirm(step, acceptable, false), s.(host := Ending(job, Erred)));
    var e := Entry(Look(job), true);
    schedule := First(s, HostLook(true), s.(host := AwaitingLook(job), queue := s.queue + [e]));
    schedule := Then(s, schedule, s.(host := AwaitingLook(job), queue := s.queue + [e]), HostTimeout,
                     s.(host := Ending(job, Erred), queue := Forgotten(s.queue + [e])));
  }

  /** A worker starts for the claimed job, or the attempt is over. */
  lemma WorkerStarts(s: State, job: Try)
    requires s.host == Claimed(job)
    ensures Leads(s, [HostSpawn(true)], s.(host := Working(job), children := s.children + multiset{job},
                                           log := s.log.(spawned := s.log.spawned + [job])))
    ensures Leads(s, [HostSpawn(false)], s.(host := Closing(job, Erred)))
  {
    var schedule := First(s, HostSpawn(true), s.(host := Working(job), children := s.children + multiset{job},
                                                 log := s.log.(spawned := s.log.spawned + [job])));
    schedule := First(s, HostSpawn(false), s.(host := Closing(job, Erred)));
  }

  /** A look at the job ends the attempt exactly when its cancel was asked for, another attempt is current, or it is gone. */
  lemma LookEndsIff(s: State, job: Try)
    requires s.host == Working(job) && s.queue == []
    ensures
      Leads(s, [HostLook(true), StoreRun],
            s.(host := if job.id !in s.table then Ending(job, Erred)
                       else if s.table[job.id].attempt != job.attempt || s.table[job.id].phase == CancelRequested then Ending(job, SawCancel)
                       else Working(job)))
  {
    var waiting := s.(queue := [Entry(Look(job), true)], host := AwaitingLook(job));
    assert [] + [Entry(Look(job), true)] == [Entry(Look(job), true)] && [Entry(Look(job), true)][1..] == [];
    var schedule := First(s, HostLook(true), waiting);
    schedule := Then(s, schedule, waiting, StoreRun,
                     s.(host := if job.id !in s.table then Ending(job, Erred)
                                else if s.table[job.id].attempt != job.attempt || s.table[job.id].phase == CancelRequested then Ending(job, SawCancel)
                                else Working(job)));
  }

  lemma CheckpointIsAnswered(s: State, job: Try, c: Checkpoint, acceptable: bool, ok: bool) returns (schedule: seq<Action>)
    requires s.host == Working(job) && s.queue == [] && c.job == job
    requires ok <==> acceptable && job.id in s.table && s.table[job.id].attempt == job.attempt && s.table[job.id].phase == Running
    ensures schedule == [HostConfirm(c.step, acceptable, true), StoreRun]
    ensures
      Leads(s, schedule, if ok then s.(host := Acknowledging(job, c), log := s.log.(confirmed := s.log.confirmed + {c}))
                         else s.(host := Ending(job, Erred)))
  {
    var e := Entry(Confirm(c, acceptable), true);
    var waiting := s.(queue := [e], host := AwaitingConfirm(job, c));
    assert [] + [e] == [e] && [e][1..] == [];
    schedule := First(s, HostConfirm(c.step, acceptable, true), waiting);
    schedule := Then(s, schedule, waiting, StoreRun,
                     if ok then s.(host := Acknowledging(job, c), log := s.log.(confirmed := s.log.confirmed + {c}))
                     else s.(host := Ending(job, Erred)));
  }

  /** A checkpoint is confirmed exactly when it is acceptable and its attempt is running; then the worker is told. */
  lemma CheckpointOutcome(s: State, job: Try, step: nat, acceptable: bool)
    requires s.host == Working(job) && s.queue == []
    ensures
      var c := Checkpoint(job, step);
      var ok := acceptable && job.id in s.table && s.table[job.id].attempt == job.attempt && s.table[job.id].phase == Running;
      var confirmed := s.(log := s.log.(confirmed := s.log.confirmed + {c}));
      && (!ok ==> Leads(s, [HostConfirm(step, acceptable, true), StoreRun], s.(host := Ending(job, Erred))))
      && (ok ==> Leads(s, [HostConfirm(step, acceptable, true), StoreRun, HostAck(true)],
                       confirmed.(log := confirmed.log.(acked := s.log.acked + {c}))))
      && (ok ==> Leads(s, [HostConfirm(step, acceptable, true), StoreRun, HostAck(false)], confirmed.(host := Ending(job, Erred))))
  {
    var c := Checkpoint(job, step);
    var ok := acceptable && job.id in s.table && s.table[job.id].attempt == job.attempt && s.table[job.id].phase == Running;
    var schedule := CheckpointIsAnswered(s, job, c, acceptable, ok);
    if ok {
      var confirmed := s.(log := s.log.(confirmed := s.log.confirmed + {c}));
      var waiting := confirmed.(host := Acknowledging(job, c));
      var longer := Then(s, schedule, waiting, HostAck(true), confirmed.(log := confirmed.log.(acked := s.log.acked + {c})));
      longer := Then(s, schedule, waiting, HostAck(false), confirmed.(host := Ending(job, Erred)));
    }
  }

  /** Once the attempt is over its worker is stopped; if the exit is not confirmed the loop ends, and containment with it. */
  lemma WorkerIsStopped(s: State, job: Try, end: End)
    requires s.host == Ending(job, end)
    ensures Leads(s, [HostStopWorker(true, true)], s.(host := Closing(job, end), children := s.children - multiset{job}))
    ensures
      Leads(s, [HostStopWorker(false, true), HostLose, HostLose],
            s.(host := Finished, contained := false, stopped := true,
               queue := s.queue + [Entry(Ask(Interrupt(job.id, job.attempt)), false)]))
    ensures
      Leads(s, [HostStopWorker(false, false), HostLose, HostLose], s.(host := Finished, contained := false, stopped := true))
  {
    var schedule := First(s, HostStopWorker(true, true), s.(host := Closing(job, end), children := s.children - multiset{job}));
    ExitIsUnconfirmed(s, job, end, true);
    ExitIsUnconfirmed(s, job, end, false);
  }

  lemma ExitIsUnconfirmed(s: State, job: Try, end: End, accepted: bool)
    requires s.host == Ending(job, end)
    ensures
      var queue := if accepted then s.queue + [Entry(Ask(Interrupt(job.id, job.attempt)), false)] else s.queue;
      Leads(s, [HostStopWorker(false, accepted), HostLose, HostLose],
            s.(host := Finished, contained := false, stopped := true, queue := queue))
  {
    var queue := if accepted then s.queue + [Entry(Ask(Interrupt(job.id, job.attempt)), false)] else s.queue;
    var losing := s.(host := Losing, queue := queue);
    var schedule := First(s, HostStopWorker(false, accepted), losing);
    var stopping := losing.(contained := false, host := Stopping);
    schedule := Then(s, schedule, losing, HostLose, stopping);
    schedule := Then(s, schedule, stopping, HostLose, stopping.(stopped := true, host := Finished));
  }

  lemma WorkEnds(s: State, job: Try, end: End)
    requires s.host == Working(job) && !end.SawCancel?
    ensures Leads(s, [HostEnd(end)], s.(host := Ending(job, end)))
  {
    var schedule := First(s, HostEnd(end), s.(host := Ending(job, end)));
  }

  /** What an end of the attempt means for the store. A preempted job goes on by itself unless the loop was told to stop. */
  function OutcomeOf(end: End, stopped: bool, stale: bool): Outcome {
    match end
    case Produced(acceptable, complete) => CompletedWith(acceptable, complete)
    case SawCancel => WasCancelled
    case Preempted => WasInterrupted(!stopped, stale)
    case Erred => WentWrong
  }

  lemma RequestIsRun(s: State, job: Try, end: End, stale: bool, r: Request) returns (schedule: seq<Action>)
    requires s.host == Closing(job, end) && s.queue == []
    requires match end
             case SawCancel => r == CompleteCancel(job.id, job.attempt)
             case Preempted => r == Requeue(job.id, job.attempt, !s.stopped, stale)
             case Erred => r == Request.Fail(job.id, job.attempt)
             case _ => false
    ensures Leads(s, schedule, s.(table := Apply(s.table, r).0, host := Releasing))
  {
    var asked := s.(queue := [Entry(Ask(r), false)], host := Releasing);
    assert [] + [Entry(Ask(r), false)] == [Entry(Ask(r), false)] && [Entry(Ask(r), false)][1..] == [];
    schedule := First(s, HostClose(stale, true), asked);
    assert !r.Claim?;
    schedule := Then(s, schedule, asked, StoreRun, s.(table := Apply(s.table, r).0, host := Releasing));
  }

  lemma ResultIsOffered(s: State, job: Try, acceptable: bool, complete: bool, stale: bool) returns (schedule: seq<Action>)
    requires s.host == Closing(job, Produced(acceptable, complete)) && s.queue == []
    ensures
      var (t, ok) := Apply(s.table, Finish(job.id, job.attempt, acceptable, complete));
      Leads(s, schedule, s.(table := t, host := if ok then Releasing else Closing(job, Erred)))
  {
    var r := Finish(job.id, job.attempt, acceptable, complete);
    var waiting := s.(queue := [Entry(Ask(r), true)], host := AwaitingFinish(job));
    assert [] + [Entry(Ask(r), true)] == [Entry(Ask(r), true)] && [Entry(Ask(r), true)][1..] == [];
    schedule := First(s, HostClose(stale, true), waiting);
    var (t, ok) := Apply(s.table, r);
    schedule := Then(s, schedule, waiting, StoreRun, s.(table := t, host := if ok then Releasing else Closing(job, Erred)));
  }

  lemma AttemptIsAnswered(s: State, job: Try, end: End, stale: bool) returns (schedule: seq<Action>)
    requires s.host == Closing(job, end) && s.queue == []
    ensures Leads(s, schedule, s.(table := Close(s.table, job.id, job.attempt, OutcomeOf(end, s.stopped, stale)), host := Releasing))
  {
    match end
    case Produced(acceptable, complete) =>
      schedule := ResultIsOffered(s, job, acceptable, complete, stale);
      var (t, ok) := Apply(s.table, Finish(job.id, job.attempt, acceptable, complete));
      if !ok {
        var refused := s.(table := t, host := Closing(job, Erred));
        var failing := RequestIsRun(refused, job, Erred, stale, Request.Fail(job.id, job.attempt));
        LeadsOn(s, schedule, refused, failing, refused.(table := Apply(t, Request.Fail(job.id, job.attempt)).0, host := Releasing));
        schedule := schedule + failing;
      }
    case SawCancel => schedule := RequestIsRun(s, job, end, stale, CompleteCancel(job.id, job.attempt));
    case Preempted => schedule := RequestIsRun(s, job, end, stale, Requeue(job.id, job.attempt, !s.stopped, stale));
    case Erred => schedule := RequestIsRun(s, job, end, stale, Request.Fail(job.id, job.attempt));
  }

  /**
    With the store answering, a closed attempt leaves the job as its outcome says, gives the permit back, and the loop begins its
    next pass. What the outcomes make of a job is written out phase by phase beside the table.
   */
  lemma AttemptIsClosed(s: State, job: Try, end: End, stale: bool) returns (schedule: seq<Action>)
    requires s.host == Closing(job, end) && s.queue == []
    ensures
      var g := s.gate;
      Leads(s, schedule, s.(table := Close(s.table, job.id, job.attempt, OutcomeOf(end, s.stopped, stale)), host := Top,
                            gate := Gate(g.live, g.preparing, false, g.backgroundLive, g.shutdown)))
  {
    schedule := AttemptIsAnswered(s, job, end, stale);
    var answered := s.(table := Close(s.table, job.id, job.attempt, OutcomeOf(end, s.stopped, stale)), host := Releasing);
    schedule := Then(s, schedule, answered, HostRelease, answered.(host := Top, gate := s.gate.(background := false)));
  }

  /** When the loop claims a job. */
  predicate CanBeClaimed(t: Table, job: Try) {
    && job.id in t && t[job.id].attempt == job.attempt && t[job.id].phase in {Queued, Waiting}
    && forall x :: x in t ==> t[x].phase !in {Running, CancelRequested}
  }

  lemma QueuedJobIsClaimed(s: State, job: Try, eligible: bool) returns (schedule: seq<Action>)
    requires s.host.Top? && !s.stopped && s.queue == [] && CanBeClaimed(s.table, job)
    requires !s.gate.shutdown && !s.gate.preparing && !s.gate.background && (!s.gate.live || eligible)
    ensures
      var g := s.gate;
      Leads(s, schedule, s.(host := Claimed(job), gate := Gate(g.live, g.preparing, true, eligible, g.shutdown),
                            table := s.table[job.id := Job(Running, job.attempt, s.table[job.id].maxAttempts)],
                            log := s.log.(claimed := s.log.claimed + [job])))
  {
    schedule := First(s, HostTop, s.(host := Considering));
    var permitted := s.(host := Permitted(job), gate := s.gate.(background := true, backgroundLive := eligible));
    schedule := Then(s, schedule, s.(host := Considering), HostAdmit(job, eligible, false), permitted);
    ClaimOutcome(s.table, job.id, job.attempt, false, false);
    ClaimIsAnswered(permitted, job, false, false);
    LeadsOn(s, schedule, permitted, [HostClaim(false, false, true), StoreRun],
            permitted.(table := s.table[job.id := Job(Running, job.attempt, s.table[job.id].maxAttempts)], host := Claimed(job),
                       log := s.log.(claimed := s.log.claimed + [job])));
    schedule := schedule + [HostClaim(false, false, true), StoreRun];
  }

  /** A worker runs for the claimed job and comes to this end. */
  lemma WorkerRuns(s: State, job: Try, end: End)
    requires s.host == Claimed(job) && !end.SawCancel?
    ensures
      Leads(s, [HostSpawn(true), HostEnd(end), HostStopWorker(true, true)],
            s.(host := Closing(job, end), log := s.log.(spawned := s.log.spawned + [job])))
  {
    WorkerStarts(s, job);
    var working := s.(host := Working(job), children := s.children + multiset{job}, log := s.log.(spawned := s.log.spawned + [job]));
    var schedule := Then(s, [HostSpawn(true)], working, HostEnd(end), working.(host := Ending(job, end)));
    assert (s.children + multiset{job}) - multiset{job} == s.children;
    schedule := Then(s, schedule, working.(host := Ending(job, end)), HostStopWorker(true, true),
                     s.(host := Closing(job, end), log := s.log.(spawned := s.log.spawned + [job])));
  }

  /**
    A whole pass with nothing in its way. A job that can be claimed is claimed, its worker runs and is stopped, and the job ends as
    succeeded, succeeded in part, or failed, by its result; or it waits in its next attempt, or is interrupted, when it was
    preempted. The permit is free again and the loop is at its top.
   */
  lemma JobIsRun(s: State, job: Try, eligible: bool, end: End, stale: bool) returns (schedule: seq<Action>)
    requires s.host.Top? && !s.stopped && s.queue == [] && CanBeClaimed(s.table, job) && !end.SawCancel?
    requires !s.gate.shutdown && !s.gate.preparing && !s.gate.background && (!s.gate.live || eligible)
    ensures
      var limit := s.table[job.id].maxAttempts;
      var ended := match end
                   case Produced(acceptable, complete) =>
                     Job(if !acceptable then Failed else if complete then Succeeded else SucceededPartial, job.attempt, limit)
                   case Preempted =>
                     if !stale && job.attempt < limit then Job(Waiting, job.attempt + 1, limit) else Job(Interrupted, job.attempt, limit)
                   case _ => Job(Failed, job.attempt, limit);
      Leads(s, schedule, s.(table := s.table[job.id := ended], gate := Gate(s.gate.live, s.gate.preparing, false, eligible, s.gate.shutdown),
                            log := s.log.(claimed := s.log.claimed + [job], spawned := s.log.spawned + [job])))
  {
    var running := s.table[job.id := Job(Running, job.attempt, s.table[job.id].maxAttempts)];
    schedule := QueuedJobIsClaimed(s, job, eligible);
    var claimed := s.(host := Claimed(job), gate := s.gate.(background := true, backgroundLive := eligible), table := running,
                      log := s.log.(claimed := s.log.claimed + [job]));
    WorkerRuns(claimed, job, end);
    var closing := claimed.(host := Closing(job, end), log := claimed.log.(spawned := s.log.spawned + [job]));
    LeadsOn(s, schedule, claimed, [HostSpawn(true), HostEnd(end), HostStopWorker(true, true)], closing);
    var closed := AttemptIsClosed(closing, job, end, stale);
    var table := Close(running, job.id, job.attempt, OutcomeOf(end, false, stale));
    LeadsOn(s, schedule + [HostSpawn(true), HostEnd(end), HostStopWorker(true, true)], closing, closed,
            closing.(table := table, host := Top, gate := claimed.gate.(background := false)));
    schedule := schedule + [HostSpawn(true), HostEnd(end), HostStopWorker(true, true)] + closed;
    ClosedAs(running, job.id, job.attempt, OutcomeOf(end, false, stale));
    assert running[job.id := table[job.id]] == s.table[job.id := table[job.id]];
  }

  /** Users may create, cancel and retry, at any time. */
  lemma UsersAskIff(s: State, r: Request)
    ensures
      Next(s, UserAsk(r))
      == if r.Create? || r.Cancel? || r.Retry? then Some(s.(queue := s.queue + [Entry(Ask(r), false)])) else None
  {
  }

  /** Live capture waits for the permit to be free, and shuts background work out from the moment it asks. */
  lemma LiveTakesEffect(s: State)
    ensures s.owner.Off? ==>
              Leads(s, [LiveAsk], s.(owner := Asking, gate := Gate(true, true, s.gate.background, s.gate.backgroundLive, s.gate.shutdown)))
    ensures s.owner.Asking? ==> Next(s, LiveGrant) == if s.gate.background then None else Some(s.(owner := Granted))
    ensures s.owner.Granted? ==>
              Leads(s, [LiveReady], s.(owner := On, gate := Gate(s.gate.live, false, s.gate.background, s.gate.backgroundLive, s.gate.shutdown)))
    ensures Leads(s, [LiveFinish], s.(owner := Off, gate := Gate(false, false, s.gate.background, s.gate.backgroundLive, s.gate.shutdown)))
  {
    var schedule := First(s, LiveFinish, s.(owner := Off, gate := s.gate.(live := false, preparing := false)));
    if s.owner.Off? {
      schedule := First(s, LiveAsk, s.(owner := Asking, gate := s.gate.(live := true, preparing := true)));
    } else if s.owner.Granted? {
      schedule := First(s, LiveReady, s.(owner := On, gate := s.gate.(preparing := false)));
    }
  }

  lemma SpeakerStarts(s: State) returns (schedule: seq<Action>)
    requires s.speaker.NoPermit? && !s.gate.shutdown && !s.gate.preparing && !s.gate.background
    ensures schedule == [SpeakerAdmit(false), SpeakerStart]
    ensures Leads(s, schedule, s.(speaker := RunsChild, gate := s.gate.(background := true, backgroundLive := true)))
  {
    var holds := s.(speaker := HoldsPermit, gate := s.gate.(background := true, backgroundLive := true));
    schedule := First(s, SpeakerAdmit(false), holds);
    schedule := Then(s, schedule, holds, SpeakerStart, holds.(speaker := RunsChild));
  }

  /** When the speaker manager gets the permit, too. */
  lemma SpeakerIsAdmittedIff(s: State, pressed: bool)
    requires s.speaker.NoPermit?
    ensures
      var g := s.gate;
      Next(s, SpeakerAdmit(pressed))
      == if pressed || g.shutdown || g.preparing || g.background then None
         else Some(s.(speaker := HoldsPermit, gate := Gate(g.live, g.preparing, true, true, g.shutdown)))
  {
  }

  /** It gives the permit back after a confirmed stop, and keeps it for good after another. */
  lemma SpeakerTakesEffect(s: State)
    requires s.speaker.NoPermit? && !s.gate.shutdown && !s.gate.preparing && !s.gate.background
    ensures
      var g := s.gate;
      var lost := s.(speaker := LostChild, gate := Gate(g.live, g.preparing, true, true, g.shutdown));
      && Leads(s, [SpeakerAdmit(false), SpeakerStart, SpeakerStop(true), SpeakerRelease],
               s.(gate := Gate(g.live, g.preparing, false, true, g.shutdown)))
      && Leads(s, [SpeakerAdmit(false), SpeakerStart, SpeakerStop(false)], lost)
      && Next(lost, SpeakerRelease) == None
  {
    var g := s.gate;
    var schedule := SpeakerStarts(s);
    var running := s.(speaker := RunsChild, gate := g.(background := true, backgroundLive := true));
    var lost := Then(s, schedule, running, SpeakerStop(false), running.(speaker := LostChild));
    schedule := Then(s, schedule, running, SpeakerStop(true), running.(speaker := HoldsPermit));
    schedule := Then(s, schedule, running.(speaker := HoldsPermit), SpeakerRelease,
                     s.(gate := g.(background := false, backgroundLive := true)));
  }

  /** A shutdown stops the loop and closes the gate; a poll that begins with containment answers true once the loop has ended. */
  lemma ShutdownTakesEffect(s: State)
    ensures
      Leads(s, [ShutdownFlag, ShutdownGate],
            s.(stopped := true, gate := Gate(s.gate.live, s.gate.preparing, s.gate.background, s.gate.backgroundLive, true)))
    ensures s.poll.NotPolling? && s.contained ==> Leads(s, [PollStart, PollStep], s.(completed := s.completed || s.host.Finished?))
    ensures s.poll.NotPolling? && !s.contained ==> Next(s, PollStart) == None
  {
    var schedule := First(s, ShutdownFlag, s.(stopped := true));
    schedule := Then(s, schedule, s.(stopped := true), ShutdownGate, s.(stopped := true, gate := s.gate.(shutdown := true)));
    if s.poll.NotPolling? && s.contained {
      schedule := First(s, PollStart, s.(poll := SawContained));
      schedule := Then(s, schedule, s.(poll := SawContained), PollStep, s.(completed := s.completed || s.host.Finished?));
    }
  }

  // ----- The gate in place -----

  /** ResourceBudget's flags. Pressure is decided outside: it only refuses more. */
  class ResourceBudget {
    var live: bool
    var preparing: bool
    var background: bool
    var backgroundLive: bool
    var shutdown: bool

    function View(): Gate
      reads this
    {
      Gate(live, preparing, background, backgroundLive, shutdown)
    }

    constructor ()
      ensures View() == Gate(false, false, false, false, false)
    {
      live, preparing, background, backgroundLive, shutdown := false, false, false, false, false;
    }

    method Admit(eligible: bool, pressed: bool) returns (ok: bool)
      modifies this
      ensures ok <==> !old(shutdown) && !old(preparing) && !old(background) && (!old(live) || eligible) && !pressed
      ensures background == (old(background) || ok) && backgroundLive == if ok then eligible else old(backgroundLive)
      ensures live == old(live) && preparing == old(preparing) && shutdown == old(shutdown)
    {
      if shutdown || preparing || background || (live && !eligible) || pressed {
        return false;
      }
      background, backgroundLive := true, eligible;
      return true;
    }

    /** The first lock region of prepare_live: background work is refused from here on. */
    method PrepareLive()
      modifies this
      ensures View() == old(View()).(live := true, preparing := true)
      ensures !MayAdmit(View(), false) && !MayAdmit(View(), true)
    {
      live, preparing := true, true;
    }

    method LiveReady()
      modifies this
      ensures View() == old(View()).(preparing := false)
    {
      preparing := false;
    }

    method FinishLive()
      modifies this
      ensures View() == old(View()).(live := false, preparing := false)
    {
      live, preparing := false, false;
    }

    /** Dropping a background permit. */
    method Release()
      modifies this
      ensures View() == old(View()).(background := false)
    {
      background := false;
    }
  }

  // ----- Automatic insights -----

  const INSIGHT_INTERVAL := 180_000

  /** The polls, in milliseconds and in order, at which an insight is due when the last was at `last`. */
  function DuePolls(last: nat, polls: seq<nat>): seq<nat>
    decreases |polls|
  {
    if polls == [] then []
    else if polls[0] - last >= INSIGHT_INTERVAL then [polls[0]] + DuePolls(polls[0], polls[1..])
    else DuePolls(last, polls[1..])
  }

  ghost predicate InOrder(last: nat, polls: seq<nat>)
    decreases |polls|
  {
    polls == [] || (last <= polls[0] && InOrder(polls[0], polls[1..]))
  }

  /** Insights are at least an interval apart, the first one counted from the start of the session. */
  ghost predicate Spaced(last: nat, due: seq<nat>)
    decreases |due|
  {
    due == [] || (last + 180_000 <= due[0] && Spaced(due[0], due[1..]))
  }

  lemma {:induction false} InsightsAreSpaced(last: nat, polls: seq<nat>)
    ensures Spaced(last, DuePolls(last, polls))
    decreases |polls|
  {
    if polls != [] {
      if polls[0] - last >= INSIGHT_INTERVAL {
        InsightsAreSpaced(polls[0], polls[1..]);
        assert DuePolls(last, polls)[1..] == DuePolls(polls[0], polls[1..]);
      } else {
        InsightsAreSpaced(last, polls[1..]);
      }
    }
  }

  /** No spaced choice among the polls has more insights, so none is ever skipped. */
  lemma {:induction false} NoInsightIsSkipped(last: nat, later: nat, polls: seq<nat>, choice: seq<nat>)
    requires last <= later && InOrder(last, polls)
    requires Spaced(later, choice) && IsSelection(choice, polls)
    ensures |choice| <= |DuePolls(last, polls)|
    decreases |polls|
  {
    if polls != [] && choice != [] {
      var taken := choice[0] == polls[0] && IsSelection(choice[1..], polls[1..]);
      if polls[0] - last >= INSIGHT_INTERVAL {
        if taken {
          NoInsightIsSkipped(polls[0], polls[0], polls[1..], choice[1..]);
        } else {
          InOrderTail(last, polls);
          SelectionIsLater(choice, polls[0], polls[1..]);
          WeakenSelection(choice, polls[1..]);
          NoInsightIsSkipped(polls[0], choice[0], polls[1..], choice[1..]);
        }
      } else {
        InOrderTail(last, polls);
        NoInsightIsSkipped(last, later, polls[1..], choice);
      }
    }
  }

  predicate IsSelection(choice: seq<nat>, polls: seq<nat>)
    decreases |polls|
  {
    choice == [] || (polls != [] && ((choice[0] == polls[0] && IsSelection(choice[1..], polls[1..])) || IsSelection(choice, polls[1..])))
  }

  lemma InOrderTail(last: nat, polls: seq<nat>)
    requires polls != [] && InOrder(last, polls)
    ensures InOrder(last, polls[1..])
  {
  }

  lemma {:induction false} WeakenSelection(choice: seq<nat>, polls: seq<nat>)
    requires choice != [] && IsSelection(choice, polls)
    ensures IsSelection(choice[1..], polls)
    decreases |polls|
  {
    if choice[0] == polls[0] && IsSelection(choice[1..], polls[1..]) {
      if choice[1..] != [] {
        assert IsSelection(choice[1..], polls[1..]);
      }
    } else {
      WeakenSelection(choice, polls[1..]);
    }
  }

  lemma {:induction false} SelectionIsLater(choice: seq<nat>, from: nat, polls: seq<nat>)
    requires choice != [] && IsSelection(choice, polls) && InOrder(from, polls)
    ensures from <= choice[0]
    decreases |polls|
  {
    if !(choice[0] == polls[0]) {
      SelectionIsLater(choice, polls[0], polls[1..]);
    }
  }

  class Automatic {
    var live: Option<(Id, nat)>

    constructor ()
      ensures live == None
    {
      live := None;
    }

    method SessionStarted(id: Id, now: nat)
      modifies this
      ensures live == Some((id, now))
    {
      live := Some((id, now));
    }

    method SessionStopped(id: Id)
      modifies this
      ensures live == if old(live).Some? && old(live).value.0 == id then None else old(live)
    {
      if live.Some? && live.value.0 == id {
        live := None;
      }
    }

    method NextJob(now: nat) returns (due: Option<Id>)
      modifies this
      ensures old(live).None? ==> live == None && due == None
      ensures old(live).Some? ==>
        var (id, last) := old(live).value;
        var polls := DuePolls(last, [now]);
        due == (if polls == [] then None else Some(id)) && live == Some((id, if polls == [] then last else polls[0]))
      ensures old(live).Some? ==>
        due == if now - old(live).value.1 >= 180_000 then Some(old(live).value.0) else None
    {
      due := None;
      if live.Some? {
        var (id, last) := live.value;
        if now - last >= INSIGHT_INTERVAL {
          live := Some((id, now));
          due := Some(id);
        }
      }
    }
  }
}
