/**
  The fence between enabling or disabling speaker analysis and the labels it writes
  (desktop/forum-shell/src/speaker_manager.rs).

  User calls, the scan thread, the store actor and the shutdown poll interleave. Two locks are
  taken: the state lock and, sometimes inside it, the lock of the model path. Every thread takes
  a lock, works and lets go in steps of its own, and waits while another holds it; a waiting
  thread has no step. Each step is one lock taken, one atomic access, one store-actor action, or
  the last access under a lock together with letting go of it.
 */
module SpeakerFence {
  import opened Common

  type Session = nat
  type UserId = nat

  // ----- Shared state -----

  /** The fields the threads share. Counters are unbounded. */
  datatype Shared = Shared(
    enabled: bool,
    session: Option<Session>,
    generation: nat,
    stopped: bool,
    contained: bool,
    pending: nat)

  const INITIAL := Shared(false, None, 0, false, true, 0)

  function BumpGeneration(h: Shared): Shared {
    h.(generation := h.generation + 1)
  }

  /** `update` with a change that switches analysis off: only while the generation is still current. */
  function GiveUpRegion(h: Shared, generation: nat): Shared {
    if h.generation == generation then h.(enabled := false) else h
  }

  datatype Owner = Nobody | ByUser(id: UserId) | ByWorker | ByActor

  datatype Locks = Locks(state: Owner, model: Owner)

  // ----- Threads -----

  /** One computed label on its way to the store, bound to what the scan thread read. */
  datatype Commit = Commit(generation: nat, session: Session)

  datatype User =
    | SawRunning(target: Session)             // enable: stopped was false
    | Asking(target: Session)                 // contained was true, the store not yet asked
    | CallingStore(target: Session)           // waiting for the store to know the session
    | WantsState(target: Session)
    | HoldsState(target: Session)             // wants the model lock as well
    | HoldsBoth(target: Session)
    | Raising(target: Session)                // model lock released, generation not yet raised
    | Raised(target: Session, generation: nat)
    | WantsDisable
    | Disabling                               // holds the state lock
    | DisableRaised
    | WantsRead                               // status
    | Reading

  datatype Worker =
    | Top                                     // the loop test
    | ReadGeneration                          // before loading the generation
    | WantsStatus(generation: nat)
    | HoldsStatus(generation: nat)
    | Scanning(job: Commit)                   // between the calls of one pass over a page
    | WantsModel(job: Commit)
    | HoldsModel(job: Commit)
    | AwaitingPage(job: Commit)               // waiting for the store
    | WantsNotice(job: Commit)                // an update of what is displayed
    | HoldsNotice(job: Commit)
    | WantsGiveUp(job: Commit)
    | HoldsGiveUp(job: Commit)
    | Candidate(job: Commit)                  // stopped was false, generation not yet compared
    | Starting(job: Commit)                   // not interrupted, child process not yet started
    | ChildRunning(job: Commit)
    | ChildStopped(job: Commit)               // child exit confirmed with a result
    | StillRunning(job: Commit)               // stopped was false, generation not yet compared
    | Checked(job: Commit)                    // not interrupted, pending not yet raised
    | Counted(job: Commit)                    // pending raised, closure not yet offered to the actor
    | Rejected(job: Commit)                   // actor refused the closure, pending not yet lowered
    | AwaitingCommit(job: Commit)             // closure queued, waiting for its ticket
    | AfterCandidate(job: Commit)             // wants the state lock to clear the active segment
    | HoldsAfter(job: Commit)
    | Uncontained                             // child exit not confirmed; wants the state lock
    | Exiting                                 // loop left; wants the state lock
    | HoldsFinal
    | Finished

  datatype Actor =
    | Idle
    | Entered(job: Commit)                    // closure started; wants the state lock
    | Locked(job: Commit)
    | ActorSawRunning(job: Commit)            // read stopped as false
    | ActorSawGeneration(job: Commit)         // read its own generation
    | ActorSawEnabled(job: Commit)            // about to write
    | Decided(job: Commit)                    // written or refused, lock still held
    | Unlocked(job: Commit)                   // lock released, pending not yet lowered

  datatype Poll = NotPolling | Polling | SawContained | SawNoPending

  /** A queued closure: a commit, or a read that someone waits for. */
  datatype Closure = Write(job: Commit) | Answer(who: Owner)

  datatype Event =
    | Enabled(session: Session, generation: nat)
    | Disabled
    | Wrote(session: Session, generation: nat)

  datatype State = State(
    shared: Shared,
    locks: Locks,
    users: map<UserId, User>,
    bumped: bool,                             // some shutdown call has raised the generation
    worker: Worker,
    queue: seq<Closure>,
    actor: Actor,
    poll: Poll,
    completed: bool,                          // some shutdown_complete call has returned true
    log: seq<Event>)

  const START := State(INITIAL, Locks(Nobody, Nobody), map[], false, Top, [], Idle, NotPolling, false, [])

  /** What the scan thread does next between two calls. */
  datatype Go = GoTop | GoNotice | GoModel | GoPage | GoCandidate | GoGiveUp

  datatype Action =
    | UserEnable(id: UserId, target: Session)
    | UserDisable(id: UserId)
    | UserRead(id: UserId)
    | UserStep(id: UserId, ok: bool)
    | ShutdownFlag
    | ShutdownBump
    | WorkerStep(go: Go, ok: bool)
    | ActorStep
    | PollStart
    | PollStep

  // ----- User calls -----

  function SetUser(s: State, id: UserId, u: User): State {
    s.(users := s.users[id := u])
  }

  function DropUser(s: State, id: UserId): State {
    s.(users := s.users - {id})
  }

  function TakeState(s: State, who: Owner): State {
    s.(locks := s.locks.(state := who))
  }

  function FreeState(s: State): State { TakeState(s, Nobody) }

  predicate UserHoldsState(u: User) {
    u.HoldsState? || u.HoldsBoth? || u.Raising? || u.Raised? || u.Disabling? || u.DisableRaised? || u.Reading?
  }

  /** A step of a call outside the state lock. `ok` is whether the store takes it; a caller may also stop waiting. */
  function UserOutside(s: State, id: UserId, ok: bool): Option<State>
    requires id in s.users
  {
    match s.users[id]
    case SawRunning(target) => Some(if s.shared.contained then SetUser(s, id, Asking(target)) else DropUser(s, id))
    case Asking(target) =>
      Some(if ok then SetUser(s, id, CallingStore(target)).(queue := s.queue + [Answer(ByUser(id))]) else DropUser(s, id))
    case CallingStore(_) => Some(DropUser(s, id))
    case WantsState(target) =>
      if s.locks.state != Nobody then None else Some(TakeState(SetUser(s, id, HoldsState(target)), ByUser(id)))
    case WantsDisable =>
      if s.locks.state != Nobody then None else Some(TakeState(SetUser(s, id, Disabling), ByUser(id)))
    case WantsRead =>
      if s.locks.state != Nobody then None else Some(TakeState(SetUser(s, id, Reading), ByUser(id)))
    case _ => None
  }

  /** A step inside it. */
  function UserInside(s: State, id: UserId): Option<State>
    requires id in s.users
  {
    var h := s.shared;
    match s.users[id]
    case HoldsState(target) =>
      if s.locks.model != Nobody then None
      else Some(SetUser(s, id, HoldsBoth(target)).(locks := s.locks.(model := ByUser(id))))
    case HoldsBoth(target) => Some(SetUser(s, id, Raising(target)).(locks := s.locks.(model := Nobody)))
    case Raising(target) =>
      Some(SetUser(s, id, Raised(target, h.generation + 1)).(shared := BumpGeneration(h)))
    case Raised(target, generation) =>
      Some(FreeState(DropUser(s, id)).(shared := h.(enabled := true, session := Some(target)),
                                       log := s.log + [Enabled(target, generation)]))
    case Disabling => Some(SetUser(s, id, DisableRaised).(shared := BumpGeneration(h)))
    case DisableRaised =>
      Some(FreeState(DropUser(s, id)).(shared := h.(enabled := false), log := s.log + [Disabled]))
    case Reading => Some(FreeState(DropUser(s, id)))
    case _ => None
  }

  function UserNext(s: State, id: UserId, ok: bool): Option<State>
    requires id in s.users
  {
    if UserHoldsState(s.users[id]) then UserInside(s, id) else UserOutside(s, id, ok)
  }

  function UserBegin(s: State, a: Action): Option<State> {
    match a
    case UserEnable(id, target) =>
      if id in s.users || s.shared.stopped then None else Some(SetUser(s, id, SawRunning(target)))
    case UserDisable(id) => if id in s.users then None else Some(SetUser(s, id, WantsDisable))
    case UserRead(id) => if id in s.users then None else Some(SetUser(s, id, WantsRead))
    case ShutdownFlag => Some(s.(shared := s.shared.(stopped := true)))
    case ShutdownBump =>
      if !s.shared.stopped then None else Some(s.(shared := BumpGeneration(s.shared), bumped := true))
    case _ => None
  }

  // ----- The scan thread -----

  function GoTo(s: State, w: Worker): Option<State> { Some(s.(worker := w)) }

  /** The thread lets go of the state lock. */
  function Unlock(s: State, w: Worker): Option<State> { Some(FreeState(s.(worker := w))) }

  function WorkerGo(s: State, go: Go, ok: bool): Option<State>
    requires s.worker.Scanning?
  {
    var job := s.worker.job;
    match go
    case GoTop => GoTo(s, Top)
    case GoNotice => GoTo(s, WantsNotice(job))
    case GoModel => GoTo(s, WantsModel(job))
    case GoPage => if ok then GoTo(s.(queue := s.queue + [Answer(ByWorker)]), AwaitingPage(job)) else GoTo(s, Top)
    case GoCandidate => GoTo(s, if s.shared.stopped then AfterCandidate(job) else Candidate(job))
    case GoGiveUp => GoTo(s, WantsGiveUp(job))
  }

  /** Around the child process. */
  function WorkerChild(s: State, go: Go, ok: bool): Option<State> {
    var h := s.shared;
    match s.worker
    case Candidate(job) => GoTo(s, if h.generation != job.generation then AfterCandidate(job) else Starting(job))
    case Starting(job) => GoTo(s, if ok then ChildRunning(job) else AfterCandidate(job))
    case ChildRunning(job) =>
      if go.GoTop? then GoTo(s.(shared := h.(contained := false)), Uncontained)
      else GoTo(s, if ok then ChildStopped(job) else AfterCandidate(job))
    case ChildStopped(job) => GoTo(s, if h.stopped then AfterCandidate(job) else StillRunning(job))
    case StillRunning(job) => GoTo(s, if h.generation != job.generation then AfterCandidate(job) else Checked(job))
    case _ => None
  }

  /** The way of a result to the store. */
  function WorkerCommit(s: State, ok: bool): Option<State> {
    var h := s.shared;
    match s.worker
    case Checked(job) => GoTo(s.(shared := h.(pending := h.pending + 1)), Counted(job))
    case Counted(job) =>
      if ok then GoTo(s.(queue := s.queue + [Write(job)]), AwaitingCommit(job)) else GoTo(s, Rejected(job))
    case Rejected(job) =>
      if h.pending == 0 then None else GoTo(s.(shared := h.(pending := h.pending - 1)), AfterCandidate(job))
    case AwaitingCommit(job) => GoTo(s, AfterCandidate(job))
    case _ => None
  }

  /** Reading what to do, and the model path. */
  function WorkerOutside(s: State): Option<State> {
    match s.worker
    case Top => GoTo(s, if s.shared.stopped then Exiting else ReadGeneration)
    case ReadGeneration => GoTo(s, WantsStatus(s.shared.generation))
    case WantsModel(job) =>
      if s.locks.model != Nobody then None else GoTo(s.(locks := s.locks.(model := ByWorker)), HoldsModel(job))
    case HoldsModel(job) => GoTo(s.(locks := s.locks.(model := Nobody)), Scanning(job))
    case AwaitingPage(job) => GoTo(s, Scanning(job))
    case _ => None
  }

  predicate WorkerWaits(w: Worker) {
    w.WantsStatus? || w.WantsNotice? || w.WantsGiveUp? || w.AfterCandidate? || w.Uncontained? || w.Exiting?
  }

  /** The thread takes the state lock, if it is free. */
  function WorkerAcquire(s: State): Option<State>
    requires WorkerWaits(s.worker)
  {
    if s.locks.state != Nobody then None
    else
      var inside := match s.worker
                    case WantsStatus(generation) => HoldsStatus(generation)
                    case WantsNotice(job) => HoldsNotice(job)
                    case WantsGiveUp(job) => HoldsGiveUp(job)
                    case AfterCandidate(job) => HoldsAfter(job)
                    case _ => HoldsFinal;
      Some(TakeState(s.(worker := inside), ByWorker))
  }

  predicate WorkerHoldsState(w: Worker) {
    w.HoldsStatus? || w.HoldsNotice? || w.HoldsGiveUp? || w.HoldsAfter? || w.HoldsFinal?
  }

  /** Inside the state lock: the last access lets go of it. */
  function WorkerInside(s: State, ok: bool): Option<State> {
    var h := s.shared;
    match s.worker
    case HoldsStatus(generation) =>
      Unlock(s, if h.enabled && h.session.Some? then Scanning(Commit(generation, h.session.value)) else Top)
    case HoldsNotice(job) => Unlock(s, Scanning(job))
    case HoldsGiveUp(job) => Unlock(s.(shared := GiveUpRegion(h, job.generation)), Top)
    case HoldsAfter(job) => Unlock(s, if ok then Scanning(job) else Top)
    case HoldsFinal => Unlock(s.(shared := h.(enabled := false)), Finished)
    case _ => None
  }

  predicate HasChild(w: Worker) {
    w.Candidate? || w.Starting? || w.ChildRunning? || w.ChildStopped? || w.StillRunning?
  }

  predicate IsCommitting(w: Worker) {
    w.Checked? || w.Counted? || w.Rejected? || w.AwaitingCommit?
  }

  function WorkerNext(s: State, go: Go, ok: bool): Option<State> {
    if s.worker.Scanning? then WorkerGo(s, go, ok)
    else if HasChild(s.worker) then WorkerChild(s, go, ok)
    else if IsCommitting(s.worker) then WorkerCommit(s, ok)
    else if WorkerHoldsState(s.worker) then WorkerInside(s, ok)
    else if WorkerWaits(s.worker) then WorkerAcquire(s)
    else WorkerOutside(s)
  }

  // ----- The store actor and the poll -----

  /** The answer of a read reaches whoever still waits for it. */
  function Answered(s: State, who: Owner): State {
    if who.ByUser? && who.id in s.users && s.users[who.id].CallingStore?
    then SetUser(s, who.id, WantsState(s.users[who.id].target))
    else if who.ByWorker? && s.worker.AwaitingPage? then s.(worker := Scanning(s.worker.job))
    else s
  }

  /** The store actor takes the oldest closure; a read is answered at once. */
  function ActorTake(s: State): Option<State>
    requires s.actor.Idle?
  {
    if s.queue == [] then None
    else
      var rest := s.(queue := s.queue[1..]);
      match s.queue[0]
      case Write(job) => Some(rest.(actor := Entered(job)))
      case Answer(who) => Some(Answered(rest, who))
  }

  /** The commit closure; a refused commit skips to the unlock. */
  function ActorCommit(s: State): Option<State> {
    var h := s.shared;
    match s.actor
    case Idle => None
    case Entered(c) => if s.locks.state != Nobody then None else Some(TakeState(s.(actor := Locked(c)), ByActor))
    case Locked(c) => Some(s.(actor := if h.stopped then Decided(c) else ActorSawRunning(c)))
    case ActorSawRunning(c) => Some(s.(actor := if h.generation != c.generation then Decided(c) else ActorSawGeneration(c)))
    case ActorSawGeneration(c) => Some(s.(actor := if !h.enabled then Decided(c) else ActorSawEnabled(c)))
    case ActorSawEnabled(c) => Some(s.(actor := Decided(c), log := s.log + [Wrote(c.session, c.generation)]))
    case Decided(c) => Some(FreeState(s.(actor := Unlocked(c))))
    case Unlocked(_) =>
      if h.pending == 0 then None else Some(s.(actor := Idle, shared := h.(pending := h.pending - 1)))
  }

  function ActorNext(s: State): Option<State> {
    if s.actor.Idle? then ActorTake(s) else ActorCommit(s)
  }

  /** `shutdown_complete` reads containment, the pending count and the thread handle in that order. */
  function PollNext(s: State, a: Action): Option<State> {
    match s.poll
    case NotPolling => if a.PollStart? && s.bumped then Some(s.(poll := Polling)) else None
    case Polling => if a.PollStep? then Some(s.(poll := if s.shared.contained then SawContained else NotPolling)) else None
    case SawContained => if a.PollStep? then Some(s.(poll := if s.shared.pending == 0 then SawNoPending else NotPolling)) else None
    case SawNoPending =>
      if a.PollStep? then Some(s.(poll := NotPolling, completed := s.completed || s.worker.Finished?)) else None
  }

  function Next(s: State, a: Action): Option<State> {
    match a
    case UserStep(id, ok) => if id in s.users then UserNext(s, id, ok) else None
    case WorkerStep(go, ok) => WorkerNext(s, go, ok)
    case ActorStep => ActorNext(s)
    case PollStart => PollNext(s, a)
    case PollStep => PollNext(s, a)
    case _ => UserBegin(s, a)
  }

  /** The state after a schedule, if every step of it is possible. */
  function Run(s: State, schedule: seq<Action>): Option<State> {
    if schedule == [] then Some(s)
    else
      var before := Run(s, schedule[..|schedule| - 1]);
      if before.None? then None else Next(before.value, schedule[|schedule| - 1])
  }

  ghost predicate Reaches(s: State, t: State) {
    exists schedule :: Run(s, schedule) == Some(t)
  }

  ghost predicate Reachable(s: State) {
    Reaches(START, s)
  }

  // ----- The invariant -----

  predicate ActorHoldsState(a: Actor) {
    a.Locked? || a.ActorSawRunning? || a.ActorSawGeneration? || a.ActorSawEnabled? || a.Decided?
  }

  /** Each lock is held by exactly the thread that is inside it. */
  ghost predicate LocksInv(s: State) {
    && (forall id :: id in s.users && UserHoldsState(s.users[id]) <==> s.locks.state == ByUser(id))
    && (WorkerHoldsState(s.worker) <==> s.locks.state == ByWorker)
    && (ActorHoldsState(s.actor) <==> s.locks.state == ByActor)
    && (forall id :: id in s.users && s.users[id].HoldsBoth? <==> s.locks.model == ByUser(id))
    && (s.worker.HoldsModel? <==> s.locks.model == ByWorker)
    && s.locks.model != ByActor
  }

  function Writes(queue: seq<Closure>): nat {
    if queue == [] then 0 else (if queue[0].Write? then 1 else 0) + Writes(queue[1..])
  }

  function InFlight(s: State): nat {
    (if s.worker.Counted? || s.worker.Rejected? then 1 else 0) + Writes(s.queue) + (if s.actor.Idle? then 0 else 1)
  }

  ghost predicate CountInv(s: State) { s.shared.pending == InFlight(s) }

  /** A toggle has raised the generation and has not yet written what it is for. */
  predicate MidToggle(s: State) {
    s.locks.state.ByUser? && s.locks.state.id in s.users
    && (s.users[s.locks.state.id].Raised? || s.users[s.locks.state.id].DisableRaised?)
  }

  /**
    A job read its generation before its session, so a current generation vouches for the session,
    and none is current in the middle of a toggle.
   */
  ghost predicate Bound(h: Shared, mid: bool, c: Commit) {
    && c.generation <= h.generation
    && (c.generation == h.generation ==> !mid && h.session == Some(c.session))
  }

  predicate HasJob(w: Worker) {
    w.Scanning? || w.WantsModel? || w.HoldsModel? || w.AwaitingPage? || w.WantsNotice? || w.HoldsNotice? || w.WantsGiveUp?
    || w.HoldsGiveUp? || HasChild(w) || IsCommitting(w) || w.AfterCandidate? || w.HoldsAfter?
  }

  ghost predicate JobsInv(s: State) {
    && (s.worker.WantsStatus? || s.worker.HoldsStatus? ==> s.worker.generation <= s.shared.generation)
    && (HasJob(s.worker) ==> Bound(s.shared, MidToggle(s), s.worker.job))
    && (!s.actor.Idle? ==> Bound(s.shared, MidToggle(s), s.actor.job))
    && (forall c :: c in s.queue && c.Write? ==> Bound(s.shared, MidToggle(s), c.job))
  }

  /** The last enable or disable in the log: the session it left enabled, with its generation. */
  function LastToggle(log: seq<Event>): Option<(Session, nat)> {
    if log == [] then None
    else
      match log[|log| - 1]
      case Enabled(session, generation) => Some((session, generation))
      case Disabled => None
      case Wrote(_, _) => LastToggle(log[..|log| - 1])
  }

  /** Every write belongs to the session and generation of the enable that precedes it, with no disable between. */
  ghost predicate Fenced(log: seq<Event>) {
    forall i :: 0 <= i < |log| && log[i].Wrote? ==> LastToggle(log[..i]) == Some((log[i].session, log[i].generation))
  }

  /** While analysis is on, the log's last toggle is the enable that switched it on. */
  ghost predicate LogInv(s: State) {
    && Fenced(s.log) && (s.bumped ==> s.shared.stopped)
    && (s.shared.enabled ==>
          && LastToggle(s.log).Some?
          && s.shared.session == Some(LastToggle(s.log).value.0)
          && (!s.bumped && !MidToggle(s) ==> LastToggle(s.log).value.1 == s.shared.generation))
    && (forall id :: id in s.users && s.users[id].Raised? && !s.bumped ==> s.users[id].generation == s.shared.generation)
  }

  /** What the commit closure, and the scan thread between two reads, have established. */
  ghost predicate KnowsInv(s: State) {
    && (s.actor.ActorSawRunning? && s.bumped ==> s.shared.generation > s.actor.job.generation)
    && (s.worker.Candidate? || s.worker.StillRunning? ==> s.bumped ==> s.shared.generation > s.worker.job.generation)
    && (s.actor.ActorSawGeneration? && s.shared.enabled ==>
          LastToggle(s.log) == Some((s.actor.job.session, s.actor.job.generation)))
    && (s.actor.ActorSawEnabled? ==>
          && s.shared.enabled
          && s.shared.session == Some(s.actor.job.session)
          && LastToggle(s.log) == Some((s.actor.job.session, s.actor.job.generation)))
  }

  /** No closure is past the stop check, and the stop flag is up. */
  ghost predicate Drained(s: State) {
    s.shared.stopped && !s.actor.ActorSawRunning? && !s.actor.ActorSawGeneration? && !s.actor.ActorSawEnabled?
  }

  ghost predicate PollInv(s: State) {
    && (!s.shared.contained ==> s.worker.Uncontained? || s.worker.HoldsFinal? || s.worker.Finished?)
    && (s.poll != NotPolling || s.completed ==> s.bumped && s.shared.stopped)
    && (s.poll.SawNoPending? || s.completed ==> Drained(s))
  }

  /** Whoever waits for the store has a closure in its queue. */
  ghost predicate StoreInv(s: State) {
    && (forall id :: id in s.users && s.users[id].CallingStore? ==> Answer(ByUser(id)) in s.queue)
    && (s.worker.AwaitingPage? ==> Answer(ByWorker) in s.queue)
  }

  ghost predicate Inv(s: State) {
    LocksInv(s) && CountInv(s) && JobsInv(s) && LogInv(s) && KnowsInv(s) && PollInv(s) && StoreInv(s)
  }

  lemma AppendEvent(log: seq<Event>, e: Event)
    requires Fenced(log)
    requires e.Wrote? ==> LastToggle(log) == Some((e.session, e.generation))
    ensures Fenced(log + [e])
    ensures LastToggle(log + [e]) == match e case Enabled(session, generation) => Some((session, generation))
                                             case Disabled => None
                                             case Wrote(_, _) => LastToggle(log)
  {
    assert (log + [e])[..|log|] == log;
    forall i | 0 <= i < |log + [e]| && (log + [e])[i].Wrote?
      ensures LastToggle((log + [e])[..i]) == Some(((log + [e])[i].session, (log + [e])[i].generation))
    {
      assert (log + [e])[..i] == log[..i];
    }
  }

  lemma {:induction false} WritesAppend(queue: seq<Closure>, c: Closure)
    ensures Writes(queue + [c]) == Writes(queue) + if c.Write? then 1 else 0
  {
    if queue == [] {
      assert queue + [c] == [c];
    } else {
      assert (queue + [c])[1..] == queue[1..] + [c];
      WritesAppend(queue[1..], c);
    }
  }

  // ----- Locks -----

  /** Nobody takes or lets go of a lock. */
  ghost predicate SameHolders(s: State, t: State) {
    && t.locks == s.locks
    && WorkerHoldsState(t.worker) == WorkerHoldsState(s.worker) && t.worker.HoldsModel? == s.worker.HoldsModel?
    && ActorHoldsState(t.actor) == ActorHoldsState(s.actor)
    && forall id ::
         && (id in t.users && UserHoldsState(t.users[id]) <==> id in s.users && UserHoldsState(s.users[id]))
         && (id in t.users && t.users[id].HoldsBoth? <==> id in s.users && s.users[id].HoldsBoth?)
  }

  lemma SameHoldersKeepLocks(s: State, t: State)
    requires LocksInv(s) && SameHolders(s, t)
    ensures LocksInv(t)
  {
  }

  /** The state lock changes hands between nobody and one thread, and the model lock stays. */
  ghost predicate StateLockMoves(s: State, t: State) {
    && t.locks.model == s.locks.model && t.worker.HoldsModel? == s.worker.HoldsModel?
    && (forall id :: id in t.users && t.users[id].HoldsBoth? <==> id in s.users && s.users[id].HoldsBoth?)
    && (forall id :: id in t.users && UserHoldsState(t.users[id]) <==> t.locks.state == ByUser(id))
    && (WorkerHoldsState(t.worker) <==> t.locks.state == ByWorker)
    && (ActorHoldsState(t.actor) <==> t.locks.state == ByActor)
  }

  lemma StateLockMovesKeepsLocks(s: State, t: State)
    requires LocksInv(s) && StateLockMoves(s, t)
    ensures LocksInv(t)
  {
  }

  lemma TakingKeepsLocks(s: State, id: UserId, u: User)
    requires LocksInv(s) && id in s.users && s.locks.state == Nobody && !s.users[id].HoldsBoth?
    requires UserHoldsState(u) && !u.HoldsBoth?
    ensures LocksInv(TakeState(SetUser(s, id, u), ByUser(id)))
  {
  }

  lemma CallerKeepsLocks(s: State, id: UserId, ok: bool)
    requires id in s.users && LocksInv(s) && UserOutside(s, id, ok).Some?
    ensures LocksInv(UserOutside(s, id, ok).value)
  {
    match s.users[id]
    case SawRunning(_) => SameHoldersKeepLocks(s, UserOutside(s, id, ok).value);
    case Asking(_) => SameHoldersKeepLocks(s, UserOutside(s, id, ok).value);
    case CallingStore(_) => SameHoldersKeepLocks(s, UserOutside(s, id, ok).value);
    case WantsState(target) => TakingKeepsLocks(s, id, HoldsState(target));
    case WantsDisable => TakingKeepsLocks(s, id, Disabling);
    case WantsRead => TakingKeepsLocks(s, id, Reading);
  }

  lemma LeavingKeepsLocks(s: State, id: UserId, h: Shared, log: seq<Event>)
    requires LocksInv(s) && s.locks.state == ByUser(id) && id in s.users && !s.users[id].HoldsBoth?
    ensures LocksInv(FreeState(DropUser(s, id)).(shared := h, log := log))
  {
  }

  lemma HolderKeepsLocks(s: State, id: UserId)
    requires id in s.users && LocksInv(s) && UserInside(s, id).Some?
    ensures LocksInv(UserInside(s, id).value)
  {
    var t := UserInside(s, id).value;
    match s.users[id]
    case HoldsState(_) =>
    case HoldsBoth(_) =>
    case Raising(_) => SameHoldersKeepLocks(s, t);
    case Disabling => SameHoldersKeepLocks(s, t);
    case Raised(_, _) => LeavingKeepsLocks(s, id, t.shared, t.log);
    case DisableRaised => LeavingKeepsLocks(s, id, t.shared, t.log);
    case Reading => LeavingKeepsLocks(s, id, t.shared, t.log);
  }

  lemma BeginKeepsLocks(s: State, a: Action)
    requires LocksInv(s) && UserBegin(s, a).Some?
    ensures LocksInv(UserBegin(s, a).value)
  {
    SameHoldersKeepLocks(s, UserBegin(s, a).value);
  }

  lemma GoKeepsLocks(s: State, go: Go, ok: bool)
    requires s.worker.Scanning? && LocksInv(s)
    ensures LocksInv(WorkerGo(s, go, ok).value)
  {
    SameHoldersKeepLocks(s, WorkerGo(s, go, ok).value);
  }

  lemma ChildKeepsLocks(s: State, go: Go, ok: bool)
    requires LocksInv(s) && WorkerChild(s, go, ok).Some?
    ensures LocksInv(WorkerChild(s, go, ok).value)
  {
    SameHoldersKeepLocks(s, WorkerChild(s, go, ok).value);
  }

  lemma CommitKeepsLocks(s: State, ok: bool)
    requires LocksInv(s) && WorkerCommit(s, ok).Some?
    ensures LocksInv(WorkerCommit(s, ok).value)
  {
    SameHoldersKeepLocks(s, WorkerCommit(s, ok).value);
  }

  lemma ScanKeepsLocks(s: State)
    requires LocksInv(s) && WorkerOutside(s).Some?
    ensures LocksInv(WorkerOutside(s).value)
  {
    var t := WorkerOutside(s).value;
    if t.locks == s.locks {
      SameHoldersKeepLocks(s, t);
    }
  }

  lemma AcquireKeepsLocks(s: State)
    requires WorkerWaits(s.worker) && LocksInv(s) && WorkerAcquire(s).Some?
    ensures LocksInv(WorkerAcquire(s).value)
  {
    StateLockMovesKeepsLocks(s, WorkerAcquire(s).value);
  }

  lemma ReleaseKeepsLocks(s: State, ok: bool)
    requires LocksInv(s) && WorkerInside(s, ok).Some?
    ensures LocksInv(WorkerInside(s, ok).value)
  {
    StateLockMovesKeepsLocks(s, WorkerInside(s, ok).value);
  }

  lemma TakeKeepsLocks(s: State)
    requires LocksInv(s) && s.actor.Idle? && ActorTake(s).Some?
    ensures LocksInv(ActorTake(s).value)
  {
    SameHoldersKeepLocks(s, ActorTake(s).value);
  }

  lemma ClosureKeepsLocks(s: State)
    requires LocksInv(s) && ActorCommit(s).Some?
    ensures LocksInv(ActorCommit(s).value)
  {
    var t := ActorCommit(s).value;
    if s.actor.Entered? || s.actor.Decided? {
      StateLockMovesKeepsLocks(s, t);
    } else {
      SameHoldersKeepLocks(s, t);
    }
  }

  // ----- The pending count -----

  lemma BeginKeepsCount(s: State, a: Action)
    requires CountInv(s) && UserBegin(s, a).Some?
    ensures CountInv(UserBegin(s, a).value)
  {
  }

  /** No commit moves. */
  ghost predicate SameCommits(s: State, t: State) {
    && t.shared.pending == s.shared.pending && Writes(t.queue) == Writes(s.queue) && t.actor.Idle? == s.actor.Idle?
    && (t.worker.Counted? || t.worker.Rejected?) == (s.worker.Counted? || s.worker.Rejected?)
  }

  lemma SameCommitsKeepCount(s: State, t: State)
    requires CountInv(s) && SameCommits(s, t)
    ensures CountInv(t)
  {
  }

  lemma CallerKeepsCount(s: State, id: UserId, ok: bool)
    requires id in s.users && CountInv(s) && UserOutside(s, id, ok).Some?
    ensures CountInv(UserOutside(s, id, ok).value)
  {
    WritesAppend(s.queue, Answer(ByUser(id)));
    SameCommitsKeepCount(s, UserOutside(s, id, ok).value);
  }

  lemma HolderKeepsCount(s: State, id: UserId)
    requires id in s.users && CountInv(s) && UserInside(s, id).Some?
    ensures CountInv(UserInside(s, id).value)
  {
    var t := UserInside(s, id).value;
    assert t.queue == s.queue && t.worker == s.worker && t.actor == s.actor;
    SameCommitsKeepCount(s, t);
  }

  lemma GoKeepsCount(s: State, go: Go, ok: bool)
    requires s.worker.Scanning? && CountInv(s)
    ensures CountInv(WorkerGo(s, go, ok).value)
  {
    WritesAppend(s.queue, Answer(ByWorker));
  }

  lemma ChildKeepsCount(s: State, go: Go, ok: bool)
    requires CountInv(s) && WorkerChild(s, go, ok).Some?
    ensures CountInv(WorkerChild(s, go, ok).value)
  {
    SameCommitsKeepCount(s, WorkerChild(s, go, ok).value);
  }

  lemma CommitKeepsCount(s: State, ok: bool)
    requires CountInv(s) && WorkerCommit(s, ok).Some?
    ensures CountInv(WorkerCommit(s, ok).value)
  {
    if s.worker.Counted? {
      WritesAppend(s.queue, Write(s.worker.job));
    }
  }

  lemma ScanKeepsCount(s: State)
    requires CountInv(s) && WorkerOutside(s).Some?
    ensures CountInv(WorkerOutside(s).value)
  {
    SameCommitsKeepCount(s, WorkerOutside(s).value);
  }

  lemma AcquireKeepsCount(s: State)
    requires WorkerWaits(s.worker) && CountInv(s) && WorkerAcquire(s).Some?
    ensures CountInv(WorkerAcquire(s).value)
  {
    SameCommitsKeepCount(s, WorkerAcquire(s).value);
  }

  lemma ReleaseKeepsCount(s: State, ok: bool)
    requires CountInv(s) && WorkerInside(s, ok).Some?
    ensures CountInv(WorkerInside(s, ok).value)
  {
    SameCommitsKeepCount(s, WorkerInside(s, ok).value);
  }

  lemma TakeKeepsCount(s: State)
    requires CountInv(s) && s.actor.Idle? && ActorTake(s).Some?
    ensures CountInv(ActorTake(s).value)
  {
  }

  lemma ClosureKeepsCount(s: State)
    requires CountInv(s) && ActorCommit(s).Some?
    ensures CountInv(ActorCommit(s).value)
  {
  }

  // ----- Jobs -----

  /** No toggle moves, and every job is one there was. */
  ghost predicate SameJobs(s: State, t: State) {
    && t.shared.generation == s.shared.generation && t.shared.session == s.shared.session && MidToggle(t) == MidToggle(s)
    && (HasJob(t.worker) ==> HasJob(s.worker) && t.worker.job == s.worker.job)
    && (t.worker.WantsStatus? || t.worker.HoldsStatus? ==> t.worker.generation <= t.shared.generation)
    && (!t.actor.Idle? ==> (!s.actor.Idle? && t.actor.job == s.actor.job) || Write(t.actor.job) in s.queue)
    && (forall c :: c in t.queue && c.Write? ==> c in s.queue || (HasJob(s.worker) && c.job == s.worker.job))
  }

  lemma SameJobsKeepJobs(s: State, t: State)
    requires JobsInv(s) && SameJobs(s, t)
    ensures JobsInv(t)
  {
  }

  /** A toggle or a shutdown raises the generation above every job's. */
  lemma RaiseKeepsJobs(s: State, t: State)
    requires JobsInv(s) && t.shared.generation == s.shared.generation + 1
    requires t.worker == s.worker && t.actor == s.actor && t.queue == s.queue
    ensures JobsInv(t)
  {
  }

  /** In the middle of a toggle no job is current, so the session may change. */
  lemma ToggleKeepsJobs(s: State, t: State)
    requires JobsInv(s) && MidToggle(s) && t.shared.generation == s.shared.generation
    requires t.worker == s.worker && t.actor == s.actor && t.queue == s.queue
    ensures JobsInv(t)
  {
  }

  lemma BeginKeepsJobs(s: State, a: Action)
    requires LocksInv(s) && JobsInv(s) && UserBegin(s, a).Some?
    ensures JobsInv(UserBegin(s, a).value)
  {
    var t := UserBegin(s, a).value;
    if a.ShutdownBump? {
      RaiseKeepsJobs(s, t);
    } else {
      SameJobsKeepJobs(s, t);
    }
  }

  lemma CallerKeepsJobs(s: State, id: UserId, ok: bool)
    requires id in s.users && LocksInv(s) && JobsInv(s) && !UserHoldsState(s.users[id]) && UserOutside(s, id, ok).Some?
    ensures JobsInv(UserOutside(s, id, ok).value)
  {
    SameJobsKeepJobs(s, UserOutside(s, id, ok).value);
  }

  lemma HolderKeepsJobs(s: State, id: UserId)
    requires id in s.users && LocksInv(s) && JobsInv(s) && UserInside(s, id).Some?
    ensures JobsInv(UserInside(s, id).value)
  {
    var t := UserInside(s, id).value;
    if MidToggle(s) {
      ToggleKeepsJobs(s, t);
    } else if t.shared != s.shared {
      RaiseKeepsJobs(s, t);
    } else {
      SameJobsKeepJobs(s, t);
    }
  }

  lemma GoKeepsJobs(s: State, go: Go, ok: bool)
    requires s.worker.Scanning? && JobsInv(s)
    ensures JobsInv(WorkerGo(s, go, ok).value)
  {
    SameJobsKeepJobs(s, WorkerGo(s, go, ok).value);
  }

  lemma ChildKeepsJobs(s: State, go: Go, ok: bool)
    requires JobsInv(s) && WorkerChild(s, go, ok).Some?
    ensures JobsInv(WorkerChild(s, go, ok).value)
  {
    SameJobsKeepJobs(s, WorkerChild(s, go, ok).value);
  }

  lemma CommitKeepsJobs(s: State, ok: bool)
    requires JobsInv(s) && WorkerCommit(s, ok).Some?
    ensures JobsInv(WorkerCommit(s, ok).value)
  {
    SameJobsKeepJobs(s, WorkerCommit(s, ok).value);
  }

  /** The status is read under the lock, so a current generation comes with its own session. */
  lemma StatusKeepsJobs(s: State, ok: bool)
    requires LocksInv(s) && JobsInv(s) && s.worker.HoldsStatus?
    ensures JobsInv(WorkerInside(s, ok).value)
  {
  }

  lemma ScanKeepsJobs(s: State)
    requires LocksInv(s) && JobsInv(s) && WorkerOutside(s).Some?
    ensures JobsInv(WorkerOutside(s).value)
  {
    SameJobsKeepJobs(s, WorkerOutside(s).value);
  }

  lemma AcquireKeepsJobs(s: State)
    requires WorkerWaits(s.worker) && LocksInv(s) && JobsInv(s) && WorkerAcquire(s).Some?
    ensures JobsInv(WorkerAcquire(s).value)
  {
    SameJobsKeepJobs(s, WorkerAcquire(s).value);
  }

  lemma LettingGoKeepsJobs(s: State, ok: bool)
    requires s.locks.state == ByWorker && JobsInv(s) && !s.worker.HoldsStatus? && WorkerInside(s, ok).Some?
    ensures JobsInv(WorkerInside(s, ok).value)
  {
    SameJobsKeepJobs(s, WorkerInside(s, ok).value);
  }

  lemma ReleaseKeepsJobs(s: State, ok: bool)
    requires LocksInv(s) && JobsInv(s) && WorkerInside(s, ok).Some?
    ensures JobsInv(WorkerInside(s, ok).value)
  {
    if s.worker.HoldsStatus? {
      StatusKeepsJobs(s, ok);
    } else {
      LettingGoKeepsJobs(s, ok);
    }
  }

  lemma TakeKeepsJobs(s: State)
    requires LocksInv(s) && JobsInv(s) && s.actor.Idle? && ActorTake(s).Some?
    ensures JobsInv(ActorTake(s).value)
  {
    SameJobsKeepJobs(s, ActorTake(s).value);
  }

  lemma ClosureKeepsJobs(s: State)
    requires LocksInv(s) && JobsInv(s) && ActorCommit(s).Some?
    ensures JobsInv(ActorCommit(s).value)
  {
    SameJobsKeepJobs(s, ActorCommit(s).value);
  }

  // ----- The log -----

  /** Analysis is not switched on, no toggle moves, and nothing is logged. */
  ghost predicate SameLog(s: State, t: State) {
    && t.log == s.log && t.bumped == s.bumped && (s.shared.stopped ==> t.shared.stopped)
    && t.shared.generation == s.shared.generation && t.shared.session == s.shared.session
    && (t.shared.enabled ==> s.shared.enabled) && MidToggle(t) == MidToggle(s)
    && (forall id :: id in t.users && t.users[id].Raised? ==> id in s.users && s.users[id] == t.users[id])
  }

  lemma SameLogKeepsLog(s: State, t: State)
    requires LogInv(s) && SameLog(s, t)
    ensures LogInv(t)
  {
  }

  /** A toggle's bump: nothing is claimed of the generation until it has written. */
  lemma ToggleBumpKeepsLog(s: State, t: State, id: UserId)
    requires LocksInv(s) && LogInv(s) && s.locks.state == ByUser(id)
    requires t.locks == s.locks && t.log == s.log && t.bumped == s.bumped && t.shared == BumpGeneration(s.shared) && MidToggle(t)
    requires t.users == s.users[id := t.users[id]]
    requires t.users[id].Raised? ==> t.users[id].generation == t.shared.generation
    ensures LogInv(t)
  {
    forall other | other in t.users && other != id
      ensures !t.users[other].Raised?
    {
      assert !UserHoldsState(s.users[other]);
    }
  }

  lemma EnableKeepsLog(s: State, id: UserId)
    requires LocksInv(s) && LogInv(s) && id in s.users && s.users[id].Raised?
    ensures LogInv(UserInside(s, id).value)
  {
    AppendEvent(s.log, Enabled(s.users[id].target, s.users[id].generation));
  }

  lemma DisableKeepsLog(s: State, id: UserId)
    requires LocksInv(s) && LogInv(s) && id in s.users && s.users[id].DisableRaised?
    ensures LogInv(UserInside(s, id).value)
  {
    AppendEvent(s.log, Disabled);
  }

  lemma CallerKeepsLog(s: State, id: UserId, ok: bool)
    requires id in s.users && LocksInv(s) && LogInv(s) && !UserHoldsState(s.users[id]) && UserOutside(s, id, ok).Some?
    ensures LogInv(UserOutside(s, id, ok).value)
  {
    SameLogKeepsLog(s, UserOutside(s, id, ok).value);
  }

  lemma HolderKeepsLog(s: State, id: UserId)
    requires id in s.users && LocksInv(s) && LogInv(s) && UserInside(s, id).Some?
    ensures LogInv(UserInside(s, id).value)
  {
    var t := UserInside(s, id).value;
    match s.users[id]
    case Raising(_) => ToggleBumpKeepsLog(s, t, id);
    case Disabling => ToggleBumpKeepsLog(s, t, id);
    case Raised(_, _) => EnableKeepsLog(s, id);
    case DisableRaised => DisableKeepsLog(s, id);
    case HoldsState(_) => SameLogKeepsLog(s, t);
    case HoldsBoth(_) => SameLogKeepsLog(s, t);
    case Reading => SameLogKeepsLog(s, t);
  }

  lemma BeginKeepsLog(s: State, a: Action)
    requires LogInv(s) && UserBegin(s, a).Some?
    ensures LogInv(UserBegin(s, a).value)
  {
    if !a.ShutdownBump? {
      SameLogKeepsLog(s, UserBegin(s, a).value);
    }
  }

  lemma GoKeepsLog(s: State, go: Go, ok: bool)
    requires s.worker.Scanning? && LogInv(s)
    ensures LogInv(WorkerGo(s, go, ok).value)
  {
    SameLogKeepsLog(s, WorkerGo(s, go, ok).value);
  }

  lemma ChildKeepsLog(s: State, go: Go, ok: bool)
    requires LogInv(s) && WorkerChild(s, go, ok).Some?
    ensures LogInv(WorkerChild(s, go, ok).value)
  {
    SameLogKeepsLog(s, WorkerChild(s, go, ok).value);
  }

  lemma CommitKeepsLog(s: State, ok: bool)
    requires LogInv(s) && WorkerCommit(s, ok).Some?
    ensures LogInv(WorkerCommit(s, ok).value)
  {
    SameLogKeepsLog(s, WorkerCommit(s, ok).value);
  }

  lemma ScanKeepsLog(s: State)
    requires LocksInv(s) && LogInv(s) && WorkerOutside(s).Some?
    ensures LogInv(WorkerOutside(s).value)
  {
    SameLogKeepsLog(s, WorkerOutside(s).value);
  }

  lemma AcquireKeepsLog(s: State)
    requires WorkerWaits(s.worker) && LocksInv(s) && LogInv(s) && WorkerAcquire(s).Some?
    ensures LogInv(WorkerAcquire(s).value)
  {
    SameLogKeepsLog(s, WorkerAcquire(s).value);
  }

  lemma ReleaseKeepsLog(s: State, ok: bool)
    requires LocksInv(s) && LogInv(s) && WorkerInside(s, ok).Some?
    ensures LogInv(WorkerInside(s, ok).value)
  {
    var t := WorkerInside(s, ok).value;
    assert s.locks.state == ByWorker && t.locks.state == Nobody;
    SameLogKeepsLog(s, t);
  }

  lemma WriteKeepsLog(s: State)
    requires LogInv(s) && KnowsInv(s) && s.actor.ActorSawEnabled?
    ensures LogInv(ActorCommit(s).value)
  {
    AppendEvent(s.log, Wrote(s.actor.job.session, s.actor.job.generation));
  }

  lemma TakeKeepsLog(s: State)
    requires LocksInv(s) && LogInv(s) && KnowsInv(s) && s.actor.Idle? && ActorTake(s).Some?
    ensures LogInv(ActorTake(s).value)
  {
    SameLogKeepsLog(s, ActorTake(s).value);
  }

  lemma ClosureKeepsLog(s: State)
    requires LocksInv(s) && LogInv(s) && KnowsInv(s) && ActorCommit(s).Some?
    ensures LogInv(ActorCommit(s).value)
  {
    if s.actor.ActorSawEnabled? {
      WriteKeepsLog(s);
    } else {
      SameLogKeepsLog(s, ActorCommit(s).value);
    }
  }

  // ----- What has been read -----

  /** Nothing the closure relies on changes while it holds the lock. */
  ghost predicate SameKnowledge(s: State, t: State) {
    && t.actor == s.actor && t.bumped == s.bumped && t.shared.generation == s.shared.generation
    && (ActorHoldsState(s.actor) ==> t.log == s.log && t.shared.session == s.shared.session && t.shared.enabled == s.shared.enabled)
    && (t.worker.Candidate? || t.worker.StillRunning? ==> t.worker == s.worker || !t.bumped)
  }

  lemma SameKnowledgeKeeps(s: State, t: State)
    requires KnowsInv(s) && SameKnowledge(s, t)
    ensures KnowsInv(t)
  {
  }

  lemma BeginKeepsKnows(s: State, a: Action)
    requires LocksInv(s) && JobsInv(s) && KnowsInv(s) && UserBegin(s, a).Some?
    ensures KnowsInv(UserBegin(s, a).value)
  {
    if !a.ShutdownBump? {
      SameKnowledgeKeeps(s, UserBegin(s, a).value);
    }
  }

  lemma CallerKeepsKnows(s: State, id: UserId, ok: bool)
    requires id in s.users && KnowsInv(s) && UserOutside(s, id, ok).Some?
    ensures KnowsInv(UserOutside(s, id, ok).value)
  {
    SameKnowledgeKeeps(s, UserOutside(s, id, ok).value);
  }

  /** The closure is not inside the lock then, and a generation only grows. */
  lemma HolderKeepsKnows(s: State, id: UserId)
    requires id in s.users && LocksInv(s) && KnowsInv(s) && UserInside(s, id).Some?
    ensures KnowsInv(UserInside(s, id).value)
  {
    assert s.locks.state == ByUser(id) && !ActorHoldsState(s.actor);
  }

  lemma GoKeepsKnows(s: State, go: Go, ok: bool)
    requires s.worker.Scanning? && LogInv(s) && KnowsInv(s)
    ensures KnowsInv(WorkerGo(s, go, ok).value)
  {
    SameKnowledgeKeeps(s, WorkerGo(s, go, ok).value);
  }

  lemma ChildKeepsKnows(s: State, go: Go, ok: bool)
    requires LogInv(s) && KnowsInv(s) && WorkerChild(s, go, ok).Some?
    ensures KnowsInv(WorkerChild(s, go, ok).value)
  {
    SameKnowledgeKeeps(s, WorkerChild(s, go, ok).value);
  }

  lemma CommitKeepsKnows(s: State, ok: bool)
    requires KnowsInv(s) && WorkerCommit(s, ok).Some?
    ensures KnowsInv(WorkerCommit(s, ok).value)
  {
    SameKnowledgeKeeps(s, WorkerCommit(s, ok).value);
  }

  lemma ScanKeepsKnows(s: State)
    requires KnowsInv(s) && WorkerOutside(s).Some?
    ensures KnowsInv(WorkerOutside(s).value)
  {
    SameKnowledgeKeeps(s, WorkerOutside(s).value);
  }

  lemma AcquireKeepsKnows(s: State)
    requires WorkerWaits(s.worker) && KnowsInv(s) && WorkerAcquire(s).Some?
    ensures KnowsInv(WorkerAcquire(s).value)
  {
    SameKnowledgeKeeps(s, WorkerAcquire(s).value);
  }

  lemma ReleaseKeepsKnows(s: State, ok: bool)
    requires LocksInv(s) && KnowsInv(s) && WorkerInside(s, ok).Some?
    ensures KnowsInv(WorkerInside(s, ok).value)
  {
    SameKnowledgeKeeps(s, WorkerInside(s, ok).value);
  }

  lemma TakeKeepsKnows(s: State)
    requires LocksInv(s) && JobsInv(s) && LogInv(s) && KnowsInv(s) && s.actor.Idle? && ActorTake(s).Some?
    ensures KnowsInv(ActorTake(s).value)
  {
  }

  lemma ClosureKeepsKnows(s: State)
    requires LocksInv(s) && JobsInv(s) && LogInv(s) && KnowsInv(s) && ActorCommit(s).Some?
    ensures KnowsInv(ActorCommit(s).value)
  {
  }

  // ----- The poll -----

  /** Containment and the stop flag stay, and the closure gets no further past the stop check. */
  ghost predicate SamePoll(s: State, t: State) {
    && t.poll == s.poll && t.completed == s.completed
    && (s.shared.stopped ==> t.shared.stopped) && (s.bumped ==> t.bumped)
    && t.shared.contained == s.shared.contained
    && (!s.shared.contained && (s.worker.Uncontained? || s.worker.HoldsFinal? || s.worker.Finished?) ==>
          t.worker.Uncontained? || t.worker.HoldsFinal? || t.worker.Finished?)
    && (Drained(s) ==> Drained(t))
  }

  lemma SamePollKeepsPoll(s: State, t: State)
    requires PollInv(s) && SamePoll(s, t)
    ensures PollInv(t)
  {
  }

  lemma BeginKeepsPoll(s: State, a: Action)
    requires PollInv(s) && UserBegin(s, a).Some?
    ensures PollInv(UserBegin(s, a).value)
  {
    SamePollKeepsPoll(s, UserBegin(s, a).value);
  }

  lemma CallerKeepsPoll(s: State, id: UserId, ok: bool)
    requires id in s.users && PollInv(s) && UserOutside(s, id, ok).Some?
    ensures PollInv(UserOutside(s, id, ok).value)
  {
    SamePollKeepsPoll(s, UserOutside(s, id, ok).value);
  }

  lemma HolderKeepsPoll(s: State, id: UserId)
    requires id in s.users && PollInv(s) && UserInside(s, id).Some?
    ensures PollInv(UserInside(s, id).value)
  {
    SamePollKeepsPoll(s, UserInside(s, id).value);
  }

  lemma GoKeepsPoll(s: State, go: Go, ok: bool)
    requires s.worker.Scanning? && PollInv(s)
    ensures PollInv(WorkerGo(s, go, ok).value)
  {
    SamePollKeepsPoll(s, WorkerGo(s, go, ok).value);
  }

  lemma ChildKeepsPoll(s: State, go: Go, ok: bool)
    requires PollInv(s) && WorkerChild(s, go, ok).Some?
    ensures PollInv(WorkerChild(s, go, ok).value)
  {
    if !s.worker.ChildRunning? {
      SamePollKeepsPoll(s, WorkerChild(s, go, ok).value);
    }
  }

  lemma CommitKeepsPoll(s: State, ok: bool)
    requires PollInv(s) && WorkerCommit(s, ok).Some?
    ensures PollInv(WorkerCommit(s, ok).value)
  {
    SamePollKeepsPoll(s, WorkerCommit(s, ok).value);
  }

  lemma ScanKeepsPoll(s: State)
    requires PollInv(s) && WorkerOutside(s).Some?
    ensures PollInv(WorkerOutside(s).value)
  {
    SamePollKeepsPoll(s, WorkerOutside(s).value);
  }

  lemma AcquireKeepsPoll(s: State)
    requires WorkerWaits(s.worker) && PollInv(s) && WorkerAcquire(s).Some?
    ensures PollInv(WorkerAcquire(s).value)
  {
    SamePollKeepsPoll(s, WorkerAcquire(s).value);
  }

  lemma ReleaseKeepsPoll(s: State, ok: bool)
    requires PollInv(s) && WorkerInside(s, ok).Some?
    ensures PollInv(WorkerInside(s, ok).value)
  {
    SamePollKeepsPoll(s, WorkerInside(s, ok).value);
  }

  lemma TakeKeepsPoll(s: State)
    requires PollInv(s) && s.actor.Idle? && ActorTake(s).Some?
    ensures PollInv(ActorTake(s).value)
  {
    SamePollKeepsPoll(s, ActorTake(s).value);
  }

  lemma ClosureKeepsPoll(s: State)
    requires PollInv(s) && ActorCommit(s).Some?
    ensures PollInv(ActorCommit(s).value)
  {
    SamePollKeepsPoll(s, ActorCommit(s).value);
  }

  // ----- Waiting for the store -----

  /** Nobody begins to wait, and no closure is taken. */
  ghost predicate SameStore(s: State, t: State) {
    && s.queue <= t.queue && (t.worker.AwaitingPage? ==> s.worker.AwaitingPage?)
    && forall id :: id in t.users && t.users[id].CallingStore? ==> id in s.users && s.users[id].CallingStore?
  }

  lemma SameStoreKeepsStore(s: State, t: State)
    requires StoreInv(s) && SameStore(s, t)
    ensures StoreInv(t)
  {
    forall c | c in s.queue
      ensures c in t.queue
    {
      var i :| 0 <= i < |s.queue| && s.queue[i] == c;
      assert t.queue[i] == c;
    }
  }

  lemma BeginKeepsStore(s: State, a: Action)
    requires StoreInv(s) && UserBegin(s, a).Some?
    ensures StoreInv(UserBegin(s, a).value)
  {
    SameStoreKeepsStore(s, UserBegin(s, a).value);
  }

  lemma CallerKeepsStore(s: State, id: UserId, ok: bool)
    requires id in s.users && StoreInv(s) && UserOutside(s, id, ok).Some?
    ensures StoreInv(UserOutside(s, id, ok).value)
  {
    if !s.users[id].Asking? {
      SameStoreKeepsStore(s, UserOutside(s, id, ok).value);
    }
  }

  lemma HolderKeepsStore(s: State, id: UserId)
    requires id in s.users && StoreInv(s) && UserInside(s, id).Some?
    ensures StoreInv(UserInside(s, id).value)
  {
    SameStoreKeepsStore(s, UserInside(s, id).value);
  }

  lemma GoKeepsStore(s: State, go: Go, ok: bool)
    requires s.worker.Scanning? && StoreInv(s) && WorkerGo(s, go, ok).Some?
    ensures StoreInv(WorkerGo(s, go, ok).value)
  {
    if !go.GoPage? {
      SameStoreKeepsStore(s, WorkerGo(s, go, ok).value);
    }
  }

  lemma ChildKeepsStore(s: State, go: Go, ok: bool)
    requires StoreInv(s) && WorkerChild(s, go, ok).Some?
    ensures StoreInv(WorkerChild(s, go, ok).value)
  {
    SameStoreKeepsStore(s, WorkerChild(s, go, ok).value);
  }

  lemma CommitKeepsStore(s: State, ok: bool)
    requires StoreInv(s) && WorkerCommit(s, ok).Some?
    ensures StoreInv(WorkerCommit(s, ok).value)
  {
    SameStoreKeepsStore(s, WorkerCommit(s, ok).value);
  }

  lemma ScanKeepsStore(s: State)
    requires StoreInv(s) && WorkerOutside(s).Some?
    ensures StoreInv(WorkerOutside(s).value)
  {
    SameStoreKeepsStore(s, WorkerOutside(s).value);
  }

  lemma AcquireKeepsStore(s: State)
    requires WorkerWaits(s.worker) && StoreInv(s) && WorkerAcquire(s).Some?
    ensures StoreInv(WorkerAcquire(s).value)
  {
    SameStoreKeepsStore(s, WorkerAcquire(s).value);
  }

  lemma ReleaseKeepsStore(s: State, ok: bool)
    requires StoreInv(s) && WorkerInside(s, ok).Some?
    ensures StoreInv(WorkerInside(s, ok).value)
  {
    SameStoreKeepsStore(s, WorkerInside(s, ok).value);
  }

  lemma TakeKeepsStore(s: State)
    requires s.actor.Idle? && StoreInv(s) && ActorTake(s).Some?
    ensures StoreInv(ActorTake(s).value)
  {
    assert s.queue == [s.queue[0]] + s.queue[1..];
  }

  lemma ClosureKeepsStore(s: State)
    requires StoreInv(s) && ActorCommit(s).Some?
    ensures StoreInv(ActorCommit(s).value)
  {
    SameStoreKeepsStore(s, ActorCommit(s).value);
  }

  /** A poll changes its own two fields only. */
  ghost predicate OnlyPollMoves(s: State, t: State) {
    t == s.(poll := t.poll, completed := t.completed)
  }

  lemma OnlyPollKeepsLocks(s: State, t: State)
    requires LocksInv(s) && OnlyPollMoves(s, t)
    ensures LocksInv(t)
  {
  }

  lemma OnlyPollKeepsData(s: State, t: State)
    requires CountInv(s) && JobsInv(s) && OnlyPollMoves(s, t)
    ensures CountInv(t) && JobsInv(t)
  {
  }

  lemma OnlyPollKeepsLog(s: State, t: State)
    requires LogInv(s) && KnowsInv(s) && StoreInv(s) && OnlyPollMoves(s, t)
    ensures LogInv(t) && KnowsInv(t) && StoreInv(t)
  {
  }

  lemma PollKeepsPoll(s: State, a: Action)
    requires KnowsInv(s) && LogInv(s) && CountInv(s) && PollInv(s) && PollNext(s, a).Some?
    ensures PollInv(PollNext(s, a).value)
  {
  }

  lemma PollKeepsInv(s: State, a: Action)
    requires Inv(s) && PollNext(s, a).Some?
    ensures Inv(PollNext(s, a).value)
  {
    var t := PollNext(s, a).value;
    OnlyPollKeepsLocks(s, t);
    OnlyPollKeepsData(s, t);
    OnlyPollKeepsLog(s, t);
    PollKeepsPoll(s, a);
  }

  // ----- Every run -----

  lemma BeginKeepsInv(s: State, a: Action)
    requires Inv(s) && UserBegin(s, a).Some?
    ensures Inv(UserBegin(s, a).value)
  {
    BeginKeepsLocks(s, a);
    BeginKeepsCount(s, a);
    BeginKeepsJobs(s, a);
    BeginKeepsLog(s, a);
    BeginKeepsKnows(s, a);
    BeginKeepsPoll(s, a);
    BeginKeepsStore(s, a);
  }

  lemma CallerKeepsInv(s: State, id: UserId, ok: bool)
    requires id in s.users && !UserHoldsState(s.users[id]) && Inv(s) && UserOutside(s, id, ok).Some?
    ensures Inv(UserOutside(s, id, ok).value)
  {
    CallerKeepsLocks(s, id, ok);
    CallerKeepsCount(s, id, ok);
    CallerKeepsJobs(s, id, ok);
    CallerKeepsLog(s, id, ok);
    CallerKeepsKnows(s, id, ok);
    CallerKeepsPoll(s, id, ok);
    CallerKeepsStore(s, id, ok);
  }

  lemma HolderKeepsInv(s: State, id: UserId)
    requires id in s.users && Inv(s) && UserInside(s, id).Some?
    ensures Inv(UserInside(s, id).value)
  {
    HolderKeepsLocks(s, id);
    HolderKeepsCount(s, id);
    HolderKeepsJobs(s, id);
    HolderKeepsLog(s, id);
    HolderKeepsKnows(s, id);
    HolderKeepsPoll(s, id);
    HolderKeepsStore(s, id);
  }

  lemma GoKeepsInv(s: State, go: Go, ok: bool)
    requires s.worker.Scanning? && Inv(s) && WorkerGo(s, go, ok).Some?
    ensures Inv(WorkerGo(s, go, ok).value)
  {
    GoKeepsLocks(s, go, ok);
    GoKeepsCount(s, go, ok);
    GoKeepsJobs(s, go, ok);
    GoKeepsLog(s, go, ok);
    GoKeepsKnows(s, go, ok);
    GoKeepsPoll(s, go, ok);
    GoKeepsStore(s, go, ok);
  }

  lemma ChildKeepsInv(s: State, go: Go, ok: bool)
    requires Inv(s) && WorkerChild(s, go, ok).Some?
    ensures Inv(WorkerChild(s, go, ok).value)
  {
    ChildKeepsLocks(s, go, ok);
    ChildKeepsCount(s, go, ok);
    ChildKeepsJobs(s, go, ok);
    ChildKeepsLog(s, go, ok);
    ChildKeepsKnows(s, go, ok);
    ChildKeepsPoll(s, go, ok);
    ChildKeepsStore(s, go, ok);
  }

  lemma CommitKeepsInv(s: State, ok: bool)
    requires Inv(s) && WorkerCommit(s, ok).Some?
    ensures Inv(WorkerCommit(s, ok).value)
  {
    CommitKeepsLocks(s, ok);
    CommitKeepsCount(s, ok);
    CommitKeepsJobs(s, ok);
    CommitKeepsLog(s, ok);
    CommitKeepsKnows(s, ok);
    CommitKeepsPoll(s, ok);
    CommitKeepsStore(s, ok);
  }

  lemma ScanKeepsInv(s: State)
    requires Inv(s) && WorkerOutside(s).Some?
    ensures Inv(WorkerOutside(s).value)
  {
    ScanKeepsLocks(s);
    ScanKeepsCount(s);
    ScanKeepsJobs(s);
    ScanKeepsLog(s);
    ScanKeepsKnows(s);
    ScanKeepsPoll(s);
    ScanKeepsStore(s);
  }

  lemma AcquireKeepsInv(s: State)
    requires WorkerWaits(s.worker) && Inv(s) && WorkerAcquire(s).Some?
    ensures Inv(WorkerAcquire(s).value)
  {
    AcquireKeepsLocks(s);
    AcquireKeepsCount(s);
    AcquireKeepsJobs(s);
    AcquireKeepsLog(s);
    AcquireKeepsKnows(s);
    AcquireKeepsPoll(s);
    AcquireKeepsStore(s);
  }

  lemma ReleaseKeepsInv(s: State, ok: bool)
    requires Inv(s) && WorkerInside(s, ok).Some?
    ensures Inv(WorkerInside(s, ok).value)
  {
    ReleaseKeepsLocks(s, ok);
    ReleaseKeepsCount(s, ok);
    ReleaseKeepsJobs(s, ok);
    ReleaseKeepsLog(s, ok);
    ReleaseKeepsKnows(s, ok);
    ReleaseKeepsPoll(s, ok);
    ReleaseKeepsStore(s, ok);
  }

  lemma TakeKeepsInv(s: State)
    requires Inv(s) && s.actor.Idle? && ActorTake(s).Some?
    ensures Inv(ActorTake(s).value)
  {
    TakeKeepsLocks(s);
    TakeKeepsCount(s);
    TakeKeepsJobs(s);
    TakeKeepsLog(s);
    TakeKeepsKnows(s);
    TakeKeepsPoll(s);
    TakeKeepsStore(s);
  }

  lemma ClosureKeepsInv(s: State)
    requires Inv(s) && ActorCommit(s).Some?
    ensures Inv(ActorCommit(s).value)
  {
    ClosureKeepsLocks(s);
    ClosureKeepsCount(s);
    ClosureKeepsJobs(s);
    ClosureKeepsLog(s);
    ClosureKeepsKnows(s);
    ClosureKeepsPoll(s);
    ClosureKeepsStore(s);
  }

  lemma ActorKeepsInv(s: State)
    requires Inv(s) && ActorNext(s).Some?
    ensures Inv(ActorNext(s).value)
  {
    if s.actor.Idle? {
      TakeKeepsInv(s);
    } else {
      ClosureKeepsInv(s);
    }
  }

  lemma WorkerKeepsInv(s: State, go: Go, ok: bool)
    requires Inv(s) && WorkerNext(s, go, ok).Some?
    ensures Inv(WorkerNext(s, go, ok).value)
  {
    if s.worker.Scanning? {
      GoKeepsInv(s, go, ok);
    } else if HasChild(s.worker) {
      ChildKeepsInv(s, go, ok);
    } else if IsCommitting(s.worker) {
      CommitKeepsInv(s, ok);
    } else if WorkerHoldsState(s.worker) {
      ReleaseKeepsInv(s, ok);
    } else if WorkerWaits(s.worker) {
      AcquireKeepsInv(s);
    } else {
      ScanKeepsInv(s);
    }
  }

  lemma StepKeepsInv(s: State, a: Action)
    requires Inv(s) && Next(s, a).Some?
    ensures Inv(Next(s, a).value)
  {
    match a
    case UserStep(id, ok) =>
      if UserHoldsState(s.users[id]) {
        HolderKeepsInv(s, id);
      } else {
        CallerKeepsInv(s, id, ok);
      }
    case WorkerStep(go, ok) => WorkerKeepsInv(s, go, ok);
    case ActorStep => ActorKeepsInv(s);
    case PollStart => PollKeepsInv(s, a);
    case PollStep => PollKeepsInv(s, a);
    case _ => BeginKeepsInv(s, a);
  }

  lemma {:induction false} RunKeepsInv(s: State, schedule: seq<Action>)
    requires Inv(s) && Run(s, schedule).Some?
    ensures Inv(Run(s, schedule).value)
  {
    if schedule != [] {
      RunKeepsInv(s, schedule[..|schedule| - 1]);
      StepKeepsInv(Run(s, schedule[..|schedule| - 1]).value, schedule[|schedule| - 1]);
    }
  }

  lemma ReachesKeepsInv(s: State, t: State)
    requires Inv(s) && Reaches(s, t)
    ensures Inv(t)
  {
    var schedule :| Run(s, schedule) == Some(t);
    RunKeepsInv(s, schedule);
  }

  lemma ReachableKeepsInv(s: State)
    requires Reachable(s)
    ensures Inv(s)
  {
    ReachesKeepsInv(START, s);
  }

  // ----- What the fence promises -----

  /** Every interleaving: a label is written only while its own session is enabled in its own generation. */
  lemma WritesAreFenced(s: State, a: Action, t: State)
    requires Reachable(s) && Next(s, a) == Some(t)
    ensures Fenced(t.log)
    ensures forall session: Session, generation: nat :: t.log == s.log + [Wrote(session, generation)] ==>
              s.shared.enabled && s.shared.session == Some(session) && LastToggle(s.log) == Some((session, generation))
  {
    ReachableKeepsInv(s);
    StepKeepsInv(s, a);
    forall session: Session, generation: nat | t.log == s.log + [Wrote(session, generation)]
      ensures s.shared.enabled && s.shared.session == Some(session) && LastToggle(s.log) == Some((session, generation))
    {
      assert t.log[|s.log|] == Wrote(session, generation);
      OnlyClosuresWrite(s, a);
    }
  }

  lemma OnlyClosuresWrite(s: State, a: Action)
    requires Next(s, a).Some?
    ensures
      var t := Next(s, a).value;
      t.log == s.log || (|t.log| == |s.log| + 1 && t.log[..|s.log|] == s.log
        && (t.log[|s.log|].Wrote? ==>
              a.ActorStep? && s.actor.ActorSawEnabled? && t.log[|s.log|] == Wrote(s.actor.job.session, s.actor.job.generation)))
  {
    match a
    case UserStep(id, ok) => UsersNeverWrite(s, id, ok);
    case WorkerStep(go, ok) => assert Next(s, a).value.log == s.log;
    case ActorStep =>
    case PollStart =>
    case PollStep =>
    case _ =>
  }

  lemma UsersNeverWrite(s: State, id: UserId, ok: bool)
    requires id in s.users && UserNext(s, id, ok).Some?
    ensures
      var log := UserNext(s, id, ok).value.log;
      log == s.log || (|log| == |s.log| + 1 && log[..|s.log|] == s.log && !log[|s.log|].Wrote?)
  {
  }

  /** Nothing is written between a disable and the next enable, whatever was queued or had timed out. */
  lemma NothingAfterDisable(s: State, i: nat, j: nat)
    requires Reachable(s) && i < j < |s.log|
    requires s.log[i].Disabled?
    requires forall k :: i < k < j ==> !s.log[k].Enabled?
    ensures !s.log[j].Wrote?
  {
    ReachableKeepsInv(s);
    ToggleStaysOff(s.log, i, j);
  }

  lemma {:induction false} ToggleStaysOff(log: seq<Event>, i: nat, j: nat)
    requires i < j <= |log| && log[i].Disabled?
    requires forall k :: i < k < j ==> !log[k].Enabled?
    ensures LastToggle(log[..j]) == None
  {
    assert log[..j][..j - 1] == log[..j - 1];
    if j > i + 1 {
      ToggleStaysOff(log, i, j - 1);
    }
  }

  /** The pending count is exactly the number of commit closures counted, queued or running. */
  lemma PendingCountsCommits(s: State)
    requires Reachable(s)
    ensures s.shared.pending == InFlight(s)
  {
    ReachableKeepsInv(s);
  }

  // ----- No deadlock -----

  /** Who moves so that the state lock comes free: its holder, or the holder of the model lock while that one waits for it. */
  function Releaser(s: State): Action
    requires s.locks.state != Nobody
  {
    match s.locks.state
    case ByUser(id) =>
      if id in s.users && s.users[id].HoldsState? && s.locks.model == ByWorker then WorkerStep(GoTop, true) else UserStep(id, true)
    case ByWorker => WorkerStep(GoTop, true)
    case ByActor => ActorStep
  }

  /** How many of these steps it takes. */
  function ReleaseDistance(s: State): nat {
    match s.locks.state
    case Nobody => 0
    case ByWorker => 1
    case ByUser(id) =>
      if id !in s.users then 1
      else
        (match s.users[id]
         case HoldsState(_) => if s.locks.model == Nobody then 4 else 5
         case HoldsBoth(_) => 3
         case Raising(_) => 2
         case Disabling => 2
         case _ => 1)
    case ByActor =>
      match s.actor
      case Locked(_) => 5
      case ActorSawRunning(_) => 4
      case ActorSawGeneration(_) => 3
      case ActorSawEnabled(_) => 2
      case _ => 1
  }

  /** What these steps leave alone: the shutdown, the poll, the queue, and every thread that holds no lock. */
  ghost predicate OnlyHoldersMove(s: State, t: State) {
    && t.bumped == s.bumped && t.poll == s.poll && t.completed == s.completed && t.queue == s.queue
    && t.shared.contained == s.shared.contained && t.shared.stopped == s.shared.stopped
    && (!WorkerHoldsState(s.worker) && !s.worker.HoldsModel? ==> t.worker == s.worker)
    && (!ActorHoldsState(s.actor) ==> t.actor == s.actor)
    && forall id :: id in s.users && !UserHoldsState(s.users[id]) ==> id in t.users && t.users[id] == s.users[id]
  }

  lemma UserReleases(s: State, id: UserId)
    requires LocksInv(s) && s.locks.state == ByUser(id)
    requires id in s.users && (s.users[id].HoldsState? ==> s.locks.model != ByWorker)
    ensures UserHoldsState(s.users[id]) && UserInside(s, id).Some?
    ensures OnlyHoldersMove(s, UserInside(s, id).value)
    ensures ReleaseDistance(UserInside(s, id).value) < ReleaseDistance(s)
  {
    if s.users[id].HoldsState? {
      HolderIsReady(s, id);
    }
    var t := UserInside(s, id).value;
    assert t.worker == s.worker && t.actor == s.actor;
    assert s.users[id].HoldsState? ==> t.users[id].HoldsBoth?;
  }

  /** The model lock is not held by another user while this one holds the state lock. */
  lemma HolderIsReady(s: State, id: UserId)
    requires LocksInv(s) && s.locks.state == ByUser(id)
    requires id in s.users && s.users[id].HoldsState? && s.locks.model != ByWorker
    ensures s.locks.model == Nobody
  {
    if s.locks.model.ByUser? {
      var other := s.locks.model.id;
      assert other in s.users && s.users[other].HoldsBoth? && UserHoldsState(s.users[other]);
    }
  }

  lemma ModelReleases(s: State, id: UserId)
    requires LocksInv(s) && s.locks.state == ByUser(id) && s.locks.model == ByWorker
    requires id in s.users && s.users[id].HoldsState?
    ensures s.worker.HoldsModel? && WorkerOutside(s).Some?
    ensures OnlyHoldersMove(s, WorkerOutside(s).value)
    ensures ReleaseDistance(WorkerOutside(s).value) < ReleaseDistance(s)
  {
  }

  lemma WorkerReleases(s: State, ok: bool)
    requires LocksInv(s) && s.locks.state == ByWorker
    ensures WorkerHoldsState(s.worker) && WorkerInside(s, ok).Some?
    ensures OnlyHoldersMove(s, WorkerInside(s, ok).value)
    ensures ReleaseDistance(WorkerInside(s, ok).value) < ReleaseDistance(s)
  {
  }

  lemma ActorReleases(s: State)
    requires LocksInv(s) && s.locks.state == ByActor
    ensures !s.actor.Idle? && ActorCommit(s).Some?
    ensures OnlyHoldersMove(s, ActorCommit(s).value)
    ensures ReleaseDistance(ActorCommit(s).value) < ReleaseDistance(s)
  {
  }

  lemma ReleaserMoves(s: State) returns (t: State)
    requires Inv(s) && s.locks.state != Nobody
    ensures Next(s, Releaser(s)) == Some(t) && Inv(t) && OnlyHoldersMove(s, t)
    ensures ReleaseDistance(t) < ReleaseDistance(s)
  {
    match s.locks.state {
      case ByUser(id) =>
        assert id in s.users;
        if s.users[id].HoldsState? && s.locks.model == ByWorker {
          ModelReleases(s, id);
        } else {
          UserReleases(s, id);
        }
      case ByWorker => WorkerReleases(s, true);
      case ByActor => ActorReleases(s);
    }
    t := Next(s, Releaser(s)).value;
    StepKeepsInv(s, Releaser(s));
  }

  /** `n` steps of the holders free the lock, and end in `t`. */
  ghost predicate ReleasedIn(s: State, t: State, n: nat)
    decreases n
  {
    if s.locks.state == Nobody then n == 0 && t == s
    else n > 0 && Next(s, Releaser(s)).Some? && ReleasedIn(Next(s, Releaser(s)).value, t, n - 1)
  }

  lemma HoldersMoveOn(s: State, t: State, u: State)
    requires OnlyHoldersMove(s, t) && OnlyHoldersMove(t, u)
    ensures OnlyHoldersMove(s, u)
  {
  }

  lemma {:induction false} HoldersRelease(s: State) returns (t: State, n: nat)
    requires Inv(s)
    ensures n <= ReleaseDistance(s) <= 5 && ReleasedIn(s, t, n)
    ensures Inv(t) && t.locks.state == Nobody && Reaches(s, t) && OnlyHoldersMove(s, t)
    decreases ReleaseDistance(s)
  {
    ReachesSelf(s);
    if s.locks.state == Nobody {
      t, n := s, 0;
    } else {
      var u := ReleaserMoves(s);
      ReachesNext(s, s, Releaser(s), u);
      t, n := HoldersRelease(u);
      n := n + 1;
      ReachesTransitive(s, u, t);
      HoldersMoveOn(s, u, t);
    }
  }

  lemma ReachesSelf(s: State)
    ensures Reaches(s, s)
  {
    assert Run(s, []) == Some(s);
  }

  lemma RunStep(s: State, schedule: seq<Action>, a: Action)
    requires Run(s, schedule).Some?
    ensures Run(s, schedule + [a]) == Next(Run(s, schedule).value, a)
  {
    assert (schedule + [a])[..|schedule|] == schedule;
  }

  lemma ReachesNext(s: State, t: State, a: Action, u: State)
    requires Reaches(s, t) && Next(t, a) == Some(u)
    ensures Reaches(s, u)
  {
    var schedule :| Run(s, schedule) == Some(t);
    RunStep(s, schedule, a);
  }

  lemma {:induction false} RunAppend(s: State, first: seq<Action>, second: seq<Action>)
    requires Run(s, first).Some?
    ensures Run(s, first + second) == Run(Run(s, first).value, second)
  {
    if second == [] {
      assert first + second == first;
    } else {
      var before, a := second[..|second| - 1], second[|second| - 1];
      assert first + second == (first + before) + [a];
      RunAppend(s, first, before);
      if Run(s, first + before).Some? {
        RunStep(s, first + before, a);
      } else {
        assert (first + second)[..|first + before|] == first + before;
      }
    }
  }

  lemma ReachesTransitive(s: State, t: State, u: State)
    requires Reaches(s, t) && Reaches(t, u)
    ensures Reaches(s, u)
  {
    var first :| Run(s, first) == Some(t);
    var second :| Run(t, second) == Some(u);
    RunAppend(s, first, second);
  }

  predicate WantsLock(s: State, who: Owner) {
    match who
    case Nobody => false
    case ByUser(id) => id in s.users && (s.users[id].WantsState? || s.users[id].WantsDisable? || s.users[id].WantsRead?)
    case ByWorker => WorkerWaits(s.worker)
    case ByActor => s.actor.Entered?
  }

  function StepOf(who: Owner): Action {
    match who
    case Nobody => PollStep
    case ByUser(id) => UserStep(id, true)
    case ByWorker => WorkerStep(GoTop, true)
    case ByActor => ActorStep
  }

  lemma WaiterStays(s: State, t: State, who: Owner)
    requires OnlyHoldersMove(s, t) && WantsLock(s, who)
    ensures WantsLock(t, who)
  {
  }

  lemma WaiterTakes(s: State, who: Owner)
    requires WantsLock(s, who) && s.locks.state == Nobody
    ensures Next(s, StepOf(who)).Some? && Next(s, StepOf(who)).value.locks.state == who
  {
  }

  /**
    The fence cannot deadlock. Whoever waits for the state lock, at most five steps of those who
    hold locks free it, none of them waiting for the store or for the one that waits, and then
    the one that waits can take it.
   */
  lemma LockHolderNeverWaits(s: State, who: Owner) returns (t: State, n: nat)
    requires Reachable(s) && WantsLock(s, who)
    ensures n <= 5 && ReleasedIn(s, t, n) && Reachable(t) && WantsLock(t, who)
    ensures Next(t, StepOf(who)).Some? && Next(t, StepOf(who)).value.locks.state == who
  {
    ReachableKeepsInv(s);
    t, n := HoldersRelease(s);
    ReachesTransitive(START, s, t);
    WaiterStays(s, t, who);
    WaiterTakes(t, who);
  }

  /** Whoever holds the model lock lets go of it by its own next step. */
  lemma ModelLockComesFree(s: State) returns (a: Action)
    requires Reachable(s) && s.locks.model != Nobody
    ensures a == StepOf(s.locks.model) && Next(s, a).Some? && Next(s, a).value.locks.model == Nobody
  {
    ReachableKeepsInv(s);
    a := StepOf(s.locks.model);
    if s.locks.model.ByUser? {
      assert s.users[s.locks.model.id].HoldsBoth?;
    }
  }

  function ActorDistance(a: Actor): nat {
    match a
    case Idle => 0
    case Entered(_) => 7
    case Locked(_) => 6
    case ActorSawRunning(_) => 5
    case ActorSawGeneration(_) => 4
    case ActorSawEnabled(_) => 3
    case Decided(_) => 2
    case Unlocked(_) => 1
  }

  /** What draining the store's queue leaves alone. */
  ghost predicate OnlyStoreMoves(s: State, t: State) {
    && t.bumped == s.bumped && t.poll == s.poll && t.completed == s.completed
    && t.shared.contained == s.shared.contained && t.shared.stopped == s.shared.stopped
    && (HasChild(s.worker) ==> t.worker == s.worker)
  }

  lemma TakeMoves(s: State)
    requires s.actor.Idle? && ActorTake(s).Some?
    ensures OnlyStoreMoves(s, ActorTake(s).value) && |ActorTake(s).value.queue| < |s.queue|
  {
  }

  lemma ClosureMoves(s: State)
    requires CountInv(s) && !s.actor.Idle? && !(s.actor.Entered? && s.locks.state != Nobody)
    ensures ActorCommit(s).Some?
    ensures
      var t := ActorCommit(s).value;
      OnlyStoreMoves(s, t) && t.queue == s.queue && ActorDistance(t.actor) < ActorDistance(s.actor)
  {
  }

  lemma StoreMoves(s: State) returns (t: State)
    requires Inv(s) && !(s.actor.Idle? && s.queue == []) && !(s.actor.Entered? && s.locks.state != Nobody)
    ensures ActorNext(s) == Some(t) && Inv(t) && OnlyStoreMoves(s, t)
    ensures |t.queue| < |s.queue| || (|t.queue| == |s.queue| && ActorDistance(t.actor) < ActorDistance(s.actor))
  {
    if s.actor.Idle? {
      TakeMoves(s);
    } else {
      ClosureMoves(s);
    }
    t := ActorNext(s).value;
    ActorKeepsInv(s);
  }

  /** The store actor, and whoever holds the lock it waits for, can finish every queued closure. */
  lemma {:induction false} DrainStore(s: State) returns (t: State)
    requires Inv(s)
    ensures Reaches(s, t) && Inv(t) && t.actor.Idle? && t.queue == [] && OnlyStoreMoves(s, t)
    decreases |s.queue|, ActorDistance(s.actor), if s.locks.state == Nobody then 0 else 1
  {
    ReachesSelf(s);
    if s.actor.Idle? && s.queue == [] {
      t := s;
    } else if s.actor.Entered? && s.locks.state != Nobody {
      var u, _ := HoldersRelease(s);
      t := DrainStore(u);
      ReachesTransitive(s, u, t);
    } else {
      var u := StoreMoves(s);
      ReachesNext(s, s, ActorStep, u);
      t := DrainStore(u);
      ReachesTransitive(s, u, t);
    }
  }

  /** So nobody waits for the store for good either. */
  lemma StoreWaitersAreAnswered(s: State) returns (t: State)
    requires Reachable(s)
    ensures Reaches(s, t) && !t.worker.AwaitingPage?
    ensures forall id :: id in t.users ==> !t.users[id].CallingStore?
  {
    ReachableKeepsInv(s);
    t := DrainStore(s);
  }

  // ----- Shutdown -----

  function WritesIn(log: seq<Event>): nat {
    if log == [] then 0 else WritesIn(log[..|log| - 1]) + if log[|log| - 1].Wrote? then 1 else 0
  }

  /** The number of labels in the log. */
  lemma {:induction false} WritesAreCounted(log: seq<Event>)
    ensures WritesIn(log) == |set i | 0 <= i < |log| && log[i].Wrote?|
  {
    if log != [] {
      var last := |log| - 1;
      var before := log[..last];
      WritesAreCounted(before);
      var earlier := set i | 0 <= i < |before| && before[i].Wrote?;
      var all := set i | 0 <= i < |log| && log[i].Wrote?;
      assert all == if log[last].Wrote? then earlier + {last} else earlier;
    }
  }

  lemma DrainedStep(s: State, a: Action)
    requires Drained(s) && Next(s, a).Some?
    ensures WritesIn(Next(s, a).value.log) == WritesIn(s.log)
  {
    OnlyClosuresWrite(s, a);
    var log := Next(s, a).value.log;
    assert log != s.log ==> log[..|log| - 1] == s.log;
  }

  lemma {:induction false} NoWritesOnceCompleted(s: State, schedule: seq<Action>)
    requires Inv(s) && s.completed && Run(s, schedule).Some?
    ensures Run(s, schedule).value.completed && WritesIn(Run(s, schedule).value.log) == WritesIn(s.log)
  {
    if schedule != [] {
      var before := schedule[..|schedule| - 1];
      NoWritesOnceCompleted(s, before);
      RunKeepsInv(s, before);
      DrainedStep(Run(s, before).value, schedule[|schedule| - 1]);
      CompletedStays(Run(s, before).value, schedule[|schedule| - 1]);
    }
  }

  lemma CompletedStays(s: State, a: Action)
    requires s.completed && Next(s, a).Some?
    ensures Next(s, a).value.completed
  {
    if a.WorkerStep? {
      assert Next(s, a).value.completed == s.completed;
    }
  }

  /** Once `shutdown_complete` has returned true after a shutdown, no label is ever written again. */
  lemma NoWritesAfterShutdownComplete(s: State, schedule: seq<Action>)
    requires Reachable(s) && s.completed
    requires Run(s, schedule).Some?
    ensures WritesIn(Run(s, schedule).value.log) == WritesIn(s.log)
  {
    ReachableKeepsInv(s);
    NoWritesOnceCompleted(s, schedule);
  }

  /** A child process runs, or nothing stands between the thread and starting one. */
  predicate MayLoseChild(w: Worker) { w.Starting? || w.ChildRunning? }

  /** Nothing can take containment away any more, or it is already gone and no poll got past reading it. */
  ghost predicate Settled(s: State) {
    && s.bumped && !MayLoseChild(s.worker)
    && (s.shared.contained || (!s.poll.SawContained? && !s.poll.SawNoPending? && !s.completed))
  }

  /** Containment and the poll stay, and the thread gets no closer to a child. */
  ghost predicate SameSettled(s: State, t: State) {
    && (s.bumped ==> t.bumped) && t.shared.contained == s.shared.contained
    && t.poll == s.poll && t.completed == s.completed
    && (MayLoseChild(t.worker) ==> MayLoseChild(s.worker))
  }

  lemma SettledChildStep(s: State, go: Go, ok: bool)
    requires KnowsInv(s) && Settled(s) && WorkerChild(s, go, ok).Some?
    ensures SameSettled(s, WorkerChild(s, go, ok).value)
  {
  }

  lemma SettledGoStep(s: State, go: Go, ok: bool)
    requires s.worker.Scanning?
    ensures SameSettled(s, WorkerGo(s, go, ok).value)
  {
  }

  lemma SettledCommitStep(s: State, ok: bool)
    requires WorkerCommit(s, ok).Some?
    ensures SameSettled(s, WorkerCommit(s, ok).value)
  {
  }

  lemma SettledReleaseStep(s: State, ok: bool)
    requires WorkerInside(s, ok).Some?
    ensures SameSettled(s, WorkerInside(s, ok).value)
  {
  }

  lemma SettledAcquireStep(s: State)
    requires WorkerWaits(s.worker) && WorkerAcquire(s).Some?
    ensures SameSettled(s, WorkerAcquire(s).value)
  {
  }

  lemma SettledScanStep(s: State)
    requires WorkerOutside(s).Some?
    ensures SameSettled(s, WorkerOutside(s).value)
  {
  }

  lemma SettledWorkerStep(s: State, go: Go, ok: bool)
    requires KnowsInv(s) && Settled(s) && WorkerNext(s, go, ok).Some?
    ensures SameSettled(s, WorkerNext(s, go, ok).value)
  {
    if s.worker.Scanning? {
      SettledGoStep(s, go, ok);
    } else if HasChild(s.worker) {
      SettledChildStep(s, go, ok);
    } else if IsCommitting(s.worker) {
      SettledCommitStep(s, ok);
    } else if WorkerHoldsState(s.worker) {
      SettledReleaseStep(s, ok);
    } else if WorkerWaits(s.worker) {
      SettledAcquireStep(s);
    } else {
      SettledScanStep(s);
    }
  }

  lemma SettledBeginStep(s: State, a: Action)
    requires UserBegin(s, a).Some?
    ensures SameSettled(s, UserBegin(s, a).value)
  {
  }

  lemma SettledUserStep(s: State, id: UserId, ok: bool)
    requires id in s.users && UserNext(s, id, ok).Some?
    ensures SameSettled(s, UserNext(s, id, ok).value)
  {
  }

  lemma SettledActorStep(s: State)
    requires ActorNext(s).Some?
    ensures SameSettled(s, ActorNext(s).value)
  {
  }

  lemma SettledPollStep(s: State, a: Action)
    requires PollInv(s) && Settled(s) && PollNext(s, a).Some?
    ensures Settled(PollNext(s, a).value)
  {
  }

  lemma SettledStep(s: State, a: Action)
    requires Inv(s) && Settled(s) && Next(s, a).Some?
    ensures Settled(Next(s, a).value)
  {
    match a
    case UserStep(id, ok) => SettledUserStep(s, id, ok);
    case WorkerStep(go, ok) => SettledWorkerStep(s, go, ok);
    case ActorStep => SettledActorStep(s);
    case PollStart => SettledPollStep(s, a);
    case PollStep => SettledPollStep(s, a);
    case _ => SettledBeginStep(s, a);
  }

  lemma {:induction false} SettledRun(s: State, schedule: seq<Action>)
    requires Inv(s) && Settled(s) && Run(s, schedule).Some?
    ensures Settled(Run(s, schedule).value)
  {
    if schedule != [] {
      SettledRun(s, schedule[..|schedule| - 1]);
      RunKeepsInv(s, schedule[..|schedule| - 1]);
      SettledStep(Run(s, schedule[..|schedule| - 1]).value, schedule[|schedule| - 1]);
    }
  }

  lemma ThreadEnds(s: State) returns (t: State)
    requires s.locks.state == Nobody && s.worker.Uncontained?
    ensures Reaches(s, t) && t.worker.Finished? && t.poll == s.poll && t.shared.contained == s.shared.contained
  {
    ReachesSelf(s);
    var final := TakeState(s.(worker := HoldsFinal), ByWorker);
    ReachesNext(s, s, WorkerStep(GoTop, true), final);
    t := FreeState(final.(worker := Finished, shared := s.shared.(enabled := false)));
    ReachesNext(s, final, WorkerStep(GoTop, true), t);
  }

  /** The child is lost, and the thread ends. */
  lemma ThreadLosesChild(s: State) returns (t: State)
    requires s.locks.state == Nobody && s.worker.ChildRunning?
    ensures Reaches(s, t) && t.worker.Finished? && t.poll == s.poll && !t.shared.contained
  {
    ReachesSelf(s);
    var lost := s.(worker := Uncontained, shared := s.shared.(contained := false));
    ReachesNext(s, s, WorkerStep(GoTop, true), lost);
    t := ThreadEnds(lost);
    ReachesTransitive(s, lost, t);
  }

  /** A thread about to start its child starts it. */
  lemma ThreadStartsChild(s: State) returns (t: State)
    requires MayLoseChild(s.worker)
    ensures Reaches(s, t) && t == s.(worker := ChildRunning(s.worker.job))
  {
    ReachesSelf(s);
    t := s.(worker := ChildRunning(s.worker.job));
    if s.worker.Starting? {
      ReachesNext(s, s, WorkerStep(GoTop, true), t);
    }
  }

  /** With the store drained and the lock free: the poll reads contained and no commits, and then the child is lost. */
  lemma ChildIsLost(s: State) returns (t: State)
    requires s.locks.state == Nobody && s.shared.pending == 0
    requires s.shared.contained && s.bumped && s.poll.NotPolling? && s.worker.ChildRunning?
    ensures Reaches(s, t) && t.completed && !t.shared.contained
  {
    ReachesSelf(s);
    var polling := s.(poll := Polling);
    ReachesNext(s, s, PollStart, polling);
    var contained := s.(poll := SawContained);
    ReachesNext(s, polling, PollStep, contained);
    var noPending := s.(poll := SawNoPending);
    ReachesNext(s, contained, PollStep, noPending);
    var finished := ThreadLosesChild(noPending);
    ReachesTransitive(s, noPending, finished);
    t := finished.(poll := NotPolling, completed := true);
    ReachesNext(s, finished, PollStep, t);
  }

  /** A poll that overlaps a failing child stop can answer true with containment lost. */
  lemma ContainmentLostDuringPoll(s: State) returns (t: State)
    requires Inv(s) && s.bumped && s.poll.NotPolling? && MayLoseChild(s.worker)
    ensures Reaches(s, t) && t.completed && !t.shared.contained
  {
    var drained := DrainStore(s);
    var free, _ := HoldersRelease(drained);
    ReachesTransitive(s, drained, free);
    var running := ThreadStartsChild(free);
    ReachesTransitive(s, free, running);
    t := ChildIsLost(running);
    ReachesTransitive(s, running, t);
  }

  /**
    What a true answer says about the child process. The three reads are not one: an answer
    proves containment for every continuation just when, as polling begins, no child runs and the
    thread is not about to start one.
   */
  lemma TrueAnswerProvesContainmentIff(s: State)
    requires Reachable(s) && s.bumped && s.poll.NotPolling? && !s.completed
    ensures (forall t :: Reaches(s, t) && t.completed ==> t.shared.contained) <==> !MayLoseChild(s.worker)
  {
    ReachableKeepsInv(s);
    if MayLoseChild(s.worker) {
      var t := ContainmentLostDuringPoll(s);
    } else {
      forall t | Reaches(s, t) && t.completed
        ensures t.shared.contained
      {
        var schedule :| Run(s, schedule) == Some(t);
        SettledRun(s, schedule);
      }
    }
  }

  // ----- What the closure decides -----

  /** The state lock is the store actor's after every step of the schedule. */
  ghost predicate ActorInside(s: State, schedule: seq<Action>) {
    && Run(s, schedule).Some? && Run(s, schedule).value.locks.state == ByActor
    && (schedule != [] ==> ActorInside(s, schedule[..|schedule| - 1]))
  }

  /** What the closure's next step finds: it is not stopped, the generation is its own, analysis is enabled. */
  predicate Finds(s: State, c: Commit) {
    match s.actor
    case Locked(_) => !s.shared.stopped
    case ActorSawRunning(_) => s.shared.generation == c.generation
    case ActorSawGeneration(_) => s.shared.enabled
    case _ => true
  }

  /** What its steps have found so far, each at its own moment. */
  predicate Found(s: State, schedule: seq<Action>, c: Commit) {
    if schedule == [] then true
    else
      var before, now := schedule[..|schedule| - 1], Run(s, schedule[..|schedule| - 1]);
      Found(s, before, c) && (schedule[|schedule| - 1].ActorStep? && now.Some? ==> Finds(now.value, c))
  }

  predicate SameClosure(s: State, t: State) { t.actor == s.actor && t.log == s.log }

  lemma ScanLeavesClosure(s: State, go: Go, ok: bool)
    ensures s.worker.Scanning? && WorkerGo(s, go, ok).Some? ==> SameClosure(s, WorkerGo(s, go, ok).value)
    ensures WorkerOutside(s).Some? ==> SameClosure(s, WorkerOutside(s).value)
  {
  }

  lemma ChildLeavesClosure(s: State, go: Go, ok: bool)
    ensures WorkerChild(s, go, ok).Some? ==> SameClosure(s, WorkerChild(s, go, ok).value)
    ensures WorkerCommit(s, ok).Some? ==> SameClosure(s, WorkerCommit(s, ok).value)
  {
  }

  lemma LockLeavesClosure(s: State, ok: bool)
    ensures WorkerInside(s, ok).Some? ==> SameClosure(s, WorkerInside(s, ok).value)
    ensures WorkerWaits(s.worker) && WorkerAcquire(s).Some? ==> SameClosure(s, WorkerAcquire(s).value)
  {
  }

  lemma WorkerLeavesClosure(s: State, go: Go, ok: bool)
    requires WorkerNext(s, go, ok).Some?
    ensures SameClosure(s, WorkerNext(s, go, ok).value)
  {
    ScanLeavesClosure(s, go, ok);
    ChildLeavesClosure(s, go, ok);
    LockLeavesClosure(s, ok);
  }

  lemma UserLeavesClosure(s: State, id: UserId, ok: bool)
    requires id in s.users && !UserHoldsState(s.users[id]) && UserOutside(s, id, ok).Some?
    ensures UserOutside(s, id, ok).value.actor == s.actor && UserOutside(s, id, ok).value.log == s.log
  {
  }

  lemma OthersLeaveClosure(s: State, a: Action, t: State)
    requires LocksInv(s) && s.locks.state == ByActor && !a.ActorStep? && Next(s, a) == Some(t)
    ensures t.actor == s.actor && t.log == s.log
  {
    match a
    case UserStep(id, ok) => UserLeavesClosure(s, id, ok);
    case WorkerStep(go, ok) => WorkerLeavesClosure(s, go, ok);
    case PollStart =>
    case PollStep =>
    case _ =>
  }

  /** How far the closure is, and what it has written. */
  ghost predicate ClosureAt(before: seq<Event>, c: Commit, found: bool, t: State) {
    && ActorHoldsState(t.actor) && t.actor.job == c
    && if t.actor.Decided? then t.log == before + (if found then [Wrote(c.session, c.generation)] else [])
       else found && t.log == before
  }

  lemma ClosureStep(before: seq<Event>, c: Commit, found: bool, s: State, t: State)
    requires ClosureAt(before, c, found, s) && ActorNext(s) == Some(t) && t.locks.state == ByActor
    ensures ClosureAt(before, c, found && Finds(s, c), t)
  {
    assert before + [] == before;
  }

  lemma {:induction false} ClosureRun(s: State, schedule: seq<Action>, c: Commit)
    requires Inv(s) && s.actor == Locked(c) && ActorInside(s, schedule)
    ensures ClosureAt(s.log, c, Found(s, schedule, c), Run(s, schedule).value)
  {
    if schedule != [] {
      var last := |schedule| - 1;
      var before, a := schedule[..last], schedule[last];
      ClosureRun(s, before, c);
      RunKeepsInv(s, before);
      var u, t := Run(s, before).value, Run(s, schedule).value;
      if a.ActorStep? {
        ClosureStep(s.log, c, Found(s, before, c), u, t);
      } else {
        OthersLeaveClosure(u, a, t);
      }
    }
  }

  /**
    Whatever the others do meanwhile, a closure that has the lock writes its label exactly when its three reads find
    not stopped, its own generation and enabled; then the label is the one new entry of the log, otherwise there is none.
   */
  lemma CommitWritesIff(s: State, schedule: seq<Action>, c: Commit)
    requires Reachable(s) && s.actor == Locked(c) && ActorInside(s, schedule) && Run(s, schedule).value.actor.Decided?
    ensures
      var t := Run(s, schedule).value;
      t.log == s.log + if Found(s, schedule, c) then [Wrote(c.session, c.generation)] else []
  {
    ReachableKeepsInv(s);
    ClosureRun(s, schedule, c);
  }

  // ----- Calls that nobody disturbs -----

  /** The schedule leads from `s` to `t`. The quantifier keeps `Run` folded where only this is needed. */
  ghost predicate Leads(s: State, schedule: seq<Action>, t: State) {
    forall steps :: steps == schedule ==> Run(s, steps) == Some(t)
  }

  /** One more step of a schedule. */
  lemma Then(s: State, schedule: seq<Action>, t: State, a: Action, u: State) returns (longer: seq<Action>)
    requires Leads(s, schedule, t) && Next(t, a) == Some(u)
    ensures longer == schedule + [a] && Leads(s, longer, u)
  {
    longer := schedule + [a];
    assert Run(s, schedule) == Some(t);
    RunStep(s, schedule, a);
  }

  lemma LeadsSelf(s: State)
    ensures Leads(s, [], s)
  {
  }

  lemma LeadsOn(s: State, first: seq<Action>, t: State, second: seq<Action>, u: State)
    requires Leads(s, first, t) && Leads(t, second, u)
    ensures Leads(s, first + second, u)
  {
    assert Leads(s, first, t) && Run(t, second) == Some(u);
    RunAppend(s, first, second);
  }

  lemma ThenBegin(s: State, schedule: seq<Action>, t: State, a: Action, u: State) returns (longer: seq<Action>)
    requires Leads(s, schedule, t) && (a.UserEnable? || a.UserDisable? || a.ShutdownFlag? || a.ShutdownBump?)
    requires UserBegin(t, a) == Some(u)
    ensures longer == schedule + [a] && Leads(s, longer, u)
  {
    longer := Then(s, schedule, t, a, u);
  }

  lemma ThenOutside(s: State, schedule: seq<Action>, t: State, id: UserId, u: State) returns (longer: seq<Action>)
    requires Leads(s, schedule, t) && id in t.users && !UserHoldsState(t.users[id]) && UserOutside(t, id, true) == Some(u)
    ensures longer == schedule + [UserStep(id, true)] && Leads(s, longer, u)
  {
    longer := Then(s, schedule, t, UserStep(id, true), u);
  }

  lemma ThenInside(s: State, schedule: seq<Action>, t: State, id: UserId, u: State) returns (longer: seq<Action>)
    requires Leads(s, schedule, t) && id in t.users && UserHoldsState(t.users[id]) && UserInside(t, id) == Some(u)
    ensures longer == schedule + [UserStep(id, true)] && Leads(s, longer, u)
  {
    longer := Then(s, schedule, t, UserStep(id, true), u);
  }

  lemma ThenChild(s: State, schedule: seq<Action>, t: State, go: Go, ok: bool, u: State) returns (longer: seq<Action>)
    requires Leads(s, schedule, t) && HasChild(t.worker) && WorkerChild(t, go, ok) == Some(u)
    ensures longer == schedule + [WorkerStep(go, ok)] && Leads(s, longer, u)
  {
    longer := Then(s, schedule, t, WorkerStep(go, ok), u);
  }

  lemma ThenCount(s: State, schedule: seq<Action>, t: State, go: Go, ok: bool, u: State) returns (longer: seq<Action>)
    requires Leads(s, schedule, t) && IsCommitting(t.worker) && WorkerCommit(t, ok) == Some(u)
    ensures longer == schedule + [WorkerStep(go, ok)] && Leads(s, longer, u)
  {
    longer := Then(s, schedule, t, WorkerStep(go, ok), u);
  }

  lemma ThenLock(s: State, schedule: seq<Action>, t: State, go: Go, ok: bool, u: State) returns (longer: seq<Action>)
    requires Leads(s, schedule, t) && WorkerWaits(t.worker) && WorkerAcquire(t) == Some(u)
    ensures longer == schedule + [WorkerStep(go, ok)] && Leads(s, longer, u)
  {
    longer := Then(s, schedule, t, WorkerStep(go, ok), u);
  }

  lemma ThenUnlock(s: State, schedule: seq<Action>, t: State, go: Go, ok: bool, u: State) returns (longer: seq<Action>)
    requires Leads(s, schedule, t) && WorkerHoldsState(t.worker) && WorkerInside(t, ok) == Some(u)
    ensures longer == schedule + [WorkerStep(go, ok)] && Leads(s, longer, u)
  {
    longer := Then(s, schedule, t, WorkerStep(go, ok), u);
  }

  lemma ThenRead(s: State, schedule: seq<Action>, t: State, go: Go, ok: bool, u: State) returns (longer: seq<Action>)
    requires Leads(s, schedule, t) && (t.worker.Top? || t.worker.ReadGeneration?) && WorkerOutside(t) == Some(u)
    ensures longer == schedule + [WorkerStep(go, ok)] && Leads(s, longer, u)
  {
    longer := Then(s, schedule, t, WorkerStep(go, ok), u);
  }

  lemma ThenActor(s: State, schedule: seq<Action>, t: State, u: State) returns (longer: seq<Action>)
    requires Leads(s, schedule, t) && !t.actor.Idle? && ActorCommit(t) == Some(u)
    ensures longer == schedule + [ActorStep] && Leads(s, longer, u)
  {
    longer := Then(s, schedule, t, ActorStep, u);
  }

  lemma SetAgain(s: State, id: UserId, u: User, v: User)
    ensures SetUser(SetUser(s, id, u), id, v) == SetUser(s, id, v)
  {
    assert s.users[id := u][id := v] == s.users[id := v];
  }

  lemma DropAgain(s: State, id: UserId, u: User)
    requires id !in s.users
    ensures DropUser(SetUser(s, id, u), id) == s
  {
    assert s.users[id := u] - {id} == s.users;
  }

  /** Nobody holds a lock, and the store has nothing to do. */
  predicate Quiet(s: State) {
    s.locks == Locks(Nobody, Nobody) && s.queue == [] && s.actor.Idle?
  }

  /** The steps of an enable whose session the store knows. */
  function EnableSteps(id: UserId, target: Session): seq<Action> {
    [UserEnable(id, target), UserStep(id, true), UserStep(id, true), ActorStep, UserStep(id, true),
     UserStep(id, true), UserStep(id, true), UserStep(id, true), UserStep(id, true)]
  }

  /** An enable is refused after a stop or a lost child. */
  lemma EnableRefused(s: State, id: UserId, target: Session)
    requires id !in s.users
    ensures s.shared.stopped <==> Next(s, UserEnable(id, target)) == None
    ensures !s.shared.stopped && !s.shared.contained ==> Leads(s, [UserEnable(id, target), UserStep(id, true)], s)
  {
    if !s.shared.stopped && !s.shared.contained {
      var begun := SetUser(s, id, SawRunning(target));
      LeadsSelf(s);
      var schedule := ThenBegin(s, [], s, UserEnable(id, target), begun);
      DropAgain(s, id, SawRunning(target));
      schedule := ThenOutside(s, schedule, begun, id, s);
      assert schedule == [UserEnable(id, target), UserStep(id, true)];
    }
  }

  lemma EnableReachesStore(s: State, id: UserId, target: Session) returns (schedule: seq<Action>)
    requires Quiet(s) && id !in s.users && !s.shared.stopped && s.shared.contained
    ensures schedule == [UserEnable(id, target), UserStep(id, true), UserStep(id, true)]
    ensures Leads(s, schedule, SetUser(s, id, CallingStore(target)).(queue := [Answer(ByUser(id))]))
  {
    var saw, asking := SetUser(s, id, SawRunning(target)), SetUser(s, id, Asking(target));
    LeadsSelf(s);
    schedule := ThenBegin(s, [], s, UserEnable(id, target), saw);
    SetAgain(s, id, SawRunning(target), Asking(target));
    schedule := ThenOutside(s, schedule, saw, id, asking);
    SetAgain(s, id, Asking(target), CallingStore(target));
    assert [] + [Answer(ByUser(id))] == [Answer(ByUser(id))];
    schedule := ThenOutside(s, schedule, asking, id, SetUser(s, id, CallingStore(target)).(queue := [Answer(ByUser(id))]));
  }

  lemma EnableIsAnswered(s: State, id: UserId, target: Session)
    requires s.queue == [] && s.actor.Idle?
    ensures ActorTake(SetUser(s, id, CallingStore(target)).(queue := [Answer(ByUser(id))])) == Some(SetUser(s, id, WantsState(target)))
  {
    var calling := SetUser(s, id, CallingStore(target)).(queue := [Answer(ByUser(id))]);
    assert calling.queue[1..] == [];
    SetAgain(s, id, CallingStore(target), WantsState(target));
  }

  lemma EnableTakesLocks(s: State, id: UserId, target: Session, schedule: seq<Action>, t: State) returns (longer: seq<Action>)
    requires t.locks == Locks(Nobody, Nobody) && Leads(s, schedule, SetUser(t, id, WantsState(target)))
    ensures longer == schedule + [UserStep(id, true), UserStep(id, true), UserStep(id, true)]
    ensures Leads(s, longer, SetUser(t, id, Raising(target)).(locks := Locks(ByUser(id), Nobody)))
  {
    var inside := t.(locks := Locks(ByUser(id), Nobody));
    SetAgain(t, id, WantsState(target), HoldsState(target));
    longer := ThenOutside(s, schedule, SetUser(t, id, WantsState(target)), id, SetUser(inside, id, HoldsState(target)));
    var both := SetUser(t.(locks := Locks(ByUser(id), ByUser(id))), id, HoldsBoth(target));
    SetAgain(inside, id, HoldsState(target), HoldsBoth(target));
    longer := ThenInside(s, longer, SetUser(inside, id, HoldsState(target)), id, both);
    SetAgain(t.(locks := Locks(ByUser(id), ByUser(id))), id, HoldsBoth(target), Raising(target));
    longer := ThenInside(s, longer, both, id, SetUser(inside, id, Raising(target)));
  }

  lemma EnableWrites(s: State, id: UserId, target: Session, schedule: seq<Action>, t: State) returns (longer: seq<Action>)
    requires t.locks == Locks(Nobody, Nobody) && id !in t.users
    requires Leads(s, schedule, SetUser(t, id, Raising(target)).(locks := Locks(ByUser(id), Nobody)))
    ensures longer == schedule + [UserStep(id, true), UserStep(id, true)]
    ensures
      var h, generation := t.shared, t.shared.generation + 1;
      Leads(s, longer,
            t.(shared := h.(enabled := true, session := Some(target), generation := generation),
                 log := t.log + [Enabled(target, generation)]))
  {
    var h, generation := t.shared, t.shared.generation + 1;
    var inside := t.(locks := Locks(ByUser(id), Nobody));
    var raised := SetUser(inside, id, Raised(target, generation)).(shared := h.(generation := generation));
    SetAgain(inside, id, Raising(target), Raised(target, generation));
    longer := ThenInside(s, schedule, SetUser(inside, id, Raising(target)), id, raised);
    DropAgain(t, id, Raised(target, generation));
    longer := ThenInside(s, longer, raised, id,
                         t.(shared := h.(enabled := true, session := Some(target), generation := generation),
                            log := t.log + [Enabled(target, generation)]));
  }

  /** Otherwise, undisturbed, it leaves its session enabled in a new generation. */
  lemma EnableTakesEffect(s: State, id: UserId, target: Session)
    requires Quiet(s) && id !in s.users && !s.shared.stopped && s.shared.contained
    ensures
      var h, generation := s.shared, s.shared.generation + 1;
      Leads(s, EnableSteps(id, target),
            s.(shared := Shared(true, Some(target), generation, false, true, h.pending),
                 log := s.log + [Enabled(target, generation)]))
  {
    var schedule := EnableReachesStore(s, id, target);
    EnableIsAnswered(s, id, target);
    schedule := Then(s, schedule, SetUser(s, id, CallingStore(target)).(queue := [Answer(ByUser(id))]), ActorStep,
                     SetUser(s, id, WantsState(target)));
    schedule := EnableTakesLocks(s, id, target, schedule, s);
    schedule := EnableWrites(s, id, target, schedule, s);
    assert schedule == EnableSteps(id, target);
  }

  lemma DisableTakesLock(s: State, id: UserId) returns (schedule: seq<Action>)
    requires s.locks.state == Nobody && id !in s.users
    ensures schedule == [UserDisable(id), UserStep(id, true)]
    ensures Leads(s, schedule, SetUser(TakeState(s, ByUser(id)), id, Disabling))
  {
    var wants := SetUser(s, id, WantsDisable);
    LeadsSelf(s);
    schedule := ThenBegin(s, [], s, UserDisable(id), wants);
    SetAgain(s, id, WantsDisable, Disabling);
    schedule := ThenOutside(s, schedule, wants, id, SetUser(TakeState(s, ByUser(id)), id, Disabling));
  }

  /** An undisturbed disable, whatever has been stopped. */
  lemma DisableTakesEffect(s: State, id: UserId)
    requires s.locks.state == Nobody && id !in s.users
    ensures
      var h := s.shared;
      Leads(s, [UserDisable(id), UserStep(id, true), UserStep(id, true), UserStep(id, true)], s.(shared := Shared(false, h.session, h.generation + 1, h.stopped, h.contained, h.pending), log := s.log + [Disabled]))
  {
    var schedule := DisableTakesLock(s, id);
    var inside, h := TakeState(s, ByUser(id)), s.shared;
    var raised := SetUser(inside, id, DisableRaised).(shared := h.(generation := h.generation + 1));
    SetAgain(inside, id, Disabling, DisableRaised);
    schedule := ThenInside(s, schedule, SetUser(inside, id, Disabling), id, raised);
    DropAgain(s, id, DisableRaised);
    schedule := ThenInside(s, schedule, raised, id, s.(shared := h.(generation := h.generation + 1, enabled := false), log := s.log + [Disabled]));
    assert schedule == [UserDisable(id), UserStep(id, true), UserStep(id, true), UserStep(id, true)];
  }

  /** A shutdown sets the flag and then raises the generation. */
  lemma ShutdownTakesEffect(s: State)
    ensures
      var h := s.shared;
      Leads(s, [ShutdownFlag, ShutdownBump], s.(shared := Shared(h.enabled, h.session, h.generation + 1, true, h.contained, h.pending), bumped := true))
  {
    var flagged := s.(shared := s.shared.(stopped := true));
    LeadsSelf(s);
    var schedule := ThenBegin(s, [], s, ShutdownFlag, flagged);
    var raised := flagged.(shared := flagged.shared.(generation := s.shared.generation + 1), bumped := true);
    schedule := ThenBegin(s, schedule, flagged, ShutdownBump, raised);
    assert schedule == [ShutdownFlag, ShutdownBump];
  }

  lemma ScanReads(s: State, go: Go, ok: bool) returns (schedule: seq<Action>)
    requires s.worker.Top? && s.locks.state == Nobody && !s.shared.stopped
    ensures schedule == [WorkerStep(go, ok), WorkerStep(go, ok), WorkerStep(go, ok)]
    ensures Leads(s, schedule, TakeState(s.(worker := HoldsStatus(s.shared.generation)), ByWorker))
  {
    var g := s.shared.generation;
    var reading := s.(worker := ReadGeneration);
    LeadsSelf(s);
    schedule := ThenRead(s, [], s, go, ok, reading);
    var wants := s.(worker := WantsStatus(g));
    schedule := ThenRead(s, schedule, reading, go, ok, wants);
    schedule := ThenLock(s, schedule, wants, go, ok, TakeState(s.(worker := HoldsStatus(g)), ByWorker));
  }

  /** An undisturbed pass of the scan thread begins work exactly for an enabled session, in the current generation. */
  lemma ScanBeginsIff(s: State, go: Go, ok: bool)
    requires s.worker.Top? && s.locks.state == Nobody && !s.shared.stopped
    ensures
      var h := s.shared;
      Leads(s, [WorkerStep(go, ok), WorkerStep(go, ok), WorkerStep(go, ok), WorkerStep(go, ok)], s.(worker := if h.enabled && h.session.Some? then Scanning(Commit(h.generation, h.session.value)) else Top))
  {
    var h, g := s.shared, s.shared.generation;
    var schedule := ScanReads(s, go, ok);
    var holds := TakeState(s.(worker := HoldsStatus(g)), ByWorker);
    var next := if h.enabled && h.session.Some? then Scanning(Commit(g, h.session.value)) else Top;
    assert FreeState(holds.(worker := next)) == s.(worker := next);
    var longer := ThenUnlock(s, schedule, holds, go, ok, s.(worker := next));
    assert longer == [WorkerStep(go, ok), WorkerStep(go, ok), WorkerStep(go, ok), WorkerStep(go, ok)];
  }

  /** A stopped one ends the thread with analysis switched off. */
  lemma StoppedScanEnds(s: State, go: Go, ok: bool)
    requires s.worker.Top? && s.locks.state == Nobody && s.shared.stopped
    ensures
      Leads(s, [WorkerStep(go, ok), WorkerStep(go, ok), WorkerStep(go, ok)], s.(worker := Finished, shared := s.shared.(enabled := false)))
  {
    var exiting := s.(worker := Exiting);
    LeadsSelf(s);
    var schedule := ThenRead(s, [], s, go, ok, exiting);
    var final := TakeState(s.(worker := HoldsFinal), ByWorker);
    schedule := ThenLock(s, schedule, exiting, go, ok, final);
    schedule := ThenUnlock(s, schedule, final, go, ok, s.(worker := Finished, shared := s.shared.(enabled := false)));
    var a := WorkerStep(go, ok);
    assert schedule == [a, a, a];
  }

  /** Giving up switches analysis off, but not that of a later generation. */
  lemma GiveUpTakesEffectIff(s: State, job: Commit)
    requires s.worker == Scanning(job) && s.locks.state == Nobody
    ensures
      var h := s.shared;
      Leads(s, [WorkerStep(GoGiveUp, true), WorkerStep(GoTop, true), WorkerStep(GoTop, true)], s.(worker := Top, shared := if h.generation == job.generation then h.(enabled := false) else h))
  {
    var wants := s.(worker := WantsGiveUp(job));
    assert WorkerGo(s, GoGiveUp, true) == Some(wants);
    LeadsSelf(s);
    var schedule := Then(s, [], s, WorkerStep(GoGiveUp, true), wants);
    var holds := TakeState(s.(worker := HoldsGiveUp(job)), ByWorker);
    schedule := ThenLock(s, schedule, wants, GoTop, true, holds);
    var done := s.(worker := Top, shared := if s.shared.generation == job.generation then s.shared.(enabled := false) else s.shared);
    schedule := ThenUnlock(s, schedule, holds, GoTop, true, done);
    assert schedule == [WorkerStep(GoGiveUp, true), WorkerStep(GoTop, true), WorkerStep(GoTop, true)];
  }

  /** The scan thread's steps from a candidate to a queued closure. */
  function ComputeSteps(): seq<Action> {
    var a := WorkerStep(GoCandidate, true);
    [a, a, a, a, a, a, a, a]
  }

  /** The closure's: out of the queue, the lock, three reads, the write, let go, uncount. */
  function CommitSteps(): seq<Action> {
    [ActorStep, ActorStep, ActorStep, ActorStep, ActorStep, ActorStep, ActorStep, ActorStep]
  }

  lemma ChildIsStarted(s: State, job: Commit) returns (schedule: seq<Action>)
    requires s.worker == Scanning(job) && !s.shared.stopped && s.shared.generation == job.generation
    ensures
      var a := WorkerStep(GoCandidate, true);
      schedule == [a, a, a] && Leads(s, schedule, s.(worker := ChildRunning(job)))
  {
    var candidate := s.(worker := Candidate(job));
    assert WorkerGo(s, GoCandidate, true) == Some(candidate);
    LeadsSelf(s);
    schedule := Then(s, [], s, WorkerStep(GoCandidate, true), candidate);
    var starting := s.(worker := Starting(job));
    schedule := ThenChild(s, schedule, candidate, GoCandidate, true, starting);
    schedule := ThenChild(s, schedule, starting, GoCandidate, true, s.(worker := ChildRunning(job)));
  }

  lemma ChildIsStopped(s: State, schedule: seq<Action>, t: State, job: Commit) returns (longer: seq<Action>)
    requires Leads(s, schedule, t.(worker := ChildRunning(job))) && !t.shared.stopped && t.shared.generation == job.generation
    ensures
      var a := WorkerStep(GoCandidate, true);
      longer == schedule + [a, a, a] && Leads(s, longer, t.(worker := Checked(job)))
  {
    var stopped := t.(worker := ChildStopped(job));
    longer := ThenChild(s, schedule, t.(worker := ChildRunning(job)), GoCandidate, true, stopped);
    var still := t.(worker := StillRunning(job));
    longer := ThenChild(s, longer, stopped, GoCandidate, true, still);
    longer := ThenChild(s, longer, still, GoCandidate, true, t.(worker := Checked(job)));
  }

  lemma LabelIsQueued(s: State, schedule: seq<Action>, t: State, job: Commit) returns (longer: seq<Action>)
    requires Leads(s, schedule, t.(worker := Checked(job))) && t.queue == []
    ensures
      var a := WorkerStep(GoCandidate, true);
      && longer == schedule + [a, a]
      && Leads(s, longer, t.(worker := AwaitingCommit(job), queue := [Write(job)], shared := t.shared.(pending := t.shared.pending + 1)))
  {
    var counted := t.(worker := Counted(job), shared := t.shared.(pending := t.shared.pending + 1));
    longer := ThenCount(s, schedule, t.(worker := Checked(job)), GoCandidate, true, counted);
    assert [] + [Write(job)] == [Write(job)];
    longer := ThenCount(s, longer, counted, GoCandidate, true, counted.(worker := AwaitingCommit(job), queue := [Write(job)]));
  }

  lemma LabelIsComputed(s: State, job: Commit)
    requires s.queue == [] && s.worker == Scanning(job) && !s.shared.stopped && s.shared.generation == job.generation
    ensures
      Leads(s, ComputeSteps(), s.(worker := AwaitingCommit(job), queue := [Write(job)], shared := s.shared.(pending := s.shared.pending + 1)))
  {
    var schedule := ChildIsStarted(s, job);
    schedule := ChildIsStopped(s, schedule, s, job);
    schedule := LabelIsQueued(s, schedule, s, job);
    assert schedule == ComputeSteps();
  }

  lemma ClosureReads(s: State, schedule: seq<Action>, t: State, job: Commit) returns (longer: seq<Action>)
    requires t.locks.state == Nobody && Leads(s, schedule, t.(actor := Entered(job)))
    requires t.shared.enabled && !t.shared.stopped && t.shared.generation == job.generation
    ensures longer == schedule + [ActorStep, ActorStep, ActorStep, ActorStep]
    ensures Leads(s, longer, TakeState(t.(actor := ActorSawEnabled(job)), ByActor))
  {
    var inside := TakeState(t, ByActor);
    longer := ThenActor(s, schedule, t.(actor := Entered(job)), inside.(actor := Locked(job)));
    longer := ThenActor(s, longer, inside.(actor := Locked(job)), inside.(actor := ActorSawRunning(job)));
    longer := ThenActor(s, longer, inside.(actor := ActorSawRunning(job)), inside.(actor := ActorSawGeneration(job)));
    longer := ThenActor(s, longer, inside.(actor := ActorSawGeneration(job)), inside.(actor := ActorSawEnabled(job)));
  }

  /** A closure at the head of the queue, in an enabled and current generation: its label is written and it is uncounted. */
  lemma QueuedLabelIsWritten(s: State, job: Commit, rest: seq<Closure>)
    requires s.locks.state == Nobody && s.actor.Idle? && s.queue == [Write(job)] + rest && s.shared.pending > 0
    requires s.shared.enabled && !s.shared.stopped && s.shared.generation == job.generation
    ensures
      Leads(s, CommitSteps(), s.(queue := rest, shared := s.shared.(pending := s.shared.pending - 1), log := s.log + [Wrote(job.session, job.generation)]))
  {
    var t := s.(queue := rest);
    assert s.queue[1..] == rest;
    assert ActorTake(s) == Some(t.(actor := Entered(job)));
    LeadsSelf(s);
    var schedule := Then(s, [], s, ActorStep, t.(actor := Entered(job)));
    schedule := ClosureReads(s, schedule, t, job);
    var log := s.log + [Wrote(job.session, job.generation)];
    var written := TakeState(t.(actor := Decided(job), log := log), ByActor);
    schedule := ThenActor(s, schedule, TakeState(t.(actor := ActorSawEnabled(job)), ByActor), written);
    var unlocked := t.(actor := Unlocked(job), log := log);
    schedule := ThenActor(s, schedule, written, unlocked);
    schedule := ThenActor(s, schedule, unlocked, t.(shared := s.shared.(pending := s.shared.pending - 1), log := log));
    assert schedule == CommitSteps();
  }

  /** So what the scan thread computes for an enabled session that nobody touches is written, and nothing stays behind. */
  lemma ComputedLabelIsWritten(s: State, job: Commit)
    requires Quiet(s) && s.worker == Scanning(job)
    requires s.shared.enabled && !s.shared.stopped && s.shared.generation == job.generation
    ensures
      Leads(s, ComputeSteps() + CommitSteps(), s.(worker := AwaitingCommit(job), log := s.log + [Wrote(job.session, job.generation)]))
  {
    LabelIsComputed(s, job);
    var queued := s.(worker := AwaitingCommit(job), queue := [Write(job)], shared := s.shared.(pending := s.shared.pending + 1));
    assert queued.queue == [Write(job)] + [];
    QueuedLabelIsWritten(queued, job, []);
    LeadsOn(s, ComputeSteps(), queued, CommitSteps(), s.(worker := AwaitingCommit(job), log := s.log + [Wrote(job.session, job.generation)]));
  }

  // ----- Calls and passes that come to nothing -----

  /** A status call takes the lock and leaves everything as it was. */
  lemma ReadLeavesAll(s: State, id: UserId)
    requires s.locks.state == Nobody && id !in s.users
    ensures Leads(s, [UserRead(id), UserStep(id, true), UserStep(id, true)], s)
  {
    LeadsSelf(s);
    var wants := SetUser(s, id, WantsRead);
    assert UserBegin(s, UserRead(id)) == Some(wants);
    var schedule := Then(s, [], s, UserRead(id), wants);
    var reading := SetUser(TakeState(s, ByUser(id)), id, Reading);
    SetAgain(TakeState(s, ByUser(id)), id, WantsRead, Reading);
    schedule := ThenOutside(s, schedule, wants, id, reading);
    DropAgain(s, id, Reading);
    schedule := ThenInside(s, schedule, reading, id, s);
  }

  /** An enable the store refuses leaves no trace, and one that stops waiting for it leaves a read nobody waits for. */
  lemma EnableIsGivenUp(s: State, id: UserId, target: Session)
    requires Quiet(s) && id !in s.users && !s.shared.stopped && s.shared.contained
    ensures Leads(s, [UserEnable(id, target), UserStep(id, true), UserStep(id, false)], s)
    ensures Leads(s, [UserEnable(id, target), UserStep(id, true), UserStep(id, true), UserStep(id, true)],
                  s.(queue := [Answer(ByUser(id))]))
  {
    var saw, asking := SetUser(s, id, SawRunning(target)), SetUser(s, id, Asking(target));
    LeadsSelf(s);
    var schedule := ThenBegin(s, [], s, UserEnable(id, target), saw);
    SetAgain(s, id, SawRunning(target), Asking(target));
    schedule := ThenOutside(s, schedule, saw, id, asking);
    DropAgain(s, id, Asking(target));
    assert UserOutside(asking, id, false) == Some(s);
    schedule := Then(s, schedule, asking, UserStep(id, false), s);
    schedule := EnableReachesStore(s, id, target);
    var calling := SetUser(s, id, CallingStore(target)).(queue := [Answer(ByUser(id))]);
    DropAgain(s, id, CallingStore(target));
    schedule := ThenOutside(s, schedule, calling, id, s.(queue := [Answer(ByUser(id))]));
  }

  /** Between two candidates the scan thread reads the model path, shows a notice and fetches a page, and is where it was. */
  lemma ScanLooksAround(s: State, job: Commit)
    requires s.worker == Scanning(job) && Quiet(s)
    ensures Leads(s, [WorkerStep(GoModel, true), WorkerStep(GoTop, true), WorkerStep(GoTop, true)], s)
    ensures Leads(s, [WorkerStep(GoNotice, true), WorkerStep(GoTop, true), WorkerStep(GoTop, true)], s)
    ensures Leads(s, [WorkerStep(GoPage, true), ActorStep], s)
    ensures Leads(s, [WorkerStep(GoPage, false)], s.(worker := Top))
    ensures Leads(s, [WorkerStep(GoTop, true)], s.(worker := Top))
  {
    ScanReadsModel(s, job);
    ScanShowsNotice(s, job);
    ScanFetchesPage(s, job);
    LeadsSelf(s);
    assert WorkerGo(s, GoPage, false) == Some(s.(worker := Top)) == WorkerGo(s, GoTop, true);
    var schedule := Then(s, [], s, WorkerStep(GoPage, false), s.(worker := Top));
    schedule := Then(s, [], s, WorkerStep(GoTop, true), s.(worker := Top));
  }

  lemma ScanReadsModel(s: State, job: Commit)
    requires s.worker == Scanning(job) && Quiet(s)
    ensures Leads(s, [WorkerStep(GoModel, true), WorkerStep(GoTop, true), WorkerStep(GoTop, true)], s)
  {
    LeadsSelf(s);
    var wants := s.(worker := WantsModel(job));
    assert WorkerGo(s, GoModel, true) == Some(wants);
    var schedule := Then(s, [], s, WorkerStep(GoModel, true), wants);
    var holds := s.(worker := HoldsModel(job), locks := Locks(Nobody, ByWorker));
    assert WorkerOutside(wants) == Some(holds);
    schedule := Then(s, schedule, wants, WorkerStep(GoTop, true), holds);
    assert WorkerOutside(holds) == Some(s);
    schedule := Then(s, schedule, holds, WorkerStep(GoTop, true), s);
  }

  lemma ScanShowsNotice(s: State, job: Commit)
    requires s.worker == Scanning(job) && Quiet(s)
    ensures Leads(s, [WorkerStep(GoNotice, true), WorkerStep(GoTop, true), WorkerStep(GoTop, true)], s)
  {
    LeadsSelf(s);
    var wants := s.(worker := WantsNotice(job));
    assert WorkerGo(s, GoNotice, true) == Some(wants);
    var schedule := Then(s, [], s, WorkerStep(GoNotice, true), wants);
    var holds := TakeState(s.(worker := HoldsNotice(job)), ByWorker);
    schedule := ThenLock(s, schedule, wants, GoTop, true, holds);
    schedule := ThenUnlock(s, schedule, holds, GoTop, true, s);
  }

  lemma ScanFetchesPage(s: State, job: Commit)
    requires s.worker == Scanning(job) && Quiet(s)
    ensures Leads(s, [WorkerStep(GoPage, true), ActorStep], s)
  {
    LeadsSelf(s);
    var waits := s.(worker := AwaitingPage(job), queue := [Answer(ByWorker)]);
    assert [] + [Answer(ByWorker)] == [Answer(ByWorker)] && [Answer(ByWorker)][1..] == [];
    assert WorkerGo(s, GoPage, true) == Some(waits);
    var schedule := Then(s, [], s, WorkerStep(GoPage, true), waits);
    assert ActorTake(waits) == Some(s);
    schedule := Then(s, schedule, waits, ActorStep, s);
  }

  /** A stop or a new generation ends a candidate before its child is started. */
  lemma InterruptedCandidateIsDropped(s: State, job: Commit)
    requires s.worker == Scanning(job)
    ensures s.shared.stopped ==> Leads(s, [WorkerStep(GoCandidate, true)], s.(worker := AfterCandidate(job)))
    ensures !s.shared.stopped && s.shared.generation != job.generation ==>
              Leads(s, [WorkerStep(GoCandidate, true), WorkerStep(GoCandidate, true)], s.(worker := AfterCandidate(job)))
  {
    LeadsSelf(s);
    var candidate := s.(worker := if s.shared.stopped then AfterCandidate(job) else Candidate(job));
    assert WorkerGo(s, GoCandidate, true) == Some(candidate);
    var schedule := Then(s, [], s, WorkerStep(GoCandidate, true), candidate);
    if !s.shared.stopped && s.shared.generation != job.generation {
      schedule := ThenChild(s, schedule, candidate, GoCandidate, true, s.(worker := AfterCandidate(job)));
    }
  }

  /** And behind the child its result is dropped, before anything is counted. */
  lemma InterruptedResultIsDropped(s: State, job: Commit)
    requires s.worker == ChildStopped(job)
    ensures s.shared.stopped ==> Leads(s, [WorkerStep(GoCandidate, true)], s.(worker := AfterCandidate(job)))
    ensures !s.shared.stopped && s.shared.generation != job.generation ==>
              Leads(s, [WorkerStep(GoCandidate, true), WorkerStep(GoCandidate, true)], s.(worker := AfterCandidate(job)))
  {
    LeadsSelf(s);
    var next := s.(worker := if s.shared.stopped then AfterCandidate(job) else StillRunning(job));
    var schedule := ThenChild(s, [], s, GoCandidate, true, next);
    if !s.shared.stopped && s.shared.generation != job.generation {
      schedule := ThenChild(s, schedule, next, GoCandidate, true, s.(worker := AfterCandidate(job)));
    }
  }

  /** A child that does not start or gives no result is no more than that; one whose exit is not confirmed ends the thread and containment. */
  lemma ChildFails(s: State, job: Commit)
    ensures s.worker == Starting(job) ==> Leads(s, [WorkerStep(GoCandidate, false)], s.(worker := AfterCandidate(job)))
    ensures s.worker == ChildRunning(job) ==> Leads(s, [WorkerStep(GoCandidate, false)], s.(worker := AfterCandidate(job)))
    ensures s.worker == ChildRunning(job) && s.locks.state == Nobody ==>
              Leads(s, [WorkerStep(GoTop, true), WorkerStep(GoTop, true), WorkerStep(GoTop, true)],
                    s.(worker := Finished, shared := s.shared.(contained := false, enabled := false)))
  {
    if s.worker == Starting(job) || s.worker == ChildRunning(job) {
      LeadsSelf(s);
      var schedule := ThenChild(s, [], s, GoCandidate, false, s.(worker := AfterCandidate(job)));
    }
    if s.worker == ChildRunning(job) && s.locks.state == Nobody {
      ChildIsUncontained(s, job);
    }
  }

  lemma ChildIsUncontained(s: State, job: Commit)
    requires s.worker == ChildRunning(job) && s.locks.state == Nobody
    ensures
      Leads(s, [WorkerStep(GoTop, true), WorkerStep(GoTop, true), WorkerStep(GoTop, true)],
            s.(worker := Finished, shared := s.shared.(contained := false, enabled := false)))
  {
    LeadsSelf(s);
    var lost := s.(worker := Uncontained, shared := s.shared.(contained := false));
    var schedule := ThenChild(s, [], s, GoTop, true, lost);
    var final := TakeState(lost.(worker := HoldsFinal), ByWorker);
    schedule := ThenLock(s, schedule, lost, GoTop, true, final);
    schedule := ThenUnlock(s, schedule, final, GoTop, true,
                           s.(worker := Finished, shared := s.shared.(contained := false, enabled := false)));
  }

  /** A result the store does not take is uncounted again; one it takes is waited for or not. Then the thread goes on, or begins anew. */
  lemma ResultIsLeft(s: State, job: Commit, ok: bool)
    ensures s.worker == Checked(job) ==>
              Leads(s, [WorkerStep(GoTop, true), WorkerStep(GoTop, false), WorkerStep(GoTop, true)], s.(worker := AfterCandidate(job)))
    ensures s.worker == AwaitingCommit(job) ==> Leads(s, [WorkerStep(GoTop, true)], s.(worker := AfterCandidate(job)))
    ensures s.worker == AfterCandidate(job) && s.locks.state == Nobody ==>
              Leads(s, [WorkerStep(GoTop, ok), WorkerStep(GoTop, ok)], s.(worker := if ok then Scanning(job) else Top))
  {
    LeadsSelf(s);
    if s.worker == Checked(job) {
      ResultIsRefused(s, job);
    } else if s.worker == AwaitingCommit(job) {
      var schedule := ThenCount(s, [], s, GoTop, true, s.(worker := AfterCandidate(job)));
    } else if s.worker == AfterCandidate(job) && s.locks.state == Nobody {
      var holds := TakeState(s.(worker := HoldsAfter(job)), ByWorker);
      var schedule := ThenLock(s, [], s, GoTop, ok, holds);
      schedule := ThenUnlock(s, schedule, holds, GoTop, ok, s.(worker := if ok then Scanning(job) else Top));
    }
  }

  lemma ResultIsRefused(s: State, job: Commit)
    requires s.worker == Checked(job)
    ensures Leads(s, [WorkerStep(GoTop, true), WorkerStep(GoTop, false), WorkerStep(GoTop, true)], s.(worker := AfterCandidate(job)))
  {
    LeadsSelf(s);
    var counted := s.(worker := Counted(job), shared := s.shared.(pending := s.shared.pending + 1));
    var schedule := ThenCount(s, [], s, GoTop, true, counted);
    schedule := ThenCount(s, schedule, counted, GoTop, false, counted.(worker := Rejected(job)));
    schedule := ThenCount(s, schedule, counted.(worker := Rejected(job)), GoTop, true, s.(worker := AfterCandidate(job)));
  }

  /** An undisturbed poll after a shutdown answers true exactly when nothing is uncontained, nothing is counted and the thread has ended. */
  lemma PollAnswers(s: State)
    requires s.poll.NotPolling? && s.bumped
    ensures !s.shared.contained ==> Leads(s, [PollStart, PollStep], s)
    ensures s.shared.contained && s.shared.pending != 0 ==> Leads(s, [PollStart, PollStep, PollStep], s)
    ensures s.shared.contained && s.shared.pending == 0 ==>
              Leads(s, [PollStart, PollStep, PollStep, PollStep], s.(completed := s.completed || s.worker.Finished?))
  {
    LeadsSelf(s);
    var polling := s.(poll := Polling);
    var schedule := ThenPoll(s, [], s, PollStart, polling);
    var contained := s.(poll := if s.shared.contained then SawContained else NotPolling);
    schedule := ThenPoll(s, schedule, polling, PollStep, contained);
    if s.shared.contained {
      var counted := s.(poll := if s.shared.pending == 0 then SawNoPending else NotPolling);
      schedule := ThenPoll(s, schedule, contained, PollStep, counted);
      if s.shared.pending == 0 {
        schedule := ThenPoll(s, schedule, counted, PollStep, s.(completed := s.completed || s.worker.Finished?));
      }
    }
  }

  lemma ThenPoll(s: State, schedule: seq<Action>, t: State, a: Action, u: State) returns (longer: seq<Action>)
    requires Leads(s, schedule, t) && (a.PollStart? || a.PollStep?) && PollNext(t, a) == Some(u)
    ensures longer == schedule + [a] && Leads(s, longer, u)
  {
    longer := Then(s, schedule, t, a, u);
  }

  // ----- The shared fields in place -----

  /** The manager's shared fields, and its lock regions run one at a time. */
  class Host {
    var enabled: bool
    var session: Option<Session>
    var generation: nat
    var stopped: bool
    var contained: bool
    var pending: nat

    function View(): Shared
      reads this
    {
      Shared(enabled, session, generation, stopped, contained, pending)
    }

    constructor ()
      ensures View() == INITIAL
    {
      enabled, session, generation := false, None, 0;
      stopped, contained, pending := false, true, 0;
    }

    method Enable(target: Session) returns (ok: bool)
      modifies this
      ensures ok <==> !old(stopped) && old(contained)
      ensures ok ==> enabled && session == Some(target) && generation == old(generation) + 1
      ensures !ok ==> enabled == old(enabled) && session == old(session) && generation == old(generation)
      ensures stopped == old(stopped) && contained == old(contained) && pending == old(pending)
    {
      if stopped || !contained {
        return false;
      }
      generation := generation + 1;
      enabled := true;
      session := Some(target);
      return true;
    }

    method Disable()
      modifies this
      ensures !enabled && session == old(session) && generation == old(generation) + 1
      ensures stopped == old(stopped) && contained == old(contained) && pending == old(pending)
    {
      generation := generation + 1;
      enabled := false;
    }

    /** `update` with a change that switches analysis off. */
    method GiveUp(seen: nat)
      modifies this
      ensures enabled <==> old(enabled) && old(generation) != seen
      ensures session == old(session) && generation == old(generation)
      ensures stopped == old(stopped) && contained == old(contained) && pending == old(pending)
    {
      if generation == seen {
        enabled := false;
      }
    }

    method Shutdown()
      modifies this
      ensures stopped && generation == old(generation) + 1
      ensures enabled == old(enabled) && session == old(session) && contained == old(contained) && pending == old(pending)
    {
      stopped := true;
      generation := generation + 1;
    }

    /**
      The closure that runs in the store actor: it writes exactly when nothing is stopped, its generation is current and
      analysis is enabled, and is uncounted either way.
     */
    method RunCommit(job: Commit) returns (write: bool)
      requires pending > 0
      modifies this
      ensures write <==> !old(stopped) && old(generation) == job.generation && old(enabled)
      ensures View() == old(View()).(pending := old(pending) - 1)
    {
      write := !(stopped || generation != job.generation || !enabled);
      pending := pending - 1;
    }

    /** For a commit bound to what the scan thread read, that is the session that is enabled now. */
    method RunBoundCommit(job: Commit) returns (write: bool)
      requires pending > 0 && Bound(View(), false, job)
      modifies this
      ensures write <==> !old(stopped) && old(generation) == job.generation && old(enabled)
      ensures write ==> old(session) == Some(job.session)
      ensures View() == old(View()).(pending := old(pending) - 1)
    {
      write := RunCommit(job);
    }
  }
}
