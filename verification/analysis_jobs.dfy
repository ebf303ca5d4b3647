/**
  The table of analysis jobs (desktop/crates/forum-core/src/analysis.rs) and the requests the
  host makes of it, requeue_after_preemption among them (desktop/forum-shell/src/analysis.rs).

  Whether a deadline has passed, a snapshot is stale or a result is acceptable is decided
  outside the table, so a request carries it.
 */
module AnalysisJobs {
  import opened Common

  type Id = nat

  datatype Phase =
    | Queued
    | Waiting
    | Running
    | CancelRequested
    | Cancelled
    | Succeeded
    | SucceededPartial
    | Failed
    | Interrupted

  datatype Job = Job(phase: Phase, attempt: nat, maxAttempts: nat)

  type Table = map<Id, Job>

  datatype Request =
    | Create(id: Id, maxAttempts: nat, coalesced: set<Id>)  // newer snapshots replace these queued jobs
    | Claim(id: Id, attempt: nat, late: bool, stale: bool)
    | Wait(id: Id, attempt: nat)
    | Fail(id: Id, attempt: nat)
    | Cancel(id: Id, attempt: nat)
    | CompleteCancel(id: Id, attempt: nat)
    | Interrupt(id: Id, attempt: nat)
    | Retry(id: Id, attempt: nat, stale: bool)
    | Requeue(id: Id, attempt: nat, resume: bool, stale: bool)
    | Finish(id: Id, attempt: nat, acceptable: bool, complete: bool)
    | InterruptAll

  /** Still to be claimed in this attempt. */
  predicate InQueue(j: Job) { j.phase.Queued? || j.phase.Waiting? }

  /** Keeps every other job from being claimed. */
  predicate Active(j: Job) { j.phase.Running? || j.phase.CancelRequested? }

  predicate AnyActive(t: Table) {
    exists id :: id in t && Active(t[id])
  }

  predicate Current(t: Table, id: Id, attempt: nat) {
    id in t && t[id].attempt == attempt
  }

  function Interrupted1(j: Job): Job {
    j.(phase := if j.phase.CancelRequested? then Cancelled else Interrupted)
  }

  predicate MayRetry(j: Job) {
    (j.phase.Failed? || j.phase.Interrupted? || j.phase.SucceededPartial? || j.phase.Cancelled?) && j.attempt < j.maxAttempts
  }

  function Retried(j: Job): Job {
    j.(phase := Queued, attempt := j.attempt + 1)
  }

  /** What a request on one job's current attempt makes of the job, when it is granted. */
  function Changed(t: Table, j: Job, r: Request): Option<Job> {
    match r
    case Claim(_, _, late, stale) =>
      if !InQueue(j) then None
      else if late then Some(j.(phase := Failed))
      else if AnyActive(t) then None
      else if stale then Some(j.(phase := Failed))
      else Some(j.(phase := Running))
    case Wait(_, _) => if InQueue(j) then Some(j.(phase := Waiting)) else None
    case Fail(_, _) => if InQueue(j) || j.phase.Running? then Some(j.(phase := Failed)) else None
    case Cancel(_, _) =>
      if InQueue(j) || j.phase.Cancelled? then Some(j.(phase := Cancelled))
      else if Active(j) then Some(j.(phase := CancelRequested))
      else None
    case CompleteCancel(_, _) =>
      if j.phase.CancelRequested? || j.phase.Cancelled? then Some(j.(phase := Cancelled)) else None
    case Interrupt(_, _) => if Active(j) then Some(Interrupted1(j)) else None
    case Retry(_, _, stale) => if MayRetry(j) && !stale then Some(Retried(j)) else None
    case Finish(_, _, acceptable, complete) =>
      if j.phase.Running? && acceptable then Some(j.(phase := if complete then Succeeded else SucceededPartial)) else None
    case _ => None
  }

  /** The new table, and whether the request was granted. */
  function Apply(t: Table, r: Request): (Table, bool) {
    match r
    case Create(id, maxAttempts, coalesced) =>
      if id in t || !(1 <= maxAttempts <= 3) then (t, false)
      else
        var older := map x | x in t :: if x in coalesced && InQueue(t[x]) then t[x].(phase := Cancelled) else t[x];
        (older[id := Job(Queued, 1, maxAttempts)], true)
    case InterruptAll => (map x | x in t :: if Active(t[x]) then Interrupted1(t[x]) else t[x], true)
    case Requeue(id, attempt, resume, stale) => ApplyRequeue(t, id, attempt, resume, stale)
    case _ =>
      if !Current(t, r.id, r.attempt) then (t, false)
      else
        var j := Changed(t, t[r.id], r);
        if j.None? then (t, false) else (t[r.id := j.value], true)
  }

  /** Interrupt, then retry and wait in the same store closure. An interrupt stands even when the retry is refused. */
  function ApplyRequeue(t: Table, id: Id, attempt: nat, resume: bool, stale: bool): (Table, bool) {
    if !Current(t, id, attempt) || !Active(t[id]) then (t, false)
    else
      var j := Interrupted1(t[id]);
      if !resume || !j.phase.Interrupted? || j.attempt >= j.maxAttempts then (t[id := j], true)
      else if stale then (t[id := j], false)
      else (t[id := Retried(j).(phase := Waiting)], true)
  }

  // ----- What each request does, phase by phase -----

  /** A claim sets a queued job running when it is in time, nothing is active and its snapshot is current. */
  lemma ClaimOutcome(t: Table, id: Id, attempt: nat, late: bool, stale: bool)
    ensures
      var (t', ok) := Apply(t, Claim(id, attempt, late, stale));
      var queued := id in t && t[id].attempt == attempt && t[id].phase in {Queued, Waiting};
      var busy := exists x :: x in t && t[x].phase in {Running, CancelRequested};
      && (ok && t'[id].phase == Running <==> queued && !late && !stale && !busy)
      && (ok && t'[id].phase == Failed <==> queued && (late || (stale && !busy)))
      && (ok <==> queued && (late || !busy))
      && t' == (if !ok then t
                else t[id := Job(if late || stale then Failed else Running, attempt, t[id].maxAttempts)])
  {
    if x :| x in t && t[x].phase in {Running, CancelRequested} {
      assert AnyActive(t);
    }
  }

  lemma WaitOutcome(t: Table, id: Id, attempt: nat)
    ensures
      var (t', ok) := Apply(t, Wait(id, attempt));
      && (ok <==> id in t && t[id].attempt == attempt && t[id].phase in {Queued, Waiting})
      && t' == (if ok then t[id := Job(Waiting, attempt, t[id].maxAttempts)] else t)
  {
  }

  /** A cancel ends a job that waits and asks the owner of one that runs. */
  lemma CancelOutcome(t: Table, id: Id, attempt: nat)
    ensures
      var (t', ok) := Apply(t, Cancel(id, attempt));
      var mine := id in t && t[id].attempt == attempt;
      && (ok <==> mine && t[id].phase in {Queued, Waiting, Running, CancelRequested, Cancelled})
      && (ok && t'[id].phase == Cancelled <==> mine && t[id].phase in {Queued, Waiting, Cancelled})
      && (ok && t'[id].phase == CancelRequested <==> mine && t[id].phase in {Running, CancelRequested})
      && (ok ==> t' == t[id := Job(t'[id].phase, attempt, t[id].maxAttempts)])
      && (!ok ==> t' == t)
  {
  }

  lemma CompleteCancelOutcome(t: Table, id: Id, attempt: nat)
    ensures
      var (t', ok) := Apply(t, CompleteCancel(id, attempt));
      && (ok <==> id in t && t[id].attempt == attempt && t[id].phase in {CancelRequested, Cancelled})
      && t' == (if ok then t[id := Job(Cancelled, attempt, t[id].maxAttempts)] else t)
  {
  }

  lemma FailOutcome(t: Table, id: Id, attempt: nat)
    ensures
      var (t', ok) := Apply(t, Fail(id, attempt));
      && (ok <==> id in t && t[id].attempt == attempt && t[id].phase in {Queued, Waiting, Running})
      && t' == (if ok then t[id := Job(Failed, attempt, t[id].maxAttempts)] else t)
  {
  }

  /** A result counts only for a running job; whether it is complete decides which success it is. */
  lemma FinishOutcome(t: Table, id: Id, attempt: nat, acceptable: bool, complete: bool)
    ensures
      var (t', ok) := Apply(t, Finish(id, attempt, acceptable, complete));
      && (ok <==> id in t && t[id].attempt == attempt && t[id].phase == Running && acceptable)
      && t' == (if !ok then t
                else t[id := Job(if complete then Succeeded else SucceededPartial, attempt, t[id].maxAttempts)])
  {
  }

  lemma RetryOutcome(t: Table, id: Id, attempt: nat, stale: bool)
    ensures
      var (t', ok) := Apply(t, Retry(id, attempt, stale));
      && (ok <==> && id in t && t[id].attempt == attempt < t[id].maxAttempts && !stale
                  && t[id].phase in {Failed, Interrupted, SucceededPartial, Cancelled})
      && t' == (if ok then t[id := Job(Queued, attempt + 1, t[id].maxAttempts)] else t)
  {
  }

  /** Interrupting a job whose owner asked for a cancel is the cancel. */
  lemma InterruptOutcome(t: Table, id: Id, attempt: nat)
    ensures
      var (t', ok) := Apply(t, Interrupt(id, attempt));
      && (ok <==> id in t && t[id].attempt == attempt && t[id].phase in {Running, CancelRequested})
      && t' == (if !ok then t
                else t[id := Job(if t[id].phase == Running then Interrupted else Cancelled, attempt, t[id].maxAttempts)])
  {
  }

  lemma InterruptAllOutcome(t: Table, id: Id)
    ensures
      var (t', ok) := Apply(t, InterruptAll);
      && ok && t'.Keys == t.Keys
      && (id in t ==>
            t'[id] == match t[id].phase
                      case Running => Job(Interrupted, t[id].attempt, t[id].maxAttempts)
                      case CancelRequested => Job(Cancelled, t[id].attempt, t[id].maxAttempts)
                      case _ => t[id])
  {
  }

  /** A new job waits in its first attempt, and cancels the queued jobs it replaces. */
  lemma CreateOutcome(t: Table, id: Id, maxAttempts: nat, coalesced: set<Id>)
    ensures
      var (t', ok) := Apply(t, Create(id, maxAttempts, coalesced));
      && (ok <==> id !in t && 1 <= maxAttempts <= 3)
      && (ok ==> t'.Keys == t.Keys + {id} && t'[id] == Job(Queued, 1, maxAttempts))
      && (ok ==> forall x :: x in t ==>
            t'[x] == if x in coalesced && t[x].phase in {Queued, Waiting} then Job(Cancelled, t[x].attempt, t[x].maxAttempts)
                     else t[x])
      && (!ok ==> t' == t)
  {
  }

  lemma RequeueOutcome(t: Table, id: Id, attempt: nat, resume: bool, stale: bool)
    ensures
      var (t', ok) := Apply(t, Requeue(id, attempt, resume, stale));
      var mine := id in t && t[id].attempt == attempt;
      var goesOn := mine && t[id].phase == Running && resume && attempt < t[id].maxAttempts;
      && (ok <==> mine && t[id].phase in {Running, CancelRequested} && !(goesOn && stale))
      && t' == (if !(mine && t[id].phase in {Running, CancelRequested}) then t
                else if t[id].phase == CancelRequested then t[id := Job(Cancelled, attempt, t[id].maxAttempts)]
                else if goesOn && !stale then t[id := Job(Waiting, attempt + 1, t[id].maxAttempts)]
                else t[id := Job(Interrupted, attempt, t[id].maxAttempts)])
  {
  }

  // ----- What every request keeps -----

  ghost predicate ValidTable(t: Table) {
    && (forall id :: id in t ==> 1 <= t[id].attempt <= t[id].maxAttempts)
    && (forall x, y :: x in t && y in t && Active(t[x]) && Active(t[y]) ==> x == y)
  }

  /** How many attempts of the job have left the queue. */
  function Tried(j: Job): int {
    if InQueue(j) then j.attempt - 1 else j.attempt
  }

  predicate Claims(t: Table, r: Request) {
    r.Claim? && Apply(t, r).1 && Apply(t, r).0[r.id].phase.Running?
  }

  /** One job changes, and none becomes active beside another. */
  lemma OneJobKeepsValid(t: Table, id: Id, j: Job)
    requires ValidTable(t) && 1 <= j.attempt <= j.maxAttempts
    requires Active(j) ==> !AnyActive(t) || (id in t && Active(t[id]))
    ensures ValidTable(t[id := j])
  {
  }

  lemma CreateKeepsValid(t: Table, id: Id, maxAttempts: nat, coalesced: set<Id>)
    requires ValidTable(t)
    ensures ValidTable(Apply(t, Create(id, maxAttempts, coalesced)).0)
  {
  }

  lemma InterruptAllKeepsValid(t: Table)
    requires ValidTable(t)
    ensures ValidTable(Apply(t, InterruptAll).0)
  {
  }

  lemma RequeueKeepsValid(t: Table, id: Id, attempt: nat, resume: bool, stale: bool)
    requires ValidTable(t)
    ensures ValidTable(ApplyRequeue(t, id, attempt, resume, stale).0)
  {
    var t' := ApplyRequeue(t, id, attempt, resume, stale).0;
    if t' != t {
      OneJobKeepsValid(t, id, t'[id]);
    }
  }

  lemma ChangeKeepsValid(t: Table, r: Request)
    requires ValidTable(t) && !r.Create? && !r.InterruptAll? && !r.Requeue? && Current(t, r.id, r.attempt)
    requires Changed(t, t[r.id], r).Some?
    ensures ValidTable(t[r.id := Changed(t, t[r.id], r).value])
  {
    OneJobKeepsValid(t, r.id, Changed(t, t[r.id], r).value);
  }

  lemma ApplyKeepsValid(t: Table, r: Request)
    requires ValidTable(t)
    ensures ValidTable(Apply(t, r).0)
  {
    match r
    case Create(id, maxAttempts, coalesced) => CreateKeepsValid(t, id, maxAttempts, coalesced);
    case InterruptAll => InterruptAllKeepsValid(t);
    case Requeue(id, attempt, resume, stale) => RequeueKeepsValid(t, id, attempt, resume, stale);
    case _ =>
      if Current(t, r.id, r.attempt) && Changed(t, t[r.id], r).Some? {
        ChangeKeepsValid(t, r);
      }
  }

  /** No request loses a job, changes its limit or takes a tried attempt back, and a claim uses one up. */
  lemma ApplyIsMonotone(t: Table, r: Request, id: Id)
    requires ValidTable(t) && id in t
    ensures
      var t' := Apply(t, r).0;
      && id in t' && t'[id].maxAttempts == t[id].maxAttempts && Tried(t[id]) <= Tried(t'[id])
      && (Claims(t, r) && r.id == id ==> Tried(t'[id]) == Tried(t[id]) + 1)
  {
  }

  // ----- Every run of requests -----

  function Run(t: Table, rs: seq<Request>): Table {
    if rs == [] then t else Apply(Run(t, rs[..|rs| - 1]), rs[|rs| - 1]).0
  }

  function TriedIn(t: Table, id: Id): int {
    if id in t then Tried(t[id]) else 0
  }

  /** How often a run of requests sets the job running. */
  function ClaimCount(t: Table, rs: seq<Request>, id: Id): nat {
    if rs == [] then 0
    else
      var before := rs[..|rs| - 1];
      var r := rs[|rs| - 1];
      ClaimCount(t, before, id) + if Claims(Run(t, before), r) && r.id == id then 1 else 0
  }

  /** The request at this place asks for the job and gets it. */
  predicate ClaimedAt(t: Table, rs: seq<Request>, id: Id, i: nat)
    requires i < |rs|
  {
    var now := Run(t, rs[..i]);
    rs[i].Claim? && rs[i].id == id && Apply(now, rs[i]).1 && Apply(now, rs[i]).0[id].phase == Running
  }

  ghost function ClaimPlaces(t: Table, rs: seq<Request>, id: Id): set<nat> {
    set i | 0 <= i < |rs| && ClaimedAt(t, rs, id, i)
  }

  lemma ClaimPlacesStep(t: Table, rs: seq<Request>, id: Id, last: nat)
    requires |rs| == last + 1
    ensures
      var earlier := ClaimPlaces(t, rs[..last], id);
      last !in earlier && ClaimPlaces(t, rs, id) == if ClaimedAt(t, rs, id, last) then earlier + {last} else earlier
  {
    var before := rs[..last];
    forall i | 0 <= i < last
      ensures ClaimedAt(t, rs, id, i) == ClaimedAt(t, before, id, i)
    {
      assert before[..i] == rs[..i];
    }
  }

  /** The count is the number of places in the run at which the job is set running. */
  lemma {:induction false} ClaimsAreCounted(t: Table, rs: seq<Request>, id: Id)
    ensures ClaimCount(t, rs, id) == |ClaimPlaces(t, rs, id)|
  {
    if rs != [] {
      var last := |rs| - 1;
      ClaimsAreCounted(t, rs[..last], id);
      ClaimPlacesStep(t, rs, id, last);
    }
  }

  lemma {:induction false} RunKeepsValid(t: Table, rs: seq<Request>)
    requires ValidTable(t)
    ensures ValidTable(Run(t, rs))
  {
    if rs != [] {
      RunKeepsValid(t, rs[..|rs| - 1]);
      ApplyKeepsValid(Run(t, rs[..|rs| - 1]), rs[|rs| - 1]);
    }
  }

  /** Every claim uses up an attempt, whatever users retry, cancel and create in between. */
  lemma {:induction false} ClaimsUseUpAttempts(t: Table, rs: seq<Request>, id: Id)
    requires ValidTable(t)
    ensures id in t ==> id in Run(t, rs) && Run(t, rs)[id].maxAttempts == t[id].maxAttempts
    ensures ClaimCount(t, rs, id) <= TriedIn(Run(t, rs), id) - TriedIn(t, id)
  {
    if rs != [] {
      var before := rs[..|rs| - 1];
      ClaimsUseUpAttempts(t, before, id);
      RunKeepsValid(t, before);
      var now := Run(t, before);
      if id in now {
        ApplyIsMonotone(now, rs[|rs| - 1], id);
      }
    }
  }

  /** So a job is set running at most as often as its limit says, which is at most three for a job created here. */
  lemma ClaimsAreBounded(t: Table, rs: seq<Request>, id: Id)
    requires ValidTable(t) && id in Run(t, rs)
    ensures ClaimCount(t, rs, id) <= Run(t, rs)[id].maxAttempts - TriedIn(t, id)
  {
    ClaimsUseUpAttempts(t, rs, id);
    RunKeepsValid(t, rs);
  }

  lemma {:induction false} LimitComesFromCreation(t: Table, rs: seq<Request>, id: Id)
    requires id !in t && id in Run(t, rs) && ValidTable(t)
    ensures Run(t, rs)[id].maxAttempts <= 3
  {
    var before := rs[..|rs| - 1];
    if id in Run(t, before) {
      LimitComesFromCreation(t, before, id);
      RunKeepsValid(t, before);
      ApplyIsMonotone(Run(t, before), rs[|rs| - 1], id);
    }
  }

  lemma {:induction false} RunAppend(t: Table, rs: seq<Request>, rs': seq<Request>)
    ensures Run(t, rs + rs') == Run(Run(t, rs), rs')
  {
    if rs' == [] {
      assert rs + rs' == rs;
    } else {
      var last := |rs'| - 1;
      assert (rs + rs')[..|rs| + last] == rs + rs'[..last];
      RunAppend(t, rs, rs'[..last]);
    }
  }

  /** No attempt is claimed twice: two claims of one job are of ever later attempts. */
  lemma LaterClaimsAreOfLaterAttempts(t: Table, first: Request, rs: seq<Request>, second: Request)
    requires ValidTable(t) && Claims(t, first)
    requires Claims(Run(Apply(t, first).0, rs), second) && first.id == second.id
    ensures first.attempt < second.attempt
  {
    var t1 := Apply(t, first).0;
    ApplyKeepsValid(t, first);
    ClaimsUseUpAttempts(t1, rs, first.id);
  }

  // ----- Requeue after preemption -----

  /** A preempted job goes on by itself exactly when resuming is wanted, its owner did not cancel, and an attempt is left. */
  lemma RequeueIff(t: Table, id: Id, attempt: nat, resume: bool, stale: bool)
    requires id in t
    ensures
      var j, j' := t[id], Apply(t, Requeue(id, attempt, resume, stale)).0[id];
      && (InQueue(j') && j' != j
          <==> resume && !stale && j.attempt == attempt && j.phase.Running? && j.attempt < j.maxAttempts)
      && (InQueue(j') && j' != j ==> j'.maxAttempts - j'.attempt == j.maxAttempts - j.attempt - 1)
  {
  }

  // ----- Closing an attempt -----

  datatype Outcome = CompletedWith(acceptable: bool, complete: bool) | WasCancelled | WasInterrupted(resume: bool, stale: bool) | WentWrong

  /** What the host asks of the store once a claimed attempt has ended (analysis.rs, run_loop). */
  function Close(t: Table, id: Id, attempt: nat, o: Outcome): Table {
    match o
    case CompletedWith(acceptable, complete) =>
      var (t', ok) := Apply(t, Finish(id, attempt, acceptable, complete));
      if ok then t' else Apply(t', Fail(id, attempt)).0
    case WasCancelled => Apply(t, CompleteCancel(id, attempt)).0
    case WasInterrupted(resume, stale) => Apply(t, Requeue(id, attempt, resume, stale)).0
    case WentWrong => Apply(t, Fail(id, attempt)).0
  }

  /**
    Closing takes the job out of the active phases, except when a cancel request came in that the
    outcome does not answer: a result and an error are both refused then, and so is the failure.
   */
  lemma ClosingFreesIff(t: Table, id: Id, attempt: nat, o: Outcome)
    requires Current(t, id, attempt) && Active(t[id])
    ensures !Active(Close(t, id, attempt, o)[id])
            <==> o.WasInterrupted? || (o.WasCancelled? <==> t[id].phase.CancelRequested?)
  {
  }

  /** What becomes of a job whose attempt is closed, by its phase and the outcome. No other job is touched. */
  lemma ClosedAs(t: Table, id: Id, attempt: nat, o: Outcome)
    requires id in t && t[id].attempt == attempt && t[id].phase in {Running, CancelRequested}
    ensures
      var asked := t[id].phase == CancelRequested;
      var j := Close(t, id, attempt, o)[id];
      && Close(t, id, attempt, o) == t[id := j] && j.maxAttempts == t[id].maxAttempts
      && match o
         case CompletedWith(acceptable, complete) =>
           && j.attempt == attempt
           && j.phase == (if asked then CancelRequested else if !acceptable then Failed
                          else if complete then Succeeded else SucceededPartial)
         case WasCancelled => j.attempt == attempt && j.phase == if asked then Cancelled else Running
         case WasInterrupted(resume, stale) =>
           if asked then j.phase == Cancelled && j.attempt == attempt
           else if resume && !stale && attempt < t[id].maxAttempts then j.phase == Waiting && j.attempt == attempt + 1
           else j.phase == Interrupted && j.attempt == attempt
         case WentWrong => j.attempt == attempt && j.phase == if asked then CancelRequested else Failed
  {
    match o
    case CompletedWith(acceptable, complete) =>
      FinishOutcome(t, id, attempt, acceptable, complete);
      FailOutcome(t, id, attempt);
    case WasCancelled => CompleteCancelOutcome(t, id, attempt);
    case WasInterrupted(resume, stale) => RequeueOutcome(t, id, attempt, resume, stale);
    case WentWrong => FailOutcome(t, id, attempt);
  }

  /** The requests that end a cancel request. The host makes them only for the attempt it is closing, or as it starts. */
  predicate Answers(t: Table, r: Request, id: Id) {
    r.InterruptAll? || ((r.CompleteCancel? || r.Interrupt? || r.Requeue?) && r.id == id && Current(t, id, r.attempt))
  }

  lemma CancelRequestLeavesIff(t: Table, r: Request, id: Id)
    requires id in t && t[id].phase.CancelRequested?
    ensures !Apply(t, r).0[id].phase.CancelRequested? <==> Answers(t, r, id)
    ensures Apply(t, r).0[id].attempt == t[id].attempt
  {
  }

  ghost predicate NeverAnswered(rs: seq<Request>, id: Id, attempt: nat) {
    forall i :: 0 <= i < |rs| ==>
      !(rs[i].InterruptAll? || ((rs[i].CompleteCancel? || rs[i].Interrupt? || rs[i].Requeue?) && rs[i].id == id && rs[i].attempt == attempt))
  }

  /** While it stays, nothing at all is claimed. */
  lemma {:induction false} CancelRequestBlocksClaims(t: Table, rs: seq<Request>, blocker: Id, id: Id)
    requires ValidTable(t) && blocker in t && t[blocker].phase.CancelRequested?
    requires NeverAnswered(rs, blocker, t[blocker].attempt)
    ensures blocker in Run(t, rs) && Run(t, rs)[blocker] == t[blocker]
    ensures ClaimCount(t, rs, id) == 0
  {
    if rs != [] {
      var before := rs[..|rs| - 1];
      CancelRequestBlocksClaims(t, before, blocker, id);
      assert AnyActive(Run(t, before));
      CancelRequestLeavesIff(Run(t, before), rs[|rs| - 1], blocker);
    }
  }

  /**
    The outcome the closing calls do not cover: a cancel request that arrives after the host last
    looked, on a job that then completes or fails. The job stays active, and no job of the whole
    table is claimed again by any run of requests that does not answer it.
   */
  lemma LateCancelBlocksTheQueue(t: Table, id: Id, attempt: nat, o: Outcome, rs: seq<Request>, other: Id)
    requires ValidTable(t) && Current(t, id, attempt) && t[id].phase.CancelRequested?
    requires (o.CompletedWith? || o.WentWrong?) && NeverAnswered(rs, id, attempt)
    ensures Close(t, id, attempt, o) == t
    ensures ClaimCount(Close(t, id, attempt, o), rs, other) == 0
  {
    CancelRequestBlocksClaims(t, rs, id, other);
  }

  // ----- The table in place -----

  class Store {
    var jobs: Table

    constructor ()
      ensures jobs == map[]
    {
      jobs := map[];
    }

    method Claim(id: Id, attempt: nat, late: bool, stale: bool) returns (ok: bool)
      modifies this
      ensures (jobs, ok) == Apply(old(jobs), Request.Claim(id, attempt, late, stale))
      ensures
        var queued := id in old(jobs) && old(jobs)[id].attempt == attempt && old(jobs)[id].phase in {Queued, Waiting};
        var busy := exists x :: x in old(jobs) && old(jobs)[x].phase in {Running, CancelRequested};
        && (ok <==> queued && (late || !busy))
        && (ok ==> jobs == old(jobs)[id := Job(if late || stale then Failed else Running, attempt, old(jobs)[id].maxAttempts)])
        && (!ok ==> jobs == old(jobs))
    {
      if id !in jobs || jobs[id].attempt != attempt || !InQueue(jobs[id]) {
        return false;
      }
      var j := jobs[id];
      if late {
        j := j.(phase := Failed);
      } else if AnyActive(jobs) {
        return false;
      } else if stale {
        j := j.(phase := Failed);
      } else {
        j := j.(phase := Running);
      }
      jobs := jobs[id := j];
      return true;
    }

    method Wait(id: Id, attempt: nat) returns (ok: bool)
      modifies this
      ensures (jobs, ok) == Apply(old(jobs), Request.Wait(id, attempt))
    {
      if id !in jobs || jobs[id].attempt != attempt || !InQueue(jobs[id]) {
        return false;
      }
      jobs := jobs[id := jobs[id].(phase := Waiting)];
      return true;
    }

    method Interrupt(id: Id, attempt: nat) returns (ok: bool)
      modifies this
      ensures (jobs, ok) == Apply(old(jobs), Request.Interrupt(id, attempt))
    {
      if id !in jobs || jobs[id].attempt != attempt || !Active(jobs[id]) {
        return false;
      }
      var j := jobs[id];
      jobs := jobs[id := j.(phase := if j.phase == CancelRequested then Cancelled else Interrupted)];
      return true;
    }

    method Retry(id: Id, attempt: nat, stale: bool) returns (ok: bool)
      modifies this
      ensures (jobs, ok) == Apply(old(jobs), Request.Retry(id, attempt, stale))
    {
      if id !in jobs || jobs[id].attempt != attempt {
        return false;
      }
      var j := jobs[id];
      if !(j.phase in {Failed, Interrupted, SucceededPartial, Cancelled}) || j.attempt >= j.maxAttempts || stale {
        return false;
      }
      jobs := jobs[id := j.(attempt := j.attempt + 1, phase := Queued)];
      return true;
    }

    /** requeue_after_preemption: three store calls in one closure. */
    method RequeueAfterPreemption(id: Id, attempt: nat, resume: bool, stale: bool) returns (ok: bool)
      modifies this
      ensures (jobs, ok) == Apply(old(jobs), Requeue(id, attempt, resume, stale))
    {
      ok := Interrupt(id, attempt);
      if !ok {
        return;
      }
      var j := jobs[id];
      if !resume || j.phase != Interrupted || j.attempt >= j.maxAttempts {
        return;
      }
      ok := Retry(id, attempt, stale);
      if ok {
        ok := Wait(id, jobs[id].attempt);
        assert jobs == old(jobs)[id := Retried(j).(phase := Waiting)];
      }
    }
  }
}
