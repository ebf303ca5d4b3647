/**
  Sealing a meeting's transcript (desktop/forum-shell/src/meeting.rs, try_seal, ready and
  capture_dispatch_complete), with the outbox it goes through
  (desktop/crates/forum-runtime/src/outbox.rs) and the store that answers it
  (desktop/crates/forum-core/src/reliable.rs).

  The host, the store, the model processes and the RPC handler interleave. Each step below is
  one store closure, one lock region, one outbox operation, or a restart of the host. A request
  that was sent can be executed at any later time, any number of times, answered or not.
 */
module MeetingSeal {
  import opened Common

  type Msg = nat
  type Run = nat
  type Hash = nat

  datatype Rev = Rev(segment: nat, revision: nat)

  datatype RunRecord = RunRecord(run: Run, pid: nat, session: nat, producer: string)

  const ASR := "asr"
  const MAX_PID := 0x7FFF_FFFF

  // ----- The store -----

  datatype Core = Core(
    registered: set<nat>,                   // segments
    stopped: bool,                          // capture_stopped
    manifest: Option<Hash>,                 // capture_seal
    finals: set<Run>,                       // runs that delivered text
    settled: set<Run>,                      // runs sealed by their producer or reconciled
    committed: set<Rev>,
    ingested: set<Msg>,                     // transcript_sealed events taken in
    sealedRuns: Option<set<Run>>)           // once sealed: the runs that had delivered text by then

  const EMPTY_CORE := Core({}, false, None, {}, {}, {}, {}, None)

  predicate Sealed(c: Core) { c.sealedRuns.Some? }

  /** seal_transcript. `permits` is the session state and the segments without text. */
  function Ingest(c: Core, msg: Msg, hash: Hash, permits: bool): (Core, bool) {
    if msg in c.ingested then (c, true)
    else if !permits || !c.stopped || Sealed(c) || c.manifest != Some(hash) || !(c.finals <= c.settled) then (c, false)
    else (c.(ingested := c.ingested + {msg}, sealedRuns := Some(c.finals)), true)
  }

  // ----- The host -----

  /** A ready message of the recogniser. */
  datatype Report = Report(records: seq<RunRecord>, replayed: bool)

  predicate ValidReport(r: Report, session: nat) {
    |r.records| <= 1000 && forall i :: 0 <= i < |r.records| ==> r.records[i].session == session && r.records[i].producer == ASR
  }

  datatype Readiness = Readiness(priorRuns: seq<RunRecord>, replayed: bool, receipt: Option<seq<Rev>>)

  const NOT_READY := Readiness([], false, None)

  /**
    Why a run was declared abandoned. For the properties only: `named` is the report its record was
    read from, `flagged` the report whose flag let it through, as numbers into the list of reports.
   */
  datatype Evidence =
    Evidence(prior: RunRecord, recorded: RunRecord, gone: bool, manifest: Hash, named: Option<nat>, flagged: Option<nat>)

  /** What try_seal has read by now: whether the transcript was sealed, the manifest, the unsettled runs. */
  datatype Seen = Seen(sealed: bool, manifest: Hash, unsettled: set<Run>)

  datatype Pc =
    | Idle
    | SawStatus(sealed: bool)
    | SawReceipt(sealed: bool, expected: seq<Rev>)
    | SawCommitted(sealed: bool)
    | SawManifest(seen: Seen)
    | SawUnsettled(seen: Seen)
    | SawPriors(seen: Seen, priors: seq<RunRecord>, named: Option<nat>)
    | Reconciling(seen: Seen, priors: seq<RunRecord>, named: Option<nat>, flagged: Option<nat>)
    | AllSettled(seen: Seen)
    | Flushing(msg: Msg)
    | Starting(msg: Msg)                    // a new host sends what its outbox still holds

  datatype Answer = NoAnswer | Yes | NotYet | Failed

  datatype State = State(
    session: nat,
    replay: bool,
    core: Core,
    ready: Readiness,
    pc: Pc,
    answer: Answer,                         // of the last try_seal call
    outbox: map<Msg, Hash>,
    appended: seq<Msg>,                     // every transcript_sealed event ever written
    sent: map<Msg, Hash>,
    evidence: seq<Evidence>,
    reports: seq<Report>,                   // every report ever accepted
    shown: Option<nat>)                     // the one the readiness now shows, if any since the host started

  ghost predicate Initial(s: State) {
    s == State(s.session, s.replay, EMPTY_CORE, NOT_READY, Idle, NoAnswer, map[], [], map[], [], [], None)
  }

  datatype Action =
    | HostStatus
    | HostReceipt
    | HostCommitted
    | HostManifest
    | HostUnsettled
    | HostPriors
    | HostReplayed
    | HostReconcile(gone: bool, recorded: Option<RunRecord>, granted: bool)
    | HostRecheck
    | HostSend(event: Msg, written: bool, reported: bool)
    | HostError                             // any call of this method fails
    | HostTimeout
    | CoreIngest(msg: Msg, permits: bool, answered: bool, cleaned: bool)
    | CoreRegister(segment: nat)
    | CoreStop(hash: Hash)
    | CoreFinal(run: Run, rev: Rev)
    | CoreSettle(run: Run)
    | RpcReady(report: Report)
    | RpcDispatch(expected: seq<Rev>)
    | Restart
    | StartFlush(msg: Msg)

  function Return(s: State, a: Answer): State { s.(pc := Idle, answer := a) }

  /** The reads of try_seal up to the runs it may reconcile. */
  function ReadNext(s: State, a: Action): Option<State> {
    match a
    case HostStatus =>
      if !s.pc.Idle? then None
      else if !s.core.stopped then Some(Return(s, NotYet))
      else Some(s.(pc := if s.replay then SawStatus(Sealed(s.core)) else SawCommitted(Sealed(s.core)), answer := NoAnswer))
    case HostReceipt =>
      if !s.pc.SawStatus? then None
      else if s.ready.receipt.None? then Some(Return(s, NotYet))
      else Some(s.(pc := SawReceipt(s.pc.sealed, s.ready.receipt.value)))
    case HostCommitted =>
      if !s.pc.SawReceipt? then None
      else if exists i :: 0 <= i < |s.pc.expected| && s.pc.expected[i] !in s.core.committed then Some(Return(s, NotYet))
      else Some(s.(pc := SawCommitted(s.pc.sealed)))
    case HostManifest =>
      if !s.pc.SawCommitted? then None
      else if s.core.manifest.None? then Some(Return(s, NotYet))
      else Some(s.(pc := SawManifest(Seen(s.pc.sealed, s.core.manifest.value, {}))))
    case HostUnsettled =>
      if !s.pc.SawManifest? then None
      else Some(s.(pc := SawUnsettled(s.pc.seen.(unsettled := s.core.finals - s.core.settled))))
    case HostPriors => if !s.pc.SawUnsettled? then None else Some(s.(pc := SawPriors(s.pc.seen, s.ready.priorRuns, s.shown)))
    case HostReplayed =>
      if !s.pc.SawPriors? then None
      else Some(s.(pc := Reconciling(s.pc.seen, if s.ready.replayed then s.pc.priors else [], s.pc.named, s.shown)))
    case HostError => if s.pc.Idle? || s.pc.Starting? then None else Some(Return(s, Failed))
    case _ => None
  }

  predicate Candidate(p: RunRecord, unsettled: set<Run>) {
    p.run in unsettled && 0 < p.pid <= MAX_PID
  }

  /** The run's own journal names the same run, process, session and producer. */
  predicate Matches(recorded: RunRecord, prior: RunRecord, session: nat) {
    recorded.run == prior.run && recorded.pid == prior.pid && recorded.session == session && recorded.producer == ASR
  }

  function ReconcileNext(s: State, gone: bool, recorded: Option<RunRecord>, granted: bool): Option<State> {
    if !s.pc.Reconciling? || s.pc.priors == [] then None
    else
      var prior, rest := s.pc.priors[0], s.(pc := Reconciling(s.pc.seen, s.pc.priors[1..], s.pc.named, s.pc.flagged));
      if !Candidate(prior, s.pc.seen.unsettled) || !gone then Some(rest)
      else if recorded.None? || !Matches(recorded.value, prior, s.session) || !granted then Some(Return(s, Failed))
      else
        var e := Evidence(prior, recorded.value, gone, s.pc.seen.manifest, s.pc.named, s.pc.flagged);
        Some(rest.(core := s.core.(settled := s.core.settled + {prior.run}), evidence := s.evidence + [e]))
  }

  /** The second look at the runs, then sending one event: the one still in the outbox, or a new one. */
  function SendNext(s: State, a: Action): Option<State> {
    match a
    case HostRecheck =>
      if !s.pc.Reconciling? || s.pc.priors != [] then None
      else if !(s.core.finals <= s.core.settled) then Some(Return(s, NotYet))
      else if s.pc.seen.sealed then Some(Return(s, Yes))
      else Some(s.(pc := AllSettled(s.pc.seen)))
    case HostSend(m, written, reported) =>
      if !s.pc.AllSettled? then None
      else if s.outbox.Keys != {} then
        if m !in s.outbox then None else Some(s.(pc := Flushing(m), sent := s.sent[m := s.outbox[m]]))
      else if m in s.appended then None
      else
        // A failed write can leave the event behind. Then it is found by the next call.
        var hash := s.pc.seen.manifest;
        var next := if written then s.(outbox := map[m := hash], appended := s.appended + [m]) else s;
        if !written || !reported then Some(Return(next, Failed))
        else Some(next.(pc := Flushing(m), sent := s.sent[m := hash]))
    case HostTimeout =>
      if s.pc.Flushing? then Some(Return(s, NotYet)) else if s.pc.Starting? then Some(s.(pc := Idle)) else None
    case Restart => Some(s.(pc := Idle, answer := NoAnswer, replay := true, ready := NOT_READY, shown := None))
    case StartFlush(m) =>
      if !s.pc.Idle? || m !in s.outbox then None else Some(s.(pc := Starting(m), sent := s.sent[m := s.outbox[m]]))
    case _ => None
  }

  /** The store executes a request that was sent. Only an answer that says so takes the event off the outbox. */
  function IngestNext(s: State, m: Msg, permits: bool, answered: bool, cleaned: bool): Option<State> {
    if m !in s.sent then None
    else
      var (core, ok) := Ingest(s.core, m, s.sent[m], permits);
      var next := s.(core := core);
      if !answered || !((s.pc.Flushing? || s.pc.Starting?) && s.pc.msg == m) then Some(next)
      else if !ok then Some(if s.pc.Flushing? then Return(next, Failed) else next.(pc := Idle))
      else
        var kept := if cleaned then next.(outbox := s.outbox - {m}) else next;
        Some(if s.pc.Flushing? then Return(kept, Yes) else kept.(pc := Idle))
  }

  function Segments(expected: seq<Rev>): set<nat> {
    set i | 0 <= i < |expected| :: expected[i].segment
  }

  predicate Distinct(expected: seq<Rev>) {
    forall i, j :: 0 <= i < j < |expected| ==> expected[i].segment != expected[j].segment
  }

  predicate ValidReceipt(c: Core, expected: seq<Rev>) {
    && |expected| <= 10000 && c.stopped && Distinct(expected)
    && (forall i :: 0 <= i < |expected| ==> expected[i].segment in c.registered)
  }

  /** Everything else: the model processes and the RPC handler. */
  function OtherNext(s: State, a: Action): Option<State> {
    match a
    case CoreRegister(segment) =>
      if s.core.stopped then None else Some(s.(core := s.core.(registered := s.core.registered + {segment})))
    case CoreStop(hash) =>
      if s.core.stopped then None else Some(s.(core := s.core.(stopped := true, manifest := Some(hash))))
    case CoreFinal(run, rev) =>
      if run in s.core.settled then None
      else Some(s.(core := s.core.(finals := s.core.finals + {run}, committed := s.core.committed + {rev})))
    case CoreSettle(run) => Some(s.(core := s.core.(settled := s.core.settled + {run})))
    case RpcReady(report) =>
      if !ValidReport(report, s.session) then None
      else
        Some(s.(ready := s.ready.(priorRuns := report.records, replayed := report.replayed),
                reports := s.reports + [report], shown := Some(|s.reports|)))
    case RpcDispatch(expected) =>
      if !s.replay || !ValidReceipt(s.core, expected) then None
      else if s.ready.receipt.Some? && s.ready.receipt.value != expected then None
      else Some(s.(ready := s.ready.(receipt := Some(expected))))
    case _ => None
  }

  predicate IsSend(a: Action) {
    a.HostRecheck? || a.HostSend? || a.HostTimeout? || a.Restart? || a.StartFlush?
  }

  predicate IsOther(a: Action) {
    a.CoreRegister? || a.CoreStop? || a.CoreFinal? || a.CoreSettle? || a.RpcReady? || a.RpcDispatch?
  }

  function Next(s: State, a: Action): Option<State> {
    if a.HostReconcile? then ReconcileNext(s, a.gone, a.recorded, a.granted)
    else if a.CoreIngest? then IngestNext(s, a.msg, a.permits, a.answered, a.cleaned)
    else if IsSend(a) then SendNext(s, a)
    else if IsOther(a) then OtherNext(s, a)
    else ReadNext(s, a)
  }

  function RunAll(s: State, schedule: seq<Action>): Option<State> {
    if schedule == [] then Some(s)
    else
      var before := RunAll(s, schedule[..|schedule| - 1]);
      if before.None? then None else Next(before.value, schedule[|schedule| - 1])
  }

  ghost predicate Reaches(s: State, t: State) {
    exists schedule :: RunAll(s, schedule) == Some(t)
  }

  ghost predicate Reachable(s: State) {
    exists s0 :: Initial(s0) && Reaches(s0, s)
  }

  // ----- The invariant -----

  /** The call is under way and has not seen the transcript sealed. */
  predicate SawUnsealed(pc: Pc) {
    match pc
    case SawStatus(sealed) => !sealed
    case SawReceipt(sealed, _) => !sealed
    case SawCommitted(sealed) => !sealed
    case SawManifest(seen) => !seen.sealed
    case SawUnsettled(seen) => !seen.sealed
    case SawPriors(seen, _, _) => !seen.sealed
    case Reconciling(seen, _, _, _) => !seen.sealed
    case AllSettled(seen) => !seen.sealed
    case _ => false
  }

  predicate SawSealed(pc: Pc) {
    match pc
    case SawStatus(sealed) => sealed
    case SawReceipt(sealed, _) => sealed
    case SawCommitted(sealed) => sealed
    case SawManifest(seen) => seen.sealed
    case SawUnsettled(seen) => seen.sealed
    case SawPriors(seen, _, _) => seen.sealed
    case Reconciling(seen, _, _, _) => seen.sealed
    case AllSettled(seen) => seen.sealed
    case _ => false
  }

  /** There is one event at most, and it is in the outbox until the store has it. */
  ghost predicate OnceInv(s: State) {
    && |s.appended| <= 1
    && (forall m :: m in s.outbox || m in s.sent || m in s.core.ingested ==> s.appended == [m])
    && (s.appended != [] && s.appended[0] !in s.outbox ==> s.appended[0] in s.core.ingested && !SawUnsealed(s.pc))
    && (Sealed(s.core) <==> s.core.ingested != {})
    && ((s.pc.Flushing? || s.pc.Starting?) ==> s.pc.msg in s.sent)
    && (SawSealed(s.pc) ==> Sealed(s.core))
    && !(s.pc.AllSettled? && s.pc.seen.sealed)
  }

  ghost predicate ReceiptCommitted(s: State) {
    s.ready.receipt.Some? && forall i :: 0 <= i < |s.ready.receipt.value| ==> s.ready.receipt.value[i] in s.core.committed
  }

  /** The call has got past the replay receipt. */
  predicate PastReceipt(pc: Pc) {
    !pc.Idle? && !pc.Starting? && !pc.SawStatus? && !pc.SawReceipt?
  }

  predicate HasSeen(pc: Pc) {
    pc.SawManifest? || pc.SawUnsettled? || pc.SawPriors? || pc.Reconciling? || pc.AllSettled?
  }

  /** What the call has established so far stays true. */
  ghost predicate ProgressInv(s: State) {
    && (!s.pc.Idle? && !s.pc.Starting? ==> s.core.stopped && s.answer.NoAnswer?)
    && (HasSeen(s.pc) ==> s.core.manifest == Some(s.pc.seen.manifest))
    && (s.pc.Flushing? || s.answer.Yes? ==> s.core.manifest.Some?)
    && (s.core.manifest.Some? ==> s.core.stopped)
    && (s.replay && s.pc.SawReceipt? ==> s.ready.receipt == Some(s.pc.expected))
    && (s.replay && (PastReceipt(s.pc) || s.answer.Yes?) ==> ReceiptCommitted(s))
    && (s.answer.Yes? ==> Sealed(s.core))
    && (Sealed(s.core) ==> s.core.stopped && s.core.manifest.Some? && s.core.sealedRuns.value <= s.core.settled)
  }

  /** The records all stand in that report. */
  ghost predicate NamedBy(reports: seq<Report>, at: Option<nat>, priors: seq<RunRecord>) {
    priors != [] ==> at.Some? && at.value < |reports| && forall p :: p in priors ==> p in reports[at.value].records
  }

  /** That report was of a replayed outbox. */
  ghost predicate ReplayedBy(reports: seq<Report>, at: Option<nat>) {
    at.Some? && at.value < |reports| && reports[at.value].replayed
  }

  ghost predicate NoLater(named: Option<nat>, flagged: Option<nat>) {
    named.Some? ==> flagged.Some? && named.value <= flagged.value
  }

  ghost predicate Sound(s: State, e: Evidence) {
    && e.gone && 0 < e.prior.pid <= MAX_PID && Matches(e.recorded, e.prior, s.session)
    && s.core.manifest == Some(e.manifest) && e.prior.run in s.core.settled
    && NamedBy(s.reports, e.named, [e.prior]) && ReplayedBy(s.reports, e.flagged) && NoLater(e.named, e.flagged)
  }

  /** The readiness is the last report of this host, or as it was when the host started. */
  ghost predicate ShownInv(s: State) {
    && (forall r :: r in s.reports ==> ValidReport(r, s.session))
    && (s.shown.None? ==> s.ready.priorRuns == [] && !s.ready.replayed)
    && (s.shown.Some? ==>
          && s.shown.value + 1 == |s.reports|
          && s.ready.priorRuns == s.reports[s.shown.value].records
          && s.ready.replayed == s.reports[s.shown.value].replayed)
  }

  ghost predicate EvidenceInv(s: State) {
    && (forall e :: e in s.evidence ==> Sound(s, e))
    && (s.pc.SawPriors? ==> NamedBy(s.reports, s.pc.named, s.pc.priors) && NoLater(s.pc.named, s.shown))
    && (s.pc.Reconciling? ==>
          && NamedBy(s.reports, s.pc.named, s.pc.priors) && NoLater(s.pc.named, s.pc.flagged)
          && (s.pc.priors != [] ==> ReplayedBy(s.reports, s.pc.flagged)))
  }

  ghost predicate Inv(s: State) { OnceInv(s) && ProgressInv(s) && EvidenceInv(s) && ShownInv(s) }

  lemma StatusKeepsOnce(s: State)
    requires OnceInv(s) && s.pc.Idle?
    ensures OnceInv(ReadNext(s, HostStatus).value)
  {
  }

  /** Going on with what was read before. */
  lemma MoveKeepsOnce(s: State, t: State)
    requires OnceInv(s) && t == s.(pc := t.pc, answer := t.answer)
    requires !t.pc.Flushing? && !t.pc.Starting? && !t.pc.AllSettled?
    requires (SawUnsealed(t.pc) ==> SawUnsealed(s.pc)) && (SawSealed(t.pc) ==> SawSealed(s.pc))
    ensures OnceInv(t)
  {
  }

  lemma ReadKeepsOnce(s: State, a: Action)
    requires OnceInv(s) && ReadNext(s, a).Some?
    ensures OnceInv(ReadNext(s, a).value)
  {
    if a.HostStatus? {
      StatusKeepsOnce(s);
    } else {
      var t := ReadNext(s, a).value;
      MoveKeepsOnce(s, t);
    }
  }

  lemma ReadKeepsProgress(s: State, a: Action)
    requires ProgressInv(s) && OnceInv(s) && ReadNext(s, a).Some?
    ensures ProgressInv(ReadNext(s, a).value)
  {
  }

  lemma ReadKeepsEvidence(s: State, a: Action)
    requires EvidenceInv(s) && ShownInv(s) && ProgressInv(s) && ReadNext(s, a).Some?
    ensures EvidenceInv(ReadNext(s, a).value)
  {
  }

  lemma EventKeepsOnce(s: State, m: Msg, written: bool, reported: bool)
    requires OnceInv(s) && SendNext(s, HostSend(m, written, reported)).Some?
    ensures OnceInv(SendNext(s, HostSend(m, written, reported)).value)
  {
    assert s.outbox.Keys == {} ==> s.appended == [];
  }

  lemma SendKeepsOnce(s: State, a: Action)
    requires OnceInv(s) && SendNext(s, a).Some?
    ensures OnceInv(SendNext(s, a).value)
  {
    if a.HostSend? {
      EventKeepsOnce(s, a.event, a.written, a.reported);
    }
  }

  lemma SendKeepsProgress(s: State, a: Action)
    requires ProgressInv(s) && OnceInv(s) && SendNext(s, a).Some?
    ensures ProgressInv(SendNext(s, a).value)
  {
  }

  /** Past reconciling, nothing that was found is forgotten. */
  lemma SameEvidence(s: State, t: State)
    requires EvidenceInv(s) && !t.pc.SawPriors? && !t.pc.Reconciling?
    requires t.session == s.session && t.core == s.core && t.evidence == s.evidence && t.reports == s.reports
    ensures EvidenceInv(t)
  {
  }

  lemma SendKeepsEvidence(s: State, a: Action)
    requires EvidenceInv(s) && ShownInv(s) && ProgressInv(s) && SendNext(s, a).Some?
    ensures EvidenceInv(SendNext(s, a).value)
  {
    SameEvidence(s, SendNext(s, a).value);
  }

  lemma ReconcileKeepsOnce(s: State, gone: bool, recorded: Option<RunRecord>, granted: bool)
    requires OnceInv(s) && ReconcileNext(s, gone, recorded, granted).Some?
    ensures OnceInv(ReconcileNext(s, gone, recorded, granted).value)
  {
  }

  lemma ReconcileKeepsProgress(s: State, gone: bool, recorded: Option<RunRecord>, granted: bool)
    requires ProgressInv(s) && OnceInv(s) && ReconcileNext(s, gone, recorded, granted).Some?
    ensures ProgressInv(ReconcileNext(s, gone, recorded, granted).value)
  {
  }

  lemma ReconcileKeepsEvidence(s: State, gone: bool, recorded: Option<RunRecord>, granted: bool)
    requires EvidenceInv(s) && ShownInv(s) && ProgressInv(s) && ReconcileNext(s, gone, recorded, granted).Some?
    ensures EvidenceInv(ReconcileNext(s, gone, recorded, granted).value)
  {
  }

  lemma IngestKeepsOnce(s: State, m: Msg, permits: bool, answered: bool, cleaned: bool)
    requires OnceInv(s) && IngestNext(s, m, permits, answered, cleaned).Some?
    ensures OnceInv(IngestNext(s, m, permits, answered, cleaned).value)
  {
  }

  lemma IngestKeepsProgress(s: State, m: Msg, permits: bool, answered: bool, cleaned: bool)
    requires ProgressInv(s) && OnceInv(s) && IngestNext(s, m, permits, answered, cleaned).Some?
    ensures ProgressInv(IngestNext(s, m, permits, answered, cleaned).value)
  {
  }

  lemma IngestKeepsEvidence(s: State, m: Msg, permits: bool, answered: bool, cleaned: bool)
    requires EvidenceInv(s) && ShownInv(s) && ProgressInv(s) && IngestNext(s, m, permits, answered, cleaned).Some?
    ensures EvidenceInv(IngestNext(s, m, permits, answered, cleaned).value)
  {
  }

  lemma OtherKeepsOnce(s: State, a: Action)
    requires OnceInv(s) && OtherNext(s, a).Some?
    ensures OnceInv(OtherNext(s, a).value)
  {
  }

  lemma OtherKeepsProgress(s: State, a: Action)
    requires ProgressInv(s) && OnceInv(s) && OtherNext(s, a).Some?
    ensures ProgressInv(OtherNext(s, a).value)
  {
  }

  lemma OtherKeepsEvidence(s: State, a: Action)
    requires EvidenceInv(s) && ShownInv(s) && ProgressInv(s) && OtherNext(s, a).Some?
    ensures EvidenceInv(OtherNext(s, a).value)
  {
  }

  lemma ReportIsShown(s: State, report: Report)
    requires ShownInv(s) && OtherNext(s, RpcReady(report)).Some?
    ensures ShownInv(OtherNext(s, RpcReady(report)).value)
  {
  }

  lemma SameReportsShown(s: State, t: State)
    requires ShownInv(s) && t.session == s.session && t.reports == s.reports
    requires t.shown == s.shown || t.shown == None
    requires if t.shown == s.shown then t.ready.(receipt := None) == s.ready.(receipt := None) else t.ready == NOT_READY
    ensures ShownInv(t)
  {
  }

  lemma ReadKeepsShown(s: State, a: Action)
    requires ShownInv(s) && ReadNext(s, a).Some?
    ensures ShownInv(ReadNext(s, a).value)
  {
    SameReportsShown(s, ReadNext(s, a).value);
  }

  lemma SendKeepsShown(s: State, a: Action)
    requires ShownInv(s) && SendNext(s, a).Some?
    ensures ShownInv(SendNext(s, a).value)
  {
    SameReportsShown(s, SendNext(s, a).value);
  }

  lemma ReconcileKeepsShown(s: State, gone: bool, recorded: Option<RunRecord>, granted: bool)
    requires ShownInv(s) && ReconcileNext(s, gone, recorded, granted).Some?
    ensures ShownInv(ReconcileNext(s, gone, recorded, granted).value)
  {
    SameReportsShown(s, ReconcileNext(s, gone, recorded, granted).value);
  }

  lemma IngestKeepsShown(s: State, m: Msg, permits: bool, answered: bool, cleaned: bool)
    requires ShownInv(s) && IngestNext(s, m, permits, answered, cleaned).Some?
    ensures ShownInv(IngestNext(s, m, permits, answered, cleaned).value)
  {
    SameReportsShown(s, IngestNext(s, m, permits, answered, cleaned).value);
  }

  lemma OtherKeepsShown(s: State, a: Action)
    requires ShownInv(s) && OtherNext(s, a).Some?
    ensures ShownInv(OtherNext(s, a).value)
  {
    if a.RpcReady? {
      ReportIsShown(s, a.report);
    } else {
      SameReportsShown(s, OtherNext(s, a).value);
    }
  }

  lemma ReadKeepsInv(s: State, a: Action)
    requires Inv(s) && ReadNext(s, a).Some?
    ensures Inv(ReadNext(s, a).value)
  {
    ReadKeepsOnce(s, a);
    ReadKeepsProgress(s, a);
    ReadKeepsEvidence(s, a);
    ReadKeepsShown(s, a);
  }

  lemma SendKeepsInv(s: State, a: Action)
    requires Inv(s) && SendNext(s, a).Some?
    ensures Inv(SendNext(s, a).value)
  {
    SendKeepsOnce(s, a);
    SendKeepsProgress(s, a);
    SendKeepsEvidence(s, a);
    SendKeepsShown(s, a);
  }

  lemma ReconcileKeepsInv(s: State, gone: bool, recorded: Option<RunRecord>, granted: bool)
    requires Inv(s) && ReconcileNext(s, gone, recorded, granted).Some?
    ensures Inv(ReconcileNext(s, gone, recorded, granted).value)
  {
    ReconcileKeepsOnce(s, gone, recorded, granted);
    ReconcileKeepsProgress(s, gone, recorded, granted);
    ReconcileKeepsEvidence(s, gone, recorded, granted);
    ReconcileKeepsShown(s, gone, recorded, granted);
  }

  lemma IngestKeepsInv(s: State, m: Msg, permits: bool, answered: bool, cleaned: bool)
    requires Inv(s) && IngestNext(s, m, permits, answered, cleaned).Some?
    ensures Inv(IngestNext(s, m, permits, answered, cleaned).value)
  {
    IngestKeepsOnce(s, m, permits, answered, cleaned);
    IngestKeepsProgress(s, m, permits, answered, cleaned);
    IngestKeepsEvidence(s, m, permits, answered, cleaned);
    IngestKeepsShown(s, m, permits, answered, cleaned);
  }

  lemma OtherKeepsInv(s: State, a: Action)
    requires Inv(s) && OtherNext(s, a).Some?
    ensures Inv(OtherNext(s, a).value)
  {
    OtherKeepsOnce(s, a);
    OtherKeepsProgress(s, a);
    OtherKeepsEvidence(s, a);
    OtherKeepsShown(s, a);
  }

  lemma StepKeepsInv(s: State, a: Action)
    requires Inv(s) && Next(s, a).Some?
    ensures Inv(Next(s, a).value)
  {
    if a.HostReconcile? {
      ReconcileKeepsInv(s, a.gone, a.recorded, a.granted);
    } else if a.CoreIngest? {
      IngestKeepsInv(s, a.msg, a.permits, a.answered, a.cleaned);
    } else if IsSend(a) {
      SendKeepsInv(s, a);
    } else if IsOther(a) {
      OtherKeepsInv(s, a);
    } else {
      ReadKeepsInv(s, a);
    }
  }

  lemma {:induction false} RunKeepsInv(s: State, schedule: seq<Action>)
    requires Inv(s) && RunAll(s, schedule).Some?
    ensures Inv(RunAll(s, schedule).value)
  {
    if schedule != [] {
      RunKeepsInv(s, schedule[..|schedule| - 1]);
      StepKeepsInv(RunAll(s, schedule[..|schedule| - 1]).value, schedule[|schedule| - 1]);
    }
  }

  lemma ReachableKeepsInv(s: State)
    requires Reachable(s)
    ensures Inv(s)
  {
    var s0 :| Initial(s0) && Reaches(s0, s);
    var schedule :| RunAll(s0, schedule) == Some(s);
    RunKeepsInv(s0, schedule);
  }

  // ----- What sealing promises -----

  /** However calls fail, acknowledgements are lost and the host restarts, one seal event is ever written, sent or taken in. */
  lemma AtMostOneSealEvent(s: State)
    requires Reachable(s)
    ensures |s.appended| <= 1
    ensures forall m :: m in s.outbox || m in s.sent || m in s.core.ingested ==> s.appended == [m]
  {
    ReachableKeepsInv(s);
  }

  lemma StepAppends(s: State, a: Action)
    requires Next(s, a).Some?
    ensures s.appended <= Next(s, a).value.appended
  {
  }

  lemma {:induction false} AppendedGrows(s: State, schedule: seq<Action>)
    requires RunAll(s, schedule).Some?
    ensures s.appended <= RunAll(s, schedule).value.appended
  {
    if schedule != [] {
      AppendedGrows(s, schedule[..|schedule| - 1]);
      StepAppends(RunAll(s, schedule[..|schedule| - 1]).value, schedule[|schedule| - 1]);
    }
  }

  /** Once written, the event keeps its identity for good: every retry is of the same one. */
  lemma SealEventIsNeverReplaced(s: State, schedule: seq<Action>)
    requires Reachable(s) && s.appended != [] && RunAll(s, schedule).Some?
    ensures RunAll(s, schedule).value.appended == s.appended
  {
    ReachableKeepsInv(s);
    RunKeepsInv(s, schedule);
    AppendedGrows(s, schedule);
  }

  /** When try_seal answers yes, capture is stopped and sealed, so is the transcript, and a replay's whole receipt is committed. */
  lemma YesMeansSealed(s: State)
    requires Reachable(s) && s.answer.Yes?
    ensures s.core.stopped && s.core.manifest.Some? && Sealed(s.core)
    ensures s.replay ==> ReceiptCommitted(s)
  {
    ReachableKeepsInv(s);
  }

  /** And every run that had delivered text when the transcript was sealed is sealed by its producer or reconciled. */
  lemma SealedRunsAreSettled(s: State)
    requires Reachable(s) && Sealed(s.core)
    ensures s.core.sealedRuns.value <= s.core.settled
  {
    ReachableKeepsInv(s);
  }

  /**
    The host reconciles a run only when its process is gone, its journal agrees with a report that
    named it, and that report or a later one was of a replayed outbox.
   */
  lemma ReconciledOnEvidence(s: State, e: Evidence)
    requires Reachable(s) && e in s.evidence
    ensures e.gone && Matches(e.recorded, e.prior, s.session) && s.core.manifest == Some(e.manifest)
    ensures e.named.Some? && e.flagged.Some? && e.named.value <= e.flagged.value < |s.reports|
    ensures e.prior in s.reports[e.named.value].records && s.reports[e.flagged.value].replayed
  {
    ReachableKeepsInv(s);
  }

  // ----- The replay receipt -----

  ghost predicate NoRestart(schedule: seq<Action>) {
    forall i :: 0 <= i < |schedule| ==> !schedule[i].Restart?
  }

  lemma ReceiptStays(s: State, a: Action)
    requires s.ready.receipt.Some? && Next(s, a).Some? && !a.Restart?
    ensures Next(s, a).value.ready.receipt == s.ready.receipt
  {
  }

  /** Once accepted, a receipt cannot be changed for as long as the host lives. */
  lemma {:induction false} ReceiptIsWriteOnce(s: State, schedule: seq<Action>)
    requires s.ready.receipt.Some? && RunAll(s, schedule).Some? && NoRestart(schedule)
    ensures RunAll(s, schedule).value.ready.receipt == s.ready.receipt
  {
    if schedule != [] {
      ReceiptIsWriteOnce(s, schedule[..|schedule| - 1]);
      ReceiptStays(RunAll(s, schedule[..|schedule| - 1]).value, schedule[|schedule| - 1]);
    }
  }

  /** It is accepted exactly in a replay, after the capture seal, for distinct registered segments, and if it repeats an earlier one. */
  lemma ReceiptAcceptedIff(s: State, expected: seq<Rev>)
    ensures
      var valid := && |expected| <= 10_000 && s.core.stopped
                   && (forall i, j :: 0 <= i < j < |expected| ==> expected[i].segment != expected[j].segment)
                   && (forall i :: 0 <= i < |expected| ==> expected[i].segment in s.core.registered);
      Next(s, RpcDispatch(expected))
      == if s.replay && valid && (s.ready.receipt == None || s.ready.receipt == Some(expected))
         then Some(s.(ready := Readiness(s.ready.priorRuns, s.ready.replayed, Some(expected)))) else None
  {
  }

  // ----- A lost acknowledgement -----

  lemma ReachesSelf(s: State)
    ensures Reaches(s, s)
  {
    assert RunAll(s, []) == Some(s);
  }

  lemma ReachesNext(s: State, t: State, a: Action, u: State)
    requires Reaches(s, t) && Next(t, a) == Some(u)
    ensures Reaches(s, u)
  {
    var schedule :| RunAll(s, schedule) == Some(t);
    assert (schedule + [a])[..|schedule|] == schedule;
    assert RunAll(s, schedule + [a]) == Some(u);
  }

  /** The call has seen the transcript sealed and nothing can keep it from answering yes, or it has. */
  ghost predicate OnCourse(s: State) {
    && Sealed(s.core) && s.core.manifest.Some? && s.core.finals <= s.core.settled && (s.replay ==> ReceiptCommitted(s))
    && (if s.pc.Idle? then s.answer.Yes? else SawSealed(s.pc) && !s.pc.AllSettled?)
    && (s.pc.SawStatus? ==> s.replay)
    && (s.pc.SawReceipt? ==> forall i :: 0 <= i < |s.pc.expected| ==> s.pc.expected[i] in s.core.committed)
    && (s.pc.SawUnsettled? || s.pc.SawPriors? || s.pc.Reconciling? ==> s.pc.seen.unsettled == {})
    && (s.pc.SawPriors? || s.pc.Reconciling? ==> |s.pc.priors| <= 1000)
  }

  /** A step that is not the host's. */
  predicate OtherOnly(a: Action) { a.CoreIngest? || IsOther(a) }

  /** A step of the call itself: nothing it calls fails. */
  predicate OwnStep(a: Action) {
    a.HostReceipt? || a.HostCommitted? || a.HostManifest? || a.HostUnsettled? || a.HostPriors? || a.HostReplayed?
    || a.HostReconcile? || a.HostRecheck?
  }

  /** What the call does next. */
  function OwnNext(pc: Pc): Action {
    match pc
    case SawStatus(_) => HostReceipt
    case SawReceipt(_, _) => HostCommitted
    case SawCommitted(_) => HostManifest
    case SawManifest(_) => HostUnsettled
    case SawUnsettled(_) => HostPriors
    case SawPriors(_, _, _) => HostReplayed
    case Reconciling(_, priors, _, _) => if priors == [] then HostRecheck else HostReconcile(false, None, false)
    case _ => HostRecheck
  }

  /** How many steps it has left at most. */
  function Remaining(pc: Pc): nat {
    match pc
    case SawStatus(_) => 1007
    case SawReceipt(_, _) => 1006
    case SawCommitted(_) => 1005
    case SawManifest(_) => 1004
    case SawUnsettled(_) => 1003
    case SawPriors(_, priors, _) => |priors| + 2
    case Reconciling(_, priors, _, _) => |priors| + 1
    case _ => 0
  }

  /** The call goes on undisturbed: no failing call and no restart, and no text from a run that is not settled. */
  ghost predicate Undisturbed(schedule: seq<Action>) {
    forall i :: 0 <= i < |schedule| ==> OwnStep(schedule[i]) || (OtherOnly(schedule[i]) && !schedule[i].CoreFinal?)
  }

  function OwnSteps(schedule: seq<Action>): nat {
    if schedule == [] then 0
    else OwnSteps(schedule[..|schedule| - 1]) + if OwnStep(schedule[|schedule| - 1]) then 1 else 0
  }

  /** The number of places in the schedule at which the call itself moves. */
  lemma {:induction false} OwnStepsAreCounted(schedule: seq<Action>)
    ensures OwnSteps(schedule) == |set i | 0 <= i < |schedule| && OwnStep(schedule[i])|
  {
    if schedule != [] {
      var last := |schedule| - 1;
      var before := schedule[..last];
      OwnStepsAreCounted(before);
      var earlier := set i | 0 <= i < |before| && OwnStep(before[i]);
      var all := set i | 0 <= i < |schedule| && OwnStep(schedule[i]);
      assert all == if OwnStep(schedule[last]) then earlier + {last} else earlier;
    }
  }

  lemma OtherStaysOnCourse(s: State, a: Action)
    requires OnCourse(s) && OtherOnly(a) && !a.CoreFinal? && Next(s, a).Some?
    ensures OnCourse(Next(s, a).value) && Next(s, a).value.pc == s.pc
  {
  }

  lemma OwnStaysOnCourse(s: State, a: Action)
    requires OnCourse(s) && ShownInv(s) && OwnStep(a) && Next(s, a).Some?
    ensures OnCourse(Next(s, a).value) && Remaining(Next(s, a).value.pc) < Remaining(s.pc)
  {
    assert s.core.finals - s.core.settled == {};
    if s.shown.Some? {
      assert ValidReport(s.reports[s.shown.value], s.session);
    }
  }

  lemma OnCourseGoesOn(s: State)
    requires OnCourse(s) && !s.pc.Idle?
    ensures Next(s, OwnNext(s.pc)).Some?
  {
  }

  lemma {:induction false} StaysOnCourse(s: State, schedule: seq<Action>)
    requires Inv(s) && OnCourse(s) && RunAll(s, schedule).Some? && Undisturbed(schedule)
    ensures OnCourse(RunAll(s, schedule).value) && Inv(RunAll(s, schedule).value)
    ensures OwnSteps(schedule) + Remaining(RunAll(s, schedule).value.pc) <= Remaining(s.pc)
  {
    if schedule != [] {
      var before, a := schedule[..|schedule| - 1], schedule[|schedule| - 1];
      assert schedule == before + [a];
      StaysOnCourse(s, before);
      var t := RunAll(s, before).value;
      StepKeepsInv(t, a);
      if OwnStep(a) {
        OwnStaysOnCourse(t, a);
      } else {
        OtherStaysOnCourse(t, a);
      }
    }
  }

  /**
    If the store has sealed the transcript and only the answer was lost, the next call says yes,
    whatever the other threads do meanwhile: it takes at most 1007 steps after its first, it can
    always take the next one, and when it is back its answer is yes. It writes no event.
   */
  lemma LostAnswerIsRepaired(s: State, schedule: seq<Action>)
    requires Reachable(s) && s.pc.Idle? && Sealed(s.core)
    requires s.core.finals <= s.core.settled && (s.replay ==> ReceiptCommitted(s))
    ensures Next(s, HostStatus).Some?
    ensures
      var called := Next(s, HostStatus).value;
      RunAll(called, schedule).Some? && Undisturbed(schedule) ==>
        var t := RunAll(called, schedule).value;
        && OwnSteps(schedule) <= 1007 && t.appended == s.appended
        && (if t.pc.Idle? then t.answer.Yes? else Next(t, OwnNext(t.pc)).Some?)
  {
    ReachableKeepsInv(s);
    var called := Next(s, HostStatus).value;
    StepKeepsInv(s, HostStatus);
    if RunAll(called, schedule).Some? && Undisturbed(schedule) {
      StaysOnCourse(called, schedule);
      var t := RunAll(called, schedule).value;
      if !t.pc.Idle? {
        OnCourseGoesOn(t);
      }
      AppendedGrows(called, schedule);
    }
  }

  // ----- What an undisturbed call does -----

  /** The schedule leads from `s` to `t`. The quantifier keeps `RunAll` folded where only this is needed. */
  ghost predicate Leads(s: State, schedule: seq<Action>, t: State) {
    forall steps :: steps == schedule ==> RunAll(s, steps) == Some(t)
  }

  lemma LeadsSelf(s: State)
    ensures Leads(s, [], s)
  {
  }

  lemma Then(s: State, schedule: seq<Action>, t: State, a: Action, u: State) returns (longer: seq<Action>)
    requires Leads(s, schedule, t) && Next(t, a) == Some(u)
    ensures longer == schedule + [a] && Leads(s, longer, u)
  {
    longer := schedule + [a];
    assert longer[..|schedule|] == schedule;
    assert RunAll(s, schedule) == Some(t);
  }

  lemma First(s: State, a: Action, t: State) returns (schedule: seq<Action>)
    requires Next(s, a) == Some(t)
    ensures schedule == [a] && Leads(s, schedule, t)
  {
    LeadsSelf(s);
    schedule := Then(s, [], s, a, t);
  }

  /** The last step of a schedule that leads somewhere. */
  lemma LeadsMost(s: State, schedule: seq<Action>, last: nat, u: State) returns (t: State)
    requires Leads(s, schedule, u) && |schedule| == last + 1
    ensures Leads(s, schedule[..last], t) && Next(t, schedule[last]) == Some(u)
  {
    assert RunAll(s, schedule) == Some(u);
    t := RunAll(s, schedule[..last]).value;
  }

  lemma LeadsNowhere(s: State, t: State)
    requires Leads(s, [], t)
    ensures t == s
  {
    assert RunAll(s, []) == Some(t);
  }

  lemma {:induction false} LeadsOn(s: State, first: seq<Action>, t: State, second: seq<Action>, u: State)
    requires Leads(s, first, t) && Leads(t, second, u)
    ensures Leads(s, first + second, u)
    decreases |second|
  {
    if second == [] {
      LeadsNowhere(t, u);
      assert first + second == first;
    } else {
      var last := |second| - 1;
      var most, a := second[..last], second[last];
      var v := LeadsMost(t, second, last, u);
      LeadsOn(s, first, t, most, v);
      var longer := Then(s, first + most, v, a, u);
      assert longer == first + second;
    }
  }

  /** The revisions a replay dispatched are in the store. */
  predicate AllCommitted(s: State, expected: seq<Rev>) {
    forall i :: 0 <= i < |expected| ==> expected[i] in s.core.committed
  }

  /** A call answers not yet while capture is not stopped, a replay has no receipt or not all of it is in, or nothing is sealed. */
  lemma CallWaits(s: State)
    requires s.pc.Idle?
    ensures
      var waits := s.(answer := NotYet);
      && (!s.core.stopped ==> Leads(s, [HostStatus], waits))
      && (s.core.stopped && s.replay && s.ready.receipt.None? ==> Leads(s, [HostStatus, HostReceipt], waits))
      && (s.core.stopped && s.replay && s.ready.receipt.Some? && !AllCommitted(s, s.ready.receipt.value) ==>
            Leads(s, [HostStatus, HostReceipt, HostCommitted], waits))
      && (s.core.stopped && !s.replay && s.core.manifest.None? ==> Leads(s, [HostStatus, HostManifest], waits))
      && (s.core.stopped && s.replay && s.ready.receipt.Some? && AllCommitted(s, s.ready.receipt.value) && s.core.manifest.None? ==>
            Leads(s, [HostStatus, HostReceipt, HostCommitted, HostManifest], waits))
  {
    var waits := s.(answer := NotYet);
    var sealed := s.core.sealedRuns.Some?;
    if !s.core.stopped {
      var schedule := First(s, HostStatus, waits);
    } else if !s.replay {
      var schedule := First(s, HostStatus, s.(pc := SawCommitted(sealed), answer := NoAnswer));
      if s.core.manifest.None? {
        schedule := Then(s, schedule, s.(pc := SawCommitted(sealed), answer := NoAnswer), HostManifest, waits);
      }
    } else {
      ReplayWaits(s, sealed);
    }
  }

  lemma ReplayWaits(s: State, sealed: bool)
    requires s.pc.Idle? && s.core.stopped && s.replay && sealed == s.core.sealedRuns.Some?
    ensures
      var waits := s.(answer := NotYet);
      && (s.ready.receipt.None? ==> Leads(s, [HostStatus, HostReceipt], waits))
      && (s.ready.receipt.Some? && !AllCommitted(s, s.ready.receipt.value) ==>
            Leads(s, [HostStatus, HostReceipt, HostCommitted], waits))
      && (s.ready.receipt.Some? && AllCommitted(s, s.ready.receipt.value) ==>
            Leads(s, [HostStatus, HostReceipt, HostCommitted], s.(pc := SawCommitted(sealed), answer := NoAnswer)))
      && (s.ready.receipt.Some? && AllCommitted(s, s.ready.receipt.value) && s.core.manifest.None? ==>
            Leads(s, [HostStatus, HostReceipt, HostCommitted, HostManifest], waits))
  {
    var waits := s.(answer := NotYet);
    var called := s.(pc := SawStatus(sealed), answer := NoAnswer);
    var schedule := First(s, HostStatus, called);
    if s.ready.receipt.None? {
      schedule := Then(s, schedule, called, HostReceipt, waits);
    } else {
      var expected := s.ready.receipt.value;
      var received := called.(pc := SawReceipt(sealed, expected));
      schedule := Then(s, schedule, called, HostReceipt, received);
      if !AllCommitted(s, expected) {
        schedule := Then(s, schedule, received, HostCommitted, waits);
      } else {
        schedule := Then(s, schedule, received, HostCommitted, called.(pc := SawCommitted(sealed)));
        if s.core.manifest.None? {
          schedule := Then(s, schedule, called.(pc := SawCommitted(sealed)), HostManifest, waits);
        }
      }
    }
  }

  /** A read or a request that fails ends a call under way with an error, and changes nothing else; only a request that was sent can time out. */
  lemma CallFails(s: State)
    ensures !s.pc.Idle? && !s.pc.Starting? ==> Leads(s, [HostError], s.(pc := Idle, answer := Failed))
    ensures s.pc.Idle? || s.pc.Starting? ==> Next(s, HostError) == None
    ensures s.pc.Flushing? ==> Leads(s, [HostTimeout], s.(pc := Idle, answer := NotYet))
    ensures s.pc.Starting? ==> Leads(s, [HostTimeout], s.(pc := Idle))
    ensures !s.pc.Flushing? && !s.pc.Starting? ==> Next(s, HostTimeout) == None
  {
    if !s.pc.Idle? && !s.pc.Starting? {
      var schedule := First(s, HostError, s.(pc := Idle, answer := Failed));
    }
    if s.pc.Flushing? {
      var schedule := First(s, HostTimeout, s.(pc := Idle, answer := NotYet));
    } else if s.pc.Starting? {
      var schedule := First(s, HostTimeout, s.(pc := Idle));
    }
  }

  /** The steps of a call up to the runs it may reconcile. */
  function ReadSteps(replay: bool): seq<Action> {
    (if replay then [HostStatus, HostReceipt, HostCommitted] else [HostStatus])
    + [HostManifest, HostUnsettled, HostPriors, HostReplayed]
  }

  /** Otherwise it comes to the runs that the report of a replayed outbox names, with what it has read. */
  lemma CallReads(s: State, hash: Hash)
    requires s.pc.Idle? && s.core.stopped && s.core.manifest == Some(hash)
    requires s.replay ==> s.ready.receipt.Some? && AllCommitted(s, s.ready.receipt.value)
    ensures
      var seen := Seen(s.core.sealedRuns.Some?, hash, s.core.finals - s.core.settled);
      Leads(s, ReadSteps(s.replay),
            s.(answer := NoAnswer, pc := Reconciling(seen, if s.ready.replayed then s.ready.priorRuns else [], s.shown, s.shown)))
  {
    var sealed := s.core.sealedRuns.Some?;
    var committed := s.(pc := SawCommitted(sealed), answer := NoAnswer);
    if s.replay {
      ReplayWaits(s, sealed);
    } else {
      var schedule := First(s, HostStatus, committed);
    }
    ReadsFromManifest(committed, sealed, hash);
    var seen := Seen(sealed, hash, s.core.finals - s.core.settled);
    LeadsOn(s, if s.replay then [HostStatus, HostReceipt, HostCommitted] else [HostStatus], committed,
            [HostManifest, HostUnsettled, HostPriors, HostReplayed],
            committed.(pc := Reconciling(seen, if s.ready.replayed then s.ready.priorRuns else [], s.shown, s.shown)));
  }

  lemma ReadsFromManifest(s: State, sealed: bool, hash: Hash)
    requires s.pc == SawCommitted(sealed) && s.core.manifest == Some(hash)
    ensures
      var seen := Seen(sealed, hash, s.core.finals - s.core.settled);
      Leads(s, [HostManifest, HostUnsettled, HostPriors, HostReplayed],
            s.(pc := Reconciling(seen, if s.ready.replayed then s.ready.priorRuns else [], s.shown, s.shown)))
  {
    var seen := Seen(sealed, hash, s.core.finals - s.core.settled);
    var manifest := s.(pc := SawManifest(Seen(sealed, hash, {})));
    var schedule := First(s, HostManifest, manifest);
    schedule := Then(s, schedule, manifest, HostUnsettled, s.(pc := SawUnsettled(seen)));
    schedule := Then(s, schedule, s.(pc := SawUnsettled(seen)), HostPriors, s.(pc := SawPriors(seen, s.ready.priorRuns, s.shown)));
    schedule := Then(s, schedule, s.(pc := SawPriors(seen, s.ready.priorRuns, s.shown)), HostReplayed,
                     s.(pc := Reconciling(seen, if s.ready.replayed then s.ready.priorRuns else [], s.shown, s.shown)));
  }

  /** A named run can be given up when it was unsettled at the first look, its process id is one, and no such process is left. */
  predicate IsAbandoned(p: RunRecord, unsettled: set<Run>, gone: bool) {
    p.run in unsettled && 1 <= p.pid <= 2_147_483_647 && gone
  }

  /**
    One named run. If it is not abandoned it is passed over; if it is, it is settled exactly when its journal names the same run
    and process in this session, as the recogniser's, and the store agrees; otherwise the call fails.
   */
  lemma RunIsReconciledIff(s: State, seen: Seen, p: RunRecord, rest: seq<RunRecord>, named: Option<nat>, flagged: Option<nat>,
                           gone: bool, recorded: Option<RunRecord>, granted: bool)
    requires s.pc == Reconciling(seen, [p] + rest, named, flagged)
    ensures
      var next := s.(pc := Reconciling(seen, rest, named, flagged));
      var proved := recorded.Some? && granted && recorded.value == RunRecord(p.run, p.pid, s.session, "asr");
      Leads(s, [HostReconcile(gone, recorded, granted)],
            if !IsAbandoned(p, seen.unsettled, gone) then next
            else if !proved then s.(pc := Idle, answer := Failed)
            else next.(core := s.core.(settled := s.core.settled + {p.run}),
                       evidence := s.evidence + [Evidence(p, recorded.value, true, seen.manifest, named, flagged)]))
  {
    assert s.pc.priors[0] == p && s.pc.priors[1..] == rest;
    var next := s.(pc := Reconciling(seen, rest, named, flagged));
    var proved := recorded.Some? && granted && recorded.value == RunRecord(p.run, p.pid, s.session, "asr");
    var schedule := First(s, HostReconcile(gone, recorded, granted),
                          if !IsAbandoned(p, seen.unsettled, gone) then next
                          else if !proved then s.(pc := Idle, answer := Failed)
                          else next.(core := s.core.(settled := s.core.settled + {p.run}),
                                     evidence := s.evidence + [Evidence(p, recorded.value, true, seen.manifest, named, flagged)]));
  }

  /** The runs of these that are settled, when the processes outside `alive` are gone. */
  function GivenUp(priors: seq<RunRecord>, unsettled: set<Run>, alive: set<nat>): set<Run> {
    set i | 0 <= i < |priors| && IsAbandoned(priors[i], unsettled, priors[i].pid !in alive) :: priors[i].run
  }

  lemma GivenUpStep(p: RunRecord, rest: seq<RunRecord>, unsettled: set<Run>, alive: set<nat>)
    ensures
      GivenUp([p] + rest, unsettled, alive)
      == (if IsAbandoned(p, unsettled, p.pid !in alive) then {p.run} else {}) + GivenUp(rest, unsettled, alive)
  {
    var all := [p] + rest;
    assert all[0] == p && forall i :: 0 <= i < |rest| ==> all[i + 1] == rest[i];
    assert forall i :: 1 <= i < |all| ==> all[i] == rest[i - 1];
  }

  /** Whatever processes are still there: if the journals and the store agree, the call settles all abandoned runs it was named, and no others. */
  lemma {:induction false} CallReconciles(s: State, alive: set<nat>) returns (schedule: seq<Action>, evidence: seq<Evidence>)
    requires s.pc.Reconciling?
    ensures
      Leads(s, schedule, s.(pc := Reconciling(s.pc.seen, [], s.pc.named, s.pc.flagged), evidence := s.evidence + evidence,
                            core := s.core.(settled := s.core.settled + GivenUp(s.pc.priors, s.pc.seen.unsettled, alive))))
    decreases if s.pc.Reconciling? then |s.pc.priors| else 0
  {
    var priors, seen := s.pc.priors, s.pc.seen;
    if priors == [] {
      schedule, evidence := [], [];
      LeadsSelf(s);
      assert s.evidence + [] == s.evidence;
      assert s.core.settled + GivenUp(priors, seen.unsettled, alive) == s.core.settled;
      assert s.(pc := Reconciling(seen, [], s.pc.named, s.pc.flagged)) == s;
    } else {
      var p, rest := priors[0], priors[1..];
      assert priors == [p] + rest;
      var recorded := RunRecord(p.run, p.pid, s.session, "asr");
      var gone := p.pid !in alive;
      RunIsReconciledIff(s, seen, p, rest, s.pc.named, s.pc.flagged, gone, Some(recorded), true);
      GivenUpStep(p, rest, seen.unsettled, alive);
      var given := IsAbandoned(p, seen.unsettled, gone);
      var one := if given then [Evidence(p, recorded, true, seen.manifest, s.pc.named, s.pc.flagged)] else [];
      var t := s.(pc := Reconciling(seen, rest, s.pc.named, s.pc.flagged), evidence := s.evidence + one,
                  core := s.core.(settled := s.core.settled + if given then {p.run} else {}));
      assert s.evidence + [] == s.evidence && s.core.settled + {} == s.core.settled;
      var later, more := CallReconciles(t, alive);
      schedule, evidence := [HostReconcile(gone, Some(recorded), true)] + later, one + more;
      assert (s.evidence + one) + more == s.evidence + evidence;
      LeadsOn(s, [HostReconcile(gone, Some(recorded), true)], t, later,
              t.(pc := Reconciling(seen, [], s.pc.named, s.pc.flagged), evidence := t.evidence + more,
                 core := t.core.(settled := t.core.settled + GivenUp(rest, seen.unsettled, alive))));
      UnionAgain(s.core.settled, if given then {p.run} else {}, GivenUp(rest, seen.unsettled, alive));
    }
  }

  lemma UnionAgain(a: set<Run>, b: set<Run>, c: set<Run>)
    ensures (a + b) + c == a + (b + c)
  {
  }

  /**
    When a call goes on to send: exactly when no run that delivered text is unsettled at its second look, and the transcript was
    not sealed at its first. If it was, the call says yes, and with a run unsettled it says not yet.
   */
  lemma CallSendsIff(s: State, seen: Seen, named: Option<nat>, flagged: Option<nat>)
    requires s.pc == Reconciling(seen, [], named, flagged)
    ensures
      var settled := forall run :: run in s.core.finals ==> run in s.core.settled;
      Leads(s, [HostRecheck],
            if !settled then s.(pc := Idle, answer := NotYet)
            else if seen.sealed then s.(pc := Idle, answer := Yes)
            else s.(pc := AllSettled(seen)))
  {
    var settled := forall run :: run in s.core.finals ==> run in s.core.settled;
    assert settled <==> s.core.finals <= s.core.settled;
    var schedule := First(s, HostRecheck,
                          if !settled then s.(pc := Idle, answer := NotYet)
                          else if seen.sealed then s.(pc := Idle, answer := Yes)
                          else s.(pc := AllSettled(seen)));
  }

  /** The store takes a new request in exactly when the session permits, capture is stopped, nothing is sealed, the manifest is that of the event and all runs are settled. */
  lemma IngestIff(c: Core, msg: Msg, hash: Hash, permits: bool)
    ensures
      var (c', ok) := Ingest(c, msg, hash, permits);
      var may := permits && c.stopped && c.sealedRuns.None? && c.manifest == Some(hash) && forall run :: run in c.finals ==> run in c.settled;
      && (ok <==> msg in c.ingested || may)
      && c' == if msg !in c.ingested && may then c.(ingested := c.ingested + {msg}, sealedRuns := Some(c.finals)) else c
  {
    assert c.finals <= c.settled <==> forall run :: run in c.finals ==> run in c.settled;
  }

  /** With nothing pending the call writes one event with the manifest it read, and the store's answer is the call's. */
  lemma NewEventIsSent(s: State, seen: Seen, m: Msg, permits: bool, cleaned: bool)
    requires s.pc == AllSettled(seen) && s.outbox == map[] && m !in s.appended
    ensures
      var (core, ok) := Ingest(s.core, m, seen.manifest, permits);
      Leads(s, [HostSend(m, true, true), CoreIngest(m, permits, true, cleaned)],
            s.(pc := Idle, answer := if ok then Yes else Failed, core := core, appended := s.appended + [m],
               sent := s.sent[m := seen.manifest], outbox := if ok && cleaned then map[] else map[m := seen.manifest]))
  {
    var hash := seen.manifest;
    var (core, ok) := Ingest(s.core, m, hash, permits);
    var flushing := s.(pc := Flushing(m), outbox := map[m := hash], appended := s.appended + [m], sent := s.sent[m := hash]);
    var schedule := First(s, HostSend(m, true, true), flushing);
    assert map[m := hash] - {m} == map[];
    schedule := Then(s, schedule, flushing, CoreIngest(m, permits, true, cleaned),
                     flushing.(pc := Idle, answer := if ok then Yes else Failed, core := core,
                               outbox := if ok && cleaned then map[] else map[m := hash]));
  }

  /** An event that is still pending is sent again as it is, and no other is written. */
  lemma PendingEventIsSentAgain(s: State, seen: Seen, m: Msg, written: bool, reported: bool, permits: bool, cleaned: bool)
    requires s.pc == AllSettled(seen) && m in s.outbox
    ensures
      var (core, ok) := Ingest(s.core, m, s.outbox[m], permits);
      Leads(s, [HostSend(m, written, reported), CoreIngest(m, permits, true, cleaned)],
            s.(pc := Idle, answer := if ok then Yes else Failed, core := core, sent := s.sent[m := s.outbox[m]],
               outbox := if ok && cleaned then s.outbox - {m} else s.outbox))
  {
    var (core, ok) := Ingest(s.core, m, s.outbox[m], permits);
    var flushing := s.(pc := Flushing(m), sent := s.sent[m := s.outbox[m]]);
    var schedule := First(s, HostSend(m, written, reported), flushing);
    schedule := Then(s, schedule, flushing, CoreIngest(m, permits, true, cleaned),
                     flushing.(pc := Idle, answer := if ok then Yes else Failed, core := core,
                               outbox := if ok && cleaned then s.outbox - {m} else s.outbox));
  }

  /** A write that fails ends the call, and the event is there for the next one only if it was written all the same; an answer that does not come leaves it there. */
  lemma SendingFails(s: State, seen: Seen, m: Msg)
    requires s.pc == AllSettled(seen) && s.outbox == map[] && m !in s.appended
    ensures
      var left := s.(outbox := map[m := seen.manifest], appended := s.appended + [m]);
      && Leads(s, [HostSend(m, false, false)], s.(pc := Idle, answer := Failed))
      && Leads(s, [HostSend(m, true, false)], left.(pc := Idle, answer := Failed))
      && Leads(s, [HostSend(m, true, true), HostTimeout],
               left.(pc := Idle, answer := NotYet, sent := s.sent[m := seen.manifest]))
  {
    var left := s.(outbox := map[m := seen.manifest], appended := s.appended + [m]);
    var schedule := First(s, HostSend(m, false, false), s.(pc := Idle, answer := Failed));
    schedule := First(s, HostSend(m, true, false), left.(pc := Idle, answer := Failed));
    var flushing := left.(pc := Flushing(m), sent := s.sent[m := seen.manifest]);
    schedule := First(s, HostSend(m, true, true), flushing);
    schedule := Then(s, schedule, flushing, HostTimeout, flushing.(pc := Idle, answer := NotYet));
  }

  /**
    A whole call with nothing in its way: capture stopped and sealed, a replay's receipt committed, the runs that delivered text
    settled or abandoned, nothing sealed yet and nothing pending. It settles the abandoned runs, sends one event, and says yes.
   */
  lemma CallSeals(s: State, hash: Hash, alive: set<nat>, m: Msg) returns (schedule: seq<Action>, evidence: seq<Evidence>)
    requires s.pc.Idle? && s.core.stopped && s.core.manifest == Some(hash) && s.core.sealedRuns.None?
    requires s.replay ==> s.ready.receipt.Some? && AllCommitted(s, s.ready.receipt.value)
    requires s.outbox == map[] && m !in s.appended && m !in s.core.ingested
    requires
      var named := if s.ready.replayed then s.ready.priorRuns else [];
      s.core.finals <= s.core.settled + GivenUp(named, s.core.finals - s.core.settled, alive)
    ensures
      var named := if s.ready.replayed then s.ready.priorRuns else [];
      var settled := s.core.settled + GivenUp(named, s.core.finals - s.core.settled, alive);
      Leads(s, schedule,
            s.(answer := Yes, appended := s.appended + [m], sent := s.sent[m := hash], evidence := s.evidence + evidence,
               core := s.core.(settled := settled, ingested := s.core.ingested + {m}, sealedRuns := Some(s.core.finals))))
  {
    var named := if s.ready.replayed then s.ready.priorRuns else [];
    var seen := Seen(false, hash, s.core.finals - s.core.settled);
    var read := s.(answer := NoAnswer, pc := Reconciling(seen, named, s.shown, s.shown));
    CallReads(s, hash);
    var reconciling;
    reconciling, evidence := CallReconciles(read, alive);
    var core := s.core.(settled := s.core.settled + GivenUp(named, seen.unsettled, alive));
    var reconciled := read.(pc := Reconciling(seen, [], s.shown, s.shown), evidence := s.evidence + evidence, core := core);
    LeadsOn(s, ReadSteps(s.replay), read, reconciling, reconciled);
    CallSendsIff(reconciled, seen, s.shown, s.shown);
    var settled := reconciled.(pc := AllSettled(seen));
    LeadsOn(s, ReadSteps(s.replay) + reconciling, reconciled, [HostRecheck], settled);
    NewEventIsSent(settled, seen, m, true, true);
    IngestIff(core, m, hash, true);
    schedule := ReadSteps(s.replay) + reconciling + [HostRecheck] + [HostSend(m, true, true), CoreIngest(m, true, true, true)];
    LeadsOn(s, ReadSteps(s.replay) + reconciling + [HostRecheck], settled,
            [HostSend(m, true, true), CoreIngest(m, true, true, true)],
            s.(answer := Yes, appended := s.appended + [m], sent := s.sent[m := hash], evidence := s.evidence + evidence,
               core := core.(ingested := s.core.ingested + {m}, sealedRuns := Some(s.core.finals))));
  }

  /** A restarted host is a replay with nothing announced, and sends what its outbox still holds. */
  lemma RestartSendsAgain(s: State, m: Msg, permits: bool, cleaned: bool)
    requires m in s.outbox
    ensures
      var started := s.(pc := Idle, answer := NoAnswer, replay := true, ready := Readiness([], false, None), shown := None);
      var (core, ok) := Ingest(s.core, m, s.outbox[m], permits);
      && Leads(s, [Restart], started)
      && Leads(s, [Restart, StartFlush(m), CoreIngest(m, permits, true, cleaned)],
               started.(core := core, sent := s.sent[m := s.outbox[m]], outbox := if ok && cleaned then s.outbox - {m} else s.outbox))
  {
    var started := s.(pc := Idle, answer := NoAnswer, replay := true, ready := Readiness([], false, None), shown := None);
    var (core, ok) := Ingest(s.core, m, s.outbox[m], permits);
    var schedule := First(s, Restart, started);
    var sending := started.(pc := Starting(m), sent := s.sent[m := s.outbox[m]]);
    schedule := Then(s, schedule, started, StartFlush(m), sending);
    schedule := Then(s, schedule, sending, CoreIngest(m, permits, true, cleaned),
                     sending.(pc := Idle, core := core, outbox := if ok && cleaned then s.outbox - {m} else s.outbox));
  }

  /** What the other threads do to the store and the readiness. */
  lemma OthersTakeEffect(s: State, segment: nat, hash: Hash, run: Run, rev: Rev)
    ensures
      var c := s.core;
      && (!c.stopped ==> Leads(s, [CoreRegister(segment)], s.(core := c.(registered := c.registered + {segment}))))
      && (!c.stopped ==> Leads(s, [CoreStop(hash)], s.(core := c.(stopped := true, manifest := Some(hash)))))
      && (c.stopped ==> Next(s, CoreRegister(segment)) == None && Next(s, CoreStop(hash)) == None)
      && (run !in c.settled ==> Leads(s, [CoreFinal(run, rev)], s.(core := c.(finals := c.finals + {run}, committed := c.committed + {rev}))))
      && (run in c.settled ==> Next(s, CoreFinal(run, rev)) == None)
      && Leads(s, [CoreSettle(run)], s.(core := c.(settled := c.settled + {run})))
  {
    var c := s.core;
    var schedule := First(s, CoreSettle(run), s.(core := c.(settled := c.settled + {run})));
    if !c.stopped {
      schedule := First(s, CoreRegister(segment), s.(core := c.(registered := c.registered + {segment})));
      schedule := First(s, CoreStop(hash), s.(core := c.(stopped := true, manifest := Some(hash))));
    }
    if run !in c.settled {
      schedule := First(s, CoreFinal(run, rev), s.(core := c.(finals := c.finals + {run}, committed := c.committed + {rev})));
    }
  }

  /** A report of at most a thousand records, all of this session and of the recogniser, replaces the one before it. */
  lemma ReportAcceptedIff(s: State, report: Report)
    ensures
      var valid := |report.records| <= 1000
                   && forall i :: 0 <= i < |report.records| ==> report.records[i].session == s.session && report.records[i].producer == "asr";
      Next(s, RpcReady(report))
      == if !valid then None
         else Some(s.(ready := Readiness(report.records, report.replayed, s.ready.receipt), reports := s.reports + [report],
                      shown := Some(|s.reports|)))
  {
  }

  // ----- Two reads of the readiness -----

  /**
    The reported runs and the replay flag are read under two locks. Between them another report can
    come in, so a run can be reconciled that only a report without a replayed outbox ever named.
   */
  lemma EvidenceMayMixReports(session: nat) returns (s: State)
    ensures Reachable(s) && |s.evidence| == 1
    ensures s.evidence[0].named == Some(0) && s.evidence[0].flagged == Some(1)
    ensures forall i :: 0 <= i < |s.reports| && s.evidence[0].prior in s.reports[i].records ==> !s.reports[i].replayed
  {
    var run := RunRecord(1, 1, session, ASR);
    var read := ReportsAreMixed(session, run);
    s := RunIsReconciled(read, run);
  }

  /** Between the two reads a report without runs comes in, of a replayed outbox. */
  lemma ReportsAreMixed(session: nat, run: RunRecord) returns (s: State)
    requires run == RunRecord(1, 1, session, ASR)
    ensures Reachable(s) && s.session == session && s.evidence == []
    ensures s.pc == Reconciling(Seen(false, 0, {1}), [run], Some(0), Some(1))
    ensures s.reports == [Report([run], false), Report([], true)]
  {
    var t := RunsAreRead(session, run);
    var report := Report([], true);
    var reported := t.(ready := Readiness([], true, None), reports := [Report([run], false), report], shown := Some(1));
    assert [Report([run], false)] + [report] == reported.reports;
    ReachableNext(t, RpcReady(report), reported);
    s := reported.(pc := Reconciling(Seen(false, 0, {1}), [run], Some(0), Some(1)));
    ReachableNext(reported, HostReplayed, s);
  }

  /** Its process is gone, its journal agrees, and the store records it. */
  lemma RunIsReconciled(s: State, run: RunRecord) returns (t: State)
    requires Reachable(s) && run == RunRecord(1, 1, s.session, ASR) && s.evidence == []
    requires s.pc == Reconciling(Seen(false, 0, {1}), [run], Some(0), Some(1))
    ensures Reachable(t) && t.evidence == [Evidence(run, run, true, 0, Some(0), Some(1))] && t.reports == s.reports
  {
    var e := Evidence(run, run, true, 0, Some(0), Some(1));
    t := s.(pc := Reconciling(s.pc.seen, [], Some(0), Some(1)), core := s.core.(settled := s.core.settled + {1}), evidence := [e]);
    assert [] + [e] == [e] && [run][1..] == [];
    ReachableNext(s, HostReconcile(true, Some(run), true), t);
  }

  lemma ReachableNext(s: State, a: Action, t: State)
    requires Reachable(s) && Next(s, a) == Some(t)
    ensures Reachable(t)
  {
    var s0 :| Initial(s0) && Reaches(s0, s);
    ReachesNext(s0, s, a, t);
  }

  /** Text is delivered and capture stops. */
  lemma CaptureStops(session: nat) returns (s: State)
    ensures Reachable(s)
    ensures s == State(session, false, Core({}, true, Some(0), {1}, {}, {Rev(1, 1)}, {}, None), NOT_READY,
                       Idle, NoAnswer, map[], [], map[], [], [], None)
  {
    var s0 := State(session, false, EMPTY_CORE, NOT_READY, Idle, NoAnswer, map[], [], map[], [], [], None);
    ReachesSelf(s0);
    var delivered := s0.(core := EMPTY_CORE.(finals := {1}, committed := {Rev(1, 1)}));
    assert {} + {1} == {1} && {} + {Rev(1, 1)} == {Rev(1, 1)};
    ReachableNext(s0, CoreFinal(1, Rev(1, 1)), delivered);
    s := delivered.(core := delivered.core.(stopped := true, manifest := Some(0)));
    ReachableNext(delivered, CoreStop(0), s);
  }

  /** And then the run is reported without a replayed outbox. */
  lemma RunIsReported(session: nat, run: RunRecord) returns (s: State)
    requires run == RunRecord(1, 1, session, ASR)
    ensures Reachable(s)
    ensures s == State(session, false, Core({}, true, Some(0), {1}, {}, {Rev(1, 1)}, {}, None), Readiness([run], false, None),
                       Idle, NoAnswer, map[], [], map[], [], [Report([run], false)], Some(0))
  {
    var stopped := CaptureStops(session);
    var report := Report([run], false);
    s := stopped.(ready := Readiness([run], false, None), reports := [report], shown := Some(0));
    assert [] + [report] == [report];
    ReachableNext(stopped, RpcReady(report), s);
  }

  /** Up to the first of the two reads. */
  lemma RunsAreRead(session: nat, run: RunRecord) returns (s: State)
    requires run == RunRecord(1, 1, session, ASR)
    ensures Reachable(s)
    ensures s == State(session, false, Core({}, true, Some(0), {1}, {}, {Rev(1, 1)}, {}, None), Readiness([run], false, None),
                       SawPriors(Seen(false, 0, {1}), [run], Some(0)), NoAnswer, map[], [], map[], [], [Report([run], false)], Some(0))
  {
    var idle := RunIsReported(session, run);
    var status := idle.(pc := SawCommitted(false));
    ReachableNext(idle, HostStatus, status);
    var manifest := idle.(pc := SawManifest(Seen(false, 0, {})));
    ReachableNext(status, HostManifest, manifest);
    var seen := Seen(false, 0, {1});
    assert {1} - {} == {1};
    var unsettled := idle.(pc := SawUnsettled(seen));
    ReachableNext(manifest, HostUnsettled, unsettled);
    s := idle.(pc := SawPriors(seen, [run], Some(0)));
    ReachableNext(unsettled, HostPriors, s);
  }

  ghost predicate OnlyOthers(schedule: seq<Action>) {
    forall i :: 0 <= i < |schedule| ==> OtherOnly(schedule[i])
  }

  ghost predicate NoReport(schedule: seq<Action>) {
    forall i :: 0 <= i < |schedule| ==> !schedule[i].RpcReady?
  }

  lemma {:induction false} ReportsGrow(s: State, schedule: seq<Action>)
    requires RunAll(s, schedule).Some?
    ensures s.reports <= RunAll(s, schedule).value.reports
  {
    if schedule != [] {
      ReportsGrow(s, schedule[..|schedule| - 1]);
      StepReports(RunAll(s, schedule[..|schedule| - 1]).value, schedule[|schedule| - 1]);
    }
  }

  lemma StepReports(s: State, a: Action)
    requires Next(s, a).Some?
    ensures s.reports <= Next(s, a).value.reports
  {
  }

  lemma OneReportStep(s: State, a: Action)
    requires ShownInv(s) && s.pc.SawPriors? && OtherOnly(a) && Next(s, a).Some?
    ensures
      var t := Next(s, a).value;
      && t.pc == s.pc && NoLater(s.shown, t.shown) && (a.RpcReady? <==> t.shown != s.shown)
      && (!a.RpcReady? ==> t.ready.priorRuns == s.ready.priorRuns && t.ready.replayed == s.ready.replayed)
  {
  }

  lemma NoReportLast(schedule: seq<Action>)
    requires schedule != []
    ensures NoReport(schedule) <==> NoReport(schedule[..|schedule| - 1]) && !schedule[|schedule| - 1].RpcReady?
  {
  }

  /** What others do between the two reads. */
  ghost predicate Between(s: State, t: State, noReport: bool) {
    && t.pc == s.pc && NoLater(s.shown, t.shown) && (noReport <==> t.shown == s.shown)
    && (noReport ==> t.ready.priorRuns == s.ready.priorRuns && t.ready.replayed == s.ready.replayed)
  }

  lemma {:induction false} OtherReports(s: State, schedule: seq<Action>)
    requires Inv(s) && s.pc.SawPriors? && RunAll(s, schedule).Some? && OnlyOthers(schedule)
    ensures Inv(RunAll(s, schedule).value) && Between(s, RunAll(s, schedule).value, NoReport(schedule))
  {
    if schedule != [] {
      var before, a := schedule[..|schedule| - 1], schedule[|schedule| - 1];
      OtherReports(s, before);
      var t := RunAll(s, before).value;
      OneReportStep(t, a);
      StepKeepsInv(t, a);
      NoReportLast(schedule);
    }
  }

  /** These are the records, and this the flag, of one and the same report; a host that has none yet has neither. */
  ghost predicate IsOf(reports: seq<Report>, at: Option<nat>, records: seq<RunRecord>, replayed: bool) {
    match at
    case None => records == [] && !replayed
    case Some(i) => i < |reports| && reports[i] == Report(records, replayed)
  }

  lemma ShownIsOf(s: State)
    requires ShownInv(s)
    ensures IsOf(s.reports, s.shown, s.ready.priorRuns, s.ready.replayed)
  {
  }

  /** What the call has read when it comes to the flag, and from which reports. */
  lemma TwoReads(s: State, schedule: seq<Action>) returns (t: State)
    requires Reachable(s) && s.pc.SawUnsettled? && OnlyOthers(schedule)
    requires RunAll(Next(s, HostPriors).value, schedule).Some?
    ensures t == RunAll(Next(s, HostPriors).value, schedule).value
    ensures t.pc == SawPriors(s.pc.seen, s.ready.priorRuns, s.shown) && (s.shown == t.shown <==> NoReport(schedule))
    ensures IsOf(t.reports, s.shown, s.ready.priorRuns, s.ready.replayed)
    ensures IsOf(t.reports, t.shown, t.ready.priorRuns, t.ready.replayed)
  {
    ReachableKeepsInv(s);
    StepKeepsInv(s, HostPriors);
    var read := Next(s, HostPriors).value;
    t := RunAll(read, schedule).value;
    OtherReports(read, schedule);
    ReportsGrow(read, schedule);
    ShownIsOf(s);
    ShownIsOf(t);
  }

  /**
    The call reads the runs, others do what they like, and it reads the flag. The runs are those of
    the report shown at the first read, the flag is that of the report shown at the second, and the
    two are one report exactly when no report came in between. Then what goes on to be reconciled
    is what that one report names, and it is of a replayed outbox.
   */
  lemma OneReportIff(s: State, schedule: seq<Action>)
    requires Reachable(s) && s.pc.SawUnsettled? && OnlyOthers(schedule)
    requires RunAll(Next(s, HostPriors).value, schedule).Some?
    ensures
      var t := RunAll(Next(s, HostPriors).value, schedule).value;
      && Next(t, HostReplayed).Some?
      && var pc := Next(t, HostReplayed).value.pc;
         && pc == Reconciling(s.pc.seen, if t.ready.replayed then s.ready.priorRuns else [], s.shown, t.shown)
         && IsOf(t.reports, pc.named, s.ready.priorRuns, s.ready.replayed)
         && IsOf(t.reports, pc.flagged, t.ready.priorRuns, t.ready.replayed)
         && (pc.named == pc.flagged <==> NoReport(schedule))
         && (NoReport(schedule) && pc.priors != [] ==>
               ReplayedBy(t.reports, pc.named) && pc.priors == t.reports[pc.named.value].records)
  {
    var t := TwoReads(s, schedule);
    FlagIsRead(t);
  }

  lemma FlagIsRead(s: State)
    requires s.pc.SawPriors?
    ensures Next(s, HostReplayed).Some?
    ensures Next(s, HostReplayed).value.pc
            == Reconciling(s.pc.seen, if s.ready.replayed then s.pc.priors else [], s.pc.named, s.shown)
  {
  }

  /** Every prior that was reconciled, or may be, was named and let through by one report. */
  ghost predicate Unmixed(s: State) {
    && (s.pc.SawPriors? ==> s.pc.named == s.shown)
    && (s.pc.Reconciling? ==> s.pc.named == s.pc.flagged)
    && (forall e :: e in s.evidence ==> e.named == e.flagged)
  }

  lemma ReadKeepsUnmixed(s: State, a: Action)
    requires Unmixed(s) && ReadNext(s, a).Some?
    ensures Unmixed(ReadNext(s, a).value)
  {
  }

  lemma StepKeepsUnmixed(s: State, a: Action)
    requires Unmixed(s) && Next(s, a).Some? && !(s.pc.SawPriors? && a.RpcReady?)
    ensures Unmixed(Next(s, a).value)
  {
    if ReadNext(s, a).Some? {
      ReadKeepsUnmixed(s, a);
    }
  }

  /** No report comes in while a call is between the two reads. */
  ghost predicate ReadsUndivided(s: State, schedule: seq<Action>) {
    forall i :: 0 <= i < |schedule| && RunAll(s, schedule[..i]).Some? && RunAll(s, schedule[..i]).value.pc.SawPriors? ==>
      !schedule[i].RpcReady?
  }

  lemma {:induction false} RunKeepsUnmixed(s: State, schedule: seq<Action>)
    requires Unmixed(s) && RunAll(s, schedule).Some? && ReadsUndivided(s, schedule)
    ensures Unmixed(RunAll(s, schedule).value)
  {
    if schedule != [] {
      var before := schedule[..|schedule| - 1];
      assert forall i :: 0 <= i < |before| ==> before[..i] == schedule[..i];
      RunKeepsUnmixed(s, before);
      StepKeepsUnmixed(RunAll(s, before).value, schedule[|schedule| - 1]);
    }
  }

  /** A report of a replayed outbox names the run. */
  ghost predicate Vouched(reports: seq<Report>, prior: RunRecord) {
    exists i :: 0 <= i < |reports| && reports[i].replayed && prior in reports[i].records
  }

  /** So in a run where no report comes in between the two reads, every reconciled run was named by a report of a replayed outbox. */
  lemma UndividedReadsVouch(s: State, schedule: seq<Action>, e: Evidence)
    requires Initial(s) && RunAll(s, schedule).Some? && ReadsUndivided(s, schedule)
    requires e in RunAll(s, schedule).value.evidence
    ensures Vouched(RunAll(s, schedule).value.reports, e.prior)
  {
    RunKeepsUnmixed(s, schedule);
    RunKeepsInv(s, schedule);
    var t := RunAll(s, schedule).value;
    assert Sound(t, e) && e.named == e.flagged && e.prior in [e.prior];
    assert t.reports[e.named.value].replayed && e.prior in t.reports[e.named.value].records;
  }

  /** The step brings in a report of a replayed outbox that names the run. */
  predicate Vouches(a: Action, prior: RunRecord) {
    a.RpcReady? && a.report.replayed && prior in a.report.records
  }

  lemma VouchedStep(s: State, a: Action, prior: RunRecord)
    requires Next(s, a).Some?
    ensures Vouched(Next(s, a).value.reports, prior) <==> Vouched(s.reports, prior) || Vouches(a, prior)
  {
    var t := Next(s, a).value;
    StepReports(s, a);
    if a.RpcReady? {
      assert t.reports[|s.reports|] == a.report;
    }
    if Vouched(s.reports, prior) {
      var i :| 0 <= i < |s.reports| && s.reports[i].replayed && prior in s.reports[i].records;
      assert t.reports[i] == s.reports[i];
    }
  }

  /**
    Whether or not the reads are divided, a prior that was read is vouched for at the second read, or
    at any later moment, exactly when it was at the first, or when some report of a replayed outbox
    that names it has come in since.
   */
  lemma {:induction false} VouchedIff(s: State, schedule: seq<Action>, prior: RunRecord)
    requires RunAll(s, schedule).Some?
    ensures Vouched(RunAll(s, schedule).value.reports, prior)
            <==> Vouched(s.reports, prior) || exists i :: 0 <= i < |schedule| && Vouches(schedule[i], prior)
  {
    if schedule != [] {
      var m := |schedule| - 1;
      VouchedIff(s, schedule[..m], prior);
      VouchedStep(RunAll(s, schedule[..m]).value, schedule[m], prior);
      assert forall i :: 0 <= i < m ==> schedule[..m][i] == schedule[i];
    }
  }

  // ----- The host's own state in place -----

  /** ModelReadiness under its mutex. */
  class ModelReadiness {
    var priorRuns: seq<RunRecord>
    var replayed: bool
    var receipt: Option<seq<Rev>>

    function View(): Readiness
      reads this
    {
      Readiness(priorRuns, replayed, receipt)
    }

    constructor ()
      ensures View() == NOT_READY
    {
      priorRuns, replayed, receipt := [], false, None;
    }

    method Ready(session: nat, report: Report) returns (ok: bool)
      modifies this
      ensures ok <==> |report.records| <= 1000 &&
                      forall i :: 0 <= i < |report.records| ==> report.records[i].session == session && report.records[i].producer == "asr"
      ensures receipt == old(receipt)
      ensures priorRuns == (if ok then report.records else old(priorRuns)) && replayed == (if ok then report.replayed else old(replayed))
    {
      if |report.records| > 1000 {
        return false;
      }
      for i := 0 to |report.records|
        invariant forall j :: 0 <= j < i ==> report.records[j].session == session && report.records[j].producer == ASR
        invariant View() == old(View())
      {
        if report.records[i].session != session || report.records[i].producer != ASR {
          return false;
        }
      }
      priorRuns, replayed := report.records, report.replayed;
      return true;
    }

    method CaptureDispatchComplete(replay: bool, core: Core, expected: seq<Rev>) returns (ok: bool)
      modifies this
      ensures ok <==> && replay && core.stopped && |expected| <= 10_000
                      && (forall i, j :: 0 <= i < j < |expected| ==> expected[i].segment != expected[j].segment)
                      && (forall i :: 0 <= i < |expected| ==> expected[i].segment in core.registered)
                      && (old(receipt).None? || old(receipt) == Some(expected))
      ensures receipt == (if ok then Some(expected) else old(receipt)) && priorRuns == old(priorRuns) && replayed == old(replayed)
    {
      if !replay || |expected| > 10000 {
        return false;
      }
      var unique := Segments(expected);
      UniqueIff(expected);
      if |unique| != |expected| || !core.stopped || exists segment | segment in unique :: segment !in core.registered {
        return false;
      }
      if receipt.Some? && receipt.value != expected {
        return false;
      }
      receipt := Some(expected);
      return true;
    }
  }

  /** The events of this kind in the producer's outbox. */
  class Outbox {
    var pending: map<Msg, Hash>
    ghost var appended: seq<Msg>

    /** Nothing but the one event that was appended is pending. */
    ghost predicate Valid()
      reads this
    {
      |appended| <= 1 && forall m :: m in pending ==> appended == [m]
    }

    constructor ()
      ensures Valid() && appended == [] && pending == map[]
    {
      pending, appended := map[], [];
    }

    /** The event still pending, or a new one. A write that is reported as failed may have happened. */
    method SealEvent(hash: Hash, event: Msg, written: bool, reported: bool) returns (m: Option<Msg>)
      requires Valid() && (appended != [] ==> appended[0] in pending)
      modifies this
      ensures Valid() && (appended != [] ==> appended[0] in pending)
      ensures old(pending) != map[] ==> m.Some? && m.value in pending && pending == old(pending) && appended == old(appended)
      ensures old(pending) == map[] ==> pending == (if written then map[event := hash] else map[])
      ensures old(pending) == map[] ==> m == (if written && reported then Some(event) else None)
    {
      if pending.Keys != {} {
        var existing :| existing in pending.Keys;
        return Some(existing);
      }
      if written {
        pending := pending[event := hash];
        appended := appended + [event];
      }
      return if written && reported then Some(event) else None;
    }

    /** flush_one: only a receipt takes the event away, and its clean-up may fail. */
    method Flushed(m: Msg, receipt: bool, cleaned: bool)
      requires Valid()
      modifies this`pending
      ensures Valid() && pending == if receipt && cleaned then old(pending) - {m} else old(pending)
    {
      if receipt && cleaned {
        pending := pending - {m};
      }
    }
  }

  lemma SegmentsStep(before: seq<Rev>, r: Rev)
    ensures Segments(before + [r]) == Segments(before) + {r.segment}
    ensures Distinct(before + [r]) <==> Distinct(before) && r.segment !in Segments(before)
  {
    var all := before + [r];
    assert forall i :: 0 <= i < |before| ==> all[i] == before[i];
    assert all[|before|] == r;
  }

  /** Comparing the number of segments with the number of entries tells whether one stands twice. */
  lemma {:induction false} UniqueIff(expected: seq<Rev>)
    ensures |Segments(expected)| <= |expected|
    ensures |Segments(expected)| == |expected| <==> Distinct(expected)
  {
    if expected != [] {
      var before, r := expected[..|expected| - 1], expected[|expected| - 1];
      UniqueIff(before);
      SegmentsStep(before, r);
      assert expected == before + [r];
      if r.segment in Segments(before) {
        assert Segments(expected) == Segments(before);
      }
    }
  }
}
