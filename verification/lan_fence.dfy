/**
  Pairing with, syncing from and disconnecting from peer rooms on the local network
  (desktop/forum-shell/src/lan_manager.rs).

  The manager holds its state lock across calls into a FIFO store actor. A call may be refused,
  may fail in the store, or may time out while its closure stays queued and runs later. Every
  closure the actor accepts is one entry of `ops`; the store has run the first `done` of them.
  Steps are lock regions, split where the lock holder waits for the store.
 */
module LanFence {
  import opened Common

  type Key = nat                       // (owner device, session)
  type Lease = nat                     // identity of one paired client

  const MAX_PEERS := 8

  /** A closure accepted by the store actor; `ok` is whether the store will carry it out. */
  datatype Op =
    | Import(key: Key, lease: Lease, ok: bool)  // register the peer and apply its first snapshot
    | Apply(key: Key, lease: Lease, ok: bool)   // changes or a snapshot fetched through a lease
    | Close(key: Key, ok: bool)                 // mark disconnected, from disconnect or stop
    | Fence(key: Key, ok: bool)                 // mark disconnected, after a failed pair or sync

  datatype PairCall = PairCall(key: Key, lease: Lease, generation: nat)

  /** Who holds the state lock, and the index of the closure it waits for. */
  datatype Holder =
    | Free
    | PairWait(call: PairCall, at: nat)
    | PairFence(key: Key)
    | DisconnectWait(key: Key, at: nat)
    | StopNext(first: nat, all: set<Key>, rest: set<Key>)
    | StopWait(key: Key, at: nat, first: nat, all: set<Key>, rest: set<Key>)
    | ChangesWait(key: Key, lease: Lease, at: nat)
    | SnapshotWait(key: Key, lease: Lease, at: nat)
    | SyncFence(key: Key)

  /** The one sync thread between its lock regions. */
  datatype Sync =
    | Resting
    | FetchingChanges(key: Key, lease: Lease)
    | Rechecking(key: Key, lease: Lease)
    | FetchingSnapshot(key: Key, lease: Lease)

  /** The manager's fields under the lock, and the shutdown flag. */
  datatype Table = Table(peers: map<Key, Lease>, generation: nat, shutdown: bool)

  /** What happened, for the properties only. */
  datatype History = History(
    nextLease: Lease,
    since: map<Lease, nat>,            // where a held lease was imported
    held: set<nat>,                    // imports whose lease went into the peer table
    closed: set<nat>,                  // closes that disconnect or stop saw succeed
    lost: set<Key>)                    // keys whose latest mark was refused, failed or skipped

  datatype State = State(
    table: Table,
    history: History,
    holder: Holder,
    pairs: set<PairCall>,              // pair calls past their first lock region
    sync: Sync,
    ops: seq<Op>,
    done: nat)

  const INITIAL := State(Table(map[], 0, false), History(0, map[], {}, {}, {}), Free, {}, Resting, [], 0)

  datatype Action =
    | PairBegin(key: Key)
    | PairCommit(call: PairCall, accepted: bool, ok: bool)
    | PairReturn(success: bool)
    | PairFenceSend(accepted: bool, ok: bool)
    | Disconnect(key: Key, accepted: bool, ok: bool)
    | DisconnectReturn(success: bool)
    | StopLock
    | StopSend(key: Key, accepted: bool, ok: bool)
    | StopReturn(success: bool)
    | StopDone
    | Shutdown
    | SyncBegin(key: Key, lease: Lease)
    | SyncGiveUp
    | SyncChanges(fetched: bool, accepted: bool, ok: bool)
    | SyncChangesReturn(success: bool)
    | SyncRecheck
    | SyncSnapshot(fetched: bool, accepted: bool, ok: bool)
    | SyncSnapshotReturn(success: bool)
    | SyncFenceSend(accepted: bool, ok: bool)
    | StoreRun

  // ----- Lock regions -----

  /** The lease is still the one in the table: the same client, not just the same key. */
  predicate Current(t: Table, key: Key, lease: Lease) {
    key in t.peers && t.peers[key] == lease
  }

  /** `pair` may still commit what it fetched. */
  predicate MayPair(t: Table, call: PairCall) {
    !t.shutdown && t.generation == call.generation && |t.peers| < MAX_PEERS
  }

  function RemovePeer(t: Table, key: Key): Table {
    t.(peers := t.peers - {key}, generation := t.generation + 1)
  }

  function RemoveAllPeers(t: Table): Table {
    t.(peers := map[], generation := t.generation + 1)
  }

  // ----- Steps -----

  /** The closure at `at` has run and succeeded, so a call waiting for it may return success. */
  predicate Answered(s: State, at: nat) {
    at < s.done && at < |s.ops| && s.ops[at].ok
  }

  function Mark(h: History, key: Key, marked: bool): History {
    h.(lost := if marked then h.lost - {key} else h.lost + {key})
  }

  function PairNext(s: State, a: Action): Option<State> {
    var t, h := s.table, s.history;
    match a
    case PairBegin(key) =>
      if !s.holder.Free? || t.shutdown || |t.peers| >= MAX_PEERS then None
      else
        Some(s.(pairs := s.pairs + {PairCall(key, h.nextLease, t.generation)},
                history := h.(nextLease := h.nextLease + 1)))
    case PairCommit(call, accepted, ok) =>
      if !s.holder.Free? || call !in s.pairs then None
      else if !MayPair(t, call) then Some(s.(pairs := s.pairs - {call}))
      else if accepted then
        Some(s.(pairs := s.pairs - {call}, ops := s.ops + [Import(call.key, call.lease, ok)],
                holder := PairWait(call, |s.ops|)))
      else Some(s.(pairs := s.pairs - {call}, holder := PairFence(call.key)))
    case PairReturn(success) =>
      if !s.holder.PairWait? then None
      else if !success then Some(s.(holder := PairFence(s.holder.call.key)))
      else if !Answered(s, s.holder.at) then None
      else
        var call, at := s.holder.call, s.holder.at;
        Some(s.(holder := Free, table := t.(peers := t.peers[call.key := call.lease]),
                history := h.(since := h.since[call.lease := at], held := h.held + {at})))
    case PairFenceSend(accepted, ok) =>
      if !s.holder.PairFence? then None
      else
        var key := s.holder.key;
        Some(s.(holder := Free, history := Mark(h, key, accepted && ok),
                ops := if accepted then s.ops + [Fence(key, ok)] else s.ops))
    case _ => None
  }

  function CloseNext(s: State, a: Action): Option<State> {
    var t, h := s.table, s.history;
    match a
    case Disconnect(key, accepted, ok) =>
      if !s.holder.Free? then None
      else if accepted then
        Some(s.(table := RemovePeer(t, key), history := Mark(h, key, ok), ops := s.ops + [Close(key, ok)],
                holder := DisconnectWait(key, |s.ops|)))
      else Some(s.(table := RemovePeer(t, key), history := Mark(h, key, false)))
    case DisconnectReturn(success) =>
      if !s.holder.DisconnectWait? then None
      else if !success then Some(s.(holder := Free))
      else if !Answered(s, s.holder.at) then None
      else Some(s.(holder := Free, history := h.(closed := h.closed + {s.holder.at})))
    case StopLock =>
      if !s.holder.Free? then None
      else
        Some(s.(table := RemoveAllPeers(t), holder := StopNext(|s.ops|, t.peers.Keys, t.peers.Keys),
                history := h.(lost := h.lost + t.peers.Keys)))
    case StopSend(key, accepted, ok) =>
      if !s.holder.StopNext? || key !in s.holder.rest then None
      else if accepted then
        Some(s.(history := Mark(h, key, ok), ops := s.ops + [Close(key, ok)],
                holder := StopWait(key, |s.ops|, s.holder.first, s.holder.all, s.holder.rest - {key})))
      else Some(s.(holder := Free))
    case StopReturn(success) =>
      if !s.holder.StopWait? then None
      else if !success then Some(s.(holder := Free))
      else if !Answered(s, s.holder.at) then None
      else
        Some(s.(holder := StopNext(s.holder.first, s.holder.all, s.holder.rest),
                history := h.(closed := h.closed + {s.holder.at})))
    case StopDone => if s.holder.StopNext? && s.holder.rest == {} then Some(s.(holder := Free)) else None
    case Shutdown => Some(s.(table := t.(shutdown := true)))
    case _ => None
  }

  function SyncNext(s: State, a: Action): Option<State> {
    var t, y := s.table, s.sync;
    match a
    case SyncBegin(key, lease) =>
      if y.Resting? && lease in s.history.since then Some(s.(sync := FetchingChanges(key, lease))) else None
    case SyncGiveUp => if y.FetchingChanges? then Some(s.(sync := Resting)) else None
    case SyncChanges(fetched, accepted, ok) =>
      if !y.FetchingChanges? || !s.holder.Free? then None
      else if t.shutdown || !Current(t, y.key, y.lease) then Some(s.(sync := Resting))
      else if fetched && accepted then
        Some(s.(ops := s.ops + [Apply(y.key, y.lease, ok)], holder := ChangesWait(y.key, y.lease, |s.ops|)))
      else Some(s.(sync := Rechecking(y.key, y.lease)))
    case SyncChangesReturn(success) =>
      if !s.holder.ChangesWait? then None
      else if !success then Some(s.(holder := Free, sync := Rechecking(s.holder.key, s.holder.lease)))
      else if Answered(s, s.holder.at) then Some(s.(holder := Free, sync := Resting))
      else None
    case SyncRecheck =>
      if !y.Rechecking? || !s.holder.Free? then None
      else if t.shutdown || !Current(t, y.key, y.lease) then Some(s.(sync := Resting))
      else Some(s.(sync := FetchingSnapshot(y.key, y.lease)))
    case SyncSnapshot(fetched, accepted, ok) =>
      if !y.FetchingSnapshot? || !s.holder.Free? then None
      else if t.shutdown || !Current(t, y.key, y.lease) then Some(s.(sync := Resting))
      else if fetched && accepted then
        Some(s.(ops := s.ops + [Apply(y.key, y.lease, ok)], holder := SnapshotWait(y.key, y.lease, |s.ops|)))
      else Some(s.(holder := SyncFence(y.key)))
    case SyncSnapshotReturn(success) =>
      if !s.holder.SnapshotWait? then None
      else if !success then Some(s.(holder := SyncFence(s.holder.key)))
      else if Answered(s, s.holder.at) then Some(s.(holder := Free, sync := Resting))
      else None
    case SyncFenceSend(accepted, ok) =>
      if !s.holder.SyncFence? then None
      else
        Some(s.(holder := Free, sync := Resting, history := Mark(s.history, s.holder.key, accepted && ok),
                ops := if accepted then s.ops + [Fence(s.holder.key, ok)] else s.ops))
    case StoreRun => if s.done < |s.ops| then Some(s.(done := s.done + 1)) else None
    case _ => None
  }

  predicate IsPair(a: Action) {
    a.PairBegin? || a.PairCommit? || a.PairReturn? || a.PairFenceSend?
  }

  predicate IsClose(a: Action) {
    a.Disconnect? || a.DisconnectReturn? || a.StopLock? || a.StopSend? || a.StopReturn? || a.StopDone? || a.Shutdown?
  }

  function Next(s: State, a: Action): Option<State> {
    if IsPair(a) then PairNext(s, a) else if IsClose(a) then CloseNext(s, a) else SyncNext(s, a)
  }

  function Run(s: State, schedule: seq<Action>): Option<State> {
    if schedule == [] then Some(s)
    else
      var before := Run(s, schedule[..|schedule| - 1]);
      if before.None? then None else Next(before.value, schedule[|schedule| - 1])
  }

  ghost predicate Reachable(s: State) {
    exists schedule :: Run(INITIAL, schedule) == Some(s)
  }

  // ----- What the store shows -----

  /** The last closure on this key that the store carried out. */
  function LastOn(ops: seq<Op>, key: Key): Option<Op> {
    if ops == [] then None
    else
      var op := ops[|ops| - 1];
      if op.ok && op.key == key then Some(op) else LastOn(ops[..|ops| - 1], key)
  }

  predicate IsData(op: Op) {
    op.Import? || op.Apply?
  }

  /** The peer shows as online: data was stored and no later mark took it offline. All start offline. */
  predicate Online(ops: seq<Op>, key: Key) {
    LastOn(ops, key).Some? && IsData(LastOn(ops, key).value)
  }

  // ----- The invariant -----

  /** This closure ends the life of every lease imported for the key before it. */
  predicate Supersedes(op: Op, held: bool, key: Key) {
    op.key == key && (op.Close? || (op.Import? && held))
  }

  /** From its import up to `upto` nothing superseded the lease. */
  ghost predicate Alive(s: State, key: Key, lease: Lease, upto: nat) {
    && lease in s.history.since
    && var from := s.history.since[lease];
       && from < upto <= |s.ops|
       && s.ops[from] == Import(key, lease, true)
       && (forall m :: from < m < upto ==> !Supersedes(s.ops[m], m in s.history.held, key))
  }

  predicate IsWaiting(h: Holder) {
    h.PairWait? || h.DisconnectWait? || h.StopWait? || h.ChangesWait? || h.SnapshotWait?
  }

  ghost predicate HolderWaits(s: State) {
    && s.done <= |s.ops|
    && (IsWaiting(s.holder) ==> s.holder.at + 1 == |s.ops|)
    && (s.holder.PairWait? ==>
          && s.ops[s.holder.at].Import?
          && s.ops[s.holder.at].key == s.holder.call.key && s.ops[s.holder.at].lease == s.holder.call.lease)
    && (s.holder.DisconnectWait? || s.holder.StopWait? ==>
          s.ops[s.holder.at].Close? && s.ops[s.holder.at].key == s.holder.key)
  }

  ghost predicate LeasesFresh(s: State) {
    && (forall call :: call in s.pairs ==> call.lease < s.history.nextLease && call.lease !in s.history.since)
    && (forall c, d :: c in s.pairs && d in s.pairs && c.lease == d.lease ==> c == d)
    && (forall lease :: lease in s.history.since ==> lease < s.history.nextLease)
    && (s.holder.PairWait? ==>
          && s.holder.call.lease !in s.history.since && s.holder.call.lease < s.history.nextLease
          && (forall c :: c in s.pairs ==> c.lease != s.holder.call.lease))
    && (forall m :: m in s.history.held ==> m < |s.ops|)
    && (s.holder.PairWait? ==> s.holder.at !in s.history.held)
  }

  ghost predicate TableBounded(s: State) {
    |s.table.peers| <= MAX_PEERS && (s.holder.PairWait? ==> |s.table.peers| < MAX_PEERS)
  }

  ghost predicate LeasesAlive(s: State) {
    && (forall key :: key in s.table.peers ==> Alive(s, key, s.table.peers[key], |s.ops|))
    && (forall j :: 0 <= j < |s.ops| && s.ops[j].Apply? ==> Alive(s, s.ops[j].key, s.ops[j].lease, j))
    && (forall m :: m in s.history.closed ==> m < |s.ops| && s.ops[m].Close? && s.ops[m].ok)
  }

  /** A key that is out of the table and was marked is offline, once the accepted closures have run. */
  ghost predicate Settled(s: State) {
    forall key :: key !in s.table.peers && key !in s.history.lost && Online(s.ops, key) ==>
      (s.holder.PairWait? && s.holder.call.key == key) || (s.holder.PairFence? && s.holder.key == key)
  }

  /** A close of this key, sent no earlier than `first`, was seen to succeed. */
  ghost predicate ClosedSince(s: State, first: nat, key: Key) {
    exists a :: a in s.history.closed && first <= a < |s.ops| && s.ops[a] == Close(key, true)
  }

  ghost predicate StopProgress(s: State) {
    && (s.holder.StopNext? || s.holder.StopWait? ==> s.holder.first <= |s.ops| && s.table.peers == map[])
    && (s.holder.StopWait? ==> s.holder.first <= s.holder.at)
    && (s.holder.StopNext? || s.holder.StopWait? ==>
          forall key :: key in s.holder.all && key !in s.holder.rest && !(s.holder.StopWait? && key == s.holder.key) ==>
            ClosedSince(s, s.holder.first, key))
  }

  /** Every lease a sync may still use was put into the table by a pair that succeeded. */
  ghost predicate LeasesHeld(s: State) {
    forall lease :: lease in s.history.since ==> s.history.since[lease] in s.history.held
  }

  ghost predicate Inv(s: State) {
    HolderWaits(s) && LeasesFresh(s) && TableBounded(s) && LeasesAlive(s) && Settled(s) && StopProgress(s) && LeasesHeld(s)
  }

  lemma StepKeepsHolder(s: State, a: Action)
    requires HolderWaits(s) && Next(s, a).Some?
    ensures HolderWaits(Next(s, a).value)
  {
  }

  lemma PairKeepsFresh(s: State, a: Action)
    requires HolderWaits(s) && LeasesFresh(s) && PairNext(s, a).Some?
    ensures LeasesFresh(PairNext(s, a).value)
  {
  }

  lemma OthersKeepFresh(s: State, a: Action)
    requires HolderWaits(s) && LeasesFresh(s) && !IsPair(a) && Next(s, a).Some?
    ensures LeasesFresh(Next(s, a).value)
  {
  }

  lemma StepKeepsTable(s: State, a: Action)
    requires TableBounded(s) && Next(s, a).Some?
    ensures TableBounded(Next(s, a).value)
  {
  }

  /** A lease's life depends only on the closures up to then. */
  lemma AliveFrame(s: State, t: State, key: Key, lease: Lease, upto: nat)
    requires Alive(s, key, lease, upto) && upto <= |t.ops|
    requires forall m :: 0 <= m < upto ==> t.ops[m] == s.ops[m] && (m in t.history.held ==> m in s.history.held)
    requires lease in t.history.since && t.history.since[lease] == s.history.since[lease]
    ensures Alive(t, key, lease, upto)
  {
  }

  lemma AliveLonger(s: State, key: Key, lease: Lease, upto: nat)
    requires Alive(s, key, lease, upto) && upto < |s.ops| && !Supersedes(s.ops[upto], upto in s.history.held, key)
    ensures Alive(s, key, lease, upto + 1)
  {
  }

  /** Appending one closure keeps what is alive, except what it supersedes. */
  lemma AppendKeepsAlive(s: State, t: State, op: Op)
    requires HolderWaits(s) && LeasesFresh(s) && LeasesAlive(s)
    requires t.ops == s.ops + [op] && t.history.since == s.history.since && t.history.held == s.history.held
    requires t.history.closed == s.history.closed
    requires t.table.peers == s.table.peers || (op.Close? && t.table.peers == s.table.peers - {op.key})
    requires op.Close? ==> op.key !in t.table.peers
    requires op.Apply? ==> Current(s.table, op.key, op.lease)
    ensures LeasesAlive(t)
  {
    forall key | key in t.table.peers
      ensures Alive(t, key, t.table.peers[key], |t.ops|)
    {
      AliveFrame(s, t, key, s.table.peers[key], |s.ops|);
      AliveLonger(t, key, s.table.peers[key], |s.ops|);
    }
    forall j | 0 <= j < |t.ops| && t.ops[j].Apply?
      ensures Alive(t, t.ops[j].key, t.ops[j].lease, j)
    {
      AliveFrame(s, t, t.ops[j].key, t.ops[j].lease, j);
    }
  }

  /** Putting a freshly imported lease into the table. */
  lemma HoldKeepsAlive(s: State, t: State)
    requires HolderWaits(s) && LeasesFresh(s) && LeasesAlive(s)
    requires s.holder.PairWait? && PairNext(s, PairReturn(true)) == Some(t)
    ensures LeasesAlive(t)
  {
    var call, at := s.holder.call, s.holder.at;
    forall key | key in t.table.peers
      ensures Alive(t, key, t.table.peers[key], |t.ops|)
    {
      if key != call.key {
        AliveFrame(s, t, key, s.table.peers[key], at);
        AliveLonger(t, key, s.table.peers[key], at);
      }
    }
    forall j | 0 <= j < |t.ops| && t.ops[j].Apply?
      ensures Alive(t, t.ops[j].key, t.ops[j].lease, j)
    {
      AliveFrame(s, t, t.ops[j].key, t.ops[j].lease, j);
    }
  }

  lemma PairKeepsAlive(s: State, a: Action)
    requires HolderWaits(s) && LeasesFresh(s) && LeasesAlive(s) && PairNext(s, a).Some?
    ensures LeasesAlive(PairNext(s, a).value)
  {
    var t := PairNext(s, a).value;
    if a.PairReturn? && a.success {
      HoldKeepsAlive(s, t);
    } else if t.ops != s.ops {
      AppendKeepsAlive(s, t, t.ops[|s.ops|]);
    }
  }

  lemma CloseKeepsAlive(s: State, a: Action)
    requires HolderWaits(s) && LeasesFresh(s) && LeasesAlive(s) && StopProgress(s) && CloseNext(s, a).Some?
    ensures LeasesAlive(CloseNext(s, a).value)
  {
    var t := CloseNext(s, a).value;
    if t.ops != s.ops {
      assert a.StopSend? ==> a.key !in s.table.peers;
      AppendKeepsAlive(s, t, t.ops[|s.ops|]);
    }
  }

  lemma SyncKeepsAlive(s: State, a: Action)
    requires HolderWaits(s) && LeasesFresh(s) && LeasesAlive(s) && SyncNext(s, a).Some?
    ensures LeasesAlive(SyncNext(s, a).value)
  {
    var t := SyncNext(s, a).value;
    if t.ops != s.ops {
      AppendKeepsAlive(s, t, t.ops[|s.ops|]);
    }
  }

  lemma LastOnAppend(ops: seq<Op>, op: Op, key: Key)
    ensures LastOn(ops + [op], key) == if op.ok && op.key == key then Some(op) else LastOn(ops, key)
  {
    assert (ops + [op])[..|ops|] == ops;
  }

  lemma AppendSettles(s: State, t: State)
    requires t.ops == s.ops || (|t.ops| == |s.ops| + 1 && t.ops[..|s.ops|] == s.ops)
    ensures t.ops != s.ops ==>
              var op := t.ops[|s.ops|];
              forall key :: LastOn(t.ops, key) == (if op.ok && op.key == key then Some(op) else LastOn(s.ops, key))
  {
    if t.ops != s.ops {
      assert t.ops[..|s.ops|] + [t.ops[|s.ops|]] == t.ops;
      forall key {
        LastOnAppend(s.ops, t.ops[|s.ops|], key);
      }
    }
  }

  lemma PairKeepsSettled(s: State, a: Action)
    requires Settled(s) && PairNext(s, a).Some?
    ensures Settled(PairNext(s, a).value)
  {
    AppendSettles(s, PairNext(s, a).value);
  }

  lemma CloseKeepsSettled(s: State, a: Action)
    requires Settled(s) && StopProgress(s) && CloseNext(s, a).Some?
    ensures Settled(CloseNext(s, a).value)
  {
    AppendSettles(s, CloseNext(s, a).value);
  }

  lemma SyncKeepsSettled(s: State, a: Action)
    requires Settled(s) && SyncNext(s, a).Some?
    ensures Settled(SyncNext(s, a).value)
  {
    AppendSettles(s, SyncNext(s, a).value);
  }

  lemma StepKeepsStop(s: State, a: Action)
    requires HolderWaits(s) && StopProgress(s) && Next(s, a).Some?
    ensures StopProgress(Next(s, a).value)
  {
  }

  lemma StepKeepsHeld(s: State, a: Action)
    requires LeasesHeld(s) && Next(s, a).Some?
    ensures LeasesHeld(Next(s, a).value)
  {
  }

  lemma StepKeepsInv(s: State, a: Action)
    requires Inv(s) && Next(s, a).Some?
    ensures Inv(Next(s, a).value)
  {
    StepKeepsHeld(s, a);
    StepKeepsHolder(s, a);
    StepKeepsTable(s, a);
    StepKeepsStop(s, a);
    if IsPair(a) {
      PairKeepsFresh(s, a);
      PairKeepsAlive(s, a);
      PairKeepsSettled(s, a);
    } else {
      OthersKeepFresh(s, a);
      if IsClose(a) {
        CloseKeepsAlive(s, a);
        CloseKeepsSettled(s, a);
      } else {
        SyncKeepsAlive(s, a);
        SyncKeepsSettled(s, a);
      }
    }
  }

  lemma {:induction false} RunKeepsInv(s: State, schedule: seq<Action>)
    requires Inv(s) && Run(s, schedule).Some?
    ensures Inv(Run(s, schedule).value)
  {
    if schedule != [] {
      RunKeepsInv(s, schedule[..|schedule| - 1]);
      StepKeepsInv(Run(s, schedule[..|schedule| - 1]).value, schedule[|schedule| - 1]);
    }
  }

  lemma ReachableKeepsInv(s: State)
    requires Reachable(s)
    ensures Inv(s)
  {
    var schedule :| Run(INITIAL, schedule) == Some(s);
    RunKeepsInv(INITIAL, schedule);
  }

  // ----- What the fence promises -----

  lemma AtMostEightPeers(s: State)
    requires Reachable(s)
    ensures |s.table.peers| <= 8
  {
    ReachableKeepsInv(s);
  }

  /**
    Data reaches the store only through a lease that nothing has superseded. If the key was
    closed at `m`, or another client took its place there, then what is applied later came
    through a lease imported no earlier than `m`, even when the key was paired again.
   */
  lemma SupersededDataIsNeverApplied(s: State, m: nat, j: nat)
    requires Reachable(s) && m < j < |s.ops|
    requires s.ops[j].Apply? && Supersedes(s.ops[m], m in s.history.held, s.ops[j].key)
    ensures exists from :: m <= from < j && s.ops[from] == Import(s.ops[j].key, s.ops[j].lease, true)
  {
    ReachableKeepsInv(s);
    assert Alive(s, s.ops[j].key, s.ops[j].lease, j);
    assert s.history.since[s.ops[j].lease] < j;
  }

  lemma ClosedMeansClosed(s: State, a: nat)
    requires Reachable(s) && a in s.history.closed
    ensures a < |s.ops| && s.ops[a].Close? && s.ops[a].ok
  {
    ReachableKeepsInv(s);
  }

  /**
    Once a disconnect or stop has seen its mark succeed, the peer stays offline in the store at
    every later moment before a new pairing reaches the store. Sync and pair calls that were in
    flight, or had timed out with their closures still queued, cannot bring it back.
   */
  lemma {:induction false} OfflineUntilPairedAgain(s: State, a: nat, n: nat)
    requires Reachable(s) && a in s.history.closed && a < n <= |s.ops|
    requires forall j :: a < j < n && s.ops[j].Import? ==> s.ops[j].key != s.ops[a].key
    ensures !Online(s.ops[..n], s.ops[a].key)
    decreases n
  {
    ClosedMeansClosed(s, a);
    var key, m := s.ops[a].key, n - 1;
    OnlineStep(s.ops, key, m, n);
    if m > a {
      OfflineUntilPairedAgain(s, a, m);
      if s.ops[m].Apply? && s.ops[m].key == key {
        SupersededDataIsNeverApplied(s, a, m);
      }
    }
  }

  /** One more closure decides, if it is for this key and was carried out. */
  lemma OnlineStep(ops: seq<Op>, key: Key, m: nat, n: nat)
    requires n == m + 1 <= |ops|
    ensures Online(ops[..n], key) <==> if ops[m].ok && ops[m].key == key then IsData(ops[m]) else Online(ops[..m], key)
  {
    assert ops[..n] == ops[..m] + [ops[m]];
    LastOnAppend(ops[..m], ops[m], key);
  }

  /** A disconnect that returns Ok has its mark in the store already, and recorded as closed. */
  lemma DisconnectOkClosed(s: State, t: State)
    requires Reachable(s) && s.holder.DisconnectWait? && Next(s, DisconnectReturn(true)) == Some(t)
    ensures exists a :: a in t.history.closed && a < t.done <= |t.ops| && t.ops[a] == Close(s.holder.key, true)
  {
    ReachableKeepsInv(s);
    assert s.holder.at in t.history.closed;
  }

  /** A stop that returns Ok has done so for every peer it found in the table. */
  lemma StopOkClosedAll(s: State, key: Key)
    requires Reachable(s) && s.holder.StopNext? && s.holder.rest == {} && key in s.holder.all
    ensures ClosedSince(s, s.holder.first, key)
  {
    ReachableKeepsInv(s);
  }

  /** With the lock free, a key that no client holds and whose marks got through ends up offline. */
  lemma UnheldPeersSettleOffline(s: State, key: Key)
    requires Reachable(s) && s.holder.Free? && key !in s.table.peers && key !in s.history.lost
    ensures !Online(s.ops, key)
  {
    ReachableKeepsInv(s);
  }

  lemma ReachesNext(s: State, a: Action, t: State)
    requires Reachable(s) && Next(s, a) == Some(t)
    ensures Reachable(t)
  {
    var schedule :| Run(INITIAL, schedule) == Some(s);
    assert (schedule + [a])[..|schedule|] == schedule;
    assert Run(INITIAL, schedule + [a]) == Some(t);
  }

  /** A pair call past its first lock region, its import queued. */
  lemma PairIsQueued(s: State, call: PairCall) returns (t: State)
    requires Reachable(s) && s.holder.Free? && s.pairs == {} && s.table.peers == map[] && !s.table.shutdown
    requires call == PairCall(0, s.history.nextLease, s.table.generation)
    ensures Reachable(t)
    ensures t == s.(history := s.history.(nextLease := s.history.nextLease + 1),
                    ops := s.ops + [Import(0, call.lease, true)], holder := PairWait(call, |s.ops|))
  {
    assert {} + {call} == {call} && {call} - {call} == {};
    var begun := s.(pairs := {call}, history := s.history.(nextLease := s.history.nextLease + 1));
    ReachesNext(s, PairBegin(0), begun);
    t := begun.(pairs := {}, ops := s.ops + [Import(0, call.lease, true)], holder := PairWait(call, |s.ops|));
    ReachesNext(begun, PairCommit(call, true, true), t);
  }

  lemma QueuedRuns(s: State) returns (t: State)
    requires Reachable(s) && s.done < |s.ops|
    ensures Reachable(t) && t == s.(done := s.done + 1)
  {
    t := s.(done := s.done + 1);
    ReachesNext(s, StoreRun, t);
  }

  lemma PairsFirst() returns (t: State)
    ensures Reachable(t) && t.holder.Free? && t.pairs == {} && t.table.peers == map[0 := 0] && !t.table.shutdown
    ensures t.ops == [] + [Import(0, 0, true)] && t.done == 1 && t.history.held == {0} && t.history.lost == {}
    ensures t.history.closed == {}
  {
    assert Run(INITIAL, []) == Some(INITIAL);
    var waiting := PairIsQueued(INITIAL, PairCall(0, 0, 0));
    var stored := QueuedRuns(waiting);
    t := stored.(holder := Free, table := stored.table.(peers := stored.table.peers[0 := 0]),
                 history := stored.history.(since := stored.history.since[0 := 0], held := stored.history.held + {0}));
    ReachesNext(stored, PairReturn(true), t);
  }

  lemma ThenDisconnects(s: State) returns (t: State)
    requires Reachable(s) && s.holder.Free? && s.table.peers == map[0 := 0] && s.done == |s.ops| && s.history.lost == {}
    ensures Reachable(t) && t.holder.Free? && t.pairs == s.pairs && t.table.peers == map[] && t.table.shutdown == s.table.shutdown
    ensures t.ops == s.ops + [Close(0, true)] && t.done == s.done + 1 && t.history.held == s.history.held
    ensures t.history.closed == s.history.closed + {|s.ops|}
  {
    var waiting := s.(table := RemovePeer(s.table, 0), history := Mark(s.history, 0, true), ops := s.ops + [Close(0, true)],
                      holder := DisconnectWait(0, |s.ops|));
    ReachesNext(s, Disconnect(0, true, true), waiting);
    var stored := QueuedRuns(waiting);
    t := stored.(holder := Free, history := stored.history.(closed := stored.history.closed + {|s.ops|}));
    ReachesNext(stored, DisconnectReturn(true), t);
  }

  /**
    The offline mark is not kept until a later pair succeeds, only until one reaches the store:
    a pair that times out after its import is queued, and whose own fence the full queue then
    refuses, returns an error and leaves the peer online with no client behind it.
   */
  lemma FailedPairCanLeavePeerOnline() returns (s: State, a: nat)
    ensures Reachable(s) && s.holder.Free? && s.table.peers == map[] && s.done == |s.ops|
    ensures a in s.history.closed && a < |s.ops| && s.ops[a] == Close(0, true) && s.history.held == {0}
    ensures Online(s.ops, 0) && 0 in s.history.lost
  {
    var paired := PairsFirst();
    var closed := ThenDisconnects(paired);
    var call := PairCall(0, closed.history.nextLease, closed.table.generation);
    var waiting := PairIsQueued(closed, call);
    var fencing := waiting.(holder := PairFence(0));
    ReachesNext(waiting, PairReturn(false), fencing);
    var refused := fencing.(holder := Free, history := Mark(fencing.history, 0, false));
    ReachesNext(fencing, PairFenceSend(false, false), refused);
    s := QueuedRuns(refused);
    a := 1;
    LastOnAppend(closed.ops, Import(0, call.lease, true), 0);
  }

  /** No pair for this key succeeded by a closure between `a` and `n`. */
  ghost predicate NotPairedAgain(s: State, key: Key, a: nat, n: nat) {
    forall j :: a < j < n <= |s.ops| && j in s.history.held && s.ops[j].Import? ==> s.ops[j].key != key
  }

  /** The closure at `j` stored a snapshot of this key, and no mark carried out between it and `n` took it offline. */
  ghost predicate Unmarked(ops: seq<Op>, key: Key, j: nat, n: nat)
    requires j < n <= |ops|
  {
    && ops[j].ok && ops[j].Import? && ops[j].key == key
    && forall k :: j < k < n && ops[k].ok && ops[k].key == key ==> ops[k].Import?
  }

  /** Behind `a` some failed pair's import was carried out, and no mark behind that one. */
  ghost predicate StaysUnmarked(ops: seq<Op>, key: Key, a: nat, n: nat)
    requires n <= |ops|
  {
    exists j :: a < j < n && Unmarked(ops, key, j, n)
  }

  /** Until a later pair succeeds, nothing is synced: the only data for the key are imports of failed pairs. */
  lemma OnlyFailedPairsStore(s: State, a: nat, n: nat, j: nat)
    requires Reachable(s) && a in s.history.closed && a < j < n <= |s.ops| && NotPairedAgain(s, s.ops[a].key, a, n)
    requires s.ops[j].key == s.ops[a].key
    ensures !s.ops[j].Apply?
  {
    ReachableKeepsInv(s);
    if s.ops[j].Apply? {
      assert Alive(s, s.ops[j].key, s.ops[j].lease, j);
      var from := s.history.since[s.ops[j].lease];
      assert from in s.history.held && s.ops[from] == Import(s.ops[a].key, s.ops[j].lease, true);
      assert Supersedes(s.ops[a], a in s.history.held, s.ops[a].key);
    }
  }

  /**
    The exact condition. After a disconnect or stop that saw its mark succeed, and while no later
    pair has succeeded, the peer shows as online just when the import of a failed pair was carried
    out and every mark for the key behind it, that pair's own fence among them, was refused or failed.
   */
  lemma {:induction false} OnlineAfterCloseIff(s: State, a: nat, n: nat)
    requires Reachable(s) && a in s.history.closed && a < n <= |s.ops| && NotPairedAgain(s, s.ops[a].key, a, n)
    ensures Online(s.ops[..n], s.ops[a].key) <==> StaysUnmarked(s.ops, s.ops[a].key, a, n)
    decreases n
  {
    ClosedMeansClosed(s, a);
    var key, m := s.ops[a].key, n - 1;
    OnlineStep(s.ops, key, m, n);
    if m > a {
      OnlineAfterCloseIff(s, a, m);
      if s.ops[m].ok && s.ops[m].key == key {
        OnlyFailedPairsStore(s, a, n, m);
        LastDecides(s.ops, key, a, m, n);
      } else {
        UnmarkedUnchanged(s.ops, key, a, m, n);
      }
    }
  }

  lemma LastDecides(ops: seq<Op>, key: Key, a: nat, m: nat, n: nat)
    requires a < m && n == m + 1 <= |ops| && ops[m].ok && ops[m].key == key
    ensures StaysUnmarked(ops, key, a, n) <==> ops[m].Import?
  {
    if ops[m].Import? {
      assert Unmarked(ops, key, m, n);
    }
  }

  lemma UnmarkedUnchanged(ops: seq<Op>, key: Key, a: nat, m: nat, n: nat)
    requires a < m && n == m + 1 && n <= |ops| && !(ops[m].ok && ops[m].key == key)
    ensures StaysUnmarked(ops, key, a, n) <==> StaysUnmarked(ops, key, a, m)
  {
    assert forall j :: a < j < m ==> (Unmarked(ops, key, j, n) <==> Unmarked(ops, key, j, m));
    assert !Unmarked(ops, key, m, n);
  }

  // ----- Calls with the answers they get -----

  /** The schedule leads from `s` to `t`. The quantifier keeps `Run` folded where only this is needed. */
  ghost predicate Leads(s: State, schedule: seq<Action>, t: State) {
    forall steps :: steps == schedule ==> Run(s, steps) == Some(t)
  }

  lemma LeadsSelf(s: State)
    ensures Leads(s, [], s)
  {
  }

  lemma Then(s: State, schedule: seq<Action>, t: State, a: Action, u: State) returns (longer: seq<Action>)
    requires Leads(s, schedule, t) && Next(t, a) == Some(u)
    ensures longer == schedule + [a] && Leads(s, longer, u)
  {
    longer := schedule + [a];
    assert longer[..|schedule|] == schedule;
    assert Run(s, schedule) == Some(t);
  }

  lemma First(s: State, a: Action, t: State) returns (schedule: seq<Action>)
    requires Next(s, a) == Some(t)
    ensures schedule == [a] && Leads(s, schedule, t)
  {
    LeadsSelf(s);
    schedule := Then(s, [], s, a, t);
  }

  /** The last step of a schedule that leads somewhere. */
  lemma LeadsMost(s: State, schedule: seq<Action>, last: nat, u: State) returns (t: State)
    requires Leads(s, schedule, u) && |schedule| == last + 1
    ensures Leads(s, schedule[..last], t) && Next(t, schedule[last]) == Some(u)
  {
    assert Run(s, schedule) == Some(u);
    t := Run(s, schedule[..last]).value;
  }

  lemma LeadsNowhere(s: State, t: State)
    requires Leads(s, [], t)
    ensures t == s
  {
    assert Run(s, []) == Some(t);
  }

  lemma {:induction false} LeadsOn(s: State, first: seq<Action>, t: State, second: seq<Action>, u: State)
    requires Leads(s, first, t) && Leads(t, second, u)
    ensures Leads(s, first + second, u)
    decreases |second|
  {
    if second == [] {
      LeadsNowhere(t, u);
      assert first + second == first;
    } else {
      var last := |second| - 1;
      var most, a := second[..last], second[last];
      var v := LeadsMost(t, second, last, u);
      LeadsOn(s, first, t, most, v);
      var longer := Then(s, first + most, v, a, u);
      assert longer == first + second;
    }
  }

  /** A pair call begins unless the host is shutting down or holds eight peers; it is tied to the generation it saw. */
  lemma PairBeginsIff(s: State, key: Key)
    requires s.holder.Free?
    ensures
      Next(s, PairBegin(key))
      == if s.table.shutdown || |s.table.peers| >= 8 then None
         else Some(s.(pairs := s.pairs + {PairCall(key, s.history.nextLease, s.table.generation)},
                      history := s.history.(nextLease := s.history.nextLease + 1)))
  {
  }

  /** With its snapshot fetched it goes on just when nothing was stopped or disconnected since and there is room. */
  predicate StillWelcome(t: Table, call: PairCall) {
    !t.shutdown && t.generation == call.generation && |t.peers| < 8
  }

  lemma PairIsRefused(s: State, call: PairCall, accepted: bool, ok: bool)
    requires s.holder.Free? && call in s.pairs && !StillWelcome(s.table, call)
    ensures Leads(s, [PairCommit(call, accepted, ok)], s.(pairs := s.pairs - {call}))
  {
    var schedule := First(s, PairCommit(call, accepted, ok), s.(pairs := s.pairs - {call}));
  }

  /** The store takes its import and carries it out: the peer is held. */
  lemma PairSucceeds(s: State, call: PairCall)
    requires s.holder.Free? && call in s.pairs && StillWelcome(s.table, call) && s.done == |s.ops|
    ensures
      var n := |s.ops|;
      Leads(s, [PairCommit(call, true, true), StoreRun, PairReturn(true)],
            s.(pairs := s.pairs - {call}, ops := s.ops + [Import(call.key, call.lease, true)], done := n + 1,
               table := s.table.(peers := s.table.peers[call.key := call.lease]),
               history := s.history.(since := s.history.since[call.lease := n], held := s.history.held + {n})))
  {
    var n, ops := |s.ops|, s.ops + [Import(call.key, call.lease, true)];
    var waiting := s.(pairs := s.pairs - {call}, ops := ops, holder := PairWait(call, n));
    var schedule := First(s, PairCommit(call, true, true), waiting);
    var stored := waiting.(done := n + 1);
    schedule := Then(s, schedule, waiting, StoreRun, stored);
    assert stored.ops[n] == Import(call.key, call.lease, true);
    schedule := Then(s, schedule, stored, PairReturn(true),
                     s.(pairs := s.pairs - {call}, ops := ops, done := n + 1,
                        table := s.table.(peers := s.table.peers[call.key := call.lease]),
                        history := s.history.(since := s.history.since[call.lease := n], held := s.history.held + {n})));
  }

  /** The keys whose latest mark did not get through. */
  function LostAfter(lost: set<Key>, key: Key, marked: bool): set<Key> {
    if marked then lost - {key} else lost + {key}
  }

  /** It fails or times out: nothing is held, and the peer is marked offline behind the import. */
  lemma PairFails(s: State, call: PairCall, ok: bool, fenced: bool, marked: bool)
    requires s.holder.Free? && call in s.pairs && StillWelcome(s.table, call)
    ensures
      Leads(s, [PairCommit(call, true, ok), PairReturn(false), PairFenceSend(fenced, marked)],
            s.(pairs := s.pairs - {call},
               ops := if fenced then s.ops + [Import(call.key, call.lease, ok), Fence(call.key, marked)]
                      else s.ops + [Import(call.key, call.lease, ok)],
               history := s.history.(lost := LostAfter(s.history.lost, call.key, fenced && marked))))
  {
    var ops := s.ops + [Import(call.key, call.lease, ok)];
    var waiting := s.(pairs := s.pairs - {call}, ops := ops, holder := PairWait(call, |s.ops|));
    var schedule := First(s, PairCommit(call, true, ok), waiting);
    var fencing := waiting.(holder := PairFence(call.key));
    schedule := Then(s, schedule, waiting, PairReturn(false), fencing);
    assert ops + [Fence(call.key, marked)] == s.ops + [Import(call.key, call.lease, ok), Fence(call.key, marked)];
    schedule := Then(s, schedule, fencing, PairFenceSend(fenced, marked),
                     fencing.(holder := Free, ops := if fenced then ops + [Fence(call.key, marked)] else ops,
                              history := s.history.(lost := LostAfter(s.history.lost, call.key, fenced && marked))));
  }

  /** And so it is when the store does not even take the import. */
  lemma PairImportIsRefused(s: State, call: PairCall, ok: bool, fenced: bool, marked: bool)
    requires s.holder.Free? && call in s.pairs && StillWelcome(s.table, call)
    ensures
      Leads(s, [PairCommit(call, false, ok), PairFenceSend(fenced, marked)],
            s.(pairs := s.pairs - {call}, ops := if fenced then s.ops + [Fence(call.key, marked)] else s.ops,
               history := s.history.(lost := LostAfter(s.history.lost, call.key, fenced && marked))))
  {
    var fencing := s.(pairs := s.pairs - {call}, holder := PairFence(call.key));
    var schedule := First(s, PairCommit(call, false, ok), fencing);
    schedule := Then(s, schedule, fencing, PairFenceSend(fenced, marked),
                     fencing.(holder := Free, ops := if fenced then s.ops + [Fence(call.key, marked)] else s.ops,
                              history := s.history.(lost := LostAfter(s.history.lost, call.key, fenced && marked))));
  }

  /** A disconnect forgets the client, and the store hears of it. */
  lemma DisconnectSucceeds(s: State, key: Key)
    requires s.holder.Free? && s.done == |s.ops|
    ensures
      var n := |s.ops|;
      Leads(s, [Disconnect(key, true, true), StoreRun, DisconnectReturn(true)],
            s.(table := Table(s.table.peers - {key}, s.table.generation + 1, s.table.shutdown),
               ops := s.ops + [Close(key, true)], done := n + 1,
               history := s.history.(lost := s.history.lost - {key}, closed := s.history.closed + {n})))
  {
    var n := |s.ops|;
    var waiting := s.(table := Table(s.table.peers - {key}, s.table.generation + 1, s.table.shutdown), ops := s.ops + [Close(key, true)],
                      history := s.history.(lost := s.history.lost - {key}), holder := DisconnectWait(key, n));
    var schedule := First(s, Disconnect(key, true, true), waiting);
    var stored := waiting.(done := n + 1);
    schedule := Then(s, schedule, waiting, StoreRun, stored);
    assert stored.ops[n] == Close(key, true);
    schedule := Then(s, schedule, stored, DisconnectReturn(true),
                     stored.(holder := Free, history := stored.history.(closed := s.history.closed + {n})));
  }

  /** It forgets the client also when the store refuses, fails or does not answer in time. */
  lemma DisconnectFails(s: State, key: Key, ok: bool)
    requires s.holder.Free?
    ensures
      var table := Table(s.table.peers - {key}, s.table.generation + 1, s.table.shutdown);
      && Leads(s, [Disconnect(key, false, ok)], s.(table := table, history := s.history.(lost := s.history.lost + {key})))
      && Leads(s, [Disconnect(key, true, ok), DisconnectReturn(false)],
               s.(table := table, ops := s.ops + [Close(key, ok)],
                  history := s.history.(lost := LostAfter(s.history.lost, key, ok))))
  {
    var table := Table(s.table.peers - {key}, s.table.generation + 1, s.table.shutdown);
    var schedule := First(s, Disconnect(key, false, ok), s.(table := table, history := s.history.(lost := s.history.lost + {key})));
    var waiting := s.(table := table, ops := s.ops + [Close(key, ok)], holder := DisconnectWait(key, |s.ops|),
                      history := s.history.(lost := LostAfter(s.history.lost, key, ok)));
    schedule := First(s, Disconnect(key, true, ok), waiting);
    schedule := Then(s, schedule, waiting, DisconnectReturn(false), waiting.(holder := Free));
  }

  /** A stop forgets all clients at once, and then tells the store of each. */
  lemma StopBegins(s: State)
    requires s.holder.Free?
    ensures
      var keys := s.table.peers.Keys;
      Leads(s, [StopLock], s.(table := Table(map[], s.table.generation + 1, s.table.shutdown),
                              holder := StopNext(|s.ops|, keys, keys),
                              history := s.history.(lost := s.history.lost + keys)))
  {
    var keys := s.table.peers.Keys;
    var schedule := First(s, StopLock, s.(table := Table(map[], s.table.generation + 1, s.table.shutdown),
                                          holder := StopNext(|s.ops|, keys, keys),
                                          history := s.history.(lost := s.history.lost + keys)));
  }

  /** A stop with one more mark got through. */
  function Marked(s: State, key: Key): State
    requires s.holder.StopNext?
  {
    s.(ops := s.ops + [Close(key, true)], done := |s.ops| + 1,
       holder := StopNext(s.holder.first, s.holder.all, s.holder.rest - {key}),
       history := s.history.(lost := s.history.lost - {key}, closed := s.history.closed + {|s.ops|}))
  }

  lemma StopMarks(s: State, key: Key) returns (schedule: seq<Action>)
    requires s.holder.StopNext? && key in s.holder.rest && s.done == |s.ops|
    ensures Leads(s, schedule, Marked(s, key))
  {
    var n, rest := |s.ops|, s.holder.rest - {key};
    var waiting := s.(ops := s.ops + [Close(key, true)], history := s.history.(lost := s.history.lost - {key}),
                      holder := StopWait(key, n, s.holder.first, s.holder.all, rest));
    schedule := First(s, StopSend(key, true, true), waiting);
    var stored := waiting.(done := n + 1);
    schedule := Then(s, schedule, waiting, StoreRun, stored);
    assert stored.ops[n] == Close(key, true);
    schedule := Then(s, schedule, stored, StopReturn(true), Marked(s, key));
  }

  /** The first mark that fails ends a stop, with the clients gone all the same. */
  lemma StopGivesUp(s: State, key: Key, ok: bool)
    requires s.holder.StopNext? && key in s.holder.rest
    ensures Leads(s, [StopSend(key, false, ok)], s.(holder := Free))
    ensures
      Leads(s, [StopSend(key, true, ok), StopReturn(false)],
            s.(holder := Free, ops := s.ops + [Close(key, ok)], history := s.history.(lost := LostAfter(s.history.lost, key, ok))))
  {
    var schedule := First(s, StopSend(key, false, ok), s.(holder := Free));
    var waiting := s.(ops := s.ops + [Close(key, ok)], history := s.history.(lost := LostAfter(s.history.lost, key, ok)),
                      holder := StopWait(key, |s.ops|, s.holder.first, s.holder.all, s.holder.rest - {key}));
    schedule := First(s, StopSend(key, true, ok), waiting);
    schedule := Then(s, schedule, waiting, StopReturn(false), waiting.(holder := Free));
  }

  /** The closures a stop sends, one for each key. */
  ghost predicate MarksFor(marks: seq<Op>, keys: set<Key>) {
    && |marks| == |keys|
    && (forall i :: 0 <= i < |marks| ==> marks[i].Close? && marks[i].ok && marks[i].key in keys)
    && (forall key :: key in keys ==> Close(key, true) in marks)
  }

  /** What a stop that gets these marks through comes to. */
  ghost predicate Stopped(s: State, t: State, lost: set<Key>, marks: seq<Op>) {
    && t.holder.Free? && t.table == s.table && t.ops == s.ops + marks && t.done == |t.ops|
    && t.pairs == s.pairs && t.sync == s.sync && t.history.lost == lost
  }

  lemma StopIsDone(s: State) returns (schedule: seq<Action>, t: State)
    requires s.holder.StopNext? && s.holder.rest == {} && s.done == |s.ops|
    ensures Leads(s, schedule, t) && Stopped(s, t, s.history.lost, [])
  {
    t := s.(holder := Free);
    schedule := First(s, StopDone, t);
    assert s.ops + [] == s.ops;
  }

  lemma MarksForOneMore(key: Key, marks: seq<Op>, keys: set<Key>)
    requires key in keys && MarksFor(marks, keys - {key})
    ensures MarksFor([Close(key, true)] + marks, keys)
  {
    var all := [Close(key, true)] + marks;
    assert forall i :: 0 <= i < |marks| ==> all[i + 1] == marks[i];
    forall k | k in keys
      ensures Close(k, true) in all
    {
      assert k != key ==> Close(k, true) in marks;
    }
  }

  /** Left alone, a stop gets a mark for every peer it found through and lets go of the lock. */
  lemma {:induction false} StopFinishes(s: State) returns (schedule: seq<Action>, t: State, marks: seq<Op>)
    requires s.holder.StopNext? && s.done == |s.ops|
    ensures Leads(s, schedule, t) && Stopped(s, t, s.history.lost - s.holder.rest, marks) && MarksFor(marks, s.holder.rest)
    decreases |s.holder.rest|
  {
    var keys := s.holder.rest;
    if keys == {} {
      schedule, t := StopIsDone(s);
      marks := [];
      assert s.history.lost - keys == s.history.lost;
    } else {
      var key :| key in keys;
      var first := StopMarks(s, key);
      var second, end, left := StopFinishes(Marked(s, key));
      LeadsOn(s, first, Marked(s, key), second, end);
      MarksForOneMore(key, left, keys);
      assert s.ops + ([Close(key, true)] + left) == (s.ops + [Close(key, true)]) + left;
      assert s.history.lost - {key} - (keys - {key}) == s.history.lost - keys;
      schedule, t, marks := first + second, end, [Close(key, true)] + left;
    }
  }

  /** The client the sync thread fetched through is still the one held for the key. */
  predicate StillHeld(t: Table, key: Key, lease: Lease) {
    !t.shutdown && key in t.peers && t.peers[key] == lease
  }

  /** The sync thread takes up a client that was paired, and may end with nothing fetched. */
  lemma SyncBegins(s: State, key: Key, lease: Lease)
    requires s.sync.Resting? && lease in s.history.since
    ensures Leads(s, [SyncBegin(key, lease)], s.(sync := FetchingChanges(key, lease)))
    ensures Leads(s, [SyncBegin(key, lease), SyncGiveUp], s)
  {
    var schedule := First(s, SyncBegin(key, lease), s.(sync := FetchingChanges(key, lease)));
    schedule := Then(s, schedule, s.(sync := FetchingChanges(key, lease)), SyncGiveUp, s);
  }

  /** Whatever was fetched, a sync whose client is gone leaves everything as it is, in each of its lock regions. */
  lemma SyncStopsWithoutClient(s: State, fetched: bool, accepted: bool, ok: bool)
    requires s.holder.Free? && !s.sync.Resting? && !StillHeld(s.table, s.sync.key, s.sync.lease)
    ensures
      Leads(s, [match s.sync
                case FetchingChanges(_, _) => SyncChanges(fetched, accepted, ok)
                case FetchingSnapshot(_, _) => SyncSnapshot(fetched, accepted, ok)
                case _ => SyncRecheck], s.(sync := Resting))
  {
    var a := match s.sync
             case FetchingChanges(_, _) => SyncChanges(fetched, accepted, ok)
             case FetchingSnapshot(_, _) => SyncSnapshot(fetched, accepted, ok)
             case _ => SyncRecheck;
    var schedule := First(s, a, s.(sync := Resting));
  }

  /** Fetched changes of a client that is still held are applied. */
  lemma ChangesAreApplied(s: State, key: Key, lease: Lease)
    requires s.holder.Free? && s.sync == FetchingChanges(key, lease) && StillHeld(s.table, key, lease) && s.done == |s.ops|
    ensures
      Leads(s, [SyncChanges(true, true, true), StoreRun, SyncChangesReturn(true)],
            s.(sync := Resting, ops := s.ops + [Op.Apply(key, lease, true)], done := |s.ops| + 1))
  {
    var n, ops := |s.ops|, s.ops + [Op.Apply(key, lease, true)];
    var waiting := s.(ops := ops, holder := ChangesWait(key, lease, n));
    var schedule := First(s, SyncChanges(true, true, true), waiting);
    var stored := waiting.(done := n + 1);
    schedule := Then(s, schedule, waiting, StoreRun, stored);
    assert stored.ops[n] == Op.Apply(key, lease, true);
    schedule := Then(s, schedule, stored, SyncChangesReturn(true), stored.(holder := Free, sync := Resting));
  }

  /** If they cannot be fetched or applied, a snapshot is fetched in their place, again only while the client is held. */
  lemma ChangesGiveWayToSnapshot(s: State, key: Key, lease: Lease, ok: bool)
    requires s.holder.Free? && s.sync == FetchingChanges(key, lease) && StillHeld(s.table, key, lease)
    ensures
      && Leads(s, [SyncChanges(false, true, ok), SyncRecheck], s.(sync := FetchingSnapshot(key, lease)))
      && Leads(s, [SyncChanges(true, false, ok), SyncRecheck], s.(sync := FetchingSnapshot(key, lease)))
      && Leads(s, [SyncChanges(true, true, ok), SyncChangesReturn(false), SyncRecheck],
               s.(sync := FetchingSnapshot(key, lease), ops := s.ops + [Op.Apply(key, lease, ok)]))
  {
    var again := s.(sync := Rechecking(key, lease));
    var schedule := First(s, SyncChanges(false, true, ok), again);
    schedule := Then(s, schedule, again, SyncRecheck, s.(sync := FetchingSnapshot(key, lease)));
    schedule := First(s, SyncChanges(true, false, ok), again);
    schedule := Then(s, schedule, again, SyncRecheck, s.(sync := FetchingSnapshot(key, lease)));
    var tried := s.(ops := s.ops + [Op.Apply(key, lease, ok)]);
    schedule := First(s, SyncChanges(true, true, ok), tried.(holder := ChangesWait(key, lease, |s.ops|)));
    schedule := Then(s, schedule, tried.(holder := ChangesWait(key, lease, |s.ops|)), SyncChangesReturn(false),
                     tried.(sync := Rechecking(key, lease)));
    schedule := Then(s, schedule, tried.(sync := Rechecking(key, lease)), SyncRecheck, tried.(sync := FetchingSnapshot(key, lease)));
  }

  /** A fetched snapshot of a client that is still held is applied. */
  lemma SnapshotIsApplied(s: State, key: Key, lease: Lease)
    requires s.holder.Free? && s.sync == FetchingSnapshot(key, lease) && StillHeld(s.table, key, lease) && s.done == |s.ops|
    ensures
      Leads(s, [SyncSnapshot(true, true, true), StoreRun, SyncSnapshotReturn(true)],
            s.(sync := Resting, ops := s.ops + [Op.Apply(key, lease, true)], done := |s.ops| + 1))
  {
    var n, ops := |s.ops|, s.ops + [Op.Apply(key, lease, true)];
    var waiting := s.(ops := ops, holder := SnapshotWait(key, lease, n));
    var schedule := First(s, SyncSnapshot(true, true, true), waiting);
    var stored := waiting.(done := n + 1);
    schedule := Then(s, schedule, waiting, StoreRun, stored);
    assert stored.ops[n] == Op.Apply(key, lease, true);
    schedule := Then(s, schedule, stored, SyncSnapshotReturn(true), stored.(holder := Free, sync := Resting));
  }

  /** If it cannot be fetched or applied, the peer is marked offline. */
  lemma SnapshotFails(s: State, key: Key, lease: Lease, ok: bool, fenced: bool, marked: bool)
    requires s.holder.Free? && s.sync == FetchingSnapshot(key, lease) && StillHeld(s.table, key, lease)
    ensures
      var lost := LostAfter(s.history.lost, key, fenced && marked);
      var fence := if fenced then [Fence(key, marked)] else [];
      var resting := s.(sync := Resting, history := s.history.(lost := lost));
      && Leads(s, [SyncSnapshot(false, true, ok), SyncFenceSend(fenced, marked)], resting.(ops := s.ops + fence))
      && Leads(s, [SyncSnapshot(true, false, ok), SyncFenceSend(fenced, marked)], resting.(ops := s.ops + fence))
      && Leads(s, [SyncSnapshot(true, true, ok), SyncSnapshotReturn(false), SyncFenceSend(fenced, marked)],
               resting.(ops := s.ops + [Op.Apply(key, lease, ok)] + fence))
  {
    var fencing := s.(holder := SyncFence(key));
    SyncFences(fencing, key, fenced, marked);
    var schedule := First(s, SyncSnapshot(false, true, ok), fencing);
    LeadsOn(s, schedule, fencing, [SyncFenceSend(fenced, marked)], Fenced(fencing, key, fenced, marked));
    schedule := First(s, SyncSnapshot(true, false, ok), fencing);
    LeadsOn(s, schedule, fencing, [SyncFenceSend(fenced, marked)], Fenced(fencing, key, fenced, marked));
    var tried := s.(ops := s.ops + [Op.Apply(key, lease, ok)]);
    schedule := First(s, SyncSnapshot(true, true, ok), tried.(holder := SnapshotWait(key, lease, |s.ops|)));
    var late := tried.(holder := SyncFence(key));
    SyncFences(late, key, fenced, marked);
    schedule := Then(s, schedule, tried.(holder := SnapshotWait(key, lease, |s.ops|)), SyncSnapshotReturn(false), late);
    LeadsOn(s, schedule, late, [SyncFenceSend(fenced, marked)], Fenced(late, key, fenced, marked));
  }

  function Fenced(s: State, key: Key, fenced: bool, marked: bool): State {
    s.(holder := Free, sync := Resting, history := s.history.(lost := LostAfter(s.history.lost, key, fenced && marked)),
       ops := s.ops + if fenced then [Fence(key, marked)] else [])
  }

  lemma SyncFences(s: State, key: Key, fenced: bool, marked: bool)
    requires s.holder == SyncFence(key)
    ensures Leads(s, [SyncFenceSend(fenced, marked)], Fenced(s, key, fenced, marked))
  {
    assert s.ops + [] == s.ops;
    var schedule := First(s, SyncFenceSend(fenced, marked), Fenced(s, key, fenced, marked));
  }

  /** The shutdown flag goes up and nothing else changes; after it no pair and no sync goes on. */
  lemma ShutdownTakesEffect(s: State)
    ensures Leads(s, [Shutdown], s.(table := Table(s.table.peers, s.table.generation, true)))
  {
    var schedule := First(s, Shutdown, s.(table := Table(s.table.peers, s.table.generation, true)));
  }

  // ----- The table in place -----

  /** The peer table under its lock. */
  class Peers {
    var peers: map<Key, Lease>
    var generation: nat
    var shutdown: bool

    function View(): Table
      reads this
    {
      Table(peers, generation, shutdown)
    }

    ghost predicate Valid()
      reads this
    {
      |peers| <= MAX_PEERS
    }

    constructor ()
      ensures Valid() && View() == INITIAL.table
    {
      peers, generation, shutdown := map[], 0, false;
    }

    /** The second lock region of pair, its store call having succeeded. */
    method Pair(call: PairCall) returns (held: bool)
      requires Valid()
      modifies this`peers
      ensures Valid() && (held <==> !shutdown && generation == call.generation && |old(peers)| < 8)
      ensures peers == if held then old(peers)[call.key := call.lease] else old(peers)
    {
      held := !shutdown && generation == call.generation && |peers| < MAX_PEERS;
      if held {
        peers := peers[call.key := call.lease];
      }
    }

    method Disconnect(key: Key)
      requires Valid()
      modifies this
      ensures Valid() && peers == old(peers) - {key} && generation == old(generation) + 1 && shutdown == old(shutdown)
    {
      peers := peers - {key};
      generation := generation + 1;
    }

    /** Stop empties the table at once and returns the keys it still has to mark. */
    method Stop() returns (keys: set<Key>)
      requires Valid()
      modifies this
      ensures Valid() && keys == old(peers).Keys
      ensures peers == map[] && generation == old(generation) + 1 && shutdown == old(shutdown)
    {
      keys := peers.Keys;
      peers := map[];
      generation := generation + 1;
    }
  }
}
