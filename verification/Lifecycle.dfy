/**
 The whole service as a machine: submissions, the scheduler's slots and
 reservations, workers, crashes, and startup recovery, interleaved in any order.
 Every step is bounded by what the corresponding operation guarantees.
 */
module Lifecycle {
  import opened Common
  import opened Disk
  import opened Protocol
  import opened Census
  import opened Invariants
  import opened StartupRecovery
  import Acceptance
  import Mending
  import Names
  import Preparation
  import Reconciliation
  import Snapshot
  import Status

  datatype System = System(
    disk: Disk,
    owner: Owners,                // every sequence published so far, and its event
    txns: map<string, Txn>,       // the open transaction of each event
    up: bool,                     // a scheduler is running
    slots: map<int, string>,      // _worker_slots
    reserved: map<string, int>,   // _event_reservations
    starts: seq<int>)             // sequences moved to RUNNING, in order

  datatype Action =
    | Accept(request: Acceptance.Request, sequence: int)
    | Abandon(sequence: int)
    | Reserve(sequence: int, unreadable: set<int>)
    | Start(sequence: int, now: int)
    | Rewrite(sequence: int, record: Status.Record)
    | Prepare(sequence: int, key: Key, hash: Snapshot.Hash)
    | Follow(eventId: string)
    | Release(sequence: int)
    | Retain(sequence: int)
    | Crash
    | Recover(at: Place, now: int, cleared: bool)
    | Boot

  // ------------------------------------------------------------------- steps

  predicate WaitingFor(d: Disk, s: int, e: string) {
    s in d.queue && d.queue[s].record.status.Queued? && d.queue[s].record.eventId == e
  }

  /** What tick requires before it reserves a slot: the oldest readable entry of its event, below the first
      unreadable entry, its event neither reserved nor in transaction. */
  ghost predicate Eligible(a: System, s: int, unreadable: set<int>) {
    && s in a.disk.queue && s !in unreadable
    && var e := a.disk.queue[s].record.eventId;
       && WaitingFor(a.disk, s, e)
       && (forall u | u in unreadable :: s < u)
       && (forall q | WaitingFor(a.disk, q, e) && q !in unreadable :: s <= q)
       && e !in a.reserved && !Journaled(a.disk, InEvents(e))
  }

  ghost predicate Started(a: Disk, b: Disk, s: int, now: int) {
    && s in a.queue && a.queue[s].record.status.Queued?
    && var r := Status.Transition(a.queue[s].record, Status.Running, Status.NO_ARGUMENTS, Status.Utc(now));
       r.Ok? && RecordStep(a, b, s, r.value)
  }

  /** _release: the calculation is not running, and nothing of it is unfinished. */
  predicate MayRelease(d: Disk, s: int, e: string) {
    if s in d.queue then !d.queue[s].record.status.Running?
    else e in d.events ==> d.events[e].record.sequence == s && d.events[e].record.status.Terminal()
                           && d.events[e].journal.None?
  }

  predicate MayRetain(d: Disk, s: int, e: string) {
    s !in d.queue && e in d.events && d.events[e].record.sequence == s && d.events[e].record.status.Terminal()
  }

  function Unreserved(reserved: map<string, int>, e: string, s: int): map<string, int> {
    if e in reserved && reserved[e] == s then reserved - {e} else reserved
  }

  /** The status of the transaction's own record only advances. */
  predicate StatusAdvances(before: Disk, after: Disk, k: Key) {
    At(before, HolderOf(before, k)).Some? && At(after, HolderOf(after, k)).Some? ==>
      var was, now := At(before, HolderOf(before, k)).value.record.status, At(after, HolderOf(after, k)).value.record.status;
      now == was || now in Status.AllowedTransitions(was)
  }

  /** A transaction moves on or ends. */
  ghost predicate Follows(a: System, b: System, e: string) {
    && Stepped(a.disk, b.disk, a.txns, e)
    && StatusAdvances(a.disk, b.disk, a.txns[e].key)
    && (a.txns[e].key.sequence in b.disk.queue ==> b.disk.queue[a.txns[e].key.sequence].record.status.Running?)
    && b == a.(disk := b.disk, txns := Ledger(b.disk, a.txns, e))
  }

  ghost predicate Step(max: nat, a: System, b: System, action: Action) {
    match action
    case Accept(request, s) =>
      && request.WellFormed() && Acceptance.Accepted(a.disk, b.disk, s, Acceptance.NewEntry(request, s))
      && b == a.(disk := b.disk, owner := a.owner[s := request.eventId])
    case Abandon(s) =>
      Acceptance.Advanced(a.disk, b.disk, s) && b == a.(disk := b.disk)
    case Reserve(s, unreadable) =>
      && a.up && |a.slots| < max && Eligible(a, s, unreadable)
      && var e := a.disk.queue[s].record.eventId;
         b == a.(slots := a.slots[s := e], reserved := a.reserved[e := s])
    case Start(s, now) =>
      && s in a.slots && Started(a.disk, b.disk, s, now)
      && b == a.(disk := b.disk, starts := a.starts + [s])
    case Rewrite(s, r) =>
      && s in a.slots && RunningAt(a.disk, InQueue(s)) && RecordStep(a.disk, b.disk, s, r)
      && b == a.(disk := b.disk)
    case Prepare(s, k, hash) =>
      && s in a.slots && Preparation.Claimable(hash, a.disk, s) && Preparation.Underway(a.disk, b.disk, k, s)
      && b == a.(disk := b.disk, txns := a.txns[k.eventId := Txn(Preparation.OriginOf(a.disk, s), k)])
    case Follow(e) =>
      e in a.txns && a.txns[e].key.sequence in a.slots && Follows(a, b, e)
    case Release(s) =>
      && s in a.slots && MayRelease(a.disk, s, a.slots[s])
      && b == a.(slots := a.slots - {s}, reserved := Unreserved(a.reserved, a.slots[s], s))
    case Retain(s) =>
      && s in a.slots && MayRetain(a.disk, s, a.slots[s]) && b == a.(slots := a.slots - {s})
    case Crash =>
      b == a.(up := false, slots := map[], reserved := map[])
    case Recover(at, now, cleared) =>
      && !a.up && RecoveryStep(a.disk, b.disk, a.txns, at, now, cleared)
      && b == a.(disk := b.disk, txns := LedgerAfter(a.disk, b.disk, a.txns, at))
    case Boot =>
      && !a.up && (forall at :: !RunningAt(a.disk, at)) && b == a.(up := true)
  }

  ghost predicate Init(a: System) {
    && a.disk == Disk(map[], map[], map[], map[], None)
    && a.owner == map[] && a.txns == map[] && !a.up && a.slots == map[] && a.reserved == map[] && a.starts == []
  }

  // --------------------------------------------------------------- invariants

  /** Each slot's event is reserved by that same sequence. */
  predicate SlotsReserved(max: nat, a: System) {
    && |a.slots| <= max
    && (forall s | s in a.slots ::
          && s in a.owner && a.owner[s] == a.slots[s]
          && a.slots[s] in a.reserved && a.reserved[a.slots[s]] == s)
    && (!a.up ==> a.slots == map[] && a.reserved == map[])
  }

  /** While the service is up, every running record occupies a slot. */
  ghost predicate RunningHaveSlots(a: System) {
    a.up ==> forall at | RunningAt(a.disk, at) :: At(a.disk, at).value.record.sequence in a.slots
  }

  /** An entry with a slot, and not yet started, still has its way clear and is still the oldest. */
  ghost predicate ClaimsHold(a: System) {
    forall s | s in a.slots && WaitingFor(a.disk, s, a.slots[s]) ::
      && !Journaled(a.disk, InEvents(a.slots[s]))
      && forall q | WaitingFor(a.disk, q, a.slots[s]) :: s <= q
  }

  /** Starts of one event are in order of acceptance, and everything still waiting comes later. */
  ghost predicate StartsInOrder(a: System) {
    && (forall i | 0 <= i < |a.starts| :: a.starts[i] in a.owner)
    && (forall i, j | 0 <= i < j < |a.starts| && a.owner[a.starts[i]] == a.owner[a.starts[j]] ::
          a.starts[i] < a.starts[j])
    && (forall i, q | 0 <= i < |a.starts| && WaitingFor(a.disk, q, a.owner[a.starts[i]]) :: a.starts[i] < q)
  }

  ghost predicate Inv(max: nat, a: System) {
    && DiskInv(a.disk, a.owner, a.txns)
    && SlotsReserved(max, a) && RunningHaveSlots(a) && ClaimsHold(a) && StartsInOrder(a)
  }

  // ------------------------------------------------- scheduler facts per step

  /** Steps of a transaction start nothing and add nothing to the queue. */
  lemma WaitingAfterStep(before: Disk, after: Disk, owner: Owners, txns: map<string, Txn>, e: string, q: int, f: string)
    requires TransactionStep(before, after, owner, txns, e) && WaitingFor(after, q, f)
    ensures WaitingFor(before, q, f) && q != txns[e].key.sequence
  {
    hide TransactionStep, Status.Valid;
    StepTakers(before, after, owner, txns, e);
    RecordsAfterStep(before, after, owner, txns, e, InQueue(q));
  }

  lemma StepTakers(before: Disk, after: Disk, owner: Owners, txns: map<string, Txn>, e: string)
    requires TransactionStep(before, after, owner, txns, e)
    ensures e in txns && txns[e].key.eventId == e
    ensures txns[e].key.sequence in owner && owner[txns[e].key.sequence] == e
  {
    hide Stepped, Live;
  }

  /** Only a transaction of a calculation that holds a slot, or of a stopped service, moves. */
  predicate Worked(a: System, k: Key) {
    a.up ==> k.sequence in a.slots
  }

  lemma TransactionKeepsRunning(max: nat, a: System, b: System, txns: map<string, Txn>, e: string)
    requires Inv(max, a) && TransactionStep(a.disk, b.disk, a.owner, txns, e) && Worked(a, txns[e].key)
    requires b.up == a.up && b.slots == a.slots
    ensures RunningHaveSlots(b)
  {
    hide TransactionStep, DiskInv;
    if b.up {
      forall at | RunningAt(b.disk, at) ensures At(b.disk, at).value.record.sequence in b.slots {
        RunningAfterStep(a.disk, b.disk, a.owner, txns, e, at);
      }
    }
  }

  lemma TransactionKeepsClaims(max: nat, a: System, b: System, txns: map<string, Txn>, e: string)
    requires Inv(max, a) && TransactionStep(a.disk, b.disk, a.owner, txns, e) && Worked(a, txns[e].key)
    requires b.up == a.up && b.slots == a.slots
    ensures ClaimsHold(b)
  {
    hide TransactionStep, DiskInv;
    StepTakers(a.disk, b.disk, a.owner, txns, e);
    forall s | s in b.slots && WaitingFor(b.disk, s, b.slots[s])
      ensures !Journaled(b.disk, InEvents(b.slots[s]))
      ensures forall q | WaitingFor(b.disk, q, b.slots[s]) :: s <= q
    {
      WaitingAfterStep(a.disk, b.disk, a.owner, txns, e, s, b.slots[s]);
      OthersStayPut(a.disk, b.disk, a.owner, txns, e, b.slots[s]);
      forall q | WaitingFor(b.disk, q, b.slots[s]) ensures s <= q {
        WaitingAfterStep(a.disk, b.disk, a.owner, txns, e, q, b.slots[s]);
      }
    }
  }

  lemma TransactionKeepsOrder(max: nat, a: System, b: System, txns: map<string, Txn>, e: string)
    requires Inv(max, a) && TransactionStep(a.disk, b.disk, a.owner, txns, e)
    requires b.owner == a.owner && b.starts == a.starts
    ensures StartsInOrder(b)
  {
    hide TransactionStep, DiskInv;
    forall i, q | 0 <= i < |b.starts| && WaitingFor(b.disk, q, b.owner[b.starts[i]]) ensures b.starts[i] < q {
      WaitingAfterStep(a.disk, b.disk, a.owner, txns, e, q, b.owner[b.starts[i]]);
    }
  }

  /** Any step of any transaction keeps everything. */
  lemma TransactionKeepsInv(max: nat, a: System, b: System, txns: map<string, Txn>, e: string)
    requires Inv(max, a) && TransactionStep(a.disk, b.disk, a.owner, txns, e) && Worked(a, txns[e].key)
    requires forall f | f in txns && f != e :: f in a.txns && txns[f] == a.txns[f]
    requires TreesMatchRecords(a.disk, txns) && OriginsMatch(txns) && ArchivedOnce(a.disk, txns)
    requires b == a.(disk := b.disk, txns := Ledger(b.disk, txns, e))
    ensures Inv(max, b) && ArchiveGrows(a.disk, b.disk)
  {
    hide TransactionStep, Coherent, ArchivedOnce, RunningHaveSlots, ClaimsHold, StartsInOrder;
    TransactionStepKeepsInv(a.disk, b.disk, a.owner, txns, e);
    TransactionKeepsRunning(max, a, b, txns, e);
    TransactionKeepsClaims(max, a, b, txns, e);
    TransactionKeepsOrder(max, a, b, txns, e);
  }

  // ------------------------------------------------------ preservation, by action

  lemma FollowKeepsInv(max: nat, a: System, b: System, e: string)
    requires Inv(max, a) && Step(max, a, b, Follow(e))
    ensures Inv(max, b) && ArchiveGrows(a.disk, b.disk)
  {
    hide Coherent, ArchivedOnce, Stepped, RunningHaveSlots, ClaimsHold, StartsInOrder;
    FollowingIsAStep(a.disk, b.disk, a.owner, a.txns, e);
    TransactionKeepsInv(max, a, b, a.txns, e);
  }

  lemma PrepareKeepsInv(max: nat, a: System, b: System, s: int, k: Key, hash: Snapshot.Hash)
    requires Inv(max, a) && Step(max, a, b, Prepare(s, k, hash))
    ensures Inv(max, b) && ArchiveGrows(a.disk, b.disk)
  {
    hide DiskInv, RunningHaveSlots, ClaimsHold, StartsInOrder, Preparation.Claimable, Preparation.Underway;
    BeginIsAStep(hash, a.disk, b.disk, a.owner, a.txns, k, s);
    var t := Txn(Preparation.OriginOf(a.disk, s), k);
    BegunIsInLedger(hash, a.disk, b.disk, a.txns, k, s);
    TransactionKeepsInv(max, a, b, a.txns[k.eventId := t], k.eventId);
  }

  lemma BegunIsInLedger(hash: Snapshot.Hash, before: Disk, after: Disk, txns: map<string, Txn>, k: Key, s: int)
    requires Preparation.Claimable(hash, before, s) && Preparation.Underway(before, after, k, s)
    ensures var now := txns[k.eventId := Txn(Preparation.OriginOf(before, s), k)];
      Ledger(after, now, k.eventId) == now
  {
    hide InTransaction, Preparation.Claimable;
  }

  lemma AcceptKeepsInv(max: nat, a: System, b: System, request: Acceptance.Request, s: int)
    requires Inv(max, a) && Step(max, a, b, Accept(request, s))
    ensures Inv(max, b) && ArchiveGrows(a.disk, b.disk) && forall q | q in a.owner :: q < s
  {
    hide Coherent, ArchivedOnce, UnpromotedAreRunning, OneRunningPerEvent, Status.Valid;
    var entry := Acceptance.NewEntry(request, s);
    Acceptance.NewEntriesAreValid(request, s);
    AcceptanceKeepsInv(a.disk, b.disk, a.owner, a.txns, s, entry);
    AcceptKeepsSchedule(max, a, b, request, s);
  }

  lemma AcceptKeepsSchedule(max: nat, a: System, b: System, request: Acceptance.Request, s: int)
    requires Inv(max, a) && Step(max, a, b, Accept(request, s))
    requires s !in a.owner && forall q | q in a.owner :: q < s
    ensures SlotsReserved(max, b) && RunningHaveSlots(b) && ClaimsHold(b) && StartsInOrder(b)
  {
    hide DiskInv, Status.Valid;
    assert forall at | at != InQueue(s) :: At(b.disk, at) == At(a.disk, at);
    assert forall q, f | q != s :: WaitingFor(b.disk, q, f) == WaitingFor(a.disk, q, f);
    assert forall e :: Journaled(b.disk, InEvents(e)) == Journaled(a.disk, InEvents(e));
  }

  lemma ReserveKeepsInv(max: nat, a: System, b: System, s: int, unreadable: set<int>)
    requires Inv(max, a) && Step(max, a, b, Reserve(s, unreadable))
    ensures Inv(max, b)
  {
    hide DiskInv, SlotsReserved, ClaimsHold, Eligible;
    ReserveKeepsSlots(max, a, b, s, unreadable);
    ReserveKeepsClaims(max, a, b, s, unreadable);
  }

  lemma ReserveKeepsSlots(max: nat, a: System, b: System, s: int, unreadable: set<int>)
    requires Inv(max, a) && Step(max, a, b, Reserve(s, unreadable))
    ensures SlotsReserved(max, b)
  {
    hide Live, Status.Valid, OneRunningPerEvent, ArchivedOnce, StartedAreUnobstructed, StartsInOrder, ClaimsHold;
    SlotCount(a.slots, s, a.disk.queue[s].record.eventId);
  }

  lemma ReserveKeepsClaims(max: nat, a: System, b: System, s: int, unreadable: set<int>)
    requires Inv(max, a) && Step(max, a, b, Reserve(s, unreadable))
    ensures ClaimsHold(b)
  {
    hide DiskInv, StartsInOrder, RunningHaveSlots;
    forall q | WaitingFor(b.disk, q, a.disk.queue[s].record.eventId) ensures s <= q {
      if q in unreadable {
        assert s < q;
      }
    }
  }

  lemma SlotCount(slots: map<int, string>, s: int, e: string)
    ensures |slots[s := e]| <= |slots| + 1
    ensures |slots - {s}| <= |slots|
  {
    assert slots[s := e].Keys == slots.Keys + {s};
    assert (slots - {s}).Keys == slots.Keys - {s};
    Names.SubsetSize((slots - {s}).Keys, slots.Keys);
    assert |slots[s := e].Keys| == |slots[s := e]| && |slots.Keys| == |slots| && |(slots - {s}).Keys| == |slots - {s}|;
  }

  /** Nothing of the event runs while its oldest entry waits in its slot. */
  lemma ClaimedMayStart(max: nat, a: System, s: int)
    requires Inv(max, a) && s in a.slots && WaitingFor(a.disk, s, a.slots[s])
    ensures MayStart(a.disk, s)
  {
    hide Live, Status.Valid, OneRunningPerEvent, ArchivedOnce, StartedAreUnobstructed, StartsInOrder;
    forall at | RunningAt(a.disk, at) ensures EventAt(a.disk, at) != a.slots[s] {
      var q := At(a.disk, at).value.record.sequence;
      assert q in a.slots;
      assert a.owner[q] == EventAt(a.disk, at);
    }
  }

  /** A slot's entry is filed under its own event. */
  lemma SlotsNameTheirEvents(max: nat, a: System, s: int)
    requires Inv(max, a) && s in a.slots && s in a.disk.queue
    ensures a.disk.queue[s].record.eventId == a.slots[s] && a.disk.queue[s].record.sequence == s
  {
    hide Live, Status.Valid;
  }

  lemma StartKeepsInv(max: nat, a: System, b: System, s: int, now: int)
    requires Inv(max, a) && Step(max, a, b, Start(s, now))
    ensures Inv(max, b) && b.disk.archive == a.disk.archive
  {
    hide DiskInv, RunningHaveSlots, StartsInOrder, ClaimsHold, RecordStep, Status.Valid, Status.Transition;
    SlotsNameTheirEvents(max, a, s);
    ClaimedMayStart(max, a, s);
    var r := Status.Transition(a.disk.queue[s].record, Status.Running, Status.NO_ARGUMENTS, Status.Utc(now));
    RecordStepKeepsInv(a.disk, b.disk, a.owner, a.txns, s, r.value);
    Status.TransitionFollowsTable(a.disk.queue[s].record, Status.Running, Status.NO_ARGUMENTS, Status.Utc(now));
    RewriteKeepsSchedule(max, a, b, s, r.value);
    StartKeepsOrder(max, a, b, s, r.value);
  }

  /** Rewriting one entry with a slot. */
  lemma RewriteKeepsSchedule(max: nat, a: System, b: System, s: int, r: Status.Record)
    requires Inv(max, a) && s in a.slots && s in a.disk.queue && RecordStep(a.disk, b.disk, s, r) && !r.status.Queued?
    requires b.up == a.up && b.slots == a.slots && b.reserved == a.reserved && b.owner == a.owner
    ensures SlotsReserved(max, b) && RunningHaveSlots(b) && ClaimsHold(b)
    ensures forall q, f | WaitingFor(b.disk, q, f) :: q != s && WaitingFor(a.disk, q, f)
  {
    hide DiskInv, Status.Valid, StartsInOrder;
    SlotsNameTheirEvents(max, a, s);
    assert forall at | at != InQueue(s) :: At(b.disk, at) == At(a.disk, at);
    assert forall e :: Journaled(b.disk, InEvents(e)) == Journaled(a.disk, InEvents(e));
    forall q, f | WaitingFor(b.disk, q, f) ensures q != s && WaitingFor(a.disk, q, f) {
      assert At(b.disk, InQueue(q)) == Some(b.disk.queue[q]);
    }
  }

  lemma StartKeepsOrder(max: nat, a: System, b: System, s: int, r: Status.Record)
    requires Inv(max, a) && s in a.slots && WaitingFor(a.disk, s, a.slots[s])
    requires b.owner == a.owner && b.starts == a.starts + [s]
    requires forall q, f | WaitingFor(b.disk, q, f) :: q != s && WaitingFor(a.disk, q, f)
    ensures StartsInOrder(b)
  {
    hide DiskInv, RunningHaveSlots;
  }

  lemma RewriteKeepsInv(max: nat, a: System, b: System, s: int, r: Status.Record)
    requires Inv(max, a) && Step(max, a, b, Rewrite(s, r))
    ensures Inv(max, b) && b.disk.archive == a.disk.archive
  {
    hide DiskInv, RunningHaveSlots, ClaimsHold, Status.Valid;
    RunningRewritten(a.disk, b.disk, s, r);
    RecordStepKeepsInv(a.disk, b.disk, a.owner, a.txns, s, r);
    RewriteKeepsSchedule(max, a, b, s, r);
  }

  lemma RunningRewritten(before: Disk, after: Disk, s: int, r: Status.Record)
    requires RunningAt(before, InQueue(s)) && RecordStep(before, after, s, r)
    ensures s in before.queue && before.queue[s].record.status.Running? && !r.status.Queued?
  {
  }

  lemma ReleaseKeepsInv(max: nat, a: System, b: System, s: int)
    requires Inv(max, a) && (Step(max, a, b, Release(s)) || Step(max, a, b, Retain(s)))
    ensures Inv(max, b)
  {
    hide DiskInv, Status.Valid, RunningHaveSlots, SlotsReserved, ClaimsHold;
    ReleaseKeepsSlots(max, a, b, s);
    ReleaseKeepsRunning(max, a, b, s);
  }

  lemma ReleaseKeepsSlots(max: nat, a: System, b: System, s: int)
    requires Inv(max, a) && (Step(max, a, b, Release(s)) || Step(max, a, b, Retain(s)))
    ensures SlotsReserved(max, b) && ClaimsHold(b)
  {
    hide DiskInv, RunningHaveSlots, StartsInOrder, MayRelease, MayRetain, ClaimsHold;
    SlotCount(a.slots, s, a.slots[s]);
    FewerClaimsHold(a, b);
  }

  lemma FewerClaimsHold(a: System, b: System)
    requires ClaimsHold(a) && b.disk == a.disk
    requires forall q | q in b.slots :: q in a.slots && b.slots[q] == a.slots[q]
    ensures ClaimsHold(b)
  {
  }

  lemma ReleaseKeepsRunning(max: nat, a: System, b: System, s: int)
    requires Inv(max, a) && (Step(max, a, b, Release(s)) || Step(max, a, b, Retain(s)))
    ensures RunningHaveSlots(b)
  {
    hide DiskInv, StartsInOrder, ClaimsHold;
    ReleasedIsNotRunning(max, a, s);
  }

  lemma ReleasedIsNotRunning(max: nat, a: System, s: int)
    requires Inv(max, a) && s in a.slots
    requires MayRelease(a.disk, s, a.slots[s]) || MayRetain(a.disk, s, a.slots[s])
    ensures forall at | RunningAt(a.disk, at) :: At(a.disk, at).value.record.sequence != s
  {
    hide DiskInv, StartsInOrder, ClaimsHold;
    forall at | RunningAt(a.disk, at) ensures At(a.disk, at).value.record.sequence != s {
      OwnerOfRunning(a.disk, a.owner, a.txns, at);
    }
  }

  lemma OwnerOfRunning(d: Disk, owner: Owners, txns: map<string, Txn>, at: Place)
    requires DiskInv(d, owner, txns) && At(d, at).Some?
    ensures SequenceAt(d, at) in owner && owner[SequenceAt(d, at)] == EventAt(d, at)
    ensures at == InQueue(SequenceAt(d, at)) || (at == InEvents(EventAt(d, at)) && SequenceAt(d, at) !in d.queue)
  {
    hide Live, Status.Valid;
  }

  lemma StopKeepsInv(max: nat, a: System, b: System)
    requires Inv(max, a) && (Step(max, a, b, Crash) || Step(max, a, b, Boot))
    ensures Inv(max, b)
  {
    hide DiskInv;
  }

  lemma AbandonKeepsInv(max: nat, a: System, b: System, s: int)
    requires Inv(max, a) && Step(max, a, b, Abandon(s))
    ensures Inv(max, b) && b.disk.archive == a.disk.archive
  {
    hide DiskInv;
    AbandonmentKeepsInv(a.disk, b.disk, a.owner, a.txns, s);
    CounterHidesNothing(a.disk, b.disk);
  }

  lemma CounterHidesNothing(before: Disk, after: Disk)
    requires after == before.(counter := after.counter)
    ensures forall at :: RunningAt(after, at) == RunningAt(before, at) && At(after, at) == At(before, at)
    ensures forall e :: Journaled(after, InEvents(e)) == Journaled(before, InEvents(e))
    ensures forall q, f :: WaitingFor(after, q, f) == WaitingFor(before, q, f)
  {
  }

  /** Startup recovery of one record. */
  lemma RecoverKeepsInv(max: nat, a: System, b: System, at: Place, now: int, cleared: bool)
    requires Inv(max, a) && Step(max, a, b, Recover(at, now, cleared))
    ensures Inv(max, b) && ArchiveGrows(a.disk, b.disk)
  {
    hide DiskInv, RunningHaveSlots, ClaimsHold, StartsInOrder;
    RecoveryIsAStep(a.disk, b.disk, a.owner, a.txns, at, now, cleared);
    var x := At(a.disk, at).value;
    if x.journal.Some? {
      JournaledRecovery(max, a, b, x.record.eventId);
    } else {
      PlainRecovery(max, a, b, at);
    }
  }

  /** Recovery of a running record is a step of its transaction, or fails the record where it is. */
  lemma RecoveryIsAStep(
    before: Disk, after: Disk, owner: Owners, txns: map<string, Txn>, at: Place, now: int, cleared: bool)
    requires DiskInv(before, owner, txns) && RecoveryStep(before, after, txns, at, now, cleared)
    ensures At(before, at).Some?
    ensures var x := At(before, at).value;
      if x.journal.Some? then
        && Stepped(before, after, txns, x.record.eventId)
        && TransactionStep(before, after, owner, txns, x.record.eventId)
      else
        after == before || (at.InQueue? && exists r :: RecordStep(before, after, at.sequence, r) && r.status.Failed?)
  {
    hide InTransaction, Recovered, Status.Valid, Status.FailStale, OneRunningPerEvent, ArchivedOnce,
         StartedAreUnobstructed, TransactionStep;
    var x := At(before, at).value;
    if x.journal.Some? {
      RecoveryIsFollowed(before, after, owner, txns, at, now, cleared);
      FollowingIsAStep(before, after, owner, txns, x.record.eventId);
    } else if cleared {
      StaleRecordFails(x.record, now);
      var r := Status.FailStale(x.record, Mending.STALE_FAILURE, Status.Utc(now)).value;
      assert RecordStep(before, after, at.sequence, r);
    }
  }

  lemma RecoveryIsFollowed(
    before: Disk, after: Disk, owner: Owners, txns: map<string, Txn>, at: Place, now: int, cleared: bool)
    requires DiskInv(before, owner, txns) && RecoveryStep(before, after, txns, at, now, cleared)
    requires Journaled(before, at)
    ensures var e := At(before, at).value.record.eventId;
      && Stepped(before, after, txns, e)
      && (txns[e].key.sequence in after.queue ==> after.queue[txns[e].key.sequence].record.status.Running?)
  {
    hide InTransaction, Concluded, Status.Valid, OneRunningPerEvent, ArchivedOnce, StartedAreUnobstructed;
    JournaledIsHolder(before, owner, txns, at);
    if cleared {
      RecoveredFacts(txns[At(before, at).value.record.eventId].origin, txns[At(before, at).value.record.eventId].key,
                     Look(after, txns[At(before, at).value.record.eventId].key));
    }
  }

  lemma JournaledRecovery(max: nat, a: System, b: System, e: string)
    requires Inv(max, a) && !a.up && TransactionStep(a.disk, b.disk, a.owner, a.txns, e)
    requires e in a.txns && b == a.(disk := b.disk, txns := Ledger(b.disk, a.txns, e))
    ensures Inv(max, b) && ArchiveGrows(a.disk, b.disk)
  {
    hide TransactionStep, Coherent, ArchivedOnce, RunningHaveSlots, ClaimsHold, StartsInOrder, OneRunningPerEvent;
    TransactionKeepsInv(max, a, b, a.txns, e);
  }

  lemma PlainRecovery(max: nat, a: System, b: System, at: Place)
    requires Inv(max, a) && !a.up && b == a.(disk := b.disk)
    requires b.disk == a.disk
             || (at.InQueue? && exists r :: RecordStep(a.disk, b.disk, at.sequence, r) && r.status.Failed?)
    ensures Inv(max, b) && ArchiveGrows(a.disk, b.disk)
  {
    hide DiskInv, Status.Valid;
    if b.disk != a.disk {
      var r :| RecordStep(a.disk, b.disk, at.sequence, r) && r.status.Failed?;
      RecordStepKeepsInv(a.disk, b.disk, a.owner, a.txns, at.sequence, r);
      assert forall q, f | WaitingFor(b.disk, q, f) :: WaitingFor(a.disk, q, f);
    }
  }

  // ------------------------------------------------------------ runs and theorems

  lemma StepKeepsInv(max: nat, a: System, b: System, action: Action)
    requires Inv(max, a) && Step(max, a, b, action)
    ensures Inv(max, b) && ArchiveGrows(a.disk, b.disk)
  {
    hide Inv;
    match action
    case Accept(request, s) => AcceptKeepsInv(max, a, b, request, s);
    case Abandon(s) => AbandonKeepsInv(max, a, b, s);
    case Reserve(s, unreadable) => ReserveKeepsInv(max, a, b, s, unreadable);
    case Start(s, now) => StartKeepsInv(max, a, b, s, now);
    case Rewrite(s, r) => RewriteKeepsInv(max, a, b, s, r);
    case Prepare(s, k, hash) => PrepareKeepsInv(max, a, b, s, k, hash);
    case Follow(e) => FollowKeepsInv(max, a, b, e);
    case Release(s) => ReleaseKeepsInv(max, a, b, s);
    case Retain(s) => ReleaseKeepsInv(max, a, b, s);
    case Crash => StopKeepsInv(max, a, b);
    case Recover(at, now, cleared) => RecoverKeepsInv(max, a, b, at, now, cleared);
    case Boot => StopKeepsInv(max, a, b);
  }

  ghost predicate Next(max: nat, a: System, b: System) {
    exists action :: Step(max, a, b, action)
  }

  /** Any interleaving of any of the steps. */
  ghost predicate Run(max: nat, run: seq<System>) {
    && run != [] && Init(run[0])
    && forall i | 0 <= i < |run| - 1 :: Next(max, run[i], run[i + 1])
  }

  lemma StepOfRun(max: nat, run: seq<System>, i: nat) returns (action: Action)
    requires Run(max, run) && i < |run| - 1
    ensures Step(max, run[i], run[i + 1], action)
  {
    hide Step, Init;
    assert Next(max, run[i], run[i + 1]);
    action :| Step(max, run[i], run[i + 1], action);
  }

  lemma InitHolds(max: nat, a: System)
    requires Init(a)
    ensures Inv(max, a)
  {
  }

  lemma {:induction false} InvAlwaysHolds(max: nat, run: seq<System>, i: nat)
    requires Run(max, run) && i < |run|
    ensures Inv(max, run[i])
  {
    hide Inv, Init, Step;
    if i == 0 {
      InitHolds(max, run[0]);
    } else {
      InvAlwaysHolds(max, run, i - 1);
      var action := StepOfRun(max, run, i - 1);
      StepKeepsInv(max, run[i - 1], run[i], action);
    }
  }

  lemma {:induction false} ArchiveAlwaysGrows(max: nat, run: seq<System>, i: nat, j: nat)
    requires Run(max, run) && i <= j < |run|
    ensures ArchiveGrows(run[i].disk, run[j].disk)
    decreases j
  {
    hide Inv, Init, Step;
    if i < j {
      ArchiveAlwaysGrows(max, run, i, j - 1);
      InvAlwaysHolds(max, run, j - 1);
      var action := StepOfRun(max, run, j - 1);
      StepKeepsInv(max, run[j - 1], run[j], action);
    }
  }

  /** Every running record is in a slot, so at most `max` calculations run, and at most one per event. */
  lemma RunningIsBounded(max: nat, run: seq<System>, i: nat, running: set<int>)
    requires Run(max, run) && i < |run| && run[i].up
    requires forall s | s in running :: exists at :: RunningAt(run[i].disk, at) && SequenceAt(run[i].disk, at) == s
    ensures |running| <= max
    ensures forall a, b | RunningAt(run[i].disk, a) && RunningAt(run[i].disk, b)
              && EventAt(run[i].disk, a) == EventAt(run[i].disk, b) :: a == b
  {
    hide Run, DiskInv, ClaimsHold, StartsInOrder;
    InvAlwaysHolds(max, run, i);
    forall s | s in running ensures s in run[i].slots {
      var at :| RunningAt(run[i].disk, at) && SequenceAt(run[i].disk, at) == s;
    }
    Names.SubsetSize(running, run[i].slots.Keys);
    assert |run[i].slots.Keys| == |run[i].slots|;
    OnlyOneRuns(run[i].disk, run[i].owner, run[i].txns);
  }

  lemma OnlyOneRuns(d: Disk, owner: Owners, txns: map<string, Txn>)
    requires DiskInv(d, owner, txns)
    ensures OneRunningPerEvent(d)
  {
  }

  /** Per-event order of starts, across restarts, failed starts and temporarily unreadable entries. */
  lemma StartsAreInOrderOfAcceptance(max: nat, run: seq<System>, n: nat, i: nat, j: nat)
    requires Run(max, run) && n < |run| && i < j < |run[n].starts|
    ensures run[n].starts[i] in run[n].owner && run[n].starts[j] in run[n].owner
    ensures run[n].owner[run[n].starts[i]] == run[n].owner[run[n].starts[j]] ==> run[n].starts[i] < run[n].starts[j]
  {
    hide Run, DiskInv, ClaimsHold, RunningHaveSlots;
    InvAlwaysHolds(max, run, n);
  }

  /** Only finished work is displaced, and the archive view can read whatever is archived. */
  lemma OnlyFinishedWorkIsDisplaced(max: nat, run: seq<System>, i: nat)
    requires Run(max, run) && i < |run|
    ensures forall e | e in run[i].txns && run[i].txns[e].origin.service.Some? ::
      var x := run[i].txns[e].origin.service.value; x.record.status.Terminal() && x.journal.None?
    ensures forall n | n in run[i].disk.archive :: Viewable(run[i].disk.archive[n])
    ensures ArchivedOnce(run[i].disk, run[i].txns)
  {
    hide Run, InTransaction, ClaimsHold, RunningHaveSlots, StartsInOrder, Status.Valid;
    InvAlwaysHolds(max, run, i);
    forall e | e in run[i].txns && run[i].txns[e].origin.service.Some?
      ensures run[i].txns[e].origin.service.value.record.status.Terminal()
      ensures run[i].txns[e].origin.service.value.journal.None?
    {
      assert Live(run[i].disk, run[i].owner, run[i].txns[e]);
    }
  }

  // ---------------------------------------------------------------- sequences

  lemma {:induction false} OwnersGrow(max: nat, run: seq<System>, i: nat, j: nat)
    requires Run(max, run) && i <= j < |run|
    ensures run[i].owner.Keys <= run[j].owner.Keys
    decreases j
  {
    hide Inv, Init, Step;
    if i < j {
      OwnersGrow(max, run, i, j - 1);
      var action := StepOfRun(max, run, j - 1);
      OwnersOnlyGrow(max, run[j - 1], run[j], action);
    }
  }

  lemma OwnersOnlyGrow(max: nat, a: System, b: System, action: Action)
    requires Step(max, a, b, action)
    ensures a.owner.Keys <= b.owner.Keys
    ensures action.Accept? ==> action.sequence in b.owner
  {
    hide Stepped, RecoveryStep, RecordStep, Eligible, Preparation.Claimable, Preparation.Underway;
  }

  /** Published sequences strictly increase, whatever happened in between. */
  lemma PublishedSequencesIncrease(max: nat, run: seq<System>, i: nat, j: nat, first: Action, second: Action)
    requires Run(max, run) && i < j < |run| - 1 && first.Accept? && second.Accept?
    requires Step(max, run[i], run[i + 1], first) && Step(max, run[j], run[j + 1], second)
    ensures first.sequence < second.sequence
  {
    hide Inv, Init, Run, Step;
    OwnersOnlyGrow(max, run[i], run[i + 1], first);
    OwnersGrow(max, run, i + 1, j);
    InvAlwaysHolds(max, run, j);
    AcceptKeepsInv(max, run[j], run[j + 1], second.request, second.sequence);
  }

  // ------------------------------------------------------------- conservation

  /** The trees a transaction must retain are, once it is over, in its archive unchanged, for ever. */
  lemma RetainedForever(max: nat, run: seq<System>, i: nat, j: nat, e: string)
    requires Run(max, run) && i < j < |run|
    requires e in run[i].txns && e !in run[i + 1].txns && run[i].txns[e].key.archive.Some?
    ensures var t := run[i].txns[e];
      t.key.archive.value in run[j].disk.archive && run[j].disk.archive[t.key.archive.value] == BundleOf(t.origin)
  {
    hide Inv, Init, Run, Step, BundleOf;
    InvAlwaysHolds(max, run, i);
    var action := StepOfRun(max, run, i);
    EndsArchived(max, run[i], run[i + 1], action, e);
    ArchiveAlwaysGrows(max, run, i + 1, j);
  }

  /** A transaction ends only with its displaced trees in its archive. */
  lemma EndsArchived(max: nat, a: System, b: System, action: Action, e: string)
    requires Inv(max, a) && Step(max, a, b, action)
    requires e in a.txns && e !in b.txns && a.txns[e].key.archive.Some?
    ensures var t := a.txns[e];
      t.key.archive.value in b.disk.archive && b.disk.archive[t.key.archive.value] == BundleOf(t.origin)
  {
    hide DiskInv, InTransaction, RecordStep, Eligible, Preparation.Claimable, Preparation.Underway,
         RunningHaveSlots, ClaimsHold, StartsInOrder, Recovered, Concluded, BundleOf, RecoveryStep, Followed,
         Acceptance.Accepted, Acceptance.Advanced, Started, MayRelease, MayRetain, StatusAdvances, SlotsReserved;
    var t := a.txns[e];
    if action.Recover? {
      RecoveryIsAStep(a.disk, b.disk, a.owner, a.txns, action.at, action.now, action.cleared);
    }
    assert Stepped(a.disk, b.disk, a.txns, e);
    EndedInArchive(t.origin, t.key, Look(b.disk, t.key));
  }

  lemma EndedInArchive(o: Origin, k: Key, v: View)
    requires Followed(o, k, v) && !InTransaction(o, k, v) && k.archive.Some?
    ensures v.bundle == Some(BundleOf(o))
  {
    hide InTransaction;
  }

  // --------------------------------------------------------- terminal is final

  /** Wherever calculation `s` still appears, its record has the terminal status `verdict`. */
  ghost predicate Final(a: System, s: int, verdict: Status.LifecycleState) {
    && verdict.Terminal() && s in a.owner
    && (forall at | At(a.disk, at).Some? && SequenceAt(a.disk, at) == s :: At(a.disk, at).value.record.status == verdict)
    && (forall e | e in a.txns && a.txns[e].origin.service.Some?
          && a.txns[e].origin.service.value.record.sequence == s ::
          a.txns[e].origin.service.value.record.status == verdict)
    && (forall n | n in a.disk.archive && a.disk.archive[n].service.Intact?
          && ArchivedSequence(a.disk, n) == s ::
          a.disk.archive[n].service.tree.record.status == verdict)
  }

  /** A transaction's step cannot change a verdict. */
  lemma TransactionKeepsVerdicts(
    a: System, b: System, txns: map<string, Txn>, e: string, s: int, verdict: Status.LifecycleState)
    requires Final(a, s, verdict) && TransactionStep(a.disk, b.disk, a.owner, txns, e)
    requires StatusAdvances(a.disk, b.disk, txns[e].key)
             || (!At(a.disk, HolderOf(a.disk, txns[e].key)).value.record.status.Terminal())
    requires forall f | f in txns && f != e :: f in a.txns && txns[f] == a.txns[f]
    requires txns[e].origin.service.Some? && txns[e].origin.service.value.record.sequence == s ==>
      txns[e].origin.service.value.record.status == verdict
    requires ArchiveGrows(a.disk, b.disk) && b.owner == a.owner && b.txns == Ledger(b.disk, txns, e)
    ensures Final(b, s, verdict)
  {
    hide TransactionStep, StatusAdvances, BundleOf, HolderOf;
    forall at | At(b.disk, at).Some? && SequenceAt(b.disk, at) == s
      ensures At(b.disk, at).value.record.status == verdict
    {
      RecordKeepsVerdict(a, b, txns, e, s, verdict, at);
    }
    StepTakers(a.disk, b.disk, a.owner, txns, e);
    ArchivedByStep(a.disk, b.disk, a.owner, txns, e);
    forall n | n in b.disk.archive && b.disk.archive[n].service.Intact? && ArchivedSequence(b.disk, n) == s
      ensures b.disk.archive[n].service.tree.record.status == verdict
    {
      if n !in a.disk.archive {
        assert b.disk.archive[n] == BundleOf(txns[e].origin);
        BundleHoldsService(txns[e].origin);
      }
    }
  }

  lemma BundleHoldsService(o: Origin)
    ensures BundleOf(o).service == HeldOf(o.service)
  {
  }

  lemma RecordKeepsVerdict(
    a: System, b: System, txns: map<string, Txn>, e: string, s: int, verdict: Status.LifecycleState, at: Place)
    requires Final(a, s, verdict) && TransactionStep(a.disk, b.disk, a.owner, txns, e)
    requires StatusAdvances(a.disk, b.disk, txns[e].key)
             || (!At(a.disk, HolderOf(a.disk, txns[e].key)).value.record.status.Terminal())
    requires txns[e].origin.service.Some? && txns[e].origin.service.value.record.sequence == s ==>
      txns[e].origin.service.value.record.status == verdict
    requires At(b.disk, at).Some? && SequenceAt(b.disk, at) == s
    ensures At(b.disk, at).value.record.status == verdict
  {
    hide TransactionStep, HolderOf;
    StepTakers(a.disk, b.disk, a.owner, txns, e);
    HeldBefore(a.disk, b.disk, a.owner, txns, e);
    RecordsAfterStep(a.disk, b.disk, a.owner, txns, e, at);
    assert SequenceAt(a.disk, HolderOf(a.disk, txns[e].key)) == txns[e].key.sequence;
  }

  lemma HeldBefore(before: Disk, after: Disk, owner: Owners, txns: map<string, Txn>, e: string)
    requires TransactionStep(before, after, owner, txns, e)
    ensures e in txns && Present(before, txns[e].key)
  {
    hide Live, Followed;
  }

  lemma ArchivedByStep(before: Disk, after: Disk, owner: Owners, txns: map<string, Txn>, e: string)
    requires TransactionStep(before, after, owner, txns, e)
    ensures forall n | n in after.archive && n !in before.archive :: after.archive[n] == BundleOf(txns[e].origin)
  {
    hide Adjoined, Followed;
    ArchiveElsewhere(before, after, txns[e].key);
    BundleOfTransaction(txns[e].origin, txns[e].key, Look(after, txns[e].key));
  }

  lemma RecordStepKeepsVerdicts(
    a: System, b: System, q: int, r: Status.Record, s: int, verdict: Status.LifecycleState)
    requires Final(a, s, verdict) && RecordStep(a.disk, b.disk, q, r) && b.owner == a.owner && b.txns == a.txns
    ensures Final(b, s, verdict)
  {
    hide Status.Valid;
    assert forall at | at != InQueue(q) :: At(b.disk, at) == At(a.disk, at);
    assert SequenceAt(b.disk, InQueue(q)) == SequenceAt(a.disk, InQueue(q));
  }

  lemma FollowKeepsVerdicts(max: nat, a: System, b: System, e: string, s: int, verdict: Status.LifecycleState)
    requires Inv(max, a) && Step(max, a, b, Follow(e)) && Final(a, s, verdict)
    ensures Final(b, s, verdict)
  {
    hide Coherent, ArchivedOnce, Stepped, RunningHaveSlots, ClaimsHold, StartsInOrder, OneRunningPerEvent,
         StartedAreUnobstructed, StatusAdvances;
    FollowingIsAStep(a.disk, b.disk, a.owner, a.txns, e);
    FollowKeepsInv(max, a, b, e);
    TransactionKeepsVerdicts(a, b, a.txns, e, s, verdict);
  }

  lemma PrepareKeepsVerdicts(
    max: nat, a: System, b: System, q: int, k: Key, hash: Snapshot.Hash, s: int, verdict: Status.LifecycleState)
    requires Inv(max, a) && Step(max, a, b, Prepare(q, k, hash)) && Final(a, s, verdict)
    ensures Final(b, s, verdict)
  {
    hide Inv, Final, TransactionStep, StatusAdvances, Preparation.Claimable, Preparation.Underway, OriginsMatch, ArchivedOnce,
         TreesMatchRecords;
    InvIsDiskInv(max, a);
    BeginIsAStep(hash, a.disk, b.disk, a.owner, a.txns, k, q);
    BegunIsInLedger(hash, a.disk, b.disk, a.txns, k, q);
    PrepareKeepsInv(max, a, b, q, k, hash);
    Preparation.ClaimedHasNoJournal(hash, a.disk, q);
    DisplacedKeepsVerdict(a, q, k, s, verdict);
    TransactionKeepsVerdicts(a, b, a.txns[k.eventId := Txn(Preparation.OriginOf(a.disk, q), k)], k.eventId, s, verdict);
  }

  lemma InvIsDiskInv(max: nat, a: System)
    requires Inv(max, a)
    ensures DiskInv(a.disk, a.owner, a.txns)
  {
    hide DiskInv;
  }

  lemma DisplacedKeepsVerdict(a: System, q: int, k: Key, s: int, verdict: Status.LifecycleState)
    requires Final(a, s, verdict) && q in a.disk.queue && k.eventId == a.disk.queue[q].record.eventId
    ensures var o := Preparation.OriginOf(a.disk, q);
      o.service.Some? && o.service.value.record.sequence == s ==> o.service.value.record.status == verdict
  {
    assert At(a.disk, InEvents(k.eventId)) == Preparation.OriginOf(a.disk, q).service;
  }

  lemma AcceptKeepsVerdicts(
    max: nat, a: System, b: System, request: Acceptance.Request, q: int, s: int, verdict: Status.LifecycleState)
    requires Inv(max, a) && Step(max, a, b, Accept(request, q)) && Final(a, s, verdict)
    ensures Final(b, s, verdict)
  {
    hide Inv, Status.Valid;
    AcceptKeepsInv(max, a, b, request, q);
    Acceptance.NewEntriesAreValid(request, q);
    assert forall at | at != InQueue(q) :: At(b.disk, at) == At(a.disk, at);
    assert SequenceAt(b.disk, InQueue(q)) == q;
  }

  lemma StartKeepsVerdicts(a: System, b: System, max: nat, q: int, now: int, s: int, verdict: Status.LifecycleState)
    requires Step(max, a, b, Start(q, now)) && Final(a, s, verdict)
    ensures Final(b, s, verdict)
  {
    hide Final, RecordStep, Status.Transition;
    var r := Status.Transition(a.disk.queue[q].record, Status.Running, Status.NO_ARGUMENTS, Status.Utc(now));
    RecordStepKeepsVerdicts(a, b, q, r.value, s, verdict);
  }

  lemma RecoverKeepsVerdicts(
    max: nat, a: System, b: System, at: Place, now: int, cleared: bool, s: int, verdict: Status.LifecycleState)
    requires Inv(max, a) && Step(max, a, b, Recover(at, now, cleared)) && Final(a, s, verdict)
    ensures Final(b, s, verdict)
  {
    hide DiskInv, RunningHaveSlots, ClaimsHold, StartsInOrder, Final, TransactionStep, Status.Valid, Stepped;
    RecoveryIsAStep(a.disk, b.disk, a.owner, a.txns, at, now, cleared);
    RecoverKeepsInv(max, a, b, at, now, cleared);
    var x := At(a.disk, at).value;
    if x.journal.Some? {
      RecoveringKeepsVerdict(max, a, b, at, s, verdict);
    } else if b.disk != a.disk {
      var r :| RecordStep(a.disk, b.disk, at.sequence, r) && r.status.Failed?;
      RecordStepKeepsVerdicts(a, b, at.sequence, r, s, verdict);
    }
  }

  lemma RecoveringKeepsVerdict(max: nat, a: System, b: System, at: Place, s: int, verdict: Status.LifecycleState)
    requires Inv(max, a) && Final(a, s, verdict) && RunningAt(a.disk, at) && Journaled(a.disk, at)
    requires TransactionStep(a.disk, b.disk, a.owner, a.txns, EventAt(a.disk, at))
    requires ArchiveGrows(a.disk, b.disk) && b.owner == a.owner
    requires EventAt(a.disk, at) in a.txns && b.txns == Ledger(b.disk, a.txns, EventAt(a.disk, at))
    ensures Final(b, s, verdict)
  {
    hide RunningHaveSlots, ClaimsHold, StartsInOrder, TransactionStep, Status.Valid, Coherent, ArchivedOnce;
    JournaledIsHolder(a.disk, a.owner, a.txns, at);
    assert Reconciliation.HolderPlace(a.disk, a.txns[EventAt(a.disk, at)].key)
        == HolderOf(a.disk, a.txns[EventAt(a.disk, at)].key);
    TransactionKeepsVerdicts(a, b, a.txns, EventAt(a.disk, at), s, verdict);
  }

  lemma StepKeepsVerdicts(max: nat, a: System, b: System, action: Action, s: int, verdict: Status.LifecycleState)
    requires Inv(max, a) && Step(max, a, b, action) && Final(a, s, verdict)
    ensures Final(b, s, verdict)
  {
    hide Inv, Final, RecordStep;
    match action
    case Accept(request, q) => AcceptKeepsVerdicts(max, a, b, request, q, s, verdict);
    case Prepare(q, k, hash) => PrepareKeepsVerdicts(max, a, b, q, k, hash, s, verdict);
    case Follow(e) => FollowKeepsVerdicts(max, a, b, e, s, verdict);
    case Start(q, now) => StartKeepsVerdicts(a, b, max, q, now, s, verdict);
    case Rewrite(q, r) => RecordStepKeepsVerdicts(a, b, q, r, s, verdict);
    case Recover(at, now, cleared) => RecoverKeepsVerdicts(max, a, b, at, now, cleared, s, verdict);
    case _ => OtherStepsKeepVerdicts(max, a, b, action, s, verdict);
  }

  lemma OtherStepsKeepVerdicts(max: nat, a: System, b: System, action: Action, s: int, verdict: Status.LifecycleState)
    requires Step(max, a, b, action) && Final(a, s, verdict)
    requires action.Abandon? || action.Reserve? || action.Release? || action.Retain? || action.Crash? || action.Boot?
    ensures Final(b, s, verdict)
  {
    assert forall at :: At(b.disk, at) == At(a.disk, at);
  }

  /** A calculation that has succeeded or failed keeps that verdict wherever it goes. */
  lemma {:induction false} VerdictsAreFinal(
    max: nat, run: seq<System>, i: nat, j: nat, s: int, verdict: Status.LifecycleState)
    requires Run(max, run) && i <= j < |run| && Final(run[i], s, verdict)
    ensures Final(run[j], s, verdict)
    decreases j
  {
    hide Inv, Init, Step, Final;
    if i < j {
      VerdictsAreFinal(max, run, i, j - 1, s, verdict);
      InvAlwaysHolds(max, run, j - 1);
      var action := StepOfRun(max, run, j - 1);
      StepKeepsVerdicts(max, run[j - 1], run[j], action, s, verdict);
    }
  }

  /** Every terminal record is such a verdict. */
  lemma TerminalRecordsAreFinal(max: nat, a: System, at: Place)
    requires Inv(max, a) && At(a.disk, at).Some? && At(a.disk, at).value.record.status.Terminal()
    ensures Final(a, SequenceAt(a.disk, at), At(a.disk, at).value.record.status)
  {
    hide RunningHaveSlots, ClaimsHold, StartsInOrder, Status.Valid, OneRunningPerEvent, StartedAreUnobstructed;
    var s := SequenceAt(a.disk, at);
    CoherentIsSound(a.disk, a.owner, a.txns);
    forall e | e in a.txns && a.txns[e].origin.service.Some?
        && a.txns[e].origin.service.value.record.sequence == s
      ensures a.txns[e].origin.service.value.record.status == At(a.disk, at).value.record.status
    {
      DisplacedIsInPlace(a.disk, a.owner, a.txns, e, at);
    }
  }

  lemma DisplacedIsInPlace(d: Disk, owner: Owners, txns: map<string, Txn>, e: string, at: Place)
    requires Coherent(d, owner, txns) && e in txns && txns[e].origin.service.Some? && At(d, at).Some?
    requires SequenceAt(d, at) == txns[e].origin.service.value.record.sequence
    ensures At(d, at) == txns[e].origin.service
  {
    hide InTransaction, Recovered, Concluded, Status.Valid;
    WhoIsWhere(txns[e].origin, txns[e].key, Look(d, txns[e].key));
  }

  // -------------------------------------------------- what never becomes live

  /** A finished current record whose journal was not removed, with no worker left to remove it. */
  ghost predicate Stuck(a: System, e: string) {
    && e in a.disk.events && a.disk.events[e].record.status.Terminal() && a.disk.events[e].journal.Some?
    && forall q | q in a.slots :: a.slots[q] != e
  }

  /** Nothing of event `e` has started between the two. */
  ghost predicate NothingStarted(a: System, b: System, e: string) {
    && |a.starts| <= |b.starts| && b.starts[..|a.starts|] == a.starts
    && (forall q | q in a.owner :: q in b.owner && b.owner[q] == a.owner[q])
    && forall n | |a.starts| <= n < |b.starts| :: b.starts[n] in b.owner && b.owner[b.starts[n]] != e
  }

  lemma NothingStartedTwice(a: System, b: System, c: System, e: string)
    requires NothingStarted(a, b, e) && NothingStarted(b, c, e)
    ensures NothingStarted(a, c, e)
  {
    assert c.starts[..|a.starts|] == c.starts[..|b.starts|][..|a.starts|];
    forall n | |a.starts| <= n < |c.starts| ensures c.starts[n] in c.owner && c.owner[c.starts[n]] != e {
      if n < |b.starts| {
        assert c.starts[n] == c.starts[..|b.starts|][n];
      }
    }
  }

  lemma NothingStartedYet(a: System, e: string)
    ensures NothingStarted(a, a, e)
  {
    assert a.starts[..|a.starts|] == a.starts;
  }

  lemma StuckDuringTransaction(
    max: nat, a: System, b: System, txns: map<string, Txn>, f: string, e: string)
    requires Stuck(a, e) && f != e && TransactionStep(a.disk, b.disk, a.owner, txns, f)
    requires b.slots == a.slots && b.owner == a.owner && b.starts == a.starts
    ensures Stuck(b, e) && NothingStarted(a, b, e)
  {
    hide TransactionStep;
    OthersStayPut(a.disk, b.disk, a.owner, txns, f, e);
    assert At(b.disk, InEvents(e)) == Lookup(b.disk.events, e);
    assert At(a.disk, InEvents(e)) == Lookup(a.disk.events, e);
  }

  lemma StuckDuringFollow(max: nat, a: System, b: System, f: string, e: string)
    requires Inv(max, a) && Step(max, a, b, Follow(f)) && Stuck(a, e)
    ensures Stuck(b, e) && NothingStarted(a, b, e)
  {
    hide Coherent, ArchivedOnce, Stepped, RunningHaveSlots, ClaimsHold, StartsInOrder, OneRunningPerEvent,
         StartedAreUnobstructed, StatusAdvances;
    FollowingIsAStep(a.disk, b.disk, a.owner, a.txns, f);
    StepTakers(a.disk, b.disk, a.owner, a.txns, f);
    StuckDuringTransaction(max, a, b, a.txns, f, e);
  }

  lemma StuckDuringPrepare(max: nat, a: System, b: System, q: int, k: Key, hash: Snapshot.Hash, e: string)
    requires Inv(max, a) && Step(max, a, b, Prepare(q, k, hash)) && Stuck(a, e)
    ensures Stuck(b, e) && NothingStarted(a, b, e)
  {
    hide DiskInv, RunningHaveSlots, ClaimsHold, StartsInOrder, Preparation.Claimable, Preparation.Underway;
    BeginIsAStep(hash, a.disk, b.disk, a.owner, a.txns, k, q);
    SlotsNameTheirEvents(max, a, q);
    StuckDuringTransaction(max, a, b, a.txns[k.eventId := Txn(Preparation.OriginOf(a.disk, q), k)], k.eventId, e);
  }

  lemma StuckDuringRecovery(max: nat, a: System, b: System, at: Place, now: int, cleared: bool, e: string)
    requires Inv(max, a) && Step(max, a, b, Recover(at, now, cleared)) && Stuck(a, e)
    ensures Stuck(b, e) && NothingStarted(a, b, e)
  {
    hide DiskInv, RunningHaveSlots, ClaimsHold, StartsInOrder, TransactionStep, Status.Valid, Stepped;
    RecoveryIsAStep(a.disk, b.disk, a.owner, a.txns, at, now, cleared);
    if Journaled(a.disk, at) {
      StuckIsNotRunning(max, a, at, e);
      StuckDuringTransaction(max, a, b, a.txns, EventAt(a.disk, at), e);
    }
  }

  lemma StuckIsNotRunning(max: nat, a: System, at: Place, e: string)
    requires Inv(max, a) && Stuck(a, e) && RunningAt(a.disk, at) && Journaled(a.disk, at)
    ensures EventAt(a.disk, at) != e
  {
    hide RunningHaveSlots, ClaimsHold, StartsInOrder, Status.Valid, Live, ArchivedOnce, OneRunningPerEvent;
    assert Journaled(a.disk, InEvents(e)) && Known(a.disk, InEvents(e), a.txns) && Known(a.disk, at, a.txns);
    CoherentIsSound(a.disk, a.owner, a.txns);
    assert SequenceAt(a.disk, at) == SequenceAt(a.disk, InEvents(e)) ==> at == InEvents(e);
  }

  lemma StuckDuringStart(max: nat, a: System, b: System, q: int, e: string)
    requires Inv(max, a) && Stuck(a, e) && q in a.slots && q in a.disk.queue
    requires exists r :: RecordStep(a.disk, b.disk, q, r)
    requires b.slots == a.slots && b.owner == a.owner && (b.starts == a.starts || b.starts == a.starts + [q])
    ensures Stuck(b, e) && NothingStarted(a, b, e)
  {
    hide DiskInv, RunningHaveSlots, ClaimsHold, StartsInOrder, Status.Valid;
  }

  lemma StuckOtherwise(max: nat, a: System, b: System, action: Action, e: string)
    requires Inv(max, a) && Step(max, a, b, action) && Stuck(a, e)
    requires action.Accept? || action.Abandon? || action.Reserve? || action.Release? || action.Retain?
             || action.Crash? || action.Boot?
    ensures Stuck(b, e) && NothingStarted(a, b, e)
  {
    hide DiskInv, RunningHaveSlots, ClaimsHold, StartsInOrder, MayRelease, MayRetain;
    if action.Accept? {
      AcceptKeepsInv(max, a, b, action.request, action.sequence);
    }
    assert e in a.disk.events ==> At(a.disk, InEvents(e)) == Some(a.disk.events[e]);
  }

  lemma StuckStays(max: nat, a: System, b: System, action: Action, e: string)
    requires Inv(max, a) && Step(max, a, b, action) && Stuck(a, e)
    ensures Stuck(b, e) && NothingStarted(a, b, e)
  {
    hide Inv, Stuck, NothingStarted, RecordStep, Status.Transition;
    match action
    case Prepare(q, k, hash) => StuckDuringPrepare(max, a, b, q, k, hash, e);
    case Follow(f) => StuckDuringFollow(max, a, b, f, e);
    case Recover(at, now, cleared) => StuckDuringRecovery(max, a, b, at, now, cleared, e);
    case Start(q, now) => StuckDuringStart(max, a, b, q, e);
    case Rewrite(q, r) => StuckDuringStart(max, a, b, q, e);
    case _ => StuckOtherwise(max, a, b, action, e);
  }

  /** Such an event is blocked for ever, across any number of restarts: recovery only looks at RUNNING records. */
  lemma {:induction false} BlockedForever(max: nat, run: seq<System>, i: nat, j: nat, e: string)
    requires Run(max, run) && i <= j < |run| && Stuck(run[i], e)
    ensures Stuck(run[j], e) && NothingStarted(run[i], run[j], e)
    decreases j
  {
    hide Inv, Init, Step, Stuck, NothingStarted;
    if i == j {
      NothingStartedYet(run[i], e);
    } else {
      BlockedForever(max, run, i, j - 1, e);
      InvAlwaysHolds(max, run, j - 1);
      var action := StepOfRun(max, run, j - 1);
      StuckStays(max, run[j - 1], run[j], action, e);
      NothingStartedTwice(run[i], run[j - 1], run[j], e);
    }
  }

  // ----------------------------------------------------------------- reaching

  ghost predicate Path(max: nat, path: seq<System>, a: System, b: System) {
    && path != [] && path[0] == a && path[|path| - 1] == b
    && forall i | 0 <= i < |path| - 1 :: Next(max, path[i], path[i + 1])
  }

  /** The machine can go from `a` to `b`. */
  ghost predicate Reaches(max: nat, a: System, b: System) {
    exists path :: Path(max, path, a, b)
  }

  lemma ReachesItself(max: nat, a: System)
    ensures Reaches(max, a, a)
  {
    assert Path(max, [a], a, a);
  }

  lemma ReachesFurther(max: nat, a: System, b: System, c: System, action: Action)
    requires Reaches(max, a, b) && Step(max, b, c, action)
    ensures Reaches(max, a, c)
  {
    hide Step;
    var path :| Path(max, path, a, b);
    var longer := path + [c];
    assert Next(max, b, c);
    forall i | 0 <= i < |longer| - 1 ensures Next(max, longer[i], longer[i + 1]) {
      if i < |path| - 1 {
        assert Next(max, path[i], path[i + 1]);
      }
    }
    assert Path(max, longer, a, c);
  }

  lemma {:induction false} ReachedKeepsInv(max: nat, path: seq<System>, a: System, b: System)
    requires Path(max, path, a, b) && Inv(max, a)
    ensures Inv(max, b)
  {
    hide Inv, Step;
    if |path| > 1 {
      var front := path[..|path| - 1];
      assert Path(max, front, a, path[|path| - 2]) by {
        forall i | 0 <= i < |front| - 1 ensures Next(max, front[i], front[i + 1]) {
          assert Next(max, path[i], path[i + 1]);
        }
      }
      ReachedKeepsInv(max, front, a, path[|path| - 2]);
      assert Next(max, path[|path| - 2], path[|path| - 2 + 1]);
      var action :| Step(max, path[|path| - 2], b, action);
      StepKeepsInv(max, path[|path| - 2], b, action);
    }
  }

  lemma ReachesTogether(max: nat, a: System, b: System, c: System)
    requires Reaches(max, a, b) && Reaches(max, b, c)
    ensures Reaches(max, a, c)
  {
    hide Next;
    var first :| Path(max, first, a, b);
    var second :| Path(max, second, b, c);
    var whole := first + second[1..];
    forall i | 0 <= i < |whole| - 1 ensures Next(max, whole[i], whole[i + 1]) {
      if i < |first| - 1 {
        assert Next(max, first[i], first[i + 1]);
      } else {
        var n := i - |first| + 1;
        assert Next(max, second[n], second[n + 1]);
      }
    }
    assert Path(max, whole, a, c);
  }

  // ------------------------------------------------------------ end to end

  /** A queue entry keeps the request it was accepted with. */
  predicate SameRequest(a: Disk, b: Disk, s: int) {
    s in b.queue && s in a.queue ==>
      && b.queue[s].request == a.queue[s].request && b.queue[s].manifest == a.queue[s].manifest
      && b.queue[s].record.eventId == a.queue[s].record.eventId
      && b.queue[s].record.overwrite == a.queue[s].record.overwrite
  }

  lemma RequestOfTransaction(o: Origin, k: Key, v: View)
    requires Followed(o, k, v)
    ensures v.queued.Some? ==>
      v.queued.value.request == o.claimed.request && v.queued.value.manifest == o.claimed.manifest
      && v.queued.value.record.eventId == k.eventId && v.queued.value.record.overwrite == o.claimed.record.overwrite
  {
  }

  lemma TransactionKeepsRequests(before: Disk, after: Disk, k: Key, o: Origin, s: int)
    requires Kept(before, after, k) && Followed(o, k, Look(after, k))
    requires k.sequence in before.queue ==>
      before.queue[k.sequence].request == o.claimed.request && before.queue[k.sequence].manifest == o.claimed.manifest
      && before.queue[k.sequence].record.eventId == k.eventId
      && before.queue[k.sequence].record.overwrite == o.claimed.record.overwrite
    ensures SameRequest(before, after, s) && (s in after.queue ==> s in before.queue)
  {
    hide Followed;
    RequestOfTransaction(o, k, Look(after, k));
    if s != k.sequence {
      SameElsewhere(before.queue, after.queue, {k.sequence}, s);
    }
  }

  lemma FollowKeepsRequests(max: nat, a: System, b: System, e: string, s: int)
    requires Inv(max, a) && Step(max, a, b, Follow(e))
    ensures SameRequest(a.disk, b.disk, s) && (s in b.disk.queue ==> s in a.disk.queue)
  {
    hide Inv, Followed, SameRequest, StatusAdvances;
    FollowedBefore(max, a, e);
    RequestOfTransaction(a.txns[e].origin, a.txns[e].key, Look(a.disk, a.txns[e].key));
    TransactionKeepsRequests(a.disk, b.disk, a.txns[e].key, a.txns[e].origin, s);
  }

  lemma FollowedBefore(max: nat, a: System, e: string)
    requires Inv(max, a) && e in a.txns
    ensures Followed(a.txns[e].origin, a.txns[e].key, Look(a.disk, a.txns[e].key))
  {
    hide InTransaction, RunningHaveSlots, ClaimsHold, StartsInOrder, ArchivedOnce, OneRunningPerEvent;
    assert Live(a.disk, a.owner, a.txns[e]);
  }

  lemma PrepareKeepsRequests(max: nat, a: System, b: System, q: int, k: Key, hash: Snapshot.Hash, s: int)
    requires Step(max, a, b, Prepare(q, k, hash))
    ensures SameRequest(a.disk, b.disk, s) && (s in b.disk.queue ==> s in a.disk.queue)
  {
    hide InTransaction, SameRequest, Preparation.Claimable;
    TransactionKeepsRequests(a.disk, b.disk, k, Preparation.OriginOf(a.disk, q), s);
  }

  lemma RecoverKeepsRequests(max: nat, a: System, b: System, at: Place, now: int, cleared: bool, s: int)
    requires Inv(max, a) && Step(max, a, b, Recover(at, now, cleared))
    ensures SameRequest(a.disk, b.disk, s) && (s in b.disk.queue ==> s in a.disk.queue)
  {
    hide Inv, TransactionStep, RecordStep, Followed, SameRequest;
    InvIsDiskInv(max, a);
    RecoveryIsAStep(a.disk, b.disk, a.owner, a.txns, at, now, cleared);
    if Journaled(a.disk, at) {
      var t := a.txns[EventAt(a.disk, at)];
      FollowedBefore(max, a, EventAt(a.disk, at));
      RequestOfTransaction(t.origin, t.key, Look(a.disk, t.key));
      TransactionKeepsRequests(a.disk, b.disk, t.key, t.origin, s);
    } else if b.disk == a.disk {
      UnchangedRequests(a.disk, b.disk, s);
    } else {
      var r :| RecordStep(a.disk, b.disk, at.sequence, r) && r.status.Failed?;
      RecordStepKeepsRequests(a.disk, b.disk, at.sequence, r, s);
    }
  }

  lemma UnchangedRequests(before: Disk, after: Disk, s: int)
    requires before.queue == after.queue
    ensures SameRequest(before, after, s)
  {
  }

  lemma RecordStepKeepsRequests(before: Disk, after: Disk, q: int, r: Status.Record, s: int)
    requires RecordStep(before, after, q, r)
    ensures SameRequest(before, after, s) && (s in after.queue <==> s in before.queue)
  {
    hide Status.Valid;
  }

  lemma StartKeepsRequests(max: nat, a: System, b: System, q: int, now: int, s: int)
    requires Step(max, a, b, Start(q, now))
    ensures SameRequest(a.disk, b.disk, s) && (s in b.disk.queue ==> s in a.disk.queue)
  {
    hide RecordStep, SameRequest, Status.Transition;
    var r := Status.Transition(a.disk.queue[q].record, Status.Running, Status.NO_ARGUMENTS, Status.Utc(now));
    RecordStepKeepsRequests(a.disk, b.disk, q, r.value, s);
  }

  lemma AcceptKeepsRequests(max: nat, a: System, b: System, request: Acceptance.Request, q: int, s: int)
    requires Inv(max, a) && Step(max, a, b, Accept(request, q)) && s in a.owner
    ensures SameRequest(a.disk, b.disk, s) && (s in b.disk.queue ==> s in a.disk.queue)
    ensures s in b.owner
  {
    hide Inv;
    AcceptKeepsInv(max, a, b, request, q);
  }

  /** No step changes a waiting request or brings one back. */
  lemma StepKeepsRequests(max: nat, a: System, b: System, action: Action, s: int)
    requires Inv(max, a) && Step(max, a, b, action) && s in a.owner
    ensures SameRequest(a.disk, b.disk, s) && (s in b.disk.queue ==> s in a.disk.queue)
    ensures s in b.owner
  {
    hide Inv, RecordStep, Preparation.Claimable, Preparation.Underway, Stepped, RecoveryStep, Eligible, SameRequest;
    match action
    case Accept(request, q) => AcceptKeepsRequests(max, a, b, request, q, s);
    case Prepare(q, k, hash) => PrepareKeepsRequests(max, a, b, q, k, hash, s);
    case Follow(e) => FollowKeepsRequests(max, a, b, e, s);
    case Start(q, now) => StartKeepsRequests(max, a, b, q, now, s);
    case Rewrite(q, r) => RecordStepKeepsRequests(a.disk, b.disk, q, r, s);
    case Recover(at, now, cleared) => RecoverKeepsRequests(max, a, b, at, now, cleared, s);
    case _ => UnchangedRequests(a.disk, b.disk, s);
  }

  lemma {:induction false} RequestsAreImmutable(max: nat, run: seq<System>, i: nat, j: nat, s: int)
    requires Run(max, run) && i <= j < |run| && s in run[i].owner
    ensures s in run[j].owner
    ensures SameRequest(run[i].disk, run[j].disk, s) && (s in run[j].disk.queue ==> s in run[i].disk.queue)
    decreases j
  {
    hide Inv, Init, Step;
    if i < j {
      RequestsAreImmutable(max, run, i, j - 1, s);
      InvAlwaysHolds(max, run, j - 1);
      var action := StepOfRun(max, run, j - 1);
      StepKeepsRequests(max, run[j - 1], run[j], action, s);
    }
  }

  /** What preparation publishes is, name for name and byte for byte, what was snapshotted at acceptance, whatever
      crashes, restarts and other calculations came between. */
  lemma AcceptedBytesArePublished(
    max: nat, run: seq<System>, i: nat, j: nat, request: Acceptance.Request, s: int, k: Key, hash: Snapshot.Hash)
    requires Run(max, run) && i < j < |run| - 1
    requires Step(max, run[i], run[i + 1], Accept(request, s)) && Step(max, run[j], run[j + 1], Prepare(s, k, hash))
    requires Preparation.Published(run[j].disk, run[j + 1].disk, k, s)
    ensures k.eventId == request.eventId
    ensures Lookup(run[j + 1].disk.products, request.eventId) == Some(Tree(s, request.files))
  {
    hide Inv, Init, Run, InTransaction, Preparation.Claimable;
    AcceptedIsThere(max, run[i], run[i + 1], request, s);
    RequestsAreImmutable(max, run, i + 1, j, s);
  }

  lemma AcceptedIsThere(max: nat, a: System, b: System, request: Acceptance.Request, s: int)
    requires Step(max, a, b, Accept(request, s))
    ensures s in b.owner && s in b.disk.queue
    ensures b.disk.queue[s].request == request.files && b.disk.queue[s].record.eventId == request.eventId
    ensures b.disk.queue[s].record.overwrite == request.overwrite
  {
  }

  /** The open transaction of an event is the one that was opened. */
  lemma TransactionStays(max: nat, a: System, b: System, action: Action, e: string)
    requires Inv(max, a) && Step(max, a, b, action) && e in a.txns && e in b.txns
    ensures b.txns[e] == a.txns[e]
  {
    hide DiskInv, RunningHaveSlots, ClaimsHold, StartsInOrder, RecordStep, Eligible, Preparation.Claimable, Preparation.Underway,
         Stepped, RecoveryStep, InTransaction;
    if action.Prepare? {
      InvIsDiskInv(max, a);
      BeginIsAStep(action.hash, a.disk, b.disk, a.owner, a.txns, action.key, action.sequence);
    }
  }

  lemma {:induction false} TransactionsStay(max: nat, run: seq<System>, i: nat, j: nat, e: string)
    requires Run(max, run) && i <= j < |run| && forall x | i <= x <= j :: e in run[x].txns
    ensures run[j].txns[e] == run[i].txns[e]
    decreases j
  {
    hide Inv, Init, Step;
    if i < j {
      TransactionsStay(max, run, i, j - 1, e);
      InvAlwaysHolds(max, run, j - 1);
      var action := StepOfRun(max, run, j - 1);
      TransactionStays(max, run[j - 1], run[j], action, e);
    }
  }

  /** Preparation opens the transaction of what is there, with an archive for it if it is to be kept. */
  lemma PreparedIsOpen(max: nat, a: System, b: System, s: int, k: Key, hash: Snapshot.Hash)
    requires Step(max, a, b, Prepare(s, k, hash))
    ensures s in a.disk.queue && k.eventId == a.disk.queue[s].record.eventId && k.eventId in b.txns
    ensures var o := b.txns[k.eventId].origin;
      && b.txns[k.eventId].key == k
      && o.products == Lookup(a.disk.products, k.eventId) && o.service == Lookup(a.disk.events, k.eventId)
      && (k.archive.Some? <==> !a.disk.queue[s].record.overwrite && (o.products.Some? || o.service.Some?))
  {
    hide InTransaction, Preparation.Claimable, Status.Valid;
  }

  /** If the client did not ask to overwrite, whatever is in the way when its calculation opens its transaction is, once that
      is over, in an archive, unchanged and for ever. */
  lemma RetentionIsHonoured(
    max: nat, run: seq<System>, i: nat, j: nat, n: nat, m: nat,
    request: Acceptance.Request, s: int, k: Key, hash: Snapshot.Hash)
    requires Run(max, run) && i < j < n < m < |run| && !request.overwrite
    requires Step(max, run[i], run[i + 1], Accept(request, s)) && Step(max, run[j], run[j + 1], Prepare(s, k, hash))
    requires (forall x | j < x <= n :: request.eventId in run[x].txns) && request.eventId !in run[n + 1].txns
    requires request.eventId in run[j].disk.products || request.eventId in run[j].disk.events
    ensures k.archive.Some? && k.archive.value in run[m].disk.archive
    ensures run[m].disk.archive[k.archive.value]
      == Stage(HeldOf(Lookup(run[j].disk.products, request.eventId)), HeldOf(Lookup(run[j].disk.events, request.eventId)))
  {
    hide Inv, Init, Run, Step;
    AcceptedIsThere(max, run[i], run[i + 1], request, s);
    RequestsAreImmutable(max, run, i + 1, j, s);
    PreparedIsOpen(max, run[j], run[j + 1], s, k, hash);
    TransactionsStay(max, run, j + 1, n, request.eventId);
    RetainedForever(max, run, n, m, request.eventId);
  }
}
