/** Whatever writes to the tree moves the machine of Lifecycle: submission, preparation, a worker's own record writes, and the
    restart of the service. What the scheduler writes is in Scheduling. */
module Simulation {
  import opened Common
  import opened Disk
  import opened Volumes
  import opened Protocol
  import opened Census
  import opened Invariants
  import opened StartupRecovery
  import opened Lifecycle
  import opened Scheduling
  import Acceptance
  import Names
  import Preparation
  import Snapshot
  import Status

  // -------------------------------------------------------------- submission

  /** A submission publishes its entry, or spends its sequence, or does nothing. */
  method Submit(vol: Volume, request: Acceptance.Request, max: nat, ghost a: System)
    returns (out: Outcome, s: int, ghost b: System)
    requires vol.Valid() && vol.Synced() && request.WellFormed() && Inv(max, a) && a.disk == vol.disk
    modifies vol
    ensures vol.Valid() && vol.Synced() && Inv(max, b) && b.disk == vol.disk && Reaches(max, a, b)
    ensures out.Done? ==> Step(max, a, b, Accept(request, s)) && s !in a.owner && b.owner == a.owner[s := request.eventId]
    ensures vol.regime.Calm? && Acceptance.CounterReadable(old(vol.disk)) ==> out.Done?
  {
    hide Inv, Step, Reaches, Acceptance.Advanced, Acceptance.Accepted, Acceptance.NewEntry, Acceptance.CounterReadable;
    out, s := Acceptance.PublishQueueEntry(vol, request);
    if vol.regime.Calm? && Acceptance.CounterReadable(old(vol.disk)) {
      NextIsFresh(max, a, s);
    }
    b := Submitted(max, a, vol.disk, request, s);
  }

  /** The disk that a submission leaves is that of a step. */
  lemma Submitted(max: nat, a: System, d: Disk, request: Acceptance.Request, s: int) returns (b: System)
    requires Inv(max, a) && request.WellFormed()
    requires
      || d == a.disk || Acceptance.Advanced(a.disk, d, s)
      || Acceptance.Accepted(a.disk, d, s, Acceptance.NewEntry(request, s))
    ensures Inv(max, b) && b.disk == d && Reaches(max, a, b)
    ensures Acceptance.Accepted(a.disk, d, s, Acceptance.NewEntry(request, s)) ==>
      Step(max, a, b, Accept(request, s)) && s !in a.owner && b.owner == a.owner[s := request.eventId]
  {
    hide Inv, Reaches, Acceptance.Advanced, Acceptance.NewEntry;
    b := a;
    ReachesItself(max, a);
    var action := Crash;
    if Acceptance.Accepted(a.disk, d, s, Acceptance.NewEntry(request, s)) {
      b, action := a.(disk := d, owner := a.owner[s := request.eventId]), Accept(request, s);
      StepKeepsInv(max, a, b, action);
      AcceptKeepsInv(max, a, b, request, s);
      ReachesFurther(max, a, a, b, action);
    } else if d != a.disk {
      b, action := a.(disk := d), Abandon(s);
      StepKeepsInv(max, a, b, action);
      ReachesFurther(max, a, a, b, action);
    }
  }

  lemma NextIsFresh(max: nat, a: System, s: int)
    requires Inv(max, a) && Acceptance.NextSequence(a.disk, s)
    ensures s !in a.disk.queue
  {
    hide Status.Valid, SlotsReserved, RunningHaveSlots, ClaimsHold, StartsInOrder, InTransaction;
  }

  // ------------------------------------------------------------- preparation

  /** Preparation of a calculation in its slot records at most a warning, or opens the transaction of its event. */
  method Prepare(vol: Volume, hash: Snapshot.Hash, s: int, selected: Names.DateTime, max: nat, ghost a: System)
    returns (out: Outcome, ghost b: System)
    requires vol.Valid() && vol.Synced() && Names.ValidDateTime(selected)
    requires Inv(max, a) && a.disk == vol.disk && s in a.slots
    modifies vol
    ensures vol.Valid() && vol.Synced() && Inv(max, b) && b.disk == vol.disk && Reaches(max, a, b)
    ensures out.Done? ==>
      exists k :: Step(max, a, b, Lifecycle.Prepare(s, k, hash)) && Preparation.Published(a.disk, b.disk, k, s)
    ensures vol.regime.Calm? ==> (out.Done? <==> Preparation.Preparable(hash, a.disk, s, selected))
  {
    hide Inv, Step, Reaches, Preparation.Preparable, Preparation.Claimable, Preparation.OnlyWarned, Preparation.Underway,
         Preparation.Announced, Preparation.Spared;
    ghost var k;
    out, k := Preparation.PrepareCalculation(vol, hash, s, selected);
    if out.Done? {
      PublishedIsUnderway(a.disk, vol.disk, k, s);
    }
    b := Prepared(max, a, vol.disk, hash, k, s);
  }

  lemma PublishedIsUnderway(before: Disk, after: Disk, k: Key, s: int)
    requires Preparation.Published(before, after, k, s)
    ensures Preparation.Underway(before, after, k, s) && after != before
  {
    hide InTransaction;
  }

  lemma Prepared(max: nat, a: System, d: Disk, hash: Snapshot.Hash, k: Key, s: int) returns (b: System)
    requires Inv(max, a) && s in a.slots
    requires d == a.disk || Preparation.Claimable(hash, a.disk, s)
    requires Preparation.OnlyWarned(a.disk, d, s) || Preparation.Underway(a.disk, d, k, s)
    ensures Inv(max, b) && b.disk == d && Reaches(max, a, b)
    ensures d != a.disk && Preparation.Underway(a.disk, d, k, s) ==> Step(max, a, b, Lifecycle.Prepare(s, k, hash))
  {
    hide Inv, Reaches, Preparation.Claimable, Preparation.Underway, Preparation.OnlyWarned, RecordStep, Preparation.OriginOf;
    b := a;
    ReachesItself(max, a);
    if d == a.disk {
      return;
    }
    var action := Lifecycle.Prepare(s, k, hash);
    if Preparation.Underway(a.disk, d, k, s) {
      UnderwayNamesItsEntry(a.disk, d, k, s);
      b := a.(disk := d, txns := a.txns[k.eventId := Txn(Preparation.OriginOf(a.disk, s), k)]);
    } else {
      var r := WarningIsAStep(hash, a.disk, d, s);
      b, action := a.(disk := d), Lifecycle.Rewrite(s, r);
    }
    StepKeepsInv(max, a, b, action);
    ReachesFurther(max, a, a, b, action);
  }

  lemma UnderwayNamesItsEntry(before: Disk, after: Disk, k: Key, s: int)
    requires Preparation.Underway(before, after, k, s)
    ensures s in before.queue
  {
    hide InTransaction;
  }

  lemma WarningIsAStep(hash: Snapshot.Hash, before: Disk, after: Disk, s: int) returns (r: Status.Record)
    requires Preparation.Claimable(hash, before, s) && Preparation.OnlyWarned(before, after, s) && after != before
    ensures RunningAt(before, InQueue(s)) && RecordStep(before, after, s, r)
  {
    hide Status.Valid, Preparation.Warned, Snapshot.Matches;
    var x := before.queue[s];
    r := Preparation.OriginOf(before, s).claimed.record;
    var e := x.record.eventId;
    Preparation.WarningKeepsValid(x.record, Preparation.MissingCounterpart(e in before.products, e in before.events));
  }

  // ------------------------------------------------------------- execution

  /** What a worker may write over the current record of its own calculation, once its native tree is in place. */
  predicate WorkersWrite(was: Status.Record, r: Status.Record) {
    && Status.Valid(r) && Status.SameIdentity(r, was) && r.overwrite == was.overwrite
    && (r.status == was.status || r.status in Status.AllowedTransitions(was.status))
  }

  /** A worker's writes are steps of its own transaction. */
  lemma WorkerWritesAreSteps(max: nat, a: System, s: int, r: Status.Record) returns (b: System)
    requires Inv(max, a) && s in a.slots && RunningAt(a.disk, InEvents(a.slots[s]))
    requires a.disk.events[a.slots[s]].record.sequence == s && WorkersWrite(a.disk.events[a.slots[s]].record, r)
    requires a.disk.events[a.slots[s]].journal.Some? && |a.disk.events[a.slots[s]].journal.value.completed| == 6
    ensures Inv(max, b) && b.disk == Put(a.disk, InEvents(a.slots[s]), a.disk.events[a.slots[s]].(record := r))
    ensures Step(max, a, b, Follow(a.slots[s]))
  {
    hide Inv, Waiting, Promoted, Recovered, Concluded, Status.Valid, WorkersWrite;
    var e := a.slots[s];
    SlotFacts(max, a, s);
    PromotedFacts(max, a, s);
    var t := a.txns[e];
    WorkerWriteKeepsIt(a, s, r);
    b := TakeFollow(max, a, Put(a.disk, InEvents(e), a.disk.events[e].(record := r)), e);
  }

  lemma WorkerWriteKeepsIt(a: System, s: int, r: Status.Record)
    requires s in a.slots && a.slots[s] in a.txns && RunningAt(a.disk, InEvents(a.slots[s])) && s !in a.disk.queue
    requires a.disk.events[a.slots[s]].record.sequence == s && WorkersWrite(a.disk.events[a.slots[s]].record, r)
    requires a.disk.events[a.slots[s]].journal.Some? && |a.disk.events[a.slots[s]].journal.value.completed| == 6
    requires var e := a.slots[s];
      var t := a.txns[e];
      t.key == Key(s, e, t.key.archive) && Promoted(t.origin, t.key, Look(a.disk, t.key))
    ensures var e := a.slots[s];
      var after := Put(a.disk, InEvents(e), a.disk.events[e].(record := r));
      Stepped(a.disk, after, a.txns, e) && StatusAdvances(a.disk, after, a.txns[e].key) && s !in after.queue
  {
    hide Status.Valid, Recovered, Concluded, Waiting;
    var e := a.slots[s];
    var t := a.txns[e];
    var x := a.disk.events[e].(record := r);
    PutIsLocal(a.disk, InEvents(e), x, t.key);
  }

  // ---------------------------------------------------------------- restarts

  lemma RecoveringIsSteps(max: nat, a: System, d: Disk, left: map<string, Txn>, now: int) returns (b: System)
    requires Inv(max, a) && !a.up && Recovers(a.disk, a.txns, d, left, now)
    ensures b == a.(disk := d, txns := left) && Inv(max, b) && Reaches(max, a, b)
  {
    hide Inv, Reaches, RecoverNext;
    var trail :| Trail(trail, now) && trail[0] == (a.disk, a.txns) && trail[|trail| - 1] == (d, left);
    b := TrailIsSteps(max, a, trail, |trail| - 1, now);
  }

  lemma {:induction false} TrailIsSteps(max: nat, a: System, trail: seq<(Disk, map<string, Txn>)>, n: nat, now: int)
    returns (b: System)
    requires Inv(max, a) && !a.up && Trail(trail, now) && n < |trail| && trail[0] == (a.disk, a.txns)
    ensures b == a.(disk := trail[n].0, txns := trail[n].1) && Inv(max, b) && Reaches(max, a, b)
    decreases n
  {
    hide Inv, Reaches, LedgerAfter, TxnAt;
    if n == 0 {
      ReachesItself(max, a);
      return a;
    }
    var c := TrailIsSteps(max, a, trail, n - 1, now);
    assert RecoverNext(trail[n - 1].0, trail[n - 1].1, trail[n].0, trail[n].1, now);
    var at, cleared :| RecoveryStep(c.disk, trail[n].0, c.txns, at, now, cleared)
      && trail[n].1 == LedgerAfter(c.disk, trail[n].0, c.txns, at);
    b := c.(disk := trail[n].0, txns := trail[n].1);
    StepKeepsInv(max, c, b, Recover(at, now, cleared));
    ReachesFurther(max, a, c, b, Recover(at, now, cleared));
  }

  /** lifespan, up to its yield: recover, then admit work. After whatever the last process left, a restart without faults
      succeeds, and every calculation it finds running has failed before the scheduler exists. */
  method Restart(vol: Volume, max: nat, now: int, ghost a: System)
    returns (out: Outcome, scheduler: Scheduler?, ghost b: System)
    requires vol.Valid() && vol.Synced() && Inv(max, a) && a.disk == vol.disk
    requires !a.up && a.slots == map[] && a.reserved == map[]
    modifies vol
    ensures vol.Valid() && vol.Synced() && Inv(max, b) && b.disk == vol.disk && Reaches(max, a, b)
    ensures out.Done? <==> scheduler != null
    ensures out.Done? ==> scheduler.vol == vol && scheduler.maxConcurrent == max && scheduler.Mirrors(b) && !scheduler.closed
    ensures vol.regime.Calm? ==> out.Done?
    ensures QueuedKept(old(vol.disk), vol.disk)
    ensures out.Done? ==> forall at | RunningAt(old(vol.disk), at) ::
      NowFailed(vol.disk, At(old(vol.disk), at).value.record, Journaled(old(vol.disk), at), now)
  {
    hide Inv, Step, Reaches, Coherent, NowFailed, QueuedKept, Recovers, SparesTree, Reports;
    scheduler := null;
    InvIsSound(max, a);
    var recovered;
    ghost var left;
    out, recovered, left := RecoverInterruptedCalculations(vol, now, a.owner, a.txns);
    b := RecoveringIsSteps(max, a, vol.disk, left, now);
    if !out.Done? {
      return;
    }
    ghost var c := b;
    scheduler := new Scheduler(vol, max, c);
    b := c.(up := true);
    ReachesFurther(max, a, c, b, Boot);
  }

  lemma InvIsSound(max: nat, a: System)
    requires Inv(max, a)
    ensures Coherent(a.disk, a.owner, a.txns) && Sound(a.disk)
  {
    hide Coherent, Sound;
    CoherentIsSound(a.disk, a.owner, a.txns);
  }
}
