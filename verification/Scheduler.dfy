/** Bounded admission and reservation for queued calculations (scheduler.py, queue.py). */
module Scheduling {
  import opened Common
  import opened Disk
  import opened Volumes
  import opened Protocol
  import opened Census
  import opened Invariants
  import opened Lifecycle
  import Mending
  import Reconciliation
  import Snapshot
  import StartupRecovery
  import Status

  // ------------------------------------------------------------- taking steps

  lemma TakeStart(max: nat, a: System, d: Disk, s: int, now: int) returns (b: System)
    requires Inv(max, a) && s in a.slots && Started(a.disk, d, s, now)
    ensures b == a.(disk := d, starts := a.starts + [s]) && Step(max, a, b, Start(s, now)) && Inv(max, b)
  {
    hide Inv, Started;
    b := a.(disk := d, starts := a.starts + [s]);
    StartKeepsInv(max, a, b, s, now);
  }

  lemma TakeRewrite(max: nat, a: System, d: Disk, s: int, r: Status.Record) returns (b: System)
    requires Inv(max, a) && s in a.slots && RunningAt(a.disk, InQueue(s)) && RecordStep(a.disk, d, s, r)
    ensures b == a.(disk := d) && Step(max, a, b, Lifecycle.Rewrite(s, r)) && Inv(max, b)
  {
    hide Inv, RecordStep;
    b := a.(disk := d);
    RewriteKeepsInv(max, a, b, s, r);
  }

  lemma TakeFollow(max: nat, a: System, d: Disk, e: string) returns (b: System)
    requires Inv(max, a) && e in a.txns && a.txns[e].key.sequence in a.slots
    requires Stepped(a.disk, d, a.txns, e) && StatusAdvances(a.disk, d, a.txns[e].key)
    requires a.txns[e].key.sequence in d.queue ==> d.queue[a.txns[e].key.sequence].record.status.Running?
    ensures b == a.(disk := d, txns := Ledger(d, a.txns, e)) && Step(max, a, b, Follow(e)) && Inv(max, b)
  {
    hide Inv, Stepped, StatusAdvances, Ledger;
    b := a.(disk := d, txns := Ledger(d, a.txns, e));
    FollowKeepsInv(max, a, b, e);
  }

  lemma TakeReserve(max: nat, a: System, s: int, unreadable: set<int>) returns (b: System)
    requires Inv(max, a) && a.up && |a.slots| < max && Eligible(a, s, unreadable)
    ensures s in a.disk.queue
    ensures var e := a.disk.queue[s].record.eventId;
      b == a.(slots := a.slots[s := e], reserved := a.reserved[e := s])
    ensures Step(max, a, b, Reserve(s, unreadable)) && Inv(max, b)
  {
    hide Inv;
    var e := a.disk.queue[s].record.eventId;
    b := a.(slots := a.slots[s := e], reserved := a.reserved[e := s]);
    ReserveKeepsInv(max, a, b, s, unreadable);
  }

  lemma TakeRelease(max: nat, a: System, s: int) returns (b: System)
    requires Inv(max, a) && s in a.slots && MayRelease(a.disk, s, a.slots[s])
    ensures b == a.(slots := a.slots - {s}, reserved := Unreserved(a.reserved, a.slots[s], s))
    ensures Step(max, a, b, Release(s)) && Inv(max, b)
  {
    hide Inv, MayRelease;
    b := a.(slots := a.slots - {s}, reserved := Unreserved(a.reserved, a.slots[s], s));
    ReleaseKeepsInv(max, a, b, s);
  }

  lemma TakeRetain(max: nat, a: System, s: int) returns (b: System)
    requires Inv(max, a) && s in a.slots && MayRetain(a.disk, s, a.slots[s])
    ensures b == a.(slots := a.slots - {s}) && Step(max, a, b, Retain(s)) && Inv(max, b)
  {
    hide Inv, MayRetain;
    b := a.(slots := a.slots - {s});
    ReleaseKeepsInv(max, a, b, s);
  }

  lemma TakeCrash(max: nat, a: System) returns (b: System)
    requires Inv(max, a)
    ensures b == a.(up := false, slots := map[], reserved := map[]) && Step(max, a, b, Action.Crash) && Inv(max, b)
  {
    hide Inv;
    b := a.(up := false, slots := map[], reserved := map[]);
    StopKeepsInv(max, a, b);
  }

  lemma TakeBoot(max: nat, a: System) returns (b: System)
    requires Inv(max, a) && !a.up && forall at :: !RunningAt(a.disk, at)
    ensures b == a.(up := true) && Step(max, a, b, Boot) && Inv(max, b)
  {
    hide Inv, RunningAt;
    b := a.(up := true);
    StopKeepsInv(max, a, b);
  }

  /** What the machine's invariants say about the record in one slot. */
  lemma SlotFacts(max: nat, a: System, s: int)
    requires Inv(max, a) && s in a.slots
    ensures |a.slots| <= max && a.slots[s] in a.reserved && a.reserved[a.slots[s]] == s
    ensures s in a.disk.queue ==>
      var r := a.disk.queue[s].record; Status.Valid(r) && r.sequence == s && r.eventId == a.slots[s]
    ensures a.slots[s] in a.disk.events ==>
      var r := a.disk.events[a.slots[s]].record;
      && Status.Valid(r) && r.eventId == a.slots[s]
      && (r.status.Running? ==> Journaled(a.disk, InEvents(a.slots[s])))
      && (r.sequence == s ==> s !in a.disk.queue)
  {
    hide RunningHaveSlots, ClaimsHold, StartsInOrder, Live, Status.Valid, ArchivedOnce, OneRunningPerEvent;
  }

  // ---------------------------------------------------------------- scheduler

  datatype SchedulerError = SchedulerError(sequence: int, eventId: string)

  const ERRORS_KEPT := 100

  /** deque(maxlen=100) */
  function Latest(errors: seq<SchedulerError>): seq<SchedulerError> {
    if |errors| > 100 then errors[|errors| - 100..] else errors
  }

  class Scheduler {
    const vol: Volume
    const maxConcurrent: nat
    var slots: map<int, string>
    var reservations: map<string, int>
    var errors: seq<SchedulerError>
    ghost var recorded: seq<SchedulerError>   // every error there has been; `errors` keeps the latest
    var handed: seq<int>          // calculations given to the executor, in order
    var closed: bool

    /** A new scheduler, over a tree that startup recovery has left without running records. */
    constructor (vol: Volume, maxConcurrent: nat, ghost a: System)
      requires vol.Valid() && vol.Synced() && a.disk == vol.disk && Inv(maxConcurrent, a) && !a.up
      requires a.slots == map[] && a.reserved == map[] && forall at :: !RunningAt(vol.disk, at)
      ensures this.vol == vol && this.maxConcurrent == maxConcurrent && !closed && errors == []
      ensures Mirrors(a.(up := true)) && Step(maxConcurrent, a, a.(up := true), Boot)
    {
      hide Inv, Step, RunningAt;
      this.vol, this.maxConcurrent := vol, maxConcurrent;
      slots, reservations, errors, recorded, handed, closed := map[], map[], [], [], [], false;
      new;
      ghost var b := TakeBoot(maxConcurrent, a);
    }

    /** The machine's state is this scheduler over this tree. */
    ghost predicate Mirrors(a: System)
      reads this, vol
    {
      && vol.Valid() && vol.Synced() && Inv(maxConcurrent, a)
      && a.up && a.disk == vol.disk && a.slots == slots && a.reserved == reservations
    }

    /** How an operation begun in `a` leaves things: the machine has moved to `b`, or the process died there. */
    ghost predicate Moved(a: System, b: System, out: Outcome)
      reads this, vol
    {
      && Reaches(maxConcurrent, a, b) && vol.Valid() && vol.Synced()
      && (out.Crashed? ==> !vol.regime.Calm? && b.disk == vol.disk && !b.up && Inv(maxConcurrent, b))
      && (!out.Crashed? ==> Mirrors(b))
    }

    lemma NothingMoved(a: System)
      requires Mirrors(a)
      ensures Moved(a, a, Done) && Moved(a, a, Error)
    {
      hide Inv, Step, Reaches;
      ReachesItself(maxConcurrent, a);
    }

    method RecordError(sequence: int, eventId: string)
      modifies this`errors, this`recorded
      ensures recorded == old(recorded) + [SchedulerError(sequence, eventId)]
      ensures old(errors) == Latest(old(recorded)) ==> errors == Latest(recorded)
    {
      errors := (if |errors| >= ERRORS_KEPT then errors[|errors| + 1 - ERRORS_KEPT..] else errors)
                + [SchedulerError(sequence, eventId)];
      recorded := recorded + [SchedulerError(sequence, eventId)];
    }

    // ------------------------------------------------------------- slots

    method Release(s: int, ghost a: System) returns (ghost b: System)
      requires Mirrors(a) && s in slots && MayRelease(vol.disk, s, slots[s])
      modifies this`slots, this`reservations
      ensures Mirrors(b) && Step(maxConcurrent, a, b, Action.Release(s))
      ensures slots == old(slots) - {s} && reservations == Unreserved(old(reservations), old(slots)[s], s)
    {
      hide Inv, Step, MayRelease;
      b := TakeRelease(maxConcurrent, a, s);
      var e := slots[s];
      slots := slots - {s};
      if e in reservations && reservations[e] == s {
        reservations := reservations - {e};
      }
    }

    method RetainEventWithoutCapacity(s: int, ghost a: System) returns (ghost b: System)
      requires Mirrors(a) && s in slots && MayRetain(vol.disk, s, slots[s])
      modifies this`slots
      ensures Mirrors(b) && Step(maxConcurrent, a, b, Retain(s)) && slots == old(slots) - {s}
    {
      hide Inv, Step, MayRetain;
      b := TakeRetain(maxConcurrent, a, s);
      slots := slots - {s};
    }

    // ----------------------------------------------------------- record writes

    /** transition_to_running of an entry in its slot. */
    method TransitionToRunning(s: int, now: int, ghost a: System) returns (out: Outcome, ghost b: System)
      requires Mirrors(a) && s in slots && WaitingFor(vol.disk, s, slots[s])
      modifies vol
      ensures Moved(a, b, out)
      ensures OnlyEntry(old(vol.disk), vol.disk, s)
      ensures out.Done? ==> RunningAt(vol.disk, InQueue(s))
      ensures out.Done? ==>
        s in old(vol.disk).queue && Status.OnlyStarted(old(vol.disk).queue[s].record, vol.disk.queue[s].record, now)
      ensures out.Error? ==> vol.regime.IoFaults?
      ensures vol.regime.Calm? ==> out.Done?
    {
      hide Inv, Step, Reaches, RecordStep, Status.Valid, Status.Transition, Status.OnlyStarted;
      SlotFacts(maxConcurrent, a, s);
      ReachesItself(maxConcurrent, a);
      b := a;
      var r := vol.disk.queue[s].record;
      Status.OnlyTheStartIsRecorded(r, now);
      var running := Status.Transition(r, Status.Running, Status.NO_ARGUMENTS, Status.Utc(now));
      Status.QueuedAlwaysStarts(r, Status.Utc(now));
      Status.TransitionFollowsTable(r, Status.Running, Status.NO_ARGUMENTS, Status.Utc(now));
      ClaimedIsPlain(maxConcurrent, a, s);
      ghost var started := Put(vol.disk, InQueue(s), vol.disk.queue[s].(record := running.value));
      StartedByWriting(a.disk, s, now);
      out := vol.Strike();
      if out.Done? {
        out := vol.Rewrite(WriteRecord(InQueue(s), running.value), RecordDirectory);
      }
      if vol.disk == started {
        b := TakeStart(maxConcurrent, a, started, s, now);
        ReachesFurther(maxConcurrent, a, a, b, Start(s, now));
      }
      if out.Crashed? {
        b := Died(a, b);
      }
    }

    /** The process is gone. */
    ghost method Died(a: System, b: System) returns (c: System)
      requires Reaches(maxConcurrent, a, b) && Inv(maxConcurrent, b)
      ensures Reaches(maxConcurrent, a, c) && Inv(maxConcurrent, c) && c.disk == b.disk && !c.up
    {
      hide Inv, Step, Reaches;
      c := TakeCrash(maxConcurrent, b);
      ReachesFurther(maxConcurrent, a, b, c, Action.Crash);
    }

    // ------------------------------------------------------------ finishing

    /** _read_authoritative_record */
    method ReadAuthoritativeRecord(s: int, e: string) returns (r: Result<Option<Place>>)
      ensures r == Authoritative(vol.disk, s, e)
    {
      if s in vol.disk.queue {
        if !Status.Valid(vol.disk.queue[s].record) || vol.disk.queue[s].record.sequence != s
           || vol.disk.queue[s].record.eventId != e {
          return Raised;
        }
        return Ok(Some(InQueue(s)));
      }
      if e !in vol.disk.events {
        return Ok(None);
      }
      if !Status.Valid(vol.disk.events[e].record) || vol.disk.events[e].record.eventId != e
         || vol.disk.events[e].record.sequence != s {
        return Raised;
      }
      return Ok(Some(InEvents(e)));
    }

    /** transition_to_failed, on a queue entry that never opened a transaction. */
    method FailQueued(s: int, error: Option<string>, now: int, ghost a: System) returns (out: Outcome, ghost b: System)
      requires Mirrors(a) && s in slots && RunningAt(vol.disk, InQueue(s)) && !Journaled(vol.disk, InQueue(s))
      modifies vol
      ensures Moved(a, b, out) && OnlyEntry(old(vol.disk), vol.disk, s)
      ensures s in vol.disk.queue && s in old(vol.disk).queue
      ensures (vol.disk.queue[s].record == old(vol.disk).queue[s].record && !out.Done?)
        || CallbackFailure(old(vol.disk).queue[s].record, vol.disk.queue[s].record, error, true, now)
      ensures out.Error? ==> vol.regime.IoFaults?
    {
      hide Inv, Step, Reaches, Status.Valid, Status.Transition, CallbackFailure, OnlyEntry;
      SlotFacts(maxConcurrent, a, s);
      var r := vol.disk.queue[s].record;
      var failed := Status.Transition(r, Status.Failed, FailureArguments(error, true), Status.Utc(now));
      FailureSucceeds(r, error, true, now);
      out, b := WriteQueued(s, failed.value, a);
    }

    /** The write of an entry failed in place. */
    method WriteQueued(s: int, failed: Status.Record, ghost a: System) returns (out: Outcome, ghost b: System)
      requires Mirrors(a) && s in slots && RunningAt(vol.disk, InQueue(s)) && !Journaled(vol.disk, InQueue(s))
      requires Status.Valid(failed) && Status.SameIdentity(failed, vol.disk.queue[s].record)
      requires failed.status.Failed? && failed.overwrite == vol.disk.queue[s].record.overwrite
      modifies vol
      ensures Moved(a, b, out) && OnlyEntry(old(vol.disk), vol.disk, s)
      ensures s in vol.disk.queue && s in old(vol.disk).queue
      ensures vol.disk.queue[s].record == failed
        || (vol.disk.queue[s].record == old(vol.disk).queue[s].record && !out.Done?)
      ensures out.Error? ==> vol.regime.IoFaults?
    {
      hide Inv, Step, Reaches, RecordStep, Status.Valid, OnlyEntry, Put, Apply;
      NothingMoved(a);
      b := a;
      SameEntry(vol.disk, s);
      EntryIsRewritten(vol.disk, s, failed);
      ghost var after := Put(vol.disk, InQueue(s), vol.disk.queue[s].(record := failed));
      FailedByWriting(a.disk, s, failed);
      out := vol.Strike();
      if out.Done? {
        out := vol.Rewrite(WriteRecord(InQueue(s), failed), RecordDirectory);
      }
      if vol.disk == after {
        b := TakeRewrite(maxConcurrent, a, after, s, failed);
        ReachesFurther(maxConcurrent, a, a, b, Lifecycle.Rewrite(s, failed));
      }
      if out.Crashed? {
        b := Died(a, b);
      }
    }

    /** transition_current_record to FAILED, on the record a worker's transaction has promoted. */
    method FailCurrent(s: int, error: Option<string>, now: int, ghost a: System) returns (out: Outcome, ghost b: System)
      requires Mirrors(a) && s in slots && RunningAt(vol.disk, InEvents(slots[s]))
      requires vol.disk.events[slots[s]].record.sequence == s
      modifies vol
      ensures Moved(a, b, out) && vol.disk.queue == old(vol.disk).queue
      ensures slots[s] in vol.disk.events && vol.disk.events[slots[s]].record.sequence == s
      ensures slots[s] in old(vol.disk).events
      ensures (vol.disk.events[slots[s]].record == old(vol.disk).events[slots[s]].record && !out.Done?)
        || CallbackFailure(old(vol.disk).events[slots[s]].record, vol.disk.events[slots[s]].record, error, false, now)
      ensures out.Error? ==> vol.regime.IoFaults?
    {
      hide Inv, Step, Reaches, Status.Valid, Status.Transition, CallbackFailure;
      SlotFacts(maxConcurrent, a, s);
      var r := vol.disk.events[slots[s]].record;
      var failed := Status.Transition(r, Status.Failed, FailureArguments(error, false), Status.Utc(now));
      FailureSucceeds(r, error, false, now);
      out, b := WriteCurrent(s, failed.value, a);
    }

    /** The write of a record failed in place. */
    method WriteCurrent(s: int, failed: Status.Record, ghost a: System) returns (out: Outcome, ghost b: System)
      requires Mirrors(a) && s in slots && RunningAt(vol.disk, InEvents(slots[s]))
      requires vol.disk.events[slots[s]].record.sequence == s
      requires Status.Valid(failed) && Status.SameIdentity(failed, vol.disk.events[slots[s]].record)
      requires failed.status.Failed? && failed.overwrite == vol.disk.events[slots[s]].record.overwrite
      modifies vol
      ensures Moved(a, b, out) && vol.disk.queue == old(vol.disk).queue
      ensures slots[s] in vol.disk.events && slots[s] in old(vol.disk).events
      ensures vol.disk.events[slots[s]].record == failed
        || (vol.disk.events[slots[s]].record == old(vol.disk).events[slots[s]].record && !out.Done?)
      ensures out.Error? ==> vol.regime.IoFaults?
    {
      hide Inv, Step, Reaches, Stepped, StatusAdvances, Ledger, Status.Valid, Status.SameIdentity, Put, Apply;
      NothingMoved(a);
      b := a;
      var e := slots[s];
      CurrentIsRewritten(vol.disk, e, failed);
      ghost var after := Put(vol.disk, InEvents(e), vol.disk.events[e].(record := failed));
      FailingCurrentIsAStep(maxConcurrent, a, s, failed);
      out := vol.Strike();
      if out.Done? {
        out := vol.Rewrite(WriteRecord(InEvents(e), failed), RecordDirectory);
      }
      if vol.disk == after {
        b := TakeFollow(maxConcurrent, a, after, e);
        ReachesFurther(maxConcurrent, a, a, b, Follow(e));
      }
      if out.Crashed? {
        b := Died(a, b);
      }
    }

    /** _ensure_terminal */
    method EnsureTerminal(s: int, error: Option<string>, now: int, ghost a: System)
      returns (out: Outcome, location: Place, ghost b: System)
      requires Mirrors(a) && s in slots && Unopened(vol.disk, s)
      modifies vol
      ensures Moved(a, b, out)
      ensures out.Done? ==> TerminalAt(vol.disk, s, slots[s], location) && At(vol.disk, location).Some?
      ensures out.Done? ==> RecordOf(old(vol.disk), s, slots[s]).Some?
      ensures RecordOf(old(vol.disk), s, slots[s]).Some? ==>
        ClosedAs(old(vol.disk), vol.disk, s, slots[s], false, error, now)
      ensures s in old(vol.disk).queue ==> OnlyEntry(old(vol.disk), vol.disk, s)
      ensures out.Error? ==> vol.regime.IoFaults? || !Finishable(old(vol.disk), s, slots[s])
    {
      hide Inv, Step, Reaches, Status.Valid, Authoritative;
      ReachesItself(maxConcurrent, a);
      b, location := a, InQueue(s);
      if Finishable(vol.disk, s, slots[s]) {
        BegunIsAuthoritative(maxConcurrent, a, s);
      }
      AuthoritativePlace(vol.disk, s, slots[s]);
      out := vol.Strike();
      if out.Crashed? {
        b := Died(a, a);
      }
      if !out.Done? {
        return;
      }
      var e := slots[s];
      var target := ReadAuthoritativeRecord(s, e);
      if target.Raised? || target.value.None? {
        return Error, location, b;
      }
      location := target.value.value;
      var status := At(vol.disk, location).value.record.status;
      if status.Terminal() {
        return Done, location, b;
      }
      if !status.Running? {
        return Error, location, b;
      }
      if location.InQueue? {
        out, b := FailQueued(s, error, now, a);
      } else {
        out, b := FailCurrent(s, error, now, a);
      }
    }

    /** finalize_transaction, for the terminal current record of a slot. */
    method FinalizeTransaction(s: int, ghost a: System) returns (out: Outcome, ghost b: System)
      requires Mirrors(a) && s in slots && TerminalAt(vol.disk, s, slots[s], InEvents(slots[s]))
      modifies vol
      ensures Moved(a, b, out)
      ensures !out.Crashed? ==> MayRetain(vol.disk, s, slots[s])
      ensures out.Done? ==> MayRelease(vol.disk, s, slots[s])
      ensures !out.Crashed? ==> SameRecord(old(vol.disk), vol.disk, s, slots[s])
      ensures vol.regime.Calm? && out.Error? ==>
        Journaled(vol.disk, InEvents(slots[s])) && !Reconciliation.Finished(vol.disk, slots[s])
      ensures vol.regime.Calm? ==> !out.Crashed?
    {
      hide Inv, Step, Reaches, Stepped, StatusAdvances, Ledger, Status.Valid, Reconciliation.Finished, Finalizable;
      FinishedExactlyWhen(maxConcurrent, a, s);
      ReachesItself(maxConcurrent, a);
      b := a;
      var e := slots[s];
      FinalizingIsAStep(maxConcurrent, a, s);
      var removed;
      out, removed := Reconciliation.FinalizeTransaction(vol, e);
      if vol.disk != a.disk {
        b := TakeFollow(maxConcurrent, a, vol.disk, e);
        ReachesFurther(maxConcurrent, a, a, b, Follow(e));
      }
      if out.Crashed? {
        b := Died(a, b);
      }
    }

    /** reconcile_transaction, for the calculation of a slot. */
    method Reconcile(s: int, now: int, ghost a: System) returns (out: Outcome, found: bool, ghost b: System)
      requires Mirrors(a) && s in slots
      modifies vol
      ensures Moved(a, b, out)
      ensures out.Done? && found ==> Reconciliation.TransactionFound(old(vol.disk), slots[s], s)
      ensures !Reconciliation.TransactionFound(old(vol.disk), slots[s], s) ==> vol.disk == old(vol.disk)
      ensures out.Done? && found ==>
        TerminalAt(vol.disk, s, slots[s], InEvents(slots[s])) && MayRelease(vol.disk, s, slots[s])
      ensures out.Done? && !found ==> vol.disk == old(vol.disk) && Unopened(vol.disk, s)
      ensures out.Error? && Begun(old(vol.disk), s, slots[s]) ==>
        vol.regime.IoFaults? || TerminalAt(vol.disk, s, slots[s], InEvents(slots[s]))
      ensures Reconciliation.TransactionFound(old(vol.disk), slots[s], s) ==>
        (out.Done? ==> found) && ClosedAs(old(vol.disk), vol.disk, s, slots[s], true, None, now)
      ensures vol.regime.Calm? && out.Error? && Begun(old(vol.disk), s, slots[s]) ==>
        Journaled(vol.disk, InEvents(slots[s])) && !Reconciliation.Finished(vol.disk, slots[s])
    {
      hide Inv, Step, Reaches, Stepped, StatusAdvances, Ledger, InTransaction, Recovered, Reconciliation.Reconciled,
           Reconciliation.Located;
      ReachesItself(maxConcurrent, a);
      b := a;
      var e := slots[s];
      FoundIsOwn(maxConcurrent, a, s);
      if Begun(a.disk, s, e) {
        BegunIsLocated(maxConcurrent, a, s);
      }
      ghost var t := SlotTransaction(a, s);
      out, found := Reconciliation.ReconcileTransaction(vol, e, s, now, t.origin, t.key);
      if Reconciliation.TransactionFound(a.disk, e, s) {
        ReconcilingIsAStep(maxConcurrent, a, vol.disk, s);
        b := TakeFollow(maxConcurrent, a, vol.disk, e);
        ReachesFurther(maxConcurrent, a, a, b, Follow(e));
        ReconciledFacts(maxConcurrent, a, vol.disk, s);
        ReconciledIsClosed(maxConcurrent, a, vol.disk, s, now);
      }
      if out.Crashed? {
        b := Died(a, b);
      }
    }

    /** _finish_without_callback, for an entry tick reserved but could not start. */
    method FinishWithoutCallback(s: int, error: string, now: int, ghost a: System) returns (out: Outcome, ghost b: System)
      requires Mirrors(a) && s in slots && s in vol.disk.queue && !Journaled(vol.disk, InQueue(s))
      modifies vol, this`slots, this`reservations, this`errors, this`recorded
      ensures Moved(a, b, out) && OnlyEntry(old(vol.disk), vol.disk, s)
      ensures !out.Error?
      ensures slots == old(slots) - {s} || slots == old(slots)
      ensures reservations == if s in slots then old(reservations) else Unreserved(old(reservations), old(slots)[s], s)
      ensures out.Done? && s in slots ==> vol.regime.IoFaults?
      ensures old(recorded) <= recorded
      ensures out.Done? ==>
        recorded == old(recorded)
          + if s !in slots && !WaitingFor(vol.disk, s, old(slots)[s]) then [] else [SchedulerError(s, old(slots)[s])]
      ensures out.Done? ==> Settled(vol.disk, recorded[|old(recorded)|..], s, old(slots)[s])
      ensures out.Done? ==> ClosedAs(old(vol.disk), vol.disk, s, old(slots)[s], false, Some(error), now)
    {
      hide Inv, Step, Reaches, Status.Valid, Authoritative, OnlyEntry;
      SlotFacts(maxConcurrent, a, s);
      ReachesItself(maxConcurrent, a);
      SameEntry(vol.disk, s);
      b := a;
      var e := slots[s];
      AuthoritativePlace(vol.disk, s, e);
      AuthoritativeEntry(vol.disk, s, e);
      out := vol.Strike();
      if out.Crashed? {
        b := Died(a, a);
        return;
      }
      if out.Error? {
        RecordError(s, e);
        return Done, b;
      }
      var target := ReadAuthoritativeRecord(s, e);
      if target.value.None? || At(vol.disk, target.value.value).value.record.status.Queued? {
        RecordError(s, e);
        b := Release(s, a);
        ReachesFurther(maxConcurrent, a, a, b, Action.Release(s));
        return Done, b;
      }
      var location;
      out, location, b := EnsureTerminal(s, Some(error), now, a);
      EntryStays(old(vol.disk), vol.disk, s);
      if out.Crashed? {
        return;
      }
      if out.Error? {
        RecordError(s, e);
        return Done, b;
      }
      ghost var c := b;
      b := Release(s, c);
      ReachesFurther(maxConcurrent, a, c, b, Action.Release(s));
    }

    /** _drop_capacity_for_terminal_current */
    method DropCapacityForTerminalCurrent(s: int, ghost a: System) returns (out: Outcome, ghost b: System)
      requires Mirrors(a) && s in slots
      modifies vol, this`slots
      ensures Moved(a, b, out) && vol.disk == old(vol.disk) && !out.Error?
      ensures slots == old(slots) || slots == old(slots) - {s}
      ensures out.Done? && s in slots && TerminalAt(vol.disk, s, old(slots)[s], InEvents(old(slots)[s])) ==>
        vol.regime.IoFaults?
    {
      hide Inv, Step, Reaches, Status.Valid, Authoritative;
      ReachesItself(maxConcurrent, a);
      b := a;
      var e := slots[s];
      SlotFacts(maxConcurrent, a, s);
      TerminalIsAuthoritative(maxConcurrent, a, s);
      AuthoritativePlace(vol.disk, s, e);
      out := vol.Strike();
      if out.Crashed? {
        b := Died(a, a);
        return;
      }
      if out.Error? {
        return Done, b;
      }
      var target := ReadAuthoritativeRecord(s, e);
      if target.Ok? && target.value.Some? && target.value.value.InEvents?
         && At(vol.disk, target.value.value).value.record.status.Terminal() {
        b := RetainEventWithoutCapacity(s, a);
        ReachesFurther(maxConcurrent, a, a, b, Retain(s));
      }
    }

    /** _verify_terminal, and the check that the record is the current one. */
    method VerifyTerminal(s: int, ghost a: System) returns (out: Outcome, ghost b: System)
      requires Mirrors(a) && s in slots
      modifies vol
      ensures Moved(a, b, out) && vol.disk == old(vol.disk)
      ensures out.Done? ==> TerminalAt(vol.disk, s, slots[s], InEvents(slots[s]))
      ensures out.Error? ==> vol.regime.IoFaults? || !TerminalAt(vol.disk, s, slots[s], InEvents(slots[s]))
    {
      hide Inv, Step, Reaches, Status.Valid, Authoritative;
      ReachesItself(maxConcurrent, a);
      b := a;
      var e := slots[s];
      SlotFacts(maxConcurrent, a, s);
      TerminalIsAuthoritative(maxConcurrent, a, s);
      AuthoritativePlace(vol.disk, s, e);
      out := vol.Strike();
      if out.Crashed? {
        b := Died(a, a);
      }
      if !out.Done? {
        return;
      }
      var target := ReadAuthoritativeRecord(s, e);
      if target.Raised? || target.value.None? || !target.value.value.InEvents?
         || !At(vol.disk, target.value.value).value.record.status.Terminal() {
        return Error, b;
      }
    }

    /** The end of _run_calculation for a terminal current record: finalize, then release or retain. */
    method FinalizeAndRelease(s: int, ghost a: System) returns (out: Outcome, ghost b: System)
      requires Mirrors(a) && s in slots && TerminalAt(vol.disk, s, slots[s], InEvents(slots[s]))
      modifies vol, this`slots, this`reservations, this`errors, this`recorded
      ensures Moved(a, b, out) && !out.Error?
      ensures out.Done? ==> slots == old(slots) - {s}
      ensures out.Done? ==> SameRecord(old(vol.disk), vol.disk, s, old(slots)[s])
      ensures out.Done? ==>
        GivesUpOrReports(old(recorded), recorded, s, old(slots), slots, old(reservations), reservations)
      ensures vol.regime.Calm? ==> GivenUp(vol.disk, s, old(slots), slots, old(reservations), reservations)
    {
      hide Inv, Step, Reaches, MayRelease, Reconciliation.Finished, GivenUp, SameRecord;
      var e := slots[s];
      out, b := FinalizeTransaction(s, a);
      if out.Crashed? {
        return;
      }
      ghost var c := b;
      if out.Error? {
        RecordError(s, e);
        b := RetainEventWithoutCapacity(s, c);
        ReachesFurther(maxConcurrent, a, c, b, Retain(s));
        if vol.regime.Calm? {
          Retained(vol.disk, s, old(slots), reservations);
        }
        return Done, b;
      }
      Released(vol.disk, s, slots, reservations);
      b := Release(s, c);
      ReachesFurther(maxConcurrent, a, c, b, Action.Release(s));
    }

    /** _run_calculation, once the callback has returned or raised. A slot is given up unless some read or write
        failed, and it is never given up while the record is RUNNING. */
    method FinishCalculation(s: int, error: Option<string>, now: int, ghost a: System) returns (out: Outcome, ghost b: System)
      requires Mirrors(a) && s in slots && Begun(vol.disk, s, slots[s])
      requires error.None? ==> Unopened(vol.disk, s)
      modifies vol, this`slots, this`reservations, this`errors, this`recorded
      ensures Moved(a, b, out) && !out.Error?
      ensures out.Done? && s in slots ==> vol.regime.IoFaults?
      ensures out.Done? ==> ClosedAs(old(vol.disk), vol.disk, s, old(slots)[s],
        error.Some? && Reconciliation.TransactionFound(old(vol.disk), old(slots)[s], s), error, now)
      ensures out.Done? ==>
        GivesUpOrReports(old(recorded), recorded, s, old(slots), slots, old(reservations), reservations)
      ensures vol.regime.Calm? ==> GivenUp(vol.disk, s, old(slots), slots, old(reservations), reservations)
    {
      hide Inv, Step, Reaches, MayRelease, MayRetain, Begun, Unopened, ClosedAs, SameRecord, Reconciliation.TransactionFound,
           Reconciliation.Finished, GivenUp, TerminalAt;
      var e := slots[s];
      ghost var c, first := a, vol.disk;
      NothingClosed(first, s, e, true, error, now);
      NothingClosed(first, s, e, false, error, now);
      ReachesItself(maxConcurrent, a);
      if error.Some? {
        var found;
        out, found, c := Reconcile(s, now, a);
        b := c;
        if out.Crashed? {
          return;
        }
        ghost var middle := vol.disk;
        SameAsItself(middle, s, e);
        if Reconciliation.TransactionFound(first, e, s) {
          ClosedStays(first, middle, middle, s, e, true, None, error, now);
        }
        if out.Error? {
          RecordError(s, e);
          out, b := DropCapacityForTerminalCurrent(s, c);
          ReachesTogether(maxConcurrent, a, c, b);
          if vol.regime.Calm? {
            Retained(vol.disk, s, old(slots), reservations);
          }
          return;
        }
        if found {
          out, b := VerifyTerminal(s, c);
          ReachesTogether(maxConcurrent, a, c, b);
          if out.Crashed? {
            return;
          }
          if out.Error? {
            RecordError(s, e);
            return Done, b;
          }
          c := b;
          out, b := FinalizeAndRelease(s, c);
          ReachesTogether(maxConcurrent, a, c, b);
          if out.Done? {
            ClosedStays(first, middle, vol.disk, s, e, true, error, error, now);
          }
          return;
        }
      }
      out, b := FinishUnreconciled(s, error, now, c);
      ReachesTogether(maxConcurrent, a, c, b);
    }

    method FinishUnreconciled(s: int, error: Option<string>, now: int, ghost a: System) returns (out: Outcome, ghost b: System)
      requires Mirrors(a) && s in slots && Begun(vol.disk, s, slots[s]) && Unopened(vol.disk, s)
      modifies vol, this`slots, this`reservations, this`errors, this`recorded
      ensures Moved(a, b, out) && !out.Error?
      ensures out.Done? && s in slots ==> vol.regime.IoFaults?
      ensures out.Done? ==> ClosedAs(old(vol.disk), vol.disk, s, old(slots)[s], false, error, now)
      ensures out.Done? ==>
        GivesUpOrReports(old(recorded), recorded, s, old(slots), slots, old(reservations), reservations)
      ensures vol.regime.Calm? ==> GivenUp(vol.disk, s, old(slots), slots, old(reservations), reservations)
    {
      hide Inv, Step, Reaches, MayRetain, Unopened, ClosedAs, SameRecord, Reconciliation.Finished;
      var e := slots[s];
      ghost var first := vol.disk;
      NothingClosed(first, s, e, false, error, now);
      var location;
      out, location, b := EnsureTerminal(s, error, now, a);
      if out.Crashed? {
        return;
      }
      if out.Error? {
        RecordError(s, e);
        return Done, b;
      }
      ghost var c := b;
      if location.InEvents? {
        ghost var middle := vol.disk;
        out, b := FinalizeAndRelease(s, c);
        ReachesTogether(maxConcurrent, a, c, b);
        if out.Done? {
          ClosedStays(first, middle, vol.disk, s, e, false, error, error, now);
        }
        return;
      }
      b := Release(s, c);
      ReachesFurther(maxConcurrent, a, c, b, Action.Release(s));
    }

    // ----------------------------------------------------------------- tick

    /** Reserve, move to RUNNING and hand over one eligible entry. */
    method Admit(s: int, malformed: seq<int>, now: int, ghost a: System)
      returns (out: Outcome, started: bool, ghost b: System)
      requires Mirrors(a) && |slots| < maxConcurrent && Eligible(a, s, set m | m in malformed)
      modifies vol, this`slots, this`reservations, this`errors, this`recorded, this`handed
      ensures Moved(a, b, out) && OnlyEntry(old(vol.disk), vol.disk, s) && !out.Error?
      ensures handed == if out.Done? && started then old(handed) + [s] else old(handed)
      ensures forall f | f in old(reservations) :: f in reservations && reservations[f] == old(reservations)[f]
      ensures reservations.Keys <= old(reservations).Keys + {EventAt(old(vol.disk), InQueue(s))}
      ensures forall q | q in old(slots) :: q in slots && slots[q] == old(slots)[q]
      ensures out.Done? && started ==> Launched(old(vol.disk), vol.disk, s, now, old(slots), slots, reservations)
      ensures old(recorded) <= recorded
      ensures out.Done? && !started ==> Settled(vol.disk, recorded[|old(recorded)|..], s, EventAt(old(vol.disk), InQueue(s)))
      ensures vol.regime.Calm? ==> out.Done? && started && recorded == old(recorded)
    {
      hide Inv, Step, Reaches, OnlyEntry, Status.Valid, Eligible, Begins, Settled, Unreserved;
      ghost var unreadable := set m | m in malformed;
      NotHeldYet(maxConcurrent, a, s, unreadable);
      EligibleFacts(a, s, unreadable);
      var e := vol.disk.queue[s].record.eventId;
      ghost var c := TakeReserve(maxConcurrent, a, s, unreadable);
      ReachesItself(maxConcurrent, a);
      ReachesFurther(maxConcurrent, a, a, c, Reserve(s, unreadable));
      GivingBack(slots, reservations, s, e);
      slots, reservations := slots[s := e], reservations[e := s];
      out, started, b := StartReserved(s, now, c);
      ReachesTogether(maxConcurrent, a, c, b);
    }

    /** Move a reserved entry to RUNNING and hand it to the executor, or give the slot back. */
    method StartReserved(s: int, now: int, ghost a: System) returns (out: Outcome, started: bool, ghost b: System)
      requires Mirrors(a) && s in slots && WaitingFor(vol.disk, s, slots[s])
      modifies vol, this`slots, this`reservations, this`errors, this`recorded, this`handed
      ensures Moved(a, b, out) && OnlyEntry(old(vol.disk), vol.disk, s) && !out.Error?
      ensures handed == if out.Done? && started then old(handed) + [s] else old(handed)
      ensures reservations == old(reservations) || reservations == Unreserved(old(reservations), old(slots)[s], s)
      ensures slots == old(slots) || slots == old(slots) - {s}
      ensures out.Done? && started ==>
        Begins(old(vol.disk), vol.disk, s, now) && slots == old(slots) && reservations == old(reservations)
      ensures old(recorded) <= recorded
      ensures out.Done? && !started ==> Settled(vol.disk, recorded[|old(recorded)|..], s, EventAt(old(vol.disk), InQueue(s)))
      ensures vol.regime.Calm? ==> out.Done? && started && recorded == old(recorded)
    {
      hide Inv, Step, Reaches, OnlyEntry, Status.Valid, Status.OnlyStarted;
      started := false;
      SlotFacts(maxConcurrent, a, s);
      ClaimedIsPlain(maxConcurrent, a, s);
      out, b := TransitionToRunning(s, now, a);
      if out.Crashed? {
        return;
      }
      EntryStays(old(vol.disk), vol.disk, s);
      if out.Done? {
        // Submission to the executor may be refused.
        out := vol.Strike();
        if out.Done? {
          handed := handed + [s];
          return Done, true, b;
        }
        if out.Crashed? {
          b := Died(a, b);
          return;
        }
      }
      ghost var c, middle := b, vol.disk;
      var raised: string := *;
      out, b := FinishWithoutCallback(s, raised, now, c);
      ReachesTogether(maxConcurrent, a, c, b);
      EntryTwice(old(vol.disk), middle, vol.disk, s);
    }

    /** tick: start the oldest eligible records up to the configured capacity. `troubled` are the entries an
        error was recorded for. */
    method Tick(malformed: seq<int>, now: int, ghost a: System)
      returns (out: Outcome, started: seq<int>, troubled: seq<int>, ghost b: System)
      requires Mirrors(a)
      modifies vol, this`slots, this`reservations, this`errors, this`recorded, this`handed
      ensures Moved(a, b, out)
      ensures out.Error? <==> closed
      ensures out.Done? ==> |slots| <= maxConcurrent && vol.disk.events == old(vol.disk).events
      ensures out.Done? ==> forall q | Scanned(old(vol.disk), malformed, q) && BelowBarrier(malformed, q)
        && (|slots| < maxConcurrent || exists s | s in started :: q < s) ::
          Considered(old(vol.disk), malformed, q, started, troubled, old(reservations))
      ensures out.Done? ==> forall s | s in started ::
        Startable(old(vol.disk), malformed, s, old(reservations)) && StartedIn(old(vol.disk), vol.disk, s, now, slots, reservations)
      ensures out.Done? ==>
        old(recorded) <= recorded && Outcomes(old(vol.disk), vol.disk, recorded[|old(recorded)|..], started, troubled)
      ensures out.Done? ==> handed == old(handed) + started
      ensures vol.regime.Calm? && !closed ==> out.Done? && troubled == [] && recorded == old(recorded)
      ensures vol.regime.Calm? && !closed ==> forall q | q in slots :: q in old(slots) || q in started
      ensures vol.regime.Calm? && !closed ==> forall q | Startable(old(vol.disk), malformed, q, old(reservations)) ::
        q in started || (|slots| >= maxConcurrent && forall s | s in started :: s < q)
    {
      hide Inv, Step, Reaches, OnlyEntry, Status.Valid, Considered, BelowBarrier, Ticking, OldestReadable, Outcomes, Settled,
           Launched, StartedIn, Startable, Holding, Scanned, Mirrors, Latest;
      NothingHeldYet(vol.disk, reservations, slots, now);
      NoOutcomes(vol.disk, recorded[|recorded|..]);
      started, troubled, b := [], [], a;
      NothingMoved(a);
      if closed {
        return Error, started, troubled, b;
      }
      out := Done;
      var start := vol.disk;
      ghost var held := reservations;
      var queued := DiscoverQueue(start, malformed);
      var barrier := FirstMalformedSequence(malformed);
      var seen: set<string> := {};
      var n := 0;
      TickingBegins(start, malformed, queued, held);
      while n < |queued| && |slots| < maxConcurrent
            && !(barrier.Some? && queued[n] > barrier.value)
        invariant 0 <= n <= |queued| && out.Done?
        invariant Moved(a, b, out)
        invariant Ticking(start, vol.disk, malformed, queued, n, seen, started, troubled, held)
        invariant Holding(start, vol.disk, seen, started, held, slots, reservations, now)
        invariant vol.regime.Calm? ==> troubled == [] && recorded == old(recorded)
        invariant vol.regime.Calm? ==> forall q | q in slots :: q in old(slots) || q in started
        invariant old(recorded) <= recorded && handed == old(handed) + started
        invariant Outcomes(start, vol.disk, recorded[|old(recorded)|..], started, troubled)
      {
        BelowEvery(malformed, barrier, queued[n]);
        ghost var c := b;
        out, started, troubled, seen, b := TickOne(start, malformed, queued, n, seen, started, troubled, now, held, old(recorded), c);
        ReachesTogether(maxConcurrent, a, c, b);
        if !out.Done? {
          return;
        }
        n := n + 1;
      }
      TickingEnds(start, vol.disk, malformed, queued, n, seen, started, troubled, held, barrier,
                  |slots| < maxConcurrent);
      if vol.regime.Calm? {
        StartableAreStarted(start, malformed, started, held, |slots| < maxConcurrent);
      }
      HoldingFacts(start, vol.disk, seen, started, held, slots, reservations, now);
      MirrorsBound(b);
    }

    /** One record of the admission loop. */
    method TickOne(
      start: Disk, malformed: seq<int>, queued: seq<int>, n: nat, seen: set<string>, started: seq<int>, troubled: seq<int>,
      now: int, ghost held: map<string, int>, ghost first: seq<SchedulerError>, ghost a: System)
      returns (out: Outcome, more: seq<int>, worse: seq<int>, known: set<string>, ghost b: System)
      requires Mirrors(a) && |slots| < maxConcurrent && n < |queued| && BelowBarrier(malformed, queued[n])
      requires Ticking(start, vol.disk, malformed, queued, n, seen, started, troubled, held)
      requires Holding(start, vol.disk, seen, started, held, slots, reservations, now)
      requires first <= recorded && Outcomes(start, vol.disk, recorded[|first|..], started, troubled)
      modifies vol, this`slots, this`reservations, this`errors, this`recorded, this`handed
      ensures Moved(a, b, out) && !out.Error?
      ensures out.Done? ==> Ticking(start, vol.disk, malformed, queued, n + 1, known, more, worse, held)
      ensures out.Done? ==> Holding(start, vol.disk, known, more, held, slots, reservations, now)
      ensures out.Done? ==> first <= recorded && Outcomes(start, vol.disk, recorded[|first|..], more, worse)
      ensures started <= more
      ensures out.Done? ==> handed == old(handed) + more[|started|..]
      ensures vol.regime.Calm? ==> out.Done? && worse == troubled && recorded == old(recorded)
      ensures vol.regime.Calm? ==> forall q | q in slots :: q in old(slots) || q in more
    {
      hide Inv, Step, Reaches, OnlyEntry, Status.Valid, Considered, BelowBarrier, Ticking, OldestReadable, Outcomes, Settled,
           Launched, StartedIn, Startable, Holding;
      OldestOfEvent(start, vol.disk, malformed, queued, n, seen, started, troubled, held);
      var s, e := queued[n], start.queue[queued[n]].record.eventId;
      ghost var before, taken, reserved, reported := vol.disk, slots, reservations, recorded;
      var admitted, failed := false, false;
      SameEntry(before, s);
      ReachesItself(maxConcurrent, a);
      out, more, worse, known, b := Done, started, troubled, seen + {e}, a;
      if e !in seen {
        NewIsHeld(start, before, seen, started, held, taken, reserved, now, e);
        out, admitted, failed, b := Consider(s, e, malformed, now, a);
        if !out.Done? {
          return;
        }
        if admitted {
          LaunchedFacts(before, vol.disk, s, now, taken, slots, reservations);
        }
      }
      ReportsGrow(first, reported, recorded, s, e, vol.disk, failed);
      OutcomesStay(start, before, vol.disk, malformed, queued, n, seen, started, troubled, held,
                   reported[|first|..], recorded[|first|..], admitted, failed);
      HoldingOn(start, before, vol.disk, malformed, queued, n, seen, started, troubled, held, taken, slots,
                reserved, reservations, now, admitted);
      TickingAdvances(start, before, vol.disk, malformed, queued, n, seen, started, troubled, held, admitted, failed);
      more := if admitted then started + [s] else started;
      worse := if failed then troubled + [s] else troubled;
    }

    ghost method MirrorsBound(b: System)
      requires Mirrors(b)
      ensures |slots| <= maxConcurrent
    {
      hide DiskInv, RunningHaveSlots, ClaimsHold, StartsInOrder;
    }

    /** One record of the admission loop, the first of its event. */
    method Consider(s: int, e: string, malformed: seq<int>, now: int, ghost a: System)
      returns (out: Outcome, admitted: bool, failed: bool, ghost b: System)
      requires Mirrors(a) && |slots| < maxConcurrent && OldestReadable(vol.disk, malformed, s, e)
      modifies vol, this`slots, this`reservations, this`errors, this`recorded, this`handed
      ensures Moved(a, b, out) && OnlyEntry(old(vol.disk), vol.disk, s) && !out.Error?
      ensures handed == if out.Done? && admitted then old(handed) + [s] else old(handed)
      ensures forall f | f in old(reservations) :: f in reservations && reservations[f] == old(reservations)[f]
      ensures reservations.Keys <= old(reservations).Keys + {e}
      ensures forall q | q in old(slots) :: q in slots && slots[q] == old(slots)[q]
      ensures out.Done? && !admitted && !failed ==>
        vol.disk == old(vol.disk) && slots == old(slots)
        && (e in old(reservations) || Journaled(old(vol.disk), InEvents(e)))
      ensures out.Done? && admitted ==> Launched(old(vol.disk), vol.disk, s, now, old(slots), slots, reservations)
      ensures admitted ==> e !in old(reservations) && !Journaled(old(vol.disk), InEvents(e))
      ensures old(recorded) <= recorded
      ensures out.Done? && failed ==> Settled(vol.disk, recorded[|old(recorded)|..], s, e)
      ensures vol.regime.Calm? ==> out.Done? && !failed && recorded == old(recorded)
    {
      hide Inv, Step, Reaches, OnlyEntry, Status.Valid, Launched, Settled;
      admitted, failed, b := false, false, a;
      ReachesItself(maxConcurrent, a);
      SameEntry(vol.disk, s);
      if e in reservations {
        return Done, false, false, b;
      }
      out := vol.Strike();
      if out.Crashed? {
        b := Died(a, a);
        return;
      }
      if out.Error? {
        RecordError(s, e);
        assert recorded[|old(recorded)|..] == [SchedulerError(s, e)];
        ReportedIsSettled(vol.disk, recorded[|old(recorded)|..], s, e);
        return Done, false, true, b;
      }
      if Journaled(vol.disk, InEvents(e)) {
        return;
      }
      out, admitted, b := Admit(s, malformed, now, a);
      failed := !admitted;
    }
  }

  /** The entry has been moved to RUNNING. */
  predicate Begins(before: Disk, after: Disk, s: int, now: int) {
    s in before.queue && s in after.queue && Status.OnlyStarted(before.queue[s].record, after.queue[s].record, now)
  }

  /** The entry has been moved to RUNNING, in a slot of its own, and holds its event. */
  predicate Launched(
    before: Disk, after: Disk, s: int, now: int, slots: map<int, string>, left: map<int, string>, held: map<string, int>)
  {
    && Begins(before, after, s, now)
    && var e := before.queue[s].record.eventId;
       s !in slots && left == slots[s := e] && e in held && held[e] == s
  }

  lemma GivingBack(slots: map<int, string>, held: map<string, int>, s: int, e: string)
    requires s !in slots && e !in held
    ensures slots[s := e] - {s} == slots && Unreserved(held[e := s], e, s) == held
  {
  }

  lemma NotHeldYet(max: nat, a: System, s: int, unreadable: set<int>)
    requires Inv(max, a) && Eligible(a, s, unreadable)
    ensures s !in a.slots
  {
    hide Inv, Status.Valid;
    if s in a.slots {
      SlotFacts(max, a, s);
    }
  }

  lemma LaunchedFacts(
    before: Disk, after: Disk, s: int, now: int, slots: map<int, string>, left: map<int, string>, held: map<string, int>)
    requires Launched(before, after, s, now, slots, left, held)
    ensures RunningAt(after, InQueue(s)) && forall q | q in left :: q in slots || q == s
  {
  }

  /** Only the record of one queue entry may differ. */
  predicate OnlyEntry(before: Disk, after: Disk, s: int) {
    && after.events == before.events && after.queue.Keys == before.queue.Keys
    && (forall q | q in before.queue && q != s :: after.queue[q] == before.queue[q])
    && (s in before.queue ==> after.queue[s].record.eventId == before.queue[s].record.eventId
                              && after.queue[s].journal == before.queue[s].journal)
  }

  lemma ClaimedIsPlain(max: nat, a: System, s: int)
    requires Inv(max, a) && s in a.disk.queue && a.disk.queue[s].record.status.Queued?
    ensures a.disk.queue[s].journal.None?
  {
    hide RunningHaveSlots, ClaimsHold, StartsInOrder, Coherent, ArchivedOnce, OneRunningPerEvent;
  }

  lemma StartedByWriting(d: Disk, s: int, now: int)
    requires s in d.queue && d.queue[s].record.status.Queued? && d.queue[s].journal.None?
    requires Status.Transition(d.queue[s].record, Status.Running, Status.NO_ARGUMENTS, Status.Utc(now)).Ok?
    ensures var r := Status.Transition(d.queue[s].record, Status.Running, Status.NO_ARGUMENTS, Status.Utc(now)).value;
      Started(d, Put(d, InQueue(s), d.queue[s].(record := r)), s, now)
  {
    hide Status.Valid, Status.Transition;
    Status.TransitionFollowsTable(d.queue[s].record, Status.Running, Status.NO_ARGUMENTS, Status.Utc(now));
  }

  function Authoritative(d: Disk, s: int, e: string): Result<Option<Place>> {
    if s in d.queue then
      if Status.Valid(d.queue[s].record) && d.queue[s].record.sequence == s && d.queue[s].record.eventId == e
      then Ok(Some(InQueue(s))) else Raised
    else if e !in d.events then Ok(None)
    else if Status.Valid(d.events[e].record) && d.events[e].record.eventId == e && d.events[e].record.sequence == s
    then Ok(Some(InEvents(e))) else Raised
  }

  lemma AuthoritativePlace(d: Disk, s: int, e: string)
    ensures var found := Authoritative(d, s, e);
      found.Ok? && found.value.Some? ==>
        && At(d, found.value.value).Some? && At(d, found.value.value).value.record.sequence == s
        && found.value.value == (if s in d.queue then InQueue(s) else InEvents(e))
  {
  }

  /** The calculation is over at `location`. */
  predicate TerminalAt(d: Disk, s: int, e: string, location: Place) {
    || (location == InQueue(s) && s in d.queue && d.queue[s].record.status.Terminal())
    || (location == InEvents(e) && s !in d.queue && e in d.events
        && d.events[e].record.sequence == s && d.events[e].record.status.Terminal())
  }

  /** execute_calculation only returns normally once preparation has promoted the record, and the scheduler only
      finishes a failed callback here when it left no transaction behind. */
  predicate Unopened(d: Disk, s: int) {
    RunningAt(d, InQueue(s)) ==> !Journaled(d, InQueue(s))
  }

  /** transition_to_failed of a queue entry clears its native outcome; transition_current_record leaves it. */
  function FailureArguments(error: Option<string>, queued: bool): Status.Arguments {
    Status.Arguments(None, if queued then Some(None) else None, Some(Some(Status.ServiceOutcome(true, false))),
      Some(Some(Status.Failure(None, CallbackCode(error), CallbackMessage(error)))), None, None)
  }

  function CallbackCode(error: Option<string>): string {
    if error.Some? then "scheduler_callback_failed" else "scheduler_callback_incomplete"
  }

  function CallbackMessage(error: Option<string>): string {
    if error.Some? then "calculation callback failed: " + error.value
    else "calculation callback returned while the record was RUNNING"
  }

  /** `failed` is `r` failed because the callback raised `error`, or returned too early, and the same in everything else. */
  predicate CallbackFailure(r: Status.Record, failed: Status.Record, error: Option<string>, queued: bool, now: int) {
    && Status.OnlyFailed(if queued then r.(nativeOutcome := None) else r, failed) && Status.Valid(failed)
    && match error
       case Some(text) =>
         Status.FailedFor(failed, "scheduler_callback_failed", "calculation callback failed: " + text, Status.Utc(now))
       case None =>
         Status.FailedFor(failed, "scheduler_callback_incomplete",
           "calculation callback returned while the record was RUNNING", Status.Utc(now))
  }

  lemma FailureSucceeds(r: Status.Record, error: Option<string>, queued: bool, now: int)
    requires Status.Valid(r) && r.status.Running?
    ensures var failed := Status.Transition(r, Status.Failed, FailureArguments(error, queued), Status.Utc(now));
      && failed.Ok? && Status.Valid(failed.value) && Status.SameIdentity(failed.value, r)
      && failed.value.status.Failed? && failed.value.overwrite == r.overwrite
      && CallbackFailure(r, failed.value, error, queued, now)
  {
    hide Status.Valid, Status.Transition;
    var base := if queued then r.(nativeOutcome := None) else r;
    Status.ClearingTheOutcome(r, CallbackCode(error), CallbackMessage(error), now);
    Status.OnlyTheFailureIsRecorded(base, CallbackCode(error), CallbackMessage(error), now);
  }

  /** The calculation was released and nothing was reported, or its event stays reserved and the report is its own. */
  predicate GivesUpOrReports(
    reported: seq<SchedulerError>, reports: seq<SchedulerError>, s: int, slots: map<int, string>, left: map<int, string>,
    held: map<string, int>, kept: map<string, int>)
  {
    s in slots && (
      || (left == slots - {s} && kept == Unreserved(held, slots[s], s) && reports == reported)
      || ((left == slots || left == slots - {s}) && kept == held && reports == reported + [SchedulerError(s, slots[s])]))
  }

  /** The slot is free and the calculation over. Its event is free too, unless the journal beside the finished record is one
      that finalization refuses. */
  predicate GivenUp(
    after: Disk, s: int, slots: map<int, string>, left: map<int, string>,
    reserved: map<string, int>, held: map<string, int>)
  {
    && s in slots && left == slots - {s}
    && var e := slots[s];
       && (TerminalAt(after, s, e, InQueue(s)) || TerminalAt(after, s, e, InEvents(e)))
       && (if s !in after.queue && Journaled(after, InEvents(e)) then !Reconciliation.Finished(after, e) && held == reserved
           else held == Unreserved(reserved, e, s))
  }

  /** The record of a slot's calculation: its queue entry, or else the current record. */
  function RecordOf(d: Disk, s: int, e: string): Option<Status.Record> {
    if s in d.queue then Some(d.queue[s].record)
    else if e in d.events && d.events[e].record.sequence == s then Some(d.events[e].record)
    else None
  }

  lemma Retained(d: Disk, s: int, slots: map<int, string>, reserved: map<string, int>)
    requires s in slots && TerminalAt(d, s, slots[s], InEvents(slots[s])) && Journaled(d, InEvents(slots[s]))
    requires !Reconciliation.Finished(d, slots[s])
    ensures GivenUp(d, s, slots, slots - {s}, reserved, reserved)
  {
  }

  lemma Released(d: Disk, s: int, slots: map<int, string>, reserved: map<string, int>)
    requires s in slots && MayRelease(d, s, slots[s]) && MayRetain(d, s, slots[s])
    ensures GivenUp(d, s, slots, slots - {s}, reserved, Unreserved(reserved, slots[s], s))
  {
  }

  predicate SameRecord(before: Disk, after: Disk, s: int, e: string) {
    RecordOf(after, s, e) == RecordOf(before, s, e) && (s in after.queue <==> s in before.queue)
  }

  lemma ClosedStays(
    a: Disk, b: Disk, c: Disk, s: int, e: string, found: bool, reported: Option<string>, error: Option<string>, now: int)
    requires ClosedAs(a, b, s, e, found, reported, now) && SameRecord(b, c, s, e) && (found || reported == error)
    ensures ClosedAs(a, c, s, e, found, error, now)
  {
    hide InterruptedAt, CallbackFailure;
  }

  lemma SameAsItself(d: Disk, s: int, e: string)
    ensures SameRecord(d, d, s, e)
  {
  }

  lemma NothingClosed(d: Disk, s: int, e: string, found: bool, error: Option<string>, now: int)
    requires Begun(d, s, e)
    ensures ClosedAs(d, d, s, e, found, error, now) && RecordOf(d, s, e).Some?
  {
    hide InterruptedAt, CallbackFailure;
  }

  /** The record of the calculation is still there, as it was, or was RUNNING and is now failed: by reconciliation, if a
      transaction was found, and else because of what its callback did. */
  predicate ClosedAs(before: Disk, after: Disk, s: int, e: string, found: bool, error: Option<string>, now: int) {
    && RecordOf(before, s, e).Some? && RecordOf(after, s, e).Some?
    && var r, closed := RecordOf(before, s, e).value, RecordOf(after, s, e).value;
       || closed == r
       || (r.status.Running?
           && if found then InterruptedAt(r, closed, s !in before.queue && e in before.products, now)
              else CallbackFailure(r, closed, error, s in after.queue, now))
  }

  lemma FailedByWriting(d: Disk, s: int, r: Status.Record)
    requires RunningAt(d, InQueue(s)) && !Journaled(d, InQueue(s))
    requires Status.Valid(r) && Status.SameIdentity(r, d.queue[s].record) && r.status.Failed?
    requires r.overwrite == d.queue[s].record.overwrite
    ensures RecordStep(d, Put(d, InQueue(s), d.queue[s].(record := r)), s, r)
  {
    hide Status.Valid;
  }

  lemma EntryIsRewritten(d: Disk, s: int, r: Status.Record)
    requires RunningAt(d, InQueue(s)) && r.eventId == d.queue[s].record.eventId
    ensures s in d.queue && d.queue[s].record.status.Running?
    ensures var after := Put(d, InQueue(s), d.queue[s].(record := r));
      && after == Apply(d, WriteRecord(InQueue(s), r))
      && OnlyEntry(d, after, s) && s in after.queue && after.queue[s].record == r
  {
    hide Status.Valid;
  }

  lemma CurrentIsRewritten(d: Disk, e: string, r: Status.Record)
    requires RunningAt(d, InEvents(e))
    ensures e in d.events && d.events[e].record.status.Running?
    ensures var after := Put(d, InEvents(e), d.events[e].(record := r));
      && after == Apply(d, WriteRecord(InEvents(e), r))
      && after.queue == d.queue && e in after.events && after.events[e].record == r
  {
    hide Status.Valid;
  }

  /** Failing the promoted record is a step of its transaction. */
  lemma FailingCurrentIsAStep(max: nat, a: System, s: int, r: Status.Record)
    requires Inv(max, a) && s in a.slots && RunningAt(a.disk, InEvents(a.slots[s]))
    requires a.disk.events[a.slots[s]].record.sequence == s
    requires Status.Valid(r) && Status.SameIdentity(r, a.disk.events[a.slots[s]].record) && r.status.Failed?
    requires r.overwrite == a.disk.events[a.slots[s]].record.overwrite
    ensures var e := a.slots[s];
      var after := Put(a.disk, InEvents(e), a.disk.events[e].(record := r));
      && e in a.txns && a.txns[e].key == Key(s, e, a.txns[e].key.archive)
      && Stepped(a.disk, after, a.txns, e) && StatusAdvances(a.disk, after, a.txns[e].key) && s !in after.queue
  {
    hide Waiting, Promoted, Recovered, Concluded, Status.Valid;
    var e := a.slots[s];
    SlotFacts(max, a, s);
    PromotedFacts(max, a, s);
    var t := a.txns[e];
    Failing(t.origin, t.key, Look(a.disk, t.key), r);
    PutIsLocal(a.disk, InEvents(e), a.disk.events[e].(record := r), t.key);
  }

  /** The current record of a slot's calculation, with its journal, is that calculation's own transaction. */
  lemma PromotedFacts(max: nat, a: System, s: int)
    requires Inv(max, a) && s in a.slots && Journaled(a.disk, InEvents(a.slots[s]))
    requires a.disk.events[a.slots[s]].record.sequence == s
    ensures var e := a.slots[s];
      && s !in a.disk.queue && e in a.txns && a.txns[e].key == Key(s, e, a.txns[e].key.archive)
      && Live(a.disk, a.owner, a.txns[e])
      && Promoted(a.txns[e].origin, a.txns[e].key, Look(a.disk, a.txns[e].key))
  {
    hide Waiting, Promoted, Status.Valid, RunningHaveSlots, ClaimsHold, StartsInOrder, ArchivedOnce, OneRunningPerEvent;
    var e := a.slots[s];
    assert Known(a.disk, InEvents(e), a.txns);
    assert Live(a.disk, a.owner, a.txns[e]);
    WhereItIs(a.txns[e].origin, a.txns[e].key, Look(a.disk, a.txns[e].key));
  }

  /** The calculation is running in the queue, or has been promoted. */
  predicate Begun(d: Disk, s: int, e: string) {
    if s in d.queue then d.queue[s].record.status.Running?
    else e in d.events && d.events[e].record.sequence == s
  }

  predicate Finishable(d: Disk, s: int, e: string) {
    Begun(d, s, e) || TerminalAt(d, s, e, InQueue(s))
  }

  lemma FinalizingIsAStep(max: nat, a: System, s: int)
    requires Inv(max, a) && s in a.slots && TerminalAt(a.disk, s, a.slots[s], InEvents(a.slots[s]))
    ensures var e := a.slots[s];
      var after := Apply(a.disk, RemoveJournal(InEvents(e)));
      && MayRelease(after, s, e) && MayRetain(after, s, e) && MayRetain(a.disk, s, e)
      && (a.disk.events[e].journal.None? ==> after == a.disk)
      && (a.disk.events[e].journal.Some? && Finalizable(a.disk.events[e]) ==>
            && e in a.txns && a.txns[e].key == Key(s, e, a.txns[e].key.archive)
            && Stepped(a.disk, after, a.txns, e) && StatusAdvances(a.disk, after, a.txns[e].key) && s !in after.queue)
  {
    hide Waiting, Promoted, Recovered, Concluded, Status.Valid, Finalizable;
    var e := a.slots[s];
    SlotFacts(max, a, s);
    if a.disk.events[e].journal.Some? {
      PromotedFacts(max, a, s);
      var t := a.txns[e];
      FinalizingRequires(t.origin, t.key, Look(a.disk, t.key));
      OperationsAreLocal(a.disk, RemoveJournal(InEvents(e)), t.key);
    } else {
      assert a.disk.events[e].(journal := None) == a.disk.events[e];
      assert a.disk.events[e := a.disk.events[e]] == a.disk.events;
    }
  }

  /** For a terminal current record only the journal can be in the way of finalization. */
  lemma FinishedExactlyWhen(max: nat, a: System, s: int)
    requires Inv(max, a) && s in a.slots && TerminalAt(a.disk, s, a.slots[s], InEvents(a.slots[s]))
    ensures var e := a.slots[s];
      && (Reconciliation.Finished(a.disk, e) <==> Finalizable(a.disk.events[e]))
      && (!Reconciliation.Finished(a.disk, e) ==> Journaled(a.disk, InEvents(e)))
  {
    hide Inv, Status.Valid;
    SlotFacts(max, a, s);
  }

  ghost function SlotTransaction(a: System, s: int): Txn
    requires s in a.slots
  {
    var e := a.slots[s];
    if e in a.txns && a.txns[e].key.eventId == e && a.txns[e].key.sequence == s then a.txns[e]
    else Txn(Origin(None, None, Entry(Status.NewQueuedRecord(e, s, "", false, [], Status.Directory, Status.Utc(0)),
                                      map[], Snapshot.Manifest(e, s, []), None, None, None)), Key(s, e, None))
  }

  lemma FoundIsOwn(max: nat, a: System, s: int)
    requires Inv(max, a) && s in a.slots
    ensures var e := a.slots[s];
      var t := SlotTransaction(a, s);
      && t.key.eventId == e && t.key.sequence == s
      && (Reconciliation.TransactionFound(a.disk, e, s) ==>
            && e in a.txns && t == a.txns[e]
            && InTransaction(t.origin, t.key, Look(a.disk, t.key)) && Undisputed(t.origin))
      && (Reconciliation.Located(a.disk, e, s) == Ok(None) ==> Unopened(a.disk, s))
  {
    hide InTransaction, Status.Valid, RunningHaveSlots, ClaimsHold, StartsInOrder, ArchivedOnce, OneRunningPerEvent,
         Loadable;
    var e := a.slots[s];
    if Reconciliation.TransactionFound(a.disk, e, s) {
      var at := Reconciliation.Located(a.disk, e, s).value.value;
      assert Journaled(a.disk, at) && Known(a.disk, at, a.txns);
      assert Live(a.disk, a.owner, a.txns[e]);
    }
  }

  /** Looking for the transaction of a calculation that has begun raises nothing. */
  lemma BegunIsLocated(max: nat, a: System, s: int)
    requires Inv(max, a) && s in a.slots && Begun(a.disk, s, a.slots[s])
    ensures Reconciliation.Located(a.disk, a.slots[s], s).Ok?
  {
    hide DiskInv, InTransaction, Status.Valid, RunningHaveSlots, ClaimsHold, StartsInOrder, Mending.Recognized;
    var e := a.slots[s];
    SlotFacts(max, a, s);
    DiskInvIsCoherent(a.disk, a.owner, a.txns);
    StartedIsUnobstructed(a.disk, a.owner, a.txns, s);
    if Journaled(a.disk, InQueue(s)) {
      JournalIsRecognized(a.disk, a.owner, a.txns, InQueue(s));
      StartupRecovery.JournaledIsHolder(a.disk, a.owner, a.txns, InQueue(s));
    }
    if Journaled(a.disk, InEvents(e)) {
      JournalIsRecognized(a.disk, a.owner, a.txns, InEvents(e));
      StartupRecovery.JournaledIsHolder(a.disk, a.owner, a.txns, InEvents(e));
    }
  }

  lemma DiskInvIsCoherent(d: Disk, owner: Owners, txns: map<string, Txn>)
    requires DiskInv(d, owner, txns)
    ensures Coherent(d, owner, txns)
  {
  }

  lemma StartedIsUnobstructed(d: Disk, owner: Owners, txns: map<string, Txn>, s: int)
    requires DiskInv(d, owner, txns)
    ensures RunningAt(d, InQueue(s)) && !Journaled(d, InQueue(s)) ==> !Journaled(d, InEvents(EventAt(d, InQueue(s))))
  {
  }

  lemma BegunIsAuthoritative(max: nat, a: System, s: int)
    requires Inv(max, a) && s in a.slots && Finishable(a.disk, s, a.slots[s])
    ensures var found := Authoritative(a.disk, s, a.slots[s]);
      found.Ok? && found.value.Some? && At(a.disk, found.value.value).Some?
      && !At(a.disk, found.value.value).value.record.status.Queued?
  {
    hide Status.Valid, Coherent, RunningHaveSlots, ClaimsHold, StartsInOrder, ArchivedOnce, OneRunningPerEvent;
    SlotFacts(max, a, s);
  }

  lemma JournalIsRecognized(d: Disk, owner: Owners, txns: map<string, Txn>, at: Place)
    requires Coherent(d, owner, txns) && Journaled(d, at)
    ensures Mending.Recognized(At(d, at).value, At(d, at).value.record.eventId, At(d, at).value.record.sequence)
  {
    hide Waiting, Promoted, Reconciliation.Located, Loadable, Status.Valid;
    StartupRecovery.JournaledIsHolder(d, owner, txns, at);
    var t := txns[At(d, at).value.record.eventId];
    HeldJournalIsRecognized(t.origin, t.key, Look(d, t.key));
  }

  lemma HeldJournalIsRecognized(o: Origin, k: Key, v: View)
    requires InTransaction(o, k, v)
    ensures Holder(v).journal.Some? && Loadable(JournalIn(v)) && Status.Valid(Holder(v).record)
    ensures JournalFor(JournalIn(v), Holder(v).record)
    ensures Holder(v).record.eventId == k.eventId && Holder(v).record.sequence == k.sequence
  {
  }

  /** Whatever reconciliation did, it was a step of the calculation's transaction. */
  lemma ReconcilingIsAStep(max: nat, a: System, d: Disk, s: int)
    requires Inv(max, a) && s in a.slots && Reconciliation.TransactionFound(a.disk, a.slots[s], s)
    requires var t := SlotTransaction(a, s); Reconciliation.Reconciled(a.disk, d, t.origin, t.key)
    ensures var e := a.slots[s];
      && e in a.txns && a.txns[e].key.sequence == s
      && Stepped(a.disk, d, a.txns, e) && StatusAdvances(a.disk, d, a.txns[e].key)
      && (s in d.queue ==> d.queue[s].record.status.Running?)
  {
    hide Waiting, Promoted, Recovered, Concluded, Status.Valid, Reconciliation.TransactionFound;
    FoundIsOwn(max, a, s);
    var t := SlotTransaction(a, s);
    RecordFacts(t.origin, t.key, Look(a.disk, t.key));
    WhereItIs(t.origin, t.key, Look(a.disk, t.key));
    WhoIsWhere(t.origin, t.key, Look(d, t.key));
    UnpromotedRuns(max, a, t.key.eventId);
  }

  lemma UnpromotedRuns(max: nat, a: System, e: string)
    requires Inv(max, a) && e in a.txns
    ensures a.txns[e].key.sequence in a.disk.queue ==> a.disk.queue[a.txns[e].key.sequence].record.status.Running?
  {
    hide Coherent, ArchivedOnce, OneRunningPerEvent, RunningHaveSlots, ClaimsHold, StartsInOrder;
  }

  lemma ReconciledFacts(max: nat, a: System, d: Disk, s: int)
    requires Inv(max, a) && s in a.slots && Reconciliation.TransactionFound(a.disk, a.slots[s], s)
    requires var t := SlotTransaction(a, s); Reconciliation.Reconciled(a.disk, d, t.origin, t.key)
    ensures var e := a.slots[s];
      var t := SlotTransaction(a, s);
      && (Recovered(t.origin, t.key, Look(d, t.key)) ==> TerminalAt(d, s, e, InEvents(e)) && MayRelease(d, s, e))
      && (Look(a.disk, t.key).queued.Some? || Look(a.disk, t.key).current.Some?)
      && (Holder(Look(a.disk, t.key)).record.status.Success? ==> TerminalAt(d, s, e, InEvents(e)))
  {
    hide Waiting, Promoted, Status.Valid, Reconciliation.TransactionFound;
    FoundIsOwn(max, a, s);
    var t := SlotTransaction(a, s);
    WhereItIs(t.origin, t.key, Look(a.disk, t.key));
    WhoIsWhere(t.origin, t.key, Look(d, t.key));
    UnpromotedRuns(max, a, t.key.eventId);
  }

  lemma ReconciledIsClosed(max: nat, a: System, d: Disk, s: int, now: int)
    requires Inv(max, a) && s in a.slots && Reconciliation.TransactionFound(a.disk, a.slots[s], s)
    requires var t := SlotTransaction(a, s);
      Reconciliation.Reconciled(a.disk, d, t.origin, t.key) && Reconciliation.Attributed(Look(a.disk, t.key), Look(d, t.key), now)
    ensures ClosedAs(a.disk, d, s, a.slots[s], true, None, now)
  {
    hide Waiting, Promoted, Status.Valid, Reconciliation.TransactionFound, InterruptedAt;
    FoundIsOwn(max, a, s);
    var t := SlotTransaction(a, s);
    WhereItIs(t.origin, t.key, Look(a.disk, t.key));
    WhoIsWhere(t.origin, t.key, Look(a.disk, t.key));
    WhoIsWhere(t.origin, t.key, Look(d, t.key));
  }

  /** A journal with evidence of a failed recovery is not removed. */
  lemma NotedIsNotFinished(d: Disk, e: string)
    requires Journaled(d, InEvents(e)) && d.events[e].journal.value.recoveryFailure.Some?
    ensures !Reconciliation.Finished(d, e)
  {
  }

  lemma SameEntry(d: Disk, s: int)
    ensures OnlyEntry(d, d, s)
  {
  }

  lemma EntryStays(before: Disk, after: Disk, s: int)
    requires OnlyEntry(before, after, s) && s in before.queue
    ensures s in after.queue && after.queue[s].journal == before.queue[s].journal
  {
  }

  lemma AuthoritativeEntry(d: Disk, s: int, e: string)
    requires s in d.queue && Status.Valid(d.queue[s].record)
    requires d.queue[s].record.sequence == s && d.queue[s].record.eventId == e
    ensures Authoritative(d, s, e) == Ok(Some(InQueue(s)))
  {
  }

  lemma TerminalIsAuthoritative(max: nat, a: System, s: int)
    requires Inv(max, a) && s in a.slots
    ensures TerminalAt(a.disk, s, a.slots[s], InEvents(a.slots[s])) ==>
      Authoritative(a.disk, s, a.slots[s]) == Ok(Some(InEvents(a.slots[s])))
  {
    hide Inv, Status.Valid;
    SlotFacts(max, a, s);
  }

  lemma EligibleFacts(a: System, s: int, unreadable: set<int>)
    requires Eligible(a, s, unreadable)
    ensures s in a.disk.queue && WaitingFor(a.disk, s, a.disk.queue[s].record.eventId)
    ensures a.disk.queue[s].record.eventId !in a.reserved
  {
  }

  lemma EntryTwice(a: Disk, b: Disk, c: Disk, s: int)
    requires OnlyEntry(a, b, s) && OnlyEntry(b, c, s)
    ensures OnlyEntry(a, c, s)
  {
  }

  // -------------------------------------------------------------- what tick sees

  /** The entry is no longer waiting, or an error has just been recorded for it. */
  predicate Settled(d: Disk, reported: seq<SchedulerError>, s: int, e: string) {
    !WaitingFor(d, s, e) || SchedulerError(s, e) in reported
  }

  lemma ReportedIsSettled(d: Disk, reported: seq<SchedulerError>, s: int, e: string)
    requires SchedulerError(s, e) in reported
    ensures Settled(d, reported, s, e)
  {
  }

  /** What tick says of the entries it could not start, and of those it did. */
  ghost predicate Outcomes(
    start: Disk, d: Disk, reported: seq<SchedulerError>, started: seq<int>, troubled: seq<int>)
  {
    && (forall q | q in troubled :: q in start.queue && Settled(d, reported, q, start.queue[q].record.eventId))
    && (forall s | s in started :: RunningAt(d, InQueue(s)))
  }

  lemma NoOutcomes(d: Disk, reported: seq<SchedulerError>)
    ensures Outcomes(d, d, reported, [], [])
  {
  }

  lemma ReportsGrow(
    first: seq<SchedulerError>, before: seq<SchedulerError>, after: seq<SchedulerError>, s: int, e: string, d: Disk,
    failed: bool)
    requires first <= before <= after
    requires failed ==> Settled(d, after[|before|..], s, e)
    ensures first <= after && before[|first|..] <= after[|first|..]
    ensures failed ==> Settled(d, after[|first|..], s, e)
  {
    assert after[|before|..] == after[|first|..][|before| - |first|..];
  }

  lemma OutcomesStay(
    start: Disk, before: Disk, after: Disk, malformed: seq<int>, queued: seq<int>, n: nat, seen: set<string>,
    started: seq<int>, troubled: seq<int>, held: map<string, int>,
    reported: seq<SchedulerError>, more: seq<SchedulerError>, admitted: bool, failed: bool)
    requires Ticking(start, before, malformed, queued, n, seen, started, troubled, held) && n < |queued|
    requires Outcomes(start, before, reported, started, troubled) && OnlyEntry(before, after, queued[n])
    requires reported <= more && queued[n] in start.queue
    requires admitted ==> RunningAt(after, InQueue(queued[n]))
    requires failed ==> Settled(after, more, queued[n], start.queue[queued[n]].record.eventId)
    requires !admitted && !failed ==> after == before
    ensures Outcomes(start, after, more, if admitted then started + [queued[n]] else started,
                     if failed then troubled + [queued[n]] else troubled)
  {
    hide Considered, Startable;
  }

  /** A waiting record the scan could read. */
  predicate Scanned(d: Disk, malformed: seq<int>, q: int) {
    q in d.queue && d.queue[q].record.status.Queued? && q !in malformed
  }

  predicate BelowBarrier(malformed: seq<int>, q: int) {
    forall m | m in malformed :: q <= m
  }

  ghost predicate OldestReadable(d: Disk, malformed: seq<int>, s: int, e: string) {
    && WaitingFor(d, s, e) && s !in malformed && (forall m | m in malformed :: s < m)
    && (forall q | WaitingFor(d, q, e) && q !in malformed :: s <= q)
  }

  /** Behind an older readable entry of its own event. */
  ghost predicate Shadowed(d: Disk, malformed: seq<int>, q: int) {
    q in d.queue && exists p :: p < q && Scanned(d, malformed, p) && d.queue[p].record.eventId == d.queue[q].record.eventId
  }

  /** A tick with a slot to spare starts the entry: the oldest readable one of its event, below the first unreadable entry,
      its event neither held when the tick began nor in transaction. */
  ghost predicate Startable(d: Disk, malformed: seq<int>, q: int, held: map<string, int>) {
    && Scanned(d, malformed, q) && BelowBarrier(malformed, q) && !Shadowed(d, malformed, q)
    && d.queue[q].record.eventId !in held && !Journaled(d, InEvents(d.queue[q].record.eventId))
  }

  /** The entry has been moved to RUNNING, has a slot and holds its event. */
  predicate StartedIn(
    start: Disk, d: Disk, s: int, now: int, slots: map<int, string>, reservations: map<string, int>)
  {
    && Begins(start, d, s, now)
    && var e := start.queue[s].record.eventId;
       s in slots && slots[s] == e && e in reservations && reservations[e] == s
  }

  /** What the loop has taken so far: events held before stay held, and any other is one it has seen. */
  ghost predicate Holding(
    start: Disk, d: Disk, seen: set<string>, started: seq<int>, held: map<string, int>, slots: map<int, string>,
    reservations: map<string, int>, now: int)
  {
    && (forall f | f in held :: f in reservations && reservations[f] == held[f])
    && (forall f | f in reservations :: f in held || f in seen)
    && (forall s | s in started :: StartedIn(start, d, s, now, slots, reservations))
  }

  lemma NothingHeldYet(d: Disk, held: map<string, int>, slots: map<int, string>, now: int)
    ensures Holding(d, d, {}, [], held, slots, held, now)
  {
  }

  lemma HoldingFacts(
    start: Disk, d: Disk, seen: set<string>, started: seq<int>, held: map<string, int>, slots: map<int, string>,
    reservations: map<string, int>, now: int)
    requires Holding(start, d, seen, started, held, slots, reservations, now)
    ensures forall s | s in started :: StartedIn(start, d, s, now, slots, reservations)
  {
    hide StartedIn;
  }

  lemma NewIsHeld(
    start: Disk, d: Disk, seen: set<string>, started: seq<int>, held: map<string, int>, slots: map<int, string>,
    reservations: map<string, int>, now: int, e: string)
    requires Holding(start, d, seen, started, held, slots, reservations, now) && e !in seen
    ensures e in reservations <==> e in held
  {
    hide StartedIn;
  }

  lemma HoldingOn(
    start: Disk, before: Disk, after: Disk, malformed: seq<int>, queued: seq<int>, n: nat, seen: set<string>,
    started: seq<int>, troubled: seq<int>, held: map<string, int>, taken: map<int, string>, slots: map<int, string>,
    reserved: map<string, int>, reservations: map<string, int>, now: int, admitted: bool)
    requires Ticking(start, before, malformed, queued, n, seen, started, troubled, held) && n < |queued|
    requires Holding(start, before, seen, started, held, taken, reserved, now)
    requires OnlyEntry(before, after, queued[n]) && queued[n] in start.queue
    requires forall f | f in reserved :: f in reservations && reservations[f] == reserved[f]
    requires reservations.Keys <= reserved.Keys + {start.queue[queued[n]].record.eventId}
    requires forall q | q in taken :: q in slots && slots[q] == taken[q]
    requires admitted ==> Launched(before, after, queued[n], now, taken, slots, reservations)
    ensures Holding(start, after, seen + {start.queue[queued[n]].record.eventId},
                    if admitted then started + [queued[n]] else started, held, slots, reservations, now)
  {
    hide Considered, Startable, Status.OnlyStarted;
    var more := if admitted then started + [queued[n]] else started;
    forall s | s in more ensures StartedIn(start, after, s, now, slots, reservations) {
      if s in started {
        assert s in queued[..n];
        var j :| 0 <= j < n && queued[j] == s;
        assert StartedIn(start, before, s, now, taken, reserved);
      }
    }
  }

  /** Why an entry was, or was not, started by this tick. */
  ghost predicate Considered(
    d: Disk, malformed: seq<int>, q: int, started: seq<int>, troubled: seq<int>, reservations: map<string, int>)
  {
    && q in d.queue
    && var e := d.queue[q].record.eventId;
       || q in started || q in troubled || e in reservations
       || Journaled(d, InEvents(e)) || Shadowed(d, malformed, q)
  }

  ghost predicate Increasing(queued: seq<int>) {
    forall i, j | 0 <= i < j < |queued| :: queued[i] < queued[j]
  }

  /** discover_queue: the readable waiting records, oldest first. */
  method DiscoverQueue(d: Disk, malformed: seq<int>) returns (queued: seq<int>)
    ensures Increasing(queued) && forall s :: s in queued <==> Scanned(d, malformed, s)
  {
    var left := set s | s in d.queue :: InQueue(s);
    queued := [];
    while left != {}
      invariant left <= set s | s in d.queue :: InQueue(s)
      invariant Increasing(queued) && forall s :: s in queued <==> InQueue(s) !in left && Scanned(d, malformed, s)
      decreases |left|
    {
      var at :| at in left;
      if Scanned(d, malformed, at.sequence) {
        queued := Inserted(queued, at.sequence);
      }
      left := left - {at};
    }
  }

  method Inserted(queued: seq<int>, s: int) returns (more: seq<int>)
    requires Increasing(queued) && s !in queued
    ensures Increasing(more) && forall q :: q in more <==> q in queued || q == s
  {
    var n := |queued|;
    while n > 0 && queued[n - 1] > s
      invariant 0 <= n <= |queued| && forall k | n <= k < |queued| :: queued[k] > s
    {
      n := n - 1;
    }
    more := queued[..n] + [s] + queued[n..];
    if n > 0 {
      assert queued[n - 1] in queued;
    }
    InsertionIncreases(queued, n, s);
    InsertionAdds(queued, n, s);
  }

  lemma InsertionIncreases(queued: seq<int>, n: nat, s: int)
    requires n <= |queued| && Increasing(queued)
    requires (n > 0 ==> queued[n - 1] < s) && (n < |queued| ==> s < queued[n])
    ensures Increasing(queued[..n] + [s] + queued[n..])
  {
  }

  lemma InsertionAdds(queued: seq<int>, n: nat, s: int)
    requires n <= |queued|
    ensures forall q :: q in queued[..n] + [s] + queued[n..] <==> q in queued || q == s
  {
    assert queued == queued[..n] + queued[n..];
  }

  /** _first_malformed_sequence */
  method FirstMalformedSequence(malformed: seq<int>) returns (barrier: Option<int>)
    ensures barrier.None? <==> malformed == []
    ensures barrier.Some? ==> barrier.value in malformed && BelowBarrier(malformed, barrier.value)
  {
    barrier := None;
    for i := 0 to |malformed|
      invariant barrier.None? <==> i == 0
      invariant barrier.Some? ==> barrier.value in malformed && forall k | 0 <= k < i :: barrier.value <= malformed[k]
    {
      if barrier.None? || malformed[i] < barrier.value {
        barrier := Some(malformed[i]);
      }
    }
  }

  lemma BelowEvery(malformed: seq<int>, barrier: Option<int>, s: int)
    requires barrier.None? <==> malformed == []
    requires barrier.Some? ==> BelowBarrier(malformed, barrier.value) && s <= barrier.value
    ensures BelowBarrier(malformed, s)
  {
  }

  /** Progress of the admission loop, `n` records in. */
  ghost predicate Ticking(
    start: Disk, d: Disk, malformed: seq<int>, queued: seq<int>, n: nat, seen: set<string>,
    started: seq<int>, troubled: seq<int>, reservations: map<string, int>)
  {
    && n <= |queued| && Increasing(queued) && (forall s :: s in queued <==> Scanned(start, malformed, s))
    && d.events == start.events && d.queue.Keys == start.queue.Keys
    && (forall j | n <= j < |queued| :: queued[j] in d.queue && d.queue[queued[j]] == start.queue[queued[j]])
    && (forall q, f | WaitingFor(d, q, f) :: WaitingFor(start, q, f))
    && (forall j | 0 <= j < n :: Considered(start, malformed, queued[j], started, troubled, reservations))
    && (forall j | 0 <= j < n :: start.queue[queued[j]].record.eventId in seen)
    && (forall f | f in seen :: exists j :: 0 <= j < n && start.queue[queued[j]].record.eventId == f)
    && (forall s | s in started :: s in queued[..n] && Startable(start, malformed, s, reservations))
  }

  lemma TickingBegins(start: Disk, malformed: seq<int>, queued: seq<int>, reservations: map<string, int>)
    requires Increasing(queued) && forall s :: s in queued <==> Scanned(start, malformed, s)
    ensures Ticking(start, start, malformed, queued, 0, {}, [], [], reservations)
  {
    hide Considered, BelowBarrier, Startable;
    assert forall j | 0 <= j < |queued| :: queued[j] in queued;
  }

  /** The next record, when its event is new, is the oldest readable one of its event. */
  lemma OldestOfEvent(
    start: Disk, d: Disk, malformed: seq<int>, queued: seq<int>, n: nat, seen: set<string>,
    started: seq<int>, troubled: seq<int>, reservations: map<string, int>)
    requires Ticking(start, d, malformed, queued, n, seen, started, troubled, reservations) && n < |queued|
    requires BelowBarrier(malformed, queued[n])
    ensures queued[n] in start.queue
    ensures var e := start.queue[queued[n]].record.eventId;
      e !in seen ==> OldestReadable(d, malformed, queued[n], e)
  {
    hide Considered;
    var s := queued[n];
    assert s in queued;
    var e := start.queue[s].record.eventId;
    if e !in seen {
      forall q | WaitingFor(d, q, e) && q !in malformed ensures s <= q {
        assert q in queued;
        var j :| 0 <= j < |queued| && queued[j] == q;
      }
    }
  }

  lemma TickingAdvances(
    start: Disk, before: Disk, after: Disk, malformed: seq<int>, queued: seq<int>, n: nat, seen: set<string>,
    started: seq<int>, troubled: seq<int>, held: map<string, int>, admitted: bool, failed: bool)
    requires Ticking(start, before, malformed, queued, n, seen, started, troubled, held) && n < |queued|
    requires OnlyEntry(before, after, queued[n]) && BelowBarrier(malformed, queued[n])
    requires queued[n] in start.queue
    requires var e := start.queue[queued[n]].record.eventId;
      && (admitted || failed || e in seen || e in held || Journaled(before, InEvents(e)))
      && (admitted ==> e !in seen && e !in held && !Journaled(before, InEvents(e)))
    ensures Ticking(start, after, malformed, queued, n + 1,
                    seen + {start.queue[queued[n]].record.eventId},
                    if admitted then started + [queued[n]] else started,
                    if failed then troubled + [queued[n]] else troubled, held)
  {
    hide BelowBarrier, Considered, OnlyEntry, Startable;
    var more := if admitted then started + [queued[n]] else started;
    var worse := if failed then troubled + [queued[n]] else troubled;
    TickingKeepsQueue(start, before, after, malformed, queued, n, seen, started, troubled, held);
    forall j | 0 <= j < n + 1 ensures Considered(start, malformed, queued[j], more, worse, held) {
      if j < n {
        ConsideredStays(start, malformed, queued[j], started, troubled, more, worse, held);
      } else {
        NowConsidered(start, before, malformed, queued, n, seen, started, troubled, more, worse, held);
      }
    }
    if admitted {
      AdmittedIsStartable(start, before, malformed, queued, n, seen, started, troubled, held);
    }
    assert queued[..n + 1] == queued[..n] + [queued[n]];
  }

  lemma AdmittedIsStartable(
    start: Disk, before: Disk, malformed: seq<int>, queued: seq<int>, n: nat, seen: set<string>,
    started: seq<int>, troubled: seq<int>, held: map<string, int>)
    requires Ticking(start, before, malformed, queued, n, seen, started, troubled, held) && n < |queued|
    requires BelowBarrier(malformed, queued[n]) && queued[n] in start.queue
    requires var e := start.queue[queued[n]].record.eventId; e !in seen && e !in held && !Journaled(before, InEvents(e))
    ensures Startable(start, malformed, queued[n], held)
  {
    hide BelowBarrier, Considered;
    assert queued[n] in queued;
    var e := start.queue[queued[n]].record.eventId;
    assert At(before, InEvents(e)) == At(start, InEvents(e));
    forall p | p < queued[n] && Scanned(start, malformed, p) ensures start.queue[p].record.eventId != e {
      assert p in queued;
      var j :| 0 <= j < |queued| && queued[j] == p;
    }
  }

  lemma TickingKeepsQueue(
    start: Disk, before: Disk, after: Disk, malformed: seq<int>, queued: seq<int>, n: nat, seen: set<string>,
    started: seq<int>, troubled: seq<int>, held: map<string, int>)
    requires Ticking(start, before, malformed, queued, n, seen, started, troubled, held) && n < |queued|
    requires OnlyEntry(before, after, queued[n])
    ensures after.events == start.events && after.queue.Keys == start.queue.Keys
    ensures forall j | n + 1 <= j < |queued| :: queued[j] in after.queue && after.queue[queued[j]] == start.queue[queued[j]]
    ensures forall q, f | WaitingFor(after, q, f) :: WaitingFor(start, q, f)
  {
    hide BelowBarrier, Considered;
    assert queued[n] in queued;
    forall q, f | WaitingFor(after, q, f) ensures WaitingFor(start, q, f) {
      if q != queued[n] {
        assert WaitingFor(before, q, f);
      }
    }
  }

  lemma ConsideredStays(
    d: Disk, malformed: seq<int>, q: int, started: seq<int>, troubled: seq<int>,
    more: seq<int>, worse: seq<int>, held: map<string, int>)
    requires Considered(d, malformed, q, started, troubled, held) && started <= more && troubled <= worse
    ensures Considered(d, malformed, q, more, worse, held)
  {
    hide Shadowed;
    assert forall s | s in started :: s in more;
    assert forall s | s in troubled :: s in worse;
  }

  lemma NowConsidered(
    start: Disk, before: Disk, malformed: seq<int>, queued: seq<int>, n: nat, seen: set<string>,
    started: seq<int>, troubled: seq<int>, more: seq<int>, worse: seq<int>, held: map<string, int>)
    requires Ticking(start, before, malformed, queued, n, seen, started, troubled, held) && n < |queued|
    requires queued[n] in start.queue
    requires var e := start.queue[queued[n]].record.eventId;
      queued[n] in more || queued[n] in worse || e in seen || e in held || Journaled(before, InEvents(e))
    ensures Considered(start, malformed, queued[n], more, worse, held)
  {
    hide BelowBarrier, Startable;
    var e := start.queue[queued[n]].record.eventId;
    assert At(before, InEvents(e)) == At(start, InEvents(e));
    if e in seen {
      var j :| 0 <= j < n && start.queue[queued[j]].record.eventId == e;
      assert queued[j] in queued && queued[j] < queued[n];
      assert Shadowed(start, malformed, queued[n]);
    }
  }

  /** With no trouble, whatever could be started was, until there was no slot. */
  lemma StartableAreStarted(
    start: Disk, malformed: seq<int>, started: seq<int>, held: map<string, int>, capacity: bool)
    requires forall q | Scanned(start, malformed, q) && BelowBarrier(malformed, q)
        && (capacity || exists s | s in started :: q < s) ::
      Considered(start, malformed, q, started, [], held)
    ensures forall q | Startable(start, malformed, q, held) ::
      q in started || (!capacity && forall s | s in started :: s < q)
  {
    hide BelowBarrier, Shadowed;
  }

  lemma TickingEnds(
    start: Disk, d: Disk, malformed: seq<int>, queued: seq<int>, n: nat, seen: set<string>,
    started: seq<int>, troubled: seq<int>, reservations: map<string, int>, barrier: Option<int>, capacity: bool)
    requires Ticking(start, d, malformed, queued, n, seen, started, troubled, reservations)
    requires barrier.Some? ==> barrier.value in malformed
    requires n < |queued| && capacity ==> barrier.Some? && queued[n] > barrier.value
    ensures d.events == start.events
    ensures forall s | s in started :: Startable(start, malformed, s, reservations)
    ensures forall q | Scanned(start, malformed, q) && BelowBarrier(malformed, q)
        && (capacity || exists s | s in started :: q < s) ::
      Considered(start, malformed, q, started, troubled, reservations)
  {
    hide Considered, Startable;
    assert forall s | s in started :: s in queued[..n] && s in queued;
    forall q | Scanned(start, malformed, q) && BelowBarrier(malformed, q)
        && (capacity || exists s | s in started :: q < s)
      ensures Considered(start, malformed, q, started, troubled, reservations)
    {
      assert q in queued;
      var j :| 0 <= j < |queued| && queued[j] == q;
      if s :| s in started && q < s {
        var i :| 0 <= i < n && queued[i] == s;
      }
    }
  }
}
