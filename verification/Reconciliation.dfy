/** The entry points of recalculation.py, over the whole service tree. */
module Reconciliation {
  import opened Common
  import opened Disk
  import opened Snapshot
  import opened Volumes
  import opened Protocol
  import opened Recalculation
  import opened Course
  import opened Mending
  import opened Exposure
  import Durability
  import Names
  import Status

  // ------------------------------------------------------------ finding a journal

  function Located(d: Disk, eventId: string, sequence: int): Result<Option<Place>> {
    Selected(At(d, InQueue(sequence)), At(d, InEvents(eventId)), eventId, sequence)
  }

  function KeyAt(d: Disk, at: Place): Key
    requires Journaled(d, at)
  {
    var j := At(d, at).value.journal.value;
    Key(j.sequence, j.eventId, j.archivePath)
  }

  function HolderPlace(d: Disk, k: Key): Place {
    if k.sequence in d.queue then InQueue(k.sequence) else InEvents(k.eventId)
  }

  /** Whatever state a transaction is found in, it is found. */
  lemma TransactionsAreLocated(o: Origin, k: Key, d: Disk)
    requires InTransaction(o, k, Look(d, k)) && Undisputed(o)
    ensures Located(d, k.eventId, k.sequence) == Ok(Some(HolderPlace(d, k)))
    ensures Journaled(d, HolderPlace(d, k)) && KeyAt(d, HolderPlace(d, k)) == k
  {
    var v := Look(d, k);
    assert v.queued.Some? ==> v.current.None? || v.current == o.service;
  }

  /** Two descriptions of the same transaction directory agree on what it is called. */
  method LocateTransaction(vol: Volume, eventId: string, sequence: int) returns (r: Result<Option<Transaction>>)
    requires vol.Valid() && vol.Synced()
    ensures r.Raised? <==> Located(vol.disk, eventId, sequence).Raised?
    ensures r.Ok? ==> (r.value.Some? <==> Located(vol.disk, eventId, sequence).value.Some?)
    ensures r.Ok? && r.value.Some? ==>
      var t, at := r.value.value, Located(vol.disk, eventId, sequence).value.value;
      && fresh(t) && t.vol == vol && Journaled(vol.disk, at) && t.key == KeyAt(vol.disk, at) && t.location == at
      && At(vol.disk, at).value.journal == Some(t.journal) && At(vol.disk, at).value.record == t.record
      && t.mode == Recovering && t.start == Starting(vol.Now(), t.journal) && t.Ready() && t.Idle()
  {
    var queued := Journaled(vol.disk, InQueue(sequence));
    var current := Journaled(vol.disk, InEvents(eventId));
    if !queued && !current {
      return Ok(None);
    }
    if queued && current {
      return Raised;
    }
    var at := if queued then InQueue(sequence) else InEvents(eventId);
    var x := At(vol.disk, at).value;
    if !Recognized(x, eventId, sequence) {
      return Raised;
    }
    var t := new Transaction(vol, KeyAt(vol.disk, at), x.record, x.journal.value, at, Recovering);
    return Ok(Some(t));
  }

  // -------------------------------------------------------------- reconciliation

  predicate TransactionFound(d: Disk, eventId: string, sequence: int) {
    Located(d, eventId, sequence).Ok? && Located(d, eventId, sequence).value.Some?
  }

  /** reconcile_transaction: from any state a transaction can be in, either it is over, with the
      record failed in place and nothing private left, or it is again in such a state. */
  method ReconcileTransaction(vol: Volume, eventId: string, sequence: int, now: int, ghost o: Origin, ghost k: Key)
    returns (out: Outcome, found: bool)
    requires vol.Valid() && vol.Synced() && k.eventId == eventId && k.sequence == sequence
    requires TransactionFound(vol.disk, eventId, sequence) ==> InTransaction(o, k, Look(vol.disk, k)) && Undisputed(o)
    modifies vol
    ensures vol.Valid() && vol.Synced()
    ensures !TransactionFound(old(vol.disk), eventId, sequence) ==> vol.disk == old(vol.disk)
    ensures !TransactionFound(old(vol.disk), eventId, sequence) && out.Done? ==>
      !found && Located(old(vol.disk), eventId, sequence) == Ok(None)
    ensures TransactionFound(old(vol.disk), eventId, sequence) ==> Reconciled(old(vol.disk), vol.disk, o, k)
    ensures TransactionFound(old(vol.disk), eventId, sequence) && out.Done? ==> found && Recovered(o, k, Look(vol.disk, k))
    ensures TransactionFound(old(vol.disk), eventId, sequence) ==>
      Attributed(Look(old(vol.disk), k), Look(vol.disk, k), now)
    ensures vol.regime.Calm? && TransactionFound(old(vol.disk), eventId, sequence) ==>
      (out.Done? <==> !Holder(Look(old(vol.disk), k)).record.status.Success?)
    ensures out.Error? && TransactionFound(old(vol.disk), eventId, sequence) ==>
      vol.regime.IoFaults? || Holder(Look(old(vol.disk), k)).record.status.Success?
    ensures out.Error? && Located(old(vol.disk), eventId, sequence) == Ok(None) ==> vol.regime.IoFaults?
    ensures vol.regime.Calm? && out.Error? && TransactionFound(old(vol.disk), eventId, sequence) ==> Noted(Look(vol.disk, k))
    ensures out.Crashed? ==> !vol.regime.Calm?
    ensures old(vol.pending) == [] && !vol.regime.PowerFailure? && TransactionFound(old(vol.disk), eventId, sequence) ==>
      Spared(old(vol.disk), vol.Now(), o, k) && (out.Done? ==> vol.pending == [])
    ensures !vol.regime.PowerFailure? ==> SafeIfHarmless(old(vol.Now()), vol.Now(), o, k)
  {
    hide InTransaction, Recovered, Attributed, Noted, Located, Reaches, Recoverable, Kept, KeptInQueue, Spared, Survivors, SafeIfHarmless;
    UntouchedIsSafe(vol.Now(), o, k);
    found := false;
    out := vol.Strike();
    if TransactionFound(vol.disk, eventId, sequence) {
      WhereItIs(o, k, Look(vol.disk, k));
      TransactionsAreLocated(o, k, vol.disk);
      UntouchedIsSpared(vol.disk, o, k);
      UntouchedIsAttributed(o, k, Look(vol.disk, k), now);
      KeptItself(vol.disk, k);
    }
    if !out.Done? {
      return;
    }
    var located := LocateTransaction(vol, eventId, sequence);
    if located.Raised? {
      return Error, false;
    }
    if located.value.None? {
      return Done, false;
    }
    out := FinishLocated(located.value.value, now, o);
    return out, true;
  }

  /** A power failure would leave a transaction that can be recovered, and nothing else changed. */
  predicate Spared(before: Disk, now: Moment, o: Origin, k: Key) {
    forall left | left in now.Left() ::
      KeptInQueue(before, left, k) && StaysHonest(before, left, k) && Recoverable(o, k, Look(left, k))
  }

  /** If all that was unsynced is what one interrupted process left, and that was not harmful, a power failure would still
      leave only what recovery can mend. */
  ghost predicate SafeIfHarmless(before: Moment, after: Moment, o: Origin, k: Key) {
    forall mode, d, s | Interrupted(mode, o, k, d, s) && s.now == before && !LeftHarmful(k, before) :: Safe(o, k, after)
  }

  lemma UntouchedIsSafe(now: Moment, o: Origin, k: Key)
    ensures SafeIfHarmless(now, now, o, k)
  {
    hide Reaches, Safe, LeftHarmful;
    ReachesItself(Recovering, k, Restarted(now, k));
    CourseIsSafe(now, Restarted(now, k), o, k);
  }

  /** Any course of recovery over what was not harmful. */
  lemma CourseIsSafe(before: Moment, t: State, o: Origin, k: Key)
    requires Reaches(Recovering, k, Restarted(before, k), t)
    ensures SafeIfHarmless(before, t.now, o, k)
  {
    hide Reaches, Safe, Interrupted, LeftHarmful;
    forall mode, d, s | Interrupted(mode, o, k, d, s) && s.now == before && !LeftHarmful(k, before) ensures Safe(o, k, t.now) {
      Durability.RecoveryIsSafeExactlyWhen(mode, o, k, d, s);
    }
  }

  lemma UntouchedIsSpared(d: Disk, o: Origin, k: Key)
    requires InTransaction(o, k, Look(d, k))
    ensures Spared(d, Moment(d, []), o, k)
  {
  }

  /** The evidence of the failed recovery is in the journal. */
  predicate Noted(v: View) {
    (v.queued.Some? || v.current.Some?) && Holder(v).journal.Some?
    && Holder(v).journal.value.recoveryFailure == Some("reconciliation failed")
  }

  /** The body of reconcile_transaction, once the transaction has been located. */
  method FinishLocated(t: Transaction, now: int, ghost o: Origin) returns (out: Outcome)
    requires t.Open(o) && t.mode.Recovering? && t.start == Starting(t.vol.Now(), t.journal)
    modifies t.vol, t`course, t`journal, t`location, t`record
    ensures old(t.vol.pending) == [] && !t.vol.regime.PowerFailure? ==>
      Spared(old(t.vol.disk), t.vol.Now(), o, t.key) && (out.Done? ==> t.vol.pending == [])
    ensures !t.vol.regime.PowerFailure? ==> SafeIfHarmless(old(t.vol.Now()), t.vol.Now(), o, t.key)
    ensures t.vol.Valid() && t.vol.Synced() && t.OnCourse()
    ensures Reconciled(old(t.vol.disk), t.vol.disk, o, t.key)
    ensures out.Done? ==> Recovered(o, t.key, t.Here())
    ensures Attributed(old(t.Here()), t.Here(), now)
    ensures t.vol.regime.Calm? && out.Error? ==> Noted(t.Here())
    ensures out.Error? ==> t.vol.regime.IoFaults? || old(t.record).status.Success?
    ensures out.Crashed? ==> !t.vol.regime.Calm?
    ensures old(t.record).status.Success? ==> !out.Done?
  {
    hide InTransaction, Recovered, InterruptedAt, Reaches, Kept, KeptInQueue, StaysHonest, SafeIfHarmless;
    WhereItIs(o, t.key, t.Here());
    assert t.start == Restarted(t.vol.Now(), t.key);
    out := t.Finish(now, o);
    if out.Done? {
      RecoveredRecord(o, t.key, t.Here());
    }
    if out.Error? {
      StillThere(o, t.key, t.Here());
      ghost var middle := t.vol.disk;
      out := RecordRecoveryFailure(t, "reconciliation failed", o);
      KeptTwice(old(t.vol.disk), middle, t.vol.disk, t.key);
    }
    if !t.vol.regime.PowerFailure? {
      CourseIsSafe(old(t.vol.Now()), t.course, o, t.key);
      if old(t.vol.pending) == [] {
        t.PowerMayFail(o, old(t.vol.disk));
      }
    }
  }

  /** The record is what it was, or was RUNNING and is now failed, and says whether its native tree had been published. */
  predicate Attributed(before: View, after: View, now: int) {
    (before.queued.Some? || before.current.Some?) && KeepsRecord(after, Holder(before).record, PublishedTree(before).Some?, now)
  }

  lemma UntouchedIsAttributed(o: Origin, k: Key, v: View, now: int)
    requires InTransaction(o, k, v)
    ensures Attributed(v, v, now)
  {
    hide Waiting, Promoted;
    WhereItIs(o, k, v);
  }

  lemma RecoveredRecord(o: Origin, k: Key, v: View)
    requires Recovered(o, k, v)
    ensures v.queued.None? && v.current.Some?
  {
  }

  /** What reconciliation may do to the tree, finished or not: the native tree, a terminal record and a record
      still in the queue stay as they were. */
  predicate Reconciled(before: Disk, after: Disk, o: Origin, k: Key) {
    var v, w := Look(before, k), Look(after, k);
    && Kept(before, after, k) && (InTransaction(o, k, w) || Recovered(o, k, w))
    && PublishedTree(w) == PublishedTree(v)
    && (v.queued.Some? || v.current.Some?)
    && (Holder(v).record.status.Terminal() ==> Carries(w, Holder(v).record))
    && (w.queued.Some? ==> Carries(w, Holder(v).record))
  }

  /** _record_recovery_failure, after which the error is raised again. */
  method RecordRecoveryFailure(t: Transaction, evidence: string, ghost o: Origin) returns (out: Outcome)
    requires t.Ready() && t.mode.Recovering? && (t.Here().queued.Some? || t.Here().current.Some?)
    requires InTransaction(o, t.key, t.Here()) || Recovered(o, t.key, t.Here())
    requires InTransaction(o, t.key, WithJournal(t.Here(), t.journal))
    modifies t.vol, t`course, t`journal
    ensures t.vol.Valid() && t.vol.Synced() && t.OnCourse() && !out.Done? && Kept(old(t.vol.disk), t.vol.disk, t.key)
    ensures InTransaction(o, t.key, t.Here()) || Recovered(o, t.key, t.Here())
    ensures out.Crashed? ==> !t.vol.regime.Calm?
    ensures PublishedTree(t.Here()) == PublishedTree(old(t.Here()))
    ensures t.Here().queued.Some? || t.Here().current.Some?
    ensures t.vol.regime.Calm? ==>
      Holder(t.Here()).journal.Some? && Holder(t.Here()).journal.value.recoveryFailure == Some(evidence)
    ensures Holder(t.Here()).record == Holder(old(t.Here())).record
    ensures t.Here().queued.Some? <==> old(t.Here()).queued.Some?
  {
    hide Waiting, Promoted, Recovered;
    NotingFailure(o, t.key, t.Here(), t.journal, evidence);
    out := t.NoteFailure(evidence);
    if out.Done? {
      out := Error;
    }
  }

  // ---------------------------------------------------------------- finalization

  /** finalize_transaction: only the journal of a valid terminal current record goes, and nothing else changes. */
  method FinalizeTransaction(vol: Volume, eventId: string) returns (out: Outcome, removed: bool)
    requires vol.Valid() && vol.Synced()
    modifies vol
    ensures vol.Valid() && vol.Synced()
    ensures vol.disk == old(vol.disk)
            || (eventId in old(vol.disk).events && Finalizable(old(vol.disk).events[eventId])
                && vol.disk == Apply(old(vol.disk), RemoveJournal(InEvents(eventId))))
    ensures out.Done? ==> vol.disk == Apply(old(vol.disk), RemoveJournal(InEvents(eventId)))
    ensures out.Done? ==> (removed <==> Journaled(old(vol.disk), InEvents(eventId)))
    ensures out.Done? ==> Finished(old(vol.disk), eventId)
    ensures vol.regime.Calm? ==> (out.Done? <==> Finished(old(vol.disk), eventId)) && !out.Crashed?
  {
    removed := false;
    out := vol.Strike();
    if !out.Done? {
      return;
    }
    if eventId !in vol.disk.events {
      return Error, false;
    }
    var x := vol.disk.events[eventId];
    if !Status.Valid(x.record) || x.record.eventId != eventId || !x.record.status.Terminal() {
      return Error, false;
    }
    if x.journal.None? {
      assert x == x.(journal := None);
      assert vol.disk.events[eventId := x] == vol.disk.events;
      return Done, false;
    }
    var j := x.journal.value;
    if !Loadable(j) || !JournalFor(j, x.record) {
      return Error, false;
    }
    if j.completed != CHECKPOINTS || j.recoveryFailure.Some? || j.intents.candidateRemovalStarted {
      return Error, false;
    }
    out := vol.Rewrite(RemoveJournal(InEvents(eventId)), RecordDirectory);
    removed := true;
  }

  /** The current record of an event is terminal, and its journal may be removed. */
  predicate Finished(d: Disk, eventId: string) {
    && eventId in d.events && Status.Valid(d.events[eventId].record)
    && d.events[eventId].record.eventId == eventId && Finalizable(d.events[eventId])
  }

  // ------------------------------------------------------------- stale records

  function Classify(d: Disk, at: Place, eventId: string, sequence: int): Result<RunningRecordRecovery> {
    Judged(At(d, at), eventId, sequence)
  }

  function FailedAt(d: Disk, at: Place, now: int): Disk
    requires At(d, at).Some?
  {
    var failed := Status.FailStale(At(d, at).value.record, STALE_FAILURE, Status.Utc(now));
    if failed.Ok? then Put(d, at, At(d, at).value.(record := failed.value)) else d
  }

  /** Nothing has changed but the RUNNING record at `at`, which is failed for want of a journal, and changed in nothing else. */
  predicate FailedInPlace(before: Disk, after: Disk, at: Place, now: int) {
    && At(before, at).Some? && At(after, at).Some?
    && var x, failed := At(before, at).value, At(after, at).value.record;
       && after == Put(before, at, x.(record := failed)) && FailureOf(x.record, failed)
       && Status.FailedFor(failed, "interrupted_without_transaction",
            "calculation was found RUNNING without a transaction journal; native execution was not retried", Status.Utc(now))
  }

  lemma FailingInPlace(d: Disk, at: Place, now: int)
    requires At(d, at).Some? && Status.Valid(At(d, at).value.record) && At(d, at).value.record.status.Running?
    ensures FailedInPlace(d, FailedAt(d, at, now), at, now)
  {
    hide Status.FailStale, Status.Valid;
    Status.OnlyTheStaleFailureIsRecorded(At(d, at).value.record, STALE_FAILURE.code, STALE_FAILURE.message, now);
  }

  method FailMatchingRunningRecord(vol: Volume, at: Place, eventId: string, sequence: int, now: int)
    returns (out: Outcome, result: RunningRecordRecovery)
    requires vol.Valid() && vol.Synced()
    modifies vol
    ensures vol.Valid() && vol.Synced()
    ensures out.Done? ==> Classify(old(vol.disk), at, eventId, sequence) == Ok(result)
    ensures out.Done? && result != FailedNow ==> vol.disk == old(vol.disk)
    ensures out.Done? && result == FailedNow ==> vol.disk == FailedAt(old(vol.disk), at, now)
    ensures vol.disk == old(vol.disk)
            || (Classify(old(vol.disk), at, eventId, sequence) == Ok(FailedNow)
                && vol.disk == FailedAt(old(vol.disk), at, now))
    ensures out.Error? ==> vol.regime.IoFaults? || Classify(old(vol.disk), at, eventId, sequence).Raised?
    ensures out.Crashed? ==> !vol.regime.Calm?
    ensures old(vol.pending) == [] && !vol.regime.PowerFailure? ==>
      && (out.Done? ==> vol.pending == [])
      && forall left | left in vol.Now().Left() ::
           left == old(vol.disk)
           || (Classify(old(vol.disk), at, eventId, sequence) == Ok(FailedNow) && left == FailedAt(old(vol.disk), at, now))
    ensures Classify(old(vol.disk), at, eventId, sequence) != Ok(FailedNow) && !vol.regime.PowerFailure? ==>
      vol.Now() == old(vol.Now())
  {
    result := Missing;
    out := vol.Strike();
    if !out.Done? {
      return;
    }
    if At(vol.disk, at).None? {
      return Done, Missing;
    }
    var x := At(vol.disk, at).value;
    if !Status.Valid(x.record) {
      return Error, Missing;
    }
    if x.record.eventId != eventId || x.record.sequence != sequence {
      return Done, IdentityMismatch;
    }
    if x.journal.Some? {
      return Done, BlockingChildPresent;
    }
    if !x.record.status.Running? {
      return Done, NotRunning;
    }
    var failed := Status.FailStale(x.record, STALE_FAILURE, Status.Utc(now));
    Status.StaleAlwaysFails(x.record, STALE_FAILURE, Status.Utc(now));
    result := FailedNow;
    out := vol.Rewrite(WriteRecord(at, failed.value), RecordDirectory);
  }

  /** A record found RUNNING at `at`, and everything startup knows about it. */
  predicate Stale(d: Disk, at: Place, eventId: string, sequence: int, o: Origin, k: Key) {
    && k.eventId == eventId && k.sequence == sequence
    && (at == InQueue(sequence) || (at == InEvents(eventId) && sequence !in d.queue))
    && At(d, at).Some?
    && var x := At(d, at).value;
       && Status.Valid(x.record) && x.record.status.Running?
       && x.record.eventId == eventId && x.record.sequence == sequence
       && (x.journal.Some? ==> InTransaction(o, k, Look(d, k)) && Undisputed(o))
  }

  /** What became of a stale record: still there in full, failed where it was, or recovered. */
  predicate StillStale(before: Disk, after: Disk, at: Place, o: Origin, k: Key)
    requires At(before, at).Some?
  {
    if At(before, at).value.journal.None? then after == before
    else
      && Kept(before, after, k) && InTransaction(o, k, Look(after, k))
      && (k.sequence in after.queue ==> after.queue[k.sequence].record.status.Running?)
  }

  predicate Cleared(before: Disk, after: Disk, at: Place, now: int, o: Origin, k: Key)
    requires At(before, at).Some?
  {
    if At(before, at).value.journal.None? then after == FailedAt(before, at, now)
    else Kept(before, after, k) && Recovered(o, k, Look(after, k))
  }

  lemma StaleHolder(d: Disk, at: Place, eventId: string, sequence: int, o: Origin, k: Key)
    requires Stale(d, at, eventId, sequence, o, k)
    ensures at in {InQueue(sequence), InEvents(eventId)} && At(d, at).Some?
    ensures var x := At(d, at).value;
      && Classify(d, at, eventId, sequence) == Ok(if x.journal.Some? then BlockingChildPresent else FailedNow)
      && (Look(d, k).queued.Some? || Look(d, k).current.Some?) && Holder(Look(d, k)) == x && x.record.status.Running?
      && (x.journal.Some? ==> InTransaction(o, k, Look(d, k)) && Undisputed(o) && TransactionFound(d, eventId, sequence))
    ensures at.InEvents? ==> Classify(d, InQueue(sequence), eventId, sequence) == Ok(Missing)
  {
    hide InTransaction, Located;
    if At(d, at).value.journal.Some? {
      TransactionsAreLocated(o, k, d);
    }
  }

  lemma FailingKeepsTrees(d: Disk, at: Place, now: int, k: Key)
    requires At(d, at).Some?
    ensures PublishedTree(Look(FailedAt(d, at, now), k)) == PublishedTree(Look(d, k))
  {
  }

  /** A power failure would leave the record stale, or cleared, too. */
  predicate StaleSpared(before: Disk, moment: Moment, at: Place, now: int, o: Origin, k: Key)
    requires At(before, at).Some?
  {
    forall left | left in moment.Left() :: StillStale(before, left, at, o, k) || Cleared(before, left, at, now, o, k)
  }

  lemma UntouchedIsStale(d: Disk, at: Place, eventId: string, sequence: int, now: int, o: Origin, k: Key)
    requires Stale(d, at, eventId, sequence, o, k)
    ensures StillStale(d, d, at, o, k) && StaleSpared(d, Moment(d, []), at, now, o, k)
  {
    hide InTransaction;
  }

  lemma FailedIsStale(
    before: Disk, moment: Moment, at: Place, place: Place, eventId: string, sequence: int, now: int, o: Origin, k: Key)
    requires Stale(before, at, eventId, sequence, o, k)
    requires place == at || Classify(before, place, eventId, sequence) == Ok(Missing)
    ensures
      (forall left | left in moment.Left() ::
         left == before
         || (Classify(before, place, eventId, sequence) == Ok(FailedNow) && left == FailedAt(before, place, now)))
      ==> StaleSpared(before, moment, at, now, o, k)
  {
    hide InTransaction, Recovered, Kept, Survivors, FailedAt;
    UntouchedIsStale(before, at, eventId, sequence, now, o, k);
    StaleHolder(before, at, eventId, sequence, o, k);
  }

  lemma SparedIsStale(
    before: Disk, moment: Moment, at: Place, eventId: string, sequence: int, now: int, o: Origin, k: Key)
    requires Stale(before, at, eventId, sequence, o, k) && At(before, at).value.journal.Some?
    ensures Spared(before, moment, o, k) ==> StaleSpared(before, moment, at, now, o, k)
  {
    hide InTransaction, Recovered, Kept, Survivors;
  }

  method RecoverStaleRunning(
    vol: Volume, eventId: string, sequence: int, now: int, ghost at: Place, ghost o: Origin, ghost k: Key)
    returns (out: Outcome, changed: bool)
    requires vol.Valid() && vol.Synced() && Stale(vol.disk, at, eventId, sequence, o, k)
    modifies vol
    ensures vol.Valid() && vol.Synced()
    ensures StillStale(old(vol.disk), vol.disk, at, o, k) || Cleared(old(vol.disk), vol.disk, at, now, o, k)
    ensures out.Done? ==> changed && Cleared(old(vol.disk), vol.disk, at, now, o, k)
    ensures out.Done? && At(old(vol.disk), at).value.journal.Some? ==>
      Attributed(Look(old(vol.disk), k), Look(vol.disk, k), now)
    ensures vol.regime.Calm? ==> out.Done?
    ensures out.Error? ==> vol.regime.IoFaults?
    ensures PublishedTree(Look(vol.disk, k)) == PublishedTree(Look(old(vol.disk), k))
    ensures old(vol.pending) == [] && !vol.regime.PowerFailure? ==>
      (out.Done? ==> vol.pending == []) && StaleSpared(old(vol.disk), vol.Now(), at, now, o, k)
    ensures At(old(vol.disk), at).value.journal.Some? && !vol.regime.PowerFailure? ==>
      SafeIfHarmless(old(vol.Now()), vol.Now(), o, k)
  {
    hide InTransaction, Recovered, Classify, FailedAt, FailedInPlace, Attributed, StaleSpared, Spared, Survivors, SafeIfHarmless;
    UntouchedIsSafe(vol.Now(), o, k);
    UntouchedIsStale(vol.disk, at, eventId, sequence, now, o, k);
    out, changed := Done, false;
    StaleHolder(vol.disk, at, eventId, sequence, o, k);
    FailingKeepsTrees(vol.disk, at, now, k);
    var places := [InQueue(sequence), InEvents(eventId)];
    for i := 0 to |places|
      invariant out.Done?
      invariant vol.Valid() && vol.Synced() && vol.disk == old(vol.disk)
      invariant old(vol.pending) == [] && !vol.regime.PowerFailure? ==> vol.pending == []
      invariant !vol.regime.PowerFailure? && At(vol.disk, at).value.journal.Some? ==> vol.Now() == old(vol.Now())
      invariant at in places[i..]
    {
      assert places[i..] == [places[i]] + places[i + 1..];
      assert places[i] == at || Classify(vol.disk, places[i], eventId, sequence) == Ok(Missing);
      var result;
      out, result := FailMatchingRunningRecord(vol, places[i], eventId, sequence, now);
      FailedIsStale(old(vol.disk), vol.Now(), at, places[i], eventId, sequence, now, o, k);
      if !out.Done? {
        return;
      }
      match result
      case BlockingChildPresent =>
        out, changed := ReconcileTransaction(vol, eventId, sequence, now, o, k);
        SparedIsStale(old(vol.disk), vol.Now(), at, eventId, sequence, now, o, k);
        return;
      case FailedNow =>
        return Done, true;
      case NotRunning =>
        return Done, false;
      case _ =>
    }
  }
}
