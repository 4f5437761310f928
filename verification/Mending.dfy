/**
 What recover_stale_running_calculation and reconcile_transaction (recalculation.py)
 do next with a calculation, whatever it looks like, and when they bring it to a
 good end however often they are stopped and begun again.
 */
module Mending {
  import opened Common
  import opened Disk
  import opened Protocol
  import opened Course
  import opened Progress
  import Names
  import Status

  // ------------------------------------------------------ finding the calculation

  datatype RunningRecordRecovery = Missing | IdentityMismatch | BlockingChildPresent | NotRunning | FailedNow

  const STALE_FAILURE := Status.Failure(None, "interrupted_without_transaction",
    "calculation was found RUNNING without a transaction journal; native execution was not retried")

  /** How fail_matching_running_record_if_child_absent classifies what is in a record's place. */
  function Judged(x: Option<Entry>, eventId: string, sequence: int): Result<RunningRecordRecovery> {
    if x.None? then Ok(Missing)
    else if !Status.Valid(x.value.record) then Raised
    else if x.value.record.eventId != eventId || x.value.record.sequence != sequence then Ok(IdentityMismatch)
    else if x.value.journal.Some? then Ok(BlockingChildPresent)
    else if !x.value.record.status.Running? then Ok(NotRunning)
    else Ok(FailedNow)
  }

  /** Every check _locate_transaction makes of the record and the journal beside it. */
  predicate Recognized(x: Entry, eventId: string, sequence: int) {
    && x.journal.Some? && Status.Valid(x.record) && x.record.sequence == sequence
    && Loadable(x.journal.value)
    && x.journal.value.eventId == eventId && x.journal.value.sequence == sequence
    && JournalFor(x.journal.value, x.record)
  }

  /** Where _locate_transaction finds the journal. */
  function Selected(queued: Option<Entry>, current: Option<Entry>, eventId: string, sequence: int): (r: Result<Option<Place>>)
    ensures r.Ok? && r.value.Some? ==>
      var x := if r.value.value.InQueue? then queued else current;
      x.Some? && Recognized(x.value, eventId, sequence)
  {
    var inQueue, inEvents := queued.Some? && queued.value.journal.Some?, current.Some? && current.value.journal.Some?;
    if !inQueue && !inEvents then Ok(None)
    else if inQueue && inEvents then Raised
    else if !Recognized(if inQueue then queued.value else current.value, eventId, sequence) then Raised
    else Ok(Some(if inQueue then InQueue(sequence) else InEvents(eventId)))
  }

  /** "set(os.listdir(archive)) == expected names" */
  predicate Contains(bundle: Stage, preceding: Preceding) {
    (bundle.products.Absent? <==> !preceding.products) && (bundle.service.Absent? <==> !preceding.service)
  }

  // -------------------------------------------------------------- the next thing

  /** The next thing recovery does, decided by what it finds. */
  datatype Decision =
    | Raise
    | Finish
    | Do(op: Op)
    | RemoveStage
    | RemoveCandidate
    | FailRecord(published: bool)
    | FailStale(at: Place)

  /** recover_stale_running_calculation; `k` has the names the calculation's journal gives. */
  function Decide(k: Key, v: View): Decision {
    match Judged(v.queued, k.eventId, k.sequence)
    case Raised => Raise
    case Ok(BlockingChildPresent) => Reconcile(k, v)
    case Ok(FailedNow) => FailStale(InQueue(k.sequence))
    case Ok(NotRunning) => Finish
    case Ok(_) =>
      match Judged(v.current, k.eventId, k.sequence)
      case Raised => Raise
      case Ok(BlockingChildPresent) => Reconcile(k, v)
      case Ok(FailedNow) => FailStale(InEvents(k.eventId))
      case Ok(_) => Finish
  }

  /** reconcile_transaction */
  function Reconcile(k: Key, v: View): Decision {
    match Selected(v.queued, v.current, k.eventId, k.sequence)
    case Ok(Some(InQueue(_))) => RecoverStaging(k, v, v.queued.value, v.queued.value.journal.value)
    case Ok(Some(InEvents(_))) => FinishPromoted(k, v, v.current.value, v.current.value.journal.value)
    case Ok(None) => Finish
    case Raised => Raise
  }

  /** _recover_staging, and then the rename of _recover_promotion */
  function RecoverStaging(k: Key, v: View, x: Entry, j: Journal): Decision {
    var sources := v.products.Some? || v.current.Some?;
    if j.intents.stageRemovalStarted then
      if j.archivePath.Some? || sources then Raise
      else if x.stage.Some? then RemoveStage
      else AfterDisposal(k, v, j)
    else if j.archivePath.Some? && v.bundle.Some? then
      if x.record.overwrite || x.stage.Some? || !Contains(v.bundle.value, j.preceding) then Raise
      else AfterDisposal(k, v, j)
    else if x.stage.None? && !sources && Completed(j, ProductsStaged) && Completed(j, ServiceStaged)
            && (x.record.overwrite || !HasPreceding(j.preceding)) then AfterDisposal(k, v, j)
    else Restage(k, v, x, j)
  }

  /** A tree that should be there is in exactly one of its place and the stage, one that should not be in neither. */
  predicate Placed(expected: bool, source: bool, staged: bool) {
    if expected then source != staged else !source && !staged
  }

  function Restage(k: Key, v: View, x: Entry, j: Journal): Decision {
    var at := InQueue(k.sequence);
    if x.stage.None? then Do(SetStage(at, Some(Stage(Absent, Absent))))
    else
      var stage := x.stage.value;
      if !Placed(j.preceding.products, v.products.Some?, !stage.products.Absent?) then Raise
      else if v.products.Some? then Do(StageProducts(at, k.eventId))
      else if !Completed(j, ProductsStaged) then Do(WriteJournal(at, Marked(j, ProductsStaged)))
      else if !Placed(j.preceding.service, v.current.Some?, !stage.service.Absent?) then Raise
      else if v.current.Some? then Do(StageService(at, k.eventId))
      else if !Completed(j, ServiceStaged) then Do(WriteJournal(at, Marked(j, ServiceStaged)))
      else if !x.record.overwrite && HasPreceding(j.preceding) then
        if j.archivePath.None? then Raise else Do(PublishArchive(at, j.archivePath.value))
      else Do(WriteJournal(at, j.(intents := j.intents.(stageRemovalStarted := true))))
  }

  function AfterDisposal(k: Key, v: View, j: Journal): Decision {
    if !Completed(j, PrecedingDisposed) then Do(WriteJournal(InQueue(k.sequence), Marked(j, PrecedingDisposed)))
    else if v.current.Some? then Raise
    else Do(Promote(k.sequence, k.eventId))
  }

  /** The rest of _recover_promotion, _verify_disposition_after_promotion, _remove_private_candidate, _mark_failed and
      _remove_journal */
  function FinishPromoted(k: Key, v: View, x: Entry, j: Journal): Decision {
    var at, candidate, published := InEvents(k.eventId), x.candidate.Some?, v.products.Some?;
    if !Completed(j, RecordPromoted) then Do(WriteJournal(at, Marked(j, RecordPromoted)))
    else if x.stage.Some? || (j.archivePath.Some? && (v.bundle.None? || !Contains(v.bundle.value, j.preceding))) then Raise
    else if j.intents.candidateRemovalStarted then
      if published then Raise else if candidate then RemoveCandidate else MarkFailed(k, x, false)
    else if (candidate && published) || (published && !Completed(j, CandidateReady)) then Raise
    else if !published && (Completed(j, NativeTreePublished) || (!candidate && Completed(j, CandidateReady))) then Raise
    else if candidate then Do(WriteJournal(at, j.(intents := j.intents.(candidateRemovalStarted := true))))
    else MarkFailed(k, x, published)
  }

  function MarkFailed(k: Key, x: Entry, published: bool): Decision {
    match x.record.status
    case Failed => Do(RemoveJournal(InEvents(k.eventId)))
    case Running => FailRecord(published)
    case _ => Raise
  }

  predicate StaleFailure(r: Status.Record, failed: Status.Record) {
    && FailureOf(r, failed) && failed.failure.Some?
    && failed.failure.value.code == STALE_FAILURE.code && failed.failure.value.message == STALE_FAILURE.message
  }

  /** Recovery may issue `op` next. A removal may take a private tree away in any number of parts. */
  predicate Does(k: Key, v: View, op: Op) {
    match Decide(k, v)
    case Raise => false
    case Finish => false
    case Do(next) => op == next
    case RemoveStage =>
      op.SetStage? && op.at == InQueue(k.sequence) && v.queued.Some? && StageWeight(op.stage) < StageWeight(v.queued.value.stage)
    case RemoveCandidate =>
      op.SetCandidate? && op.at == InEvents(k.eventId) && v.current.Some?
      && CandidateWeight(op.candidate) < CandidateWeight(v.current.value.candidate)
    case FailRecord(published) =>
      op.WriteRecord? && op.at == InEvents(k.eventId) && v.current.Some?
      && Interruption(v.current.value.record, op.record, published)
    case FailStale(at) =>
      op.WriteRecord? && op.at == at && Seen(v, at).Some? && StaleFailure(Seen(v, at).value.record, op.record)
  }

  /** As long as nothing is wrong with the transaction, recovery does exactly what the protocol allows. */
  lemma RecoveryDoesWhatIsAllowed(o: Origin, k: Key, v: View, op: Op)
    requires InTransaction(o, k, v) && Undisputed(o) && !Holder(v).record.status.Success?
    ensures Decide(k, v) != Raise && Decide(k, v) != Finish
    ensures Does(k, v, op) <==> Allows(Recovering, k, v, op)
  {
    hide Waiting, Promoted;
    WhereItIs(o, k, v);
    IsReconciled(o, k, v);
    if v.queued.Some? {
      WaitingDoesWhatIsAllowed(o, k, v, op);
    } else {
      PromotedDoesWhatIsAllowed(o, k, v, op);
    }
  }

  lemma IsReconciled(o: Origin, k: Key, v: View)
    requires InTransaction(o, k, v) && Undisputed(o)
    ensures v.queued.Some? && v.queued.value.journal.Some? ==>
      Decide(k, v) == RecoverStaging(k, v, v.queued.value, v.queued.value.journal.value)
    ensures v.queued.None? && v.current.Some? && v.current.value.journal.Some? ==>
      Decide(k, v) == FinishPromoted(k, v, v.current.value, v.current.value.journal.value)
  {
    hide Loadable, Status.Valid;
    assert v.queued.Some? ==> v.current.None? || v.current == o.service;
  }

  lemma WaitingDoesWhatIsAllowed(o: Origin, k: Key, v: View, op: Op)
    requires Waiting(o, k, v) && v.queued.Some? && v.queued.value.journal.Some?
    requires Decide(k, v) == RecoverStaging(k, v, v.queued.value, v.queued.value.journal.value)
    ensures Decide(k, v) != Raise && Decide(k, v) != Finish
    ensures Does(k, v, op) <==> Allows(Recovering, k, v, op)
  {
    hide Waiting, Decide, Restage, AllowsWaiting;
    WaitingSituations(o, k, v);
    PrecedingFacts(o, k, v);
    var j := JournalIn(v);
    if Removing(o, k, v) {
      RemovingFacts(o, k, v);
      DisposingDoesWhatIsAllowed(o, k, v, op);
    } else if v.bundle.Some? {
      DisposingDoesWhatIsAllowed(o, k, v, op);
    } else {
      RestagingDoesWhatIsAllowed(o, k, v, op);
    }
  }

  lemma DisposingDoesWhatIsAllowed(o: Origin, k: Key, v: View, op: Op)
    requires Waiting(o, k, v) && (JournalIn(v).intents.stageRemovalStarted || v.bundle.Some?)
    requires Decide(k, v) == RecoverStaging(k, v, v.queued.value, v.queued.value.journal.value)
    ensures Decide(k, v) != Raise && Decide(k, v) != Finish
    ensures Does(k, v, op) <==> Allows(Recovering, k, v, op)
  {
    hide Status.Valid, Decide;
  }

  lemma RestagingDoesWhatIsAllowed(o: Origin, k: Key, v: View, op: Op)
    requires Waiting(o, k, v) && !JournalIn(v).intents.stageRemovalStarted && v.bundle.None?
    requires Decide(k, v) == RecoverStaging(k, v, v.queued.value, v.queued.value.journal.value)
    ensures Decide(k, v) != Raise && Decide(k, v) != Finish
    ensures Does(k, v, op) <==> Allows(Recovering, k, v, op)
  {
    hide Status.Valid, Decide;
  }

  lemma PromotedDoesWhatIsAllowed(o: Origin, k: Key, v: View, op: Op)
    requires Promoted(o, k, v) && v.current.Some? && v.current.value.journal.Some?
    requires !v.current.value.record.status.Success?
    requires Decide(k, v) == FinishPromoted(k, v, v.current.value, v.current.value.journal.value)
    ensures Decide(k, v) != Raise && Decide(k, v) != Finish
    ensures Does(k, v, op) <==> Allows(Recovering, k, v, op)
  {
    hide Status.Valid, Status.SameIdentity, Decide, JournalFor, Interruption, ArchiveNameFor, Names.ValidEventId;
  }

  // --------------------------------------------------------------- a good end

  /** The calculation is over: failed in its place, its tree and the trees it displaced where they are said to be. */
  predicate EndsWell(o: Origin, k: Key, v: View) {
    Recovered(o, k, v) && Honest(v)
  }

  /** Recovery comes to a good end in at most `n` steps and never raises, also when the power fails after any of them and it
      is begun again. */
  ghost predicate Mends(o: Origin, k: Key, v: View, n: nat)
    decreases n
  {
    match Decide(k, v)
    case Raise => false
    case Finish => EndsWell(o, k, v)
    case _ => n > 0 && (exists op :: Does(k, v, op)) && forall op | Does(k, v, op) :: Mends(o, k, Effect(v, op), n - 1)
  }

  ghost predicate CanMend(o: Origin, k: Key, v: View) {
    exists n: nat :: Mends(o, k, v, n)
  }

  /** Recovery raises at once, or believes it is done and it is not well. */
  lemma Hopeless(o: Origin, k: Key, v: View)
    requires Decide(k, v) == Raise || (Decide(k, v) == Finish && !EndsWell(o, k, v))
    ensures !CanMend(o, k, v)
  {
    hide Decide, EndsWell;
  }

  /** And so it is with what leads there. */
  lemma LeadsOn(o: Origin, k: Key, v: View, op: Op)
    requires Does(k, v, op) && !CanMend(o, k, Effect(v, op))
    ensures !CanMend(o, k, v)
  {
    hide Decide, EndsWell, Effect;
    forall n: nat ensures !Mends(o, k, v, n) {
      assert n > 0 ==> !Mends(o, k, Effect(v, op), n - 1);
    }
  }

  /** What recovery does in a row, begun again or not. */
  predicate Follows(k: Key, v: View, ops: seq<Op>)
    decreases |ops|
  {
    ops == [] || (Does(k, v, ops[0]) && Follows(k, Effect(v, ops[0]), ops[1..]))
  }

  function After(v: View, ops: seq<Op>): View
    decreases |ops|
  {
    if ops == [] then v else After(Effect(v, ops[0]), ops[1..])
  }

  /** Recovery goes on to raise. */
  predicate RaisesAfter(k: Key, v: View, ops: seq<Op>) {
    Follows(k, v, ops) && Decide(k, After(v, ops)) == Raise
  }

  /** Recovery goes on to believe it is done, and it is not well. */
  predicate EndsBadlyAfter(o: Origin, k: Key, v: View, ops: seq<Op>) {
    Follows(k, v, ops) && Decide(k, After(v, ops)) == Finish && !EndsWell(o, k, After(v, ops))
  }

  /** Either is beyond mending. */
  lemma {:induction false} DoomedCannotMend(o: Origin, k: Key, v: View, ops: seq<Op>)
    requires RaisesAfter(k, v, ops) || EndsBadlyAfter(o, k, v, ops)
    ensures !CanMend(o, k, v)
    decreases |ops|
  {
    hide Decide, Does, EndsWell, Effect, CanMend;
    if ops == [] {
      Hopeless(o, k, v);
    } else {
      DoomedCannotMend(o, k, Effect(v, ops[0]), ops[1..]);
      LeadsOn(o, k, v, ops[0]);
    }
  }

  // --------------------------------------------------- what the code can still mend

  /** A preceding tree is in its place or in the stage, whatever the journal says. */
  predicate Somewhere<T(==)>(original: Option<T>, place: Option<T>, held: Held<T>) {
    if original.None? then place.None? && held.Absent?
    else (place == original && held.Absent?) || (place.None? && held == Intact(original.value))
  }

  predicate TreesToDispose(o: Origin, k: Key, x: Entry, j: Journal, v: View) {
    var n := |j.completed|;
    if j.intents.stageRemovalStarted then
      k.archive.None? && v.products.None? && v.current.None? && n >= 2 && (n == 3 ==> x.stage.None?)
    else if v.bundle.Some? then
      k.archive.Some? && x.stage.None? && v.bundle.value == BundleOf(o) && v.products.None? && v.current.None? && n >= 2
    else if x.stage.None? then
      if v.products.None? && v.current.None? && k.archive.None? then n >= 2 || (o.products.None? && o.service.None?)
      else n <= 2 && v.products == o.products && v.current == o.service
    else
      && (n == 3 ==> k.archive.Some?)
      && Somewhere(o.products, v.products, x.stage.value.products)
      && Somewhere(o.service, v.current, x.stage.value.service)
  }

  predicate MendableInQueue(o: Origin, k: Key, v: View) {
    && v.queued.Some? && v.queued.value.journal.Some?
    && (v.current.Some? ==> v.current.value.journal.None?)
    && var x := v.queued.value;
       var j := x.journal.value;
       && SameCalculation(o, k, x) && JournalOf(o, k, x, j)
       && x.candidate.None? && !j.intents.candidateRemovalStarted && |j.completed| <= 3
       && TreesToDispose(o, k, x, j, v)
  }

  predicate MendableInEvents(o: Origin, k: Key, v: View) {
    && v.queued.None? && v.current.Some? && v.current.value.journal.Some?
    && var x := v.current.value;
       var j := x.journal.value;
       && SameCalculation(o, k, x) && JournalOf(o, k, x, j)
       && x.stage.None? && |j.completed| >= 3
       && (k.archive.Some? ==> v.bundle == Some(BundleOf(o)))
       && TreesAfterPromotion(o, k, x, j, v)
  }

  /** Still RUNNING, but its journal is gone, and so is everything private. */
  predicate Orphaned(o: Origin, k: Key, v: View) {
    && v.queued.None? && v.current.Some? && v.current.value.record.status.Running?
    && SameCalculation(o, k, v.current.value)
    && v.current.value.journal.None? && v.current.value.stage.None? && v.current.value.candidate.None?
    && (k.archive.Some? ==> v.bundle == Some(BundleOf(o)))
    && (v.products.Some? ==> v.products.value.maker == k.sequence)
  }

  /** The states of the protocol, those in which a checkpoint is ahead of the tree but nothing was built on it, and
      those in which a removal or the failure is ahead of the journal. */
  predicate Mendable(o: Origin, k: Key, v: View) {
    && Honest(v)
    && (MendableInQueue(o, k, v) || MendableInEvents(o, k, v) || Orphaned(o, k, v) || Recovered(o, k, v))
  }

  lemma ProtocolIsMendable(o: Origin, k: Key, v: View)
    requires Recoverable(o, k, v) && Undisputed(o) && Honest(v)
    ensures Mendable(o, k, v)
  {
    hide Loadable, Status.Valid, Honest;
  }

  lemma NotingIsMendable(o: Origin, k: Key, v: View, j: Journal, evidence: string)
    requires (v.queued.Some? || v.current.Some?) && Mendable(o, k, WithJournal(v, j))
    ensures Mendable(o, k, WithJournal(v, j.(recoveryFailure := Some(evidence))))
  {
    hide Status.Valid, Explained;
    assert InOrder(j.completed);
  }

  lemma NextIsMendable(o: Origin, k: Key, v: View, op: Op)
    requires Mendable(o, k, v) && Does(k, v, op)
    ensures Mendable(o, k, Effect(v, op)) && Remaining(Effect(v, op)) < Remaining(v)
  {
    if v.queued.Some? {
      NextInQueue(o, k, v, op);
    } else {
      NextInEvents(o, k, v, op);
    }
  }

  lemma MendableIsReconciled(o: Origin, k: Key, v: View)
    requires Mendable(o, k, v)
    ensures v.queued.Some? ==>
      && MendableInQueue(o, k, v) && Decide(k, v) == RecoverStaging(k, v, v.queued.value, v.queued.value.journal.value)
    ensures MendableInEvents(o, k, v) ==>
      Decide(k, v) == FinishPromoted(k, v, v.current.value, v.current.value.journal.value)
    ensures Orphaned(o, k, v) ==> Decide(k, v) == FailStale(InEvents(k.eventId))
    ensures Recovered(o, k, v) ==> Decide(k, v) == Finish
    ensures v.queued.None? ==> MendableInEvents(o, k, v) || Orphaned(o, k, v) || Recovered(o, k, v)
  {
    hide Loadable, Status.Valid, Honest, TreesToDispose, TreesAfterPromotion;
  }

  lemma NextInQueue(o: Origin, k: Key, v: View, op: Op)
    requires Mendable(o, k, v) && Does(k, v, op) && v.queued.Some?
    ensures Mendable(o, k, Effect(v, op)) && Remaining(Effect(v, op)) < Remaining(v)
  {
    hide Mendable, Decide, Honest, SameCalculation, JournalOf, Remaining, Effect;
    MendableIsReconciled(o, k, v);
    var x, j := v.queued.value, v.queued.value.journal.value;
    if j.intents.stageRemovalStarted || v.bundle.Some? || Decide(k, v) == AfterDisposal(k, v, j) {
      NextDisposing(o, k, v, op);
    } else {
      NextRestaging(o, k, v, op);
    }
  }

  predicate Disposing(k: Key, v: View) {
    && v.queued.Some? && v.queued.value.journal.Some?
    && (|| v.queued.value.journal.value.intents.stageRemovalStarted || v.bundle.Some?
        || Decide(k, v) == AfterDisposal(k, v, v.queued.value.journal.value))
  }

  lemma NextDisposing(o: Origin, k: Key, v: View, op: Op)
    requires Mendable(o, k, v) && Does(k, v, op) && Disposing(k, v)
    requires MendableInQueue(o, k, v) && Decide(k, v) == RecoverStaging(k, v, v.queued.value, v.queued.value.journal.value)
    ensures Mendable(o, k, Effect(v, op)) && Remaining(Effect(v, op)) < Remaining(v)
  {
    hide Mendable, MendableInQueue, Decide, Does, Remaining, RecoverStaging, Effect;
    if op.Promote? {
      NextPromoting(o, k, v, op);
    } else if op.WriteJournal? {
      NextInPlaceJournal(o, k, v, op);
    } else {
      NextInPlace(o, k, v, op);
    }
  }

  lemma NextPromoting(o: Origin, k: Key, v: View, op: Op)
    requires Mendable(o, k, v) && Does(k, v, op) && Disposing(k, v) && op.Promote?
    requires MendableInQueue(o, k, v) && Decide(k, v) == RecoverStaging(k, v, v.queued.value, v.queued.value.journal.value)
    ensures Mendable(o, k, Effect(v, op)) && Remaining(Effect(v, op)) < Remaining(v)
  {
    hide Decide, Status.Valid, Status.SameIdentity, Explained, ArchiveNameFor, Names.ValidEventId;
  }

  lemma NextInPlaceJournal(o: Origin, k: Key, v: View, op: Op)
    requires Mendable(o, k, v) && Does(k, v, op) && Disposing(k, v) && op.WriteJournal?
    requires MendableInQueue(o, k, v) && Decide(k, v) == RecoverStaging(k, v, v.queued.value, v.queued.value.journal.value)
    ensures Mendable(o, k, Effect(v, op)) && Remaining(Effect(v, op)) < Remaining(v)
  {
    hide Decide, Status.Valid, Status.SameIdentity, Explained, ArchiveNameFor, Names.ValidEventId;
  }

  lemma NextInPlace(o: Origin, k: Key, v: View, op: Op)
    requires Mendable(o, k, v) && Does(k, v, op) && Disposing(k, v) && !op.Promote? && !op.WriteJournal?
    requires MendableInQueue(o, k, v) && Decide(k, v) == RecoverStaging(k, v, v.queued.value, v.queued.value.journal.value)
    ensures Mendable(o, k, Effect(v, op)) && Remaining(Effect(v, op)) < Remaining(v)
  {
    hide Decide, Status.Valid, Status.SameIdentity, Explained, ArchiveNameFor, Names.ValidEventId;
  }

  lemma NextRestaging(o: Origin, k: Key, v: View, op: Op)
    requires Mendable(o, k, v) && Does(k, v, op) && !Disposing(k, v)
    requires MendableInQueue(o, k, v) && Decide(k, v) == RecoverStaging(k, v, v.queued.value, v.queued.value.journal.value)
    ensures Mendable(o, k, Effect(v, op)) && Remaining(Effect(v, op)) < Remaining(v)
  {
    hide Mendable, MendableInQueue, Decide, Remaining, Restage;
    if op.WriteJournal? {
      NextRestagingJournal(o, k, v, op);
    } else {
      NextRestagingTree(o, k, v, op);
    }
  }

  lemma NextRestagingJournal(o: Origin, k: Key, v: View, op: Op)
    requires Mendable(o, k, v) && Does(k, v, op) && !Disposing(k, v) && op.WriteJournal?
    requires MendableInQueue(o, k, v) && Decide(k, v) == RecoverStaging(k, v, v.queued.value, v.queued.value.journal.value)
    ensures Mendable(o, k, Effect(v, op)) && Remaining(Effect(v, op)) < Remaining(v)
  {
    hide Decide, Status.Valid, Status.SameIdentity, Explained, ArchiveNameFor, Names.ValidEventId;
  }

  lemma NextRestagingTree(o: Origin, k: Key, v: View, op: Op)
    requires Mendable(o, k, v) && Does(k, v, op) && !Disposing(k, v) && !op.WriteJournal?
    requires MendableInQueue(o, k, v) && Decide(k, v) == RecoverStaging(k, v, v.queued.value, v.queued.value.journal.value)
    ensures Mendable(o, k, Effect(v, op)) && Remaining(Effect(v, op)) < Remaining(v)
  {
    hide Decide, Status.Valid, Status.SameIdentity, Explained, ArchiveNameFor, Names.ValidEventId;
  }

  lemma NextInEvents(o: Origin, k: Key, v: View, op: Op)
    requires Mendable(o, k, v) && Does(k, v, op) && v.queued.None?
    ensures Mendable(o, k, Effect(v, op)) && Remaining(Effect(v, op)) < Remaining(v)
  {
    hide Mendable, Decide, Does, Remaining, Effect, MendableInEvents, Orphaned;
    MendableIsReconciled(o, k, v);
    if MendableInEvents(o, k, v) {
      NextPromoted(o, k, v, op);
    } else {
      NextOrphaned(o, k, v, op);
    }
  }

  lemma NextPromoted(o: Origin, k: Key, v: View, op: Op)
    requires Mendable(o, k, v) && Does(k, v, op) && MendableInEvents(o, k, v)
    requires Decide(k, v) == FinishPromoted(k, v, v.current.value, v.current.value.journal.value)
    ensures Mendable(o, k, Effect(v, op)) && Remaining(Effect(v, op)) < Remaining(v)
  {
    hide Mendable, MendableInEvents, Decide, Does, Remaining, Effect, FinishPromoted;
    if op.WriteJournal? {
      NextPromotedJournal(o, k, v, op);
    } else {
      NextPromotedOtherwise(o, k, v, op);
    }
  }

  lemma NextPromotedJournal(o: Origin, k: Key, v: View, op: Op)
    requires Mendable(o, k, v) && Does(k, v, op) && MendableInEvents(o, k, v) && op.WriteJournal?
    requires Decide(k, v) == FinishPromoted(k, v, v.current.value, v.current.value.journal.value)
    ensures Mendable(o, k, Effect(v, op)) && Remaining(Effect(v, op)) < Remaining(v)
  {
    hide Decide, Status.Valid, ArchiveNameFor, Names.ValidEventId;
  }

  lemma NextPromotedOtherwise(o: Origin, k: Key, v: View, op: Op)
    requires Mendable(o, k, v) && Does(k, v, op) && MendableInEvents(o, k, v) && !op.WriteJournal?
    requires Decide(k, v) == FinishPromoted(k, v, v.current.value, v.current.value.journal.value)
    ensures Mendable(o, k, Effect(v, op)) && Remaining(Effect(v, op)) < Remaining(v)
  {
    hide Decide, Status.Valid, ArchiveNameFor, Names.ValidEventId;
  }

  lemma NextOrphaned(o: Origin, k: Key, v: View, op: Op)
    requires Mendable(o, k, v) && Does(k, v, op) && !MendableInEvents(o, k, v) && v.queued.None?
    requires Orphaned(o, k, v) ==> Decide(k, v) == FailStale(InEvents(k.eventId))
    requires Recovered(o, k, v) ==> Decide(k, v) == Finish
    ensures Mendable(o, k, Effect(v, op)) && Remaining(Effect(v, op)) < Remaining(v)
  {
    hide Decide, MendableInEvents, Status.Valid;
  }

  lemma MendableDecides(o: Origin, k: Key, v: View)
    requires Mendable(o, k, v)
    ensures Decide(k, v) != Raise && (Decide(k, v) == Finish ==> EndsWell(o, k, v))
  {
    hide Decide, Mendable, MendableInQueue, MendableInEvents, RecoverStaging, FinishPromoted;
    MendableIsReconciled(o, k, v);
    if v.queued.Some? {
      DisposalDecides(o, k, v);
    } else if MendableInEvents(o, k, v) {
      PromotionDecides(o, k, v);
    } else {
      MendableIsHonest(o, k, v);
    }
  }

  lemma MendableIsHonest(o: Origin, k: Key, v: View)
    requires Mendable(o, k, v)
    ensures Honest(v)
  {
  }

  lemma DisposalDecides(o: Origin, k: Key, v: View)
    requires MendableInQueue(o, k, v)
    ensures RecoverStaging(k, v, v.queued.value, v.queued.value.journal.value) !in {Raise, Finish}
  {
    hide Status.Valid, ArchiveNameFor, Names.ValidEventId;
  }

  lemma PromotionDecides(o: Origin, k: Key, v: View)
    requires Mendable(o, k, v) && MendableInEvents(o, k, v)
    ensures FinishPromoted(k, v, v.current.value, v.current.value.journal.value) !in {Raise, Finish}
  {
    hide Status.Valid, ArchiveNameFor, Names.ValidEventId;
  }

  lemma StagingDecisions(k: Key, v: View, x: Entry, j: Journal)
    ensures var d := RecoverStaging(k, v, x, j); d.Raise? || d.Do? || (d.RemoveStage? && x.stage.Some?)
  {
  }

  lemma PromotedDecisions(k: Key, v: View, x: Entry, j: Journal)
    ensures var d := FinishPromoted(k, v, x, j);
      d.Raise? || d.Do? || (d.RemoveCandidate? && x.candidate.Some?) || (d.FailRecord? && x.record.status.Running?)
  {
  }

  lemma MendableIsValid(o: Origin, k: Key, v: View)
    requires Mendable(o, k, v)
    ensures (v.queued.Some? || v.current.Some?) && Status.Valid(Holder(v).record)
    ensures Orphaned(o, k, v) ==> v.queued.None? && Holder(v).record.status.Running?
    ensures v.queued.Some? || MendableInEvents(o, k, v) ==> Holder(v).journal.Some?
  {
    hide Status.Valid, Honest;
  }

  /** There is always something recovery can do. */
  lemma SomethingIsDone(o: Origin, k: Key, v: View) returns (op: Op)
    requires Mendable(o, k, v) && Decide(k, v) != Finish
    ensures Does(k, v, op)
  {
    hide Mendable, MendableInQueue, MendableInEvents, Orphaned, Recovered, Decide, RecoverStaging, FinishPromoted, Status.Valid;
    hide Interruption, StaleFailure;
    MendableDecides(o, k, v);
    MendableIsReconciled(o, k, v);
    MendableIsValid(o, k, v);
    var x := Holder(v);
    if v.queued.Some? {
      StagingDecisions(k, v, x, x.journal.value);
    } else if MendableInEvents(o, k, v) {
      PromotedDecisions(k, v, x, x.journal.value);
    }
    match Decide(k, v)
    case Do(next) => op := next;
    case RemoveStage => op := SetStage(InQueue(k.sequence), None);
    case RemoveCandidate => op := SetCandidate(InEvents(k.eventId), None);
    case FailRecord(published) =>
      var failed := Interrupting(x.record, published);
      op := WriteRecord(InEvents(k.eventId), failed);
    case FailStale(at) =>
      var failed := Staling(x.record);
      op := WriteRecord(at, failed);
  }

  lemma Interrupting(r: Status.Record, published: bool) returns (failed: Status.Record)
    requires Status.Valid(r) && r.status.Running?
    ensures Interruption(r, failed, published)
  {
    var failure := Status.Failure(None, INTERRUPTED_CODE, InterruptedMessage(published));
    Status.StaleAlwaysFails(r, failure, Status.Utc(0));
    failed := Status.FailStale(r, failure, Status.Utc(0)).value;
  }

  lemma Staling(r: Status.Record) returns (failed: Status.Record)
    requires Status.Valid(r) && r.status.Running?
    ensures StaleFailure(r, failed)
  {
    Status.StaleAlwaysFails(r, STALE_FAILURE, Status.Utc(0));
    failed := Status.FailStale(r, STALE_FAILURE, Status.Utc(0)).value;
  }

  /** Each of them comes to a good end. */
  lemma {:induction false} MendableMends(o: Origin, k: Key, v: View, n: nat)
    requires Mendable(o, k, v) && Remaining(v) <= n
    ensures Mends(o, k, v, n)
    decreases n
  {
    hide Mendable, Decide, Does, EndsWell, Effect, Remaining;
    MendableDecides(o, k, v);
    if Decide(k, v) != Finish {
      var something := SomethingIsDone(o, k, v);
      NextIsMendable(o, k, v, something);
      forall op | Does(k, v, op) ensures Mends(o, k, Effect(v, op), n - 1) {
        NextIsMendable(o, k, v, op);
        MendableMends(o, k, Effect(v, op), n - 1);
      }
    }
  }
}
