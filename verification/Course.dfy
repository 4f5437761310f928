/**
 One process at work on a transaction, step by step, on a medium that may lose
 what was not synced: it may raise or be killed between any two steps, and the
 power may fail at any moment, then or later.
 */
module Course {
  import opened Common
  import opened Disk
  import opened Volumes
  import opened Protocol
  import Status

  const CANDIDATE_DIRECTORIES := {RecordDirectory, CandidateDirectory, CandidateCurrent}

  /** `due`: the directories this process has still to sync before it issues anything else; `private`: all it has
      issued since belongs to one private tree; `journal`: the journal in memory; `noted`: it is giving up. */
  datatype State = State(now: Moment, due: set<Directory>, private: bool, journal: Journal, noted: bool)

  /** A process that has just opened its transaction. It knows nothing of what an earlier one left unsynced. */
  function Starting(now: Moment, journal: Journal): State {
    State(now, {}, false, journal, false)
  }

  function ViewOf(s: State, k: Key): View {
    Look(s.now.Disk(), k)
  }

  predicate RemovalStarted(v: View) {
    if v.queued.Some? then v.queued.value.journal.Some? && v.queued.value.journal.value.intents.stageRemovalStarted
    else v.current.Some? && v.current.value.journal.Some? && v.current.value.journal.value.intents.candidateRemovalStarted
  }

  /** The operation changes the content of a private tree and is not synced on its own. */
  predicate PrivateOp(v: View, op: Op) {
    op.SetCandidate? || (op.SetStage? && v.queued.Some? && RemovalStarted(v))
  }

  /** After a removal the record directory is synced before anything else is done. */
  predicate Cleared(v: View, now: Moment, op: Op) {
    RemovalStarted(v) && !PrivateOp(v, op) ==> now.Clean(RecordDirectory)
  }

  function JournalSeen(v: View, otherwise: Journal): Journal {
    if (v.queued.Some? || v.current.Some?) && Holder(v).journal.Some? then Holder(v).journal.value else otherwise
  }

  function HolderIn(v: View, k: Key): Place {
    if v.queued.Some? then InQueue(k.sequence) else InEvents(k.eventId)
  }

  function Issuing(k: Key, a: State, op: Op): State {
    State(a.now.Issue(op), a.due + Touches(op) - Retires(op), PrivateOp(ViewOf(a, k), op), a.journal, false)
  }

  function Syncing(k: Key, a: State, directory: Directory): State {
    var now, due := a.now.Sync(directory), a.due - {directory};
    State(now, due, a.private && due != {},
          if due == {} && !a.noted then JournalSeen(Look(now.Disk(), k), a.journal) else a.journal, a.noted)
  }

  /** The evidence of a failed recovery goes into the journal in memory, which is written back. */
  function Noting(k: Key, a: State, evidence: string): State {
    var note := WriteJournal(HolderIn(ViewOf(a, k), k), a.journal.(recoveryFailure := Some(evidence)));
    State(a.now.Issue(note), a.due + {RecordDirectory}, false, a.journal, true)
  }

  /** The next operation: one the code allows, and only once everything this process issued before is synced. */
  predicate MayIssue(mode: Mode, k: Key, a: State, op: Op) {
    var v := ViewOf(a, k);
    && !a.noted && (a.due == {} || (a.private && PrivateOp(v, op)))
    && Allows(mode, k, v, op) && Cleared(v, a.now, op)
  }

  predicate Issues(mode: Mode, k: Key, a: State, b: State, op: Op) {
    MayIssue(mode, k, a, op) && b == Issuing(k, a, op)
  }

  /** A process syncs what it owes; owing nothing, it may still sync a directory. */
  predicate Syncs(k: Key, a: State, b: State, directory: Directory) {
    (a.due == {} || directory in a.due) && b == Syncing(k, a, directory)
  }

  predicate Notes(mode: Mode, k: Key, a: State, b: State, evidence: string) {
    && !a.noted && mode.Recovering? && (ViewOf(a, k).queued.Some? || ViewOf(a, k).current.Some?)
    && b == Noting(k, a, evidence)
  }

  ghost predicate Advances(mode: Mode, k: Key, a: State, b: State) {
    || (exists op :: Issues(mode, k, a, b, op))
    || (exists directory :: Syncs(k, a, b, directory))
    || (exists evidence :: Notes(mode, k, a, b, evidence))
  }

  ghost predicate Run(mode: Mode, k: Key, run: seq<State>) {
    run != [] && forall i | 0 <= i < |run| - 1 :: Advances(mode, k, run[i], run[i + 1])
  }

  /** `b` is a state the process may come to from `a`; it may be stopped there as anywhere. */
  ghost predicate Reaches(mode: Mode, k: Key, a: State, b: State) {
    exists run: seq<State> :: Run(mode, k, run) && run[0] == a && run[|run| - 1] == b
  }

  lemma ReachesItself(mode: Mode, k: Key, a: State)
    ensures Reaches(mode, k, a, a)
  {
    assert Run(mode, k, [a]);
  }

  lemma ReachesFurther(mode: Mode, k: Key, a: State, b: State, c: State)
    requires Reaches(mode, k, a, b) && Advances(mode, k, b, c)
    ensures Reaches(mode, k, a, c)
  {
    hide Advances;
    var run: seq<State> :| Run(mode, k, run) && run[0] == a && run[|run| - 1] == b;
    assert Run(mode, k, run + [c]);
  }

  lemma IssuingReaches(mode: Mode, k: Key, a: State, b: State, c: State, op: Op)
    requires Reaches(mode, k, a, b) && Issues(mode, k, b, c, op)
    ensures Reaches(mode, k, a, c)
  {
    hide Reaches, Issues;
    ReachesFurther(mode, k, a, b, c);
  }

  lemma SyncingReaches(mode: Mode, k: Key, a: State, b: State, c: State, directory: Directory)
    requires Reaches(mode, k, a, b) && Syncs(k, b, c, directory)
    ensures Reaches(mode, k, a, c)
  {
    hide Reaches, Syncs;
    ReachesFurther(mode, k, a, b, c);
  }

  lemma NotingReaches(mode: Mode, k: Key, a: State, b: State, c: State, evidence: string)
    requires Reaches(mode, k, a, b) && Notes(mode, k, b, c, evidence)
    ensures Reaches(mode, k, a, c)
  {
    hide Reaches, Notes;
    ReachesFurther(mode, k, a, b, c);
  }

  /** A rename and its two syncs, each a step of the course. */
  lemma RenamingReaches(mode: Mode, k: Key, start: State, a: State, op: Op, source: Directory, destination: Directory)
    requires Reaches(mode, k, start, a) && a == Starting(a.now, a.journal)
    requires MayIssue(mode, k, a, op) && !PrivateOp(ViewOf(a, k), op)
    requires Touches(op) == {source, destination} && source != destination && Retires(op) == {}
    ensures var b := Issuing(k, a, op);
      var c := Syncing(k, b, source);
      var d := Syncing(k, c, destination);
      && Reaches(mode, k, start, b) && Reaches(mode, k, start, c) && Reaches(mode, k, start, d)
      && b.now == a.now.Issue(op) && c.now == b.now.Sync(source) && d.now == c.now.Sync(destination)
      && b.journal == c.journal == a.journal && !b.noted && !c.noted
      && d == Starting(d.now, d.journal) && d.journal == JournalSeen(ViewOf(d, k), a.journal) && !d.noted
  {
    hide Reaches, MayIssue, Starting, ViewOf, PrivateOp, JournalSeen;
    var b := Issuing(k, a, op);
    var c := Syncing(k, b, source);
    StartingFacts(a.now, a.journal);
    assert b.due == {source, destination} && c.due == {destination};
    IssuingReaches(mode, k, start, a, b, op);
    SyncingReaches(mode, k, start, b, c, source);
    SyncingReaches(mode, k, start, c, Syncing(k, c, destination), destination);
    StartingIs(Syncing(k, c, destination));
    SeenIs(Syncing(k, c, destination), k);
  }

  /** A change inside one directory and its sync. */
  lemma RewritingReaches(mode: Mode, k: Key, start: State, a: State, op: Op, directory: Directory)
    requires Reaches(mode, k, start, a) && a == Starting(a.now, a.journal)
    requires MayIssue(mode, k, a, op) && !PrivateOp(ViewOf(a, k), op)
    requires Touches(op) == {directory} && Retires(op) == {}
    ensures var b := Issuing(k, a, op);
      var c := Syncing(k, b, directory);
      && Reaches(mode, k, start, b) && Reaches(mode, k, start, c)
      && b.now == a.now.Issue(op) && c.now == b.now.Sync(directory) && b.journal == a.journal && !b.noted
      && c == Starting(c.now, c.journal) && c.journal == JournalSeen(ViewOf(c, k), a.journal) && !c.noted
  {
    hide Reaches, MayIssue, Starting, ViewOf, PrivateOp, JournalSeen;
    var b := Issuing(k, a, op);
    StartingFacts(a.now, a.journal);
    assert b.due == {directory};
    IssuingReaches(mode, k, start, a, b, op);
    SyncingReaches(mode, k, start, b, Syncing(k, b, directory), directory);
    StartingIs(Syncing(k, b, directory));
    SeenIs(Syncing(k, b, directory), k);
  }

  lemma SyncingFacts(k: Key, a: State, directory: Directory)
    ensures var b := Syncing(k, a, directory);
      && b.now == a.now.Sync(directory) && b.due == a.due - {directory} && b.noted == a.noted
      && (b.private <==> a.private && b.due != {})
      && (b.journal == a.journal || b.journal == JournalSeen(Look(a.now.Disk(), k), a.journal))
  {
    SyncingIsInvisible(a.now, directory);
  }

  lemma PrivateFacts(k: Key, a: State, op: Op)
    requires PrivateOp(ViewOf(a, k), op)
    ensures var b := Issuing(k, a, op);
      && b.private && !b.noted && b.journal == a.journal && b.now == a.now.Issue(op) && b.due != {}
      && (a.due <= CANDIDATE_DIRECTORIES ==> b.due <= CANDIDATE_DIRECTORIES)
  {
    assert RecordDirectory in Issuing(k, a, op).due;
  }

  lemma StartingFacts(now: Moment, journal: Journal)
    ensures var s := Starting(now, journal);
      s.now == now && s.due == {} && !s.private && s.journal == journal && !s.noted
  {
  }

  lemma StartingIs(s: State)
    requires s.due == {} && !s.private && !s.noted
    ensures s == Starting(s.now, s.journal)
  {
  }

  lemma SeenIs(s: State, k: Key)
    ensures ViewOf(s, k) == Look(s.now.Disk(), k)
  {
  }

  // --------------------------------------------------- one operation at a time

  predicate Recoverable(o: Origin, k: Key, v: View) {
    InTransaction(o, k, v) || Recovered(o, k, v)
  }

  /** Whatever may be issued next leaves a state the transaction may be found in, with the journal on disk or with
      the one in memory. */
  lemma AllowedKeeps(mode: Mode, o: Origin, k: Key, v: View, op: Op)
    requires InTransaction(o, k, v) && Allows(mode, k, v, op)
    ensures Mine(op, k) && Recoverable(o, k, Effect(v, op)) && (op.WriteRecord? ==> op.at.InEvents?)
    ensures InTransaction(o, k, WithJournal(Effect(v, op), JournalIn(v)))
  {
    hide Waiting, Promoted, Recovered;
    WhereItIs(o, k, v);
    if v.queued.Some? {
      AllowedWaitingKeeps(mode, o, k, v, op);
    } else {
      AllowedPromotedKeeps(mode, o, k, v, op);
    }
  }

  lemma AllowedWaitingKeeps(mode: Mode, o: Origin, k: Key, v: View, op: Op)
    requires Waiting(o, k, v) && Allows(mode, k, v, op)
    ensures Mine(op, k) && InTransaction(o, k, Effect(v, op))
    ensures InTransaction(o, k, WithJournal(Effect(v, op), JournalIn(v)))
  {
    hide Waiting, Promoted;
    WaitingSituations(o, k, v);
    WhereItIs(o, k, v);
    var n := |JournalIn(v).completed|;
    match op
    case SetStage(_, stage) =>
      if Removing(o, k, v) {
        StageMayVary(o, k, v, stage);
      } else {
        MakingStage(o, k, v);
      }
    case StageProducts(_, _) => StagingProducts(o, k, v, n);
    case StageService(_, _) => StagingService(o, k, v, n);
    case PublishArchive(_, _) => Archiving(o, k, v);
    case Promote(_, _) => Promoting(o, k, v);
    case WriteJournal(_, next) => AllowedJournalKeeps(mode, o, k, v, next);
  }

  lemma AllowedJournalKeeps(mode: Mode, o: Origin, k: Key, v: View, next: Journal)
    requires Waiting(o, k, v) && Allows(mode, k, v, WriteJournal(InQueue(k.sequence), next))
    ensures InTransaction(o, k, WithJournal(v, next)) && WithJournal(v, next) == Effect(v, WriteJournal(InQueue(k.sequence), next))
    ensures WithJournal(WithJournal(v, next), JournalIn(v)) == v
  {
    hide Waiting, Promoted;
    WaitingSituations(o, k, v);
    WhereItIs(o, k, v);
    var j, n := JournalIn(v), |JournalIn(v).completed|;
    if n == 0 {
      CheckpointingStaged(o, k, v, true, n);
    } else if n == 1 {
      CheckpointingStaged(o, k, v, false, n);
    } else if next == j.(intents := j.intents.(stageRemovalStarted := true)) && !Removing(o, k, v) {
      StartingRemoval(o, k, v);
    } else {
      CheckpointingDisposed(o, k, v);
    }
  }

  lemma AllowedPromotedKeeps(mode: Mode, o: Origin, k: Key, v: View, op: Op)
    requires Promoted(o, k, v) && Allows(mode, k, v, op)
    ensures Mine(op, k) && Recoverable(o, k, Effect(v, op))
    ensures InTransaction(o, k, WithJournal(Effect(v, op), JournalIn(v)))
  {
    hide Waiting, Promoted, Recovered;
    WhereItIs(o, k, v);
    var j, n := JournalIn(v), |JournalIn(v).completed|;
    match op
    case WriteJournal(_, next) =>
      if n == 3 {
        CheckpointingPromoted(o, k, v);
      } else if mode.Recovering? {
        StartingCandidateRemoval(o, k, v);
      } else if n == 4 {
        CheckpointingReady(o, k, v);
      } else {
        CheckpointingPublished(o, k, v);
      }
    case SetCandidate(_, candidate) => CandidateMayVary(o, k, v, candidate);
    case PublishNative(_, _) => Publishing(o, k, v);
    case WriteRecord(_, r) => Failing(o, k, v, r);
    case RemoveJournal(_) => Closing(o, k, v);
  }

  /** Whatever may be issued next, the record stays honest. */
  lemma AllowedStaysHonest(mode: Mode, o: Origin, k: Key, v: View, op: Op)
    requires InTransaction(o, k, v) && Allows(mode, k, v, op) && Honest(v)
    ensures Honest(Effect(v, op))
  {
    hide Recovered, JournalOf, SameCalculation, Interruption, Explained;
    WhereItIs(o, k, v);
    if op.WriteRecord? {
      InterruptionIsHonest(v, op.record);
    } else if op.Promote? {
      Promoting(o, k, v);
    }
  }

  lemma InterruptionIsHonest(v: View, r: Status.Record)
    requires v.queued.None? && v.current.Some? && Interruption(v.current.value.record, r, v.products.Some?)
    ensures Honest(v.(current := Some(v.current.value.(record := r))))
  {
  }

  // -------------------------------------------------- what comes next, and when

  lemma NextMakesStage(mode: Mode, o: Origin, k: Key, v: View)
    requires Fresh(o, k, v)
    ensures !RemovalStarted(v) && v.queued.Some?
    ensures Allows(mode, k, v, SetStage(InQueue(k.sequence), Some(Stage(Absent, Absent))))
  {
  }

  lemma NextStages(mode: Mode, o: Origin, k: Key, v: View, products: bool, n: nat)
    requires Staging(o, k, v, n) && (products || n >= 1)
    ensures !RemovalStarted(v) && v.queued.Some?
    ensures products && v.products.Some? ==> Allows(mode, k, v, StageProducts(InQueue(k.sequence), k.eventId))
    ensures !products && v.current.Some? ==> Allows(mode, k, v, StageService(InQueue(k.sequence), k.eventId))
    ensures products && v.products.None? && !Completed(JournalIn(v), ProductsStaged) ==>
      Allows(mode, k, v, WriteJournal(InQueue(k.sequence), Marked(JournalIn(v), ProductsStaged)))
    ensures !products && v.current.None? && !Completed(JournalIn(v), ServiceStaged) ==>
      Allows(mode, k, v, WriteJournal(InQueue(k.sequence), Marked(JournalIn(v), ServiceStaged)))
  {
    StagingFacts(o, k, v, n);
  }

  lemma NextDisposes(mode: Mode, o: Origin, k: Key, v: View)
    requires Staging(o, k, v, 2)
    ensures !RemovalStarted(v) && v.queued.Some? && !JournalIn(v).intents.stageRemovalStarted
    ensures k.archive.Some? ==> Allows(mode, k, v, PublishArchive(InQueue(k.sequence), k.archive.value))
    ensures k.archive.None? ==>
      Allows(mode, k, v, WriteJournal(InQueue(k.sequence),
        JournalIn(v).(intents := JournalIn(v).intents.(stageRemovalStarted := true))))
  {
  }

  lemma NextCheckpointsDisposal(mode: Mode, o: Origin, k: Key, v: View)
    requires Swept(o, k, v)
    ensures Completed(JournalIn(v), PrecedingDisposed)
      || Allows(mode, k, v, WriteJournal(InQueue(k.sequence), Marked(JournalIn(v), PrecedingDisposed)))
  {
  }

  lemma NextPromotes(mode: Mode, o: Origin, k: Key, v: View)
    requires WaitingAt(o, k, v, 3)
    ensures Allows(mode, k, v, Promote(k.sequence, k.eventId))
  {
  }

  lemma NextCheckpointsPromotion(mode: Mode, o: Origin, k: Key, v: View)
    requires Promoted(o, k, v)
    ensures Completed(JournalIn(v), RecordPromoted)
      || (!RemovalStarted(v) && Allows(mode, k, v, WriteJournal(InEvents(k.eventId), Marked(JournalIn(v), RecordPromoted))))
  {
  }

  lemma NextCheckpointsCandidate(o: Origin, k: Key, v: View)
    requires PromotedAt(o, k, v, 4) && !JournalIn(v).intents.candidateRemovalStarted
    requires v.current.value.candidate == Some(v.current.value.request)
    ensures !RemovalStarted(v) && v.queued.None?
    ensures Allows(Preparing, k, v, WriteJournal(InEvents(k.eventId), Marked(JournalIn(v), CandidateReady)))
  {
  }

  lemma NextPublishes(o: Origin, k: Key, v: View)
    requires PromotedAt(o, k, v, 5) && !JournalIn(v).intents.candidateRemovalStarted
    requires v.products.None? && v.current.value.candidate.Some? && v.current.value.record.status.Running?
    ensures !RemovalStarted(v) && v.queued.None? && Allows(Preparing, k, v, PublishNative(InEvents(k.eventId), k.eventId))
  {
  }

  lemma NextCheckpointsPublication(o: Origin, k: Key, v: View)
    requires PromotedAt(o, k, v, 5) && v.products.Some?
    ensures !RemovalStarted(v) && v.queued.None?
    ensures Allows(Preparing, k, v, WriteJournal(InEvents(k.eventId), Marked(JournalIn(v), NativeTreePublished)))
  {
  }

  lemma NextStartsRemoval(o: Origin, k: Key, v: View)
    requires Promoted(o, k, v) && |JournalIn(v).completed| >= 4 && !JournalIn(v).intents.candidateRemovalStarted
    requires v.current.value.candidate.Some?
    ensures !RemovalStarted(v) && v.queued.None?
    ensures Allows(Recovering, k, v, WriteJournal(InEvents(k.eventId),
      JournalIn(v).(intents := JournalIn(v).intents.(candidateRemovalStarted := true))))
  {
  }

  lemma NextConcludes(o: Origin, k: Key, v: View)
    requires Promoted(o, k, v) && |JournalIn(v).completed| >= 4 && v.current.value.candidate.None?
    ensures v.queued.None?
    ensures forall r :: v.current.value.record.status.Running? && Interruption(v.current.value.record, r, v.products.Some?) ==>
      Allows(Recovering, k, v, WriteRecord(InEvents(k.eventId), r))
    ensures v.current.value.record.status.Failed? ==> Allows(Recovering, k, v, RemoveJournal(InEvents(k.eventId)))
  {
  }

  // ------------------------------------------ runs that begin with nothing unsynced

  /** Nothing but the transaction has changed, and its record not while it is in the queue. */
  predicate KeptInQueue(base: Disk, d: Disk, k: Key) {
    && Kept(base, d, k)
    && (k.sequence in d.queue ==> k.sequence in base.queue && d.queue[k.sequence].record == base.queue[k.sequence].record)
  }

  predicate StaysHonest(base: Disk, d: Disk, k: Key) {
    Honest(Look(base, k)) ==> Honest(Look(d, k))
  }

  /** A power failure could leave `d`: the transaction can be recovered from there, also once the journal in memory
      has been written back, and its record is as honest as it was. */
  predicate Fine(o: Origin, k: Key, base: Disk, d: Disk, journal: Journal) {
    && KeptInQueue(base, d, k) && Recoverable(o, k, Look(d, k))
    && (Look(d, k).queued.Some? || Look(d, k).current.Some?) && InTransaction(o, k, WithJournal(Look(d, k), journal))
    && StaysHonest(base, d, k)
  }

  /** The content of this private tree is not evidence for anything. */
  predicate MayVary(o: Origin, k: Key, v: View, like: Op) {
    if like.SetStage? then like.at == InQueue(k.sequence) && Removing(o, k, v) && WaitingAt(o, k, v, 2)
    else
      && like.SetCandidate? && like.at == InEvents(k.eventId) && Promoted(o, k, v) && v.products.None?
      && (|JournalIn(v).completed| == 4 || JournalIn(v).intents.candidateRemovalStarted)
  }

  predicate Varying(o: Origin, k: Key, base: Disk, s: State, like: Op) {
    && KeptInQueue(base, s.now.durable, k) && StaysHonest(base, s.now.durable, k) && MayVary(o, k, Look(s.now.durable, k), like)
    && (forall p | p in s.now.pending :: Alike(p.op, like))
    && JournalSeen(Look(s.now.durable, k), s.journal) == s.journal
    && (s.now.pending != [] && like.SetCandidate? ==> Underdone(ViewOf(s, k), s.now))
  }

  /** A candidate is only gone once its removal was recorded, and then only its parent is left to sync. */
  predicate Underdone(v: View, now: Moment) {
    && v.current.Some?
    && (v.current.value.candidate.None? ==> RemovalStarted(v) && forall p | p in now.pending :: p.dirty <= {RecordDirectory})
  }

  /** The operation is this transaction's, and promotes only what it can. */
  predicate Sensible(k: Key, v: View, op: Op) {
    Mine(op, k) && (op.Promote? ==> v.queued.Some? && v.current.None?)
  }

  /** The one operation this process issued and has not synced. */
  predicate Latest(mode: Mode, o: Origin, k: Key, v: View, p: Issued) {
    InTransaction(o, k, v) && Allows(mode, k, v, p.op) && !PrivateOp(v, p.op)
  }

  ghost predicate Shaped(mode: Mode, o: Origin, k: Key, base: Disk, s: State) {
    if s.private then exists like :: Varying(o, k, base, s, like)
    else
      && |s.now.pending| <= 1 && (forall p | p in s.now.pending :: Latest(mode, o, k, Look(s.now.durable, k), p))
      && (s.due == {} ==> JournalSeen(ViewOf(s, k), s.journal) == s.journal)
  }

  ghost predicate Sound(mode: Mode, o: Origin, k: Key, base: Disk, s: State) {
    && (forall d | d in s.now.Left() :: Fine(o, k, base, d, s.journal))
    && (forall p | p in s.now.pending :: p.dirty <= s.due && p.dirty <= Touches(p.op))
    && (AllClean(s.now.pending) ==> s.now.pending == [])
    && (!s.noted ==> Shaped(mode, o, k, base, s))
  }

  lemma StartIsSound(mode: Mode, o: Origin, k: Key, d: Disk, journal: Journal)
    requires InTransaction(o, k, Look(d, k)) && JournalIn(Look(d, k)) == journal
    ensures Sound(mode, o, k, d, Starting(Moment(d, []), journal))
  {
    WhereItIs(o, k, Look(d, k));
    WritingBack(Look(d, k), journal);
  }

  lemma AdvanceIsSound(mode: Mode, o: Origin, k: Key, base: Disk, a: State, b: State)
    requires Sound(mode, o, k, base, a) && Advances(mode, k, a, b)
    ensures Sound(mode, o, k, base, b)
  {
    hide Sound, Issues, Syncs, Notes;
    if op :| Issues(mode, k, a, b, op) {
      if PrivateOp(ViewOf(a, k), op) {
        PrivateIsSound(mode, o, k, base, a, b, op);
      } else {
        IssueIsSound(mode, o, k, base, a, b, op);
      }
    } else if directory :| Syncs(k, a, b, directory) {
      SyncIsSound(mode, o, k, base, a, b, directory);
    } else {
      var evidence :| Notes(mode, k, a, b, evidence);
      NoteIsSound(mode, o, k, base, a, b, evidence);
    }
  }

  /** A process that owes no sync has nothing unsynced, if it began so. */
  lemma NothingOwed(mode: Mode, o: Origin, k: Key, base: Disk, s: State)
    requires Sound(mode, o, k, base, s) && s.due == {} && !s.noted
    ensures s.now.pending == [] && Fine(o, k, base, s.now.durable, s.journal)
    ensures s.now.Disk() == s.now.durable && JournalSeen(ViewOf(s, k), s.journal) == s.journal
  {
    assert AllClean(s.now.pending);
  }

  lemma IssueIsSound(mode: Mode, o: Origin, k: Key, base: Disk, a: State, b: State, op: Op)
    requires Sound(mode, o, k, base, a) && Issues(mode, k, a, b, op) && !PrivateOp(ViewOf(a, k), op)
    ensures Sound(mode, o, k, base, b)
  {
    hide Waiting, Promoted, Recovered, Allows, Apply, Effect, Kept;
    NothingOwed(mode, o, k, base, a);
    var d, v := a.now.durable, ViewOf(a, k);
    AllowedSees(mode, o, k, v, op);
    AllowedKeeps(mode, o, k, v, op);
    OperationsAreLocal(d, op, k);
    IssuingKeepsQueued(mode, k, base, d, op);
    AllowedTouches(mode, k, v, op);
    AllowedIsSensible(mode, o, k, v, op);
    if Honest(v) {
      AllowedStaysHonest(mode, o, k, v, op);
    }
    IssuedOnSettled(d, op);
    assert b.now.pending[0] in b.now.pending;
    StillThere(o, k, Effect(v, op));
  }

  /** No operation of a transaction writes the record of a queue entry. */
  lemma IssuingKeepsQueued(mode: Mode, k: Key, base: Disk, d: Disk, op: Op)
    requires KeptInQueue(base, d, k) && Allows(mode, k, Look(d, k), op) && Mine(op, k)
    ensures KeptInQueue(base, Apply(d, op), k)
  {
    hide Kept, Apply, Effect;
    OperationKeepsQueued(k, base, d, op);
  }

  lemma OperationKeepsQueued(k: Key, base: Disk, d: Disk, op: Op)
    requires KeptInQueue(base, d, k) && Mine(op, k) && (op.WriteRecord? ==> op.at.InEvents?)
    ensures KeptInQueue(base, Apply(d, op), k)
  {
    hide Kept, Apply;
    OperationsAreLocal(d, op, k);
    KeptTwice(base, d, Apply(d, op), k);
  }

  lemma IssuedOnSettled(d: Disk, op: Op)
    ensures Moment(d, []).Issue(op) == Moment(d, [Issued(op, Touches(op) - Retires(op))])
    ensures Moment(d, []).Issue(op).Left() <= {d, Apply(d, op)}
  {
    hide Apply, Touches, Retires;
    assert Wiped([], Retires(op)) == [];
    OneSurvives(d, op, Touches(op) - Retires(op));
  }

  /** An operation is only issued on a record directory with a journal, and that is the one in memory. */
  lemma AllowedSees(mode: Mode, o: Origin, k: Key, v: View, op: Op)
    requires Recoverable(o, k, v) && Allows(mode, k, v, op)
    ensures InTransaction(o, k, v) && (v.queued.Some? || v.current.Some?) && Holder(v).journal.Some?
    ensures forall j :: JournalSeen(v, j) == JournalIn(v)
  {
  }

  lemma AllowedIsSensible(mode: Mode, o: Origin, k: Key, v: View, op: Op)
    requires InTransaction(o, k, v) && Allows(mode, k, v, op)
    ensures Sensible(k, v, op)
  {
    hide Waiting, Promoted, Recovered;
    WhereItIs(o, k, v);
    AllowedKeeps(mode, o, k, v, op);
    if op.Promote? {
      Promoting(o, k, v);
    }
  }

  lemma AllowedTouches(mode: Mode, k: Key, v: View, op: Op)
    requires Allows(mode, k, v, op)
    ensures Touches(op) - Retires(op) != {} && (!PrivateOp(v, op) ==> Retires(op) == {})
  {
    assert RecordDirectory in Touches(op) - Retires(op) || QueueRoot in Touches(op) - Retires(op)
        || StageDirectory in Touches(op) - Retires(op);
  }

  lemma PrivateIsSound(mode: Mode, o: Origin, k: Key, base: Disk, a: State, b: State, op: Op)
    requires Sound(mode, o, k, base, a) && Issues(mode, k, a, b, op) && PrivateOp(ViewOf(a, k), op)
    ensures Sound(mode, o, k, base, b)
  {
    hide Waiting, Promoted, Recovered, Apply, Effect, Kept, Fine, MayVary, Varied;
    var like := PrivateKind(mode, o, k, base, a, b, op);
    AllowedTouches(mode, k, ViewOf(a, k), op);
    var last := b.now.pending[|b.now.pending| - 1];
    assert last in b.now.pending && last.dirty != {};
    if op.SetCandidate? {
      PrivateIsUnderdone(mode, o, k, base, a, b, op, like);
    }
    VaryingIsFine(o, k, base, b, like);
  }

  lemma PrivateIsUnderdone(mode: Mode, o: Origin, k: Key, base: Disk, a: State, b: State, op: Op, like: Op)
    requires Sound(mode, o, k, base, a) && Issues(mode, k, a, b, op) && op.SetCandidate? && Alike(op, like)
    requires Varying(o, k, base, a, like)
    ensures Underdone(ViewOf(b, k), b.now)
  {
    hide Waiting, Promoted, Recovered, Apply, Kept, Fine, MayVary, Varied, Survivors, Visible;
    var all := CANDIDATE_DIRECTORIES;
    IssuingIsVisible(a.now, op);
    OperationsAreLocal(a.now.Disk(), op, k);
    assert forall p | p in a.now.pending :: p.dirty <= Touches(p.op) <= all;
    IssuingDirties(a.now, op, all);
    if op.candidate.None? {
      assert all + Touches(op) - Retires(op) == {RecordDirectory};
    }
  }

  /** A private operation is of the same kind as those still unsynced. */
  lemma PrivateKind(mode: Mode, o: Origin, k: Key, base: Disk, a: State, b: State, op: Op) returns (like: Op)
    requires Sound(mode, o, k, base, a) && Issues(mode, k, a, b, op) && PrivateOp(ViewOf(a, k), op)
    ensures Varying(o, k, base, a, like) && Alike(op, like)
  {
    hide Waiting, Promoted, Recovered, Apply, Effect, Kept;
    if a.private {
      like :| Varying(o, k, base, a, like);
      VaryingIsFine(o, k, base, a, like);
      VisibleSurvives(a.now.durable, a.now.pending);
    } else {
      NothingOwed(mode, o, k, base, a);
      AllowedSees(mode, o, k, ViewOf(a, k), op);
      WhereItIs(o, k, ViewOf(a, k));
      like := op;
    }
  }

  /** Whatever became of the private tree, the transaction can be recovered. */
  lemma VaryingIsFine(o: Origin, k: Key, base: Disk, s: State, like: Op)
    requires Varying(o, k, base, s, like)
    ensures forall d | d in s.now.Left() ::
      && Fine(o, k, base, d, s.journal) && MayVary(o, k, Look(d, k), like) && JournalSeen(Look(d, k), s.journal) == s.journal
      && (Look(d, k).queued.Some? <==> like.SetStage?)
  {
    hide Waiting, Promoted, Recovered, Kept, Fine, Varied;
    MayVaryFacts(o, k, s.now.durable, like);
    VariedFromItself(s.now.durable, like);
    PrivateSurvives(s.now.durable, s.now.durable, s.now.pending, like);
    forall d | d in s.now.Left()
      ensures Fine(o, k, base, d, s.journal) && MayVary(o, k, Look(d, k), like)
        && JournalSeen(Look(d, k), s.journal) == s.journal && (Look(d, k).queued.Some? <==> like.SetStage?)
    {
      VariedIsFine(o, k, base, s.now.durable, d, like, s.journal);
    }
  }

  lemma MayVaryFacts(o: Origin, k: Key, d: Disk, like: Op)
    requires MayVary(o, k, Look(d, k), like)
    ensures Alike(like, like) && At(d, like.at).Some? && (like.at == InQueue(k.sequence) || like.at == InEvents(k.eventId))
  {
  }

  lemma VariedIsFine(o: Origin, k: Key, base: Disk, durable: Disk, d: Disk, like: Op, journal: Journal)
    requires KeptInQueue(base, durable, k) && StaysHonest(base, durable, k)
    requires MayVary(o, k, Look(durable, k), like) && Varied(durable, d, like)
    requires JournalSeen(Look(durable, k), journal) == journal
    ensures Fine(o, k, base, d, journal) && MayVary(o, k, Look(d, k), like) && JournalSeen(Look(d, k), journal) == journal
    ensures Look(d, k).queued.Some? <==> like.SetStage?
  {
    hide Waiting, Promoted, Recovered, Kept;
    MayVaryFacts(o, k, durable, like);
    var v, x := Look(durable, k), At(d, like.at).value;
    WhereItIs(o, k, v);
    PutIsLocal(durable, like.at, x, k);
    KeptTwice(base, durable, d, k);
    if like.SetStage? {
      StageMayVary(o, k, v, x.stage);
    } else {
      CandidateMayVary(o, k, v, x.candidate);
    }
    WhereItIs(o, k, Look(d, k));
    WritingBack(Look(d, k), journal);
  }

  lemma SyncIsSound(mode: Mode, o: Origin, k: Key, base: Disk, a: State, b: State, directory: Directory)
    requires Sound(mode, o, k, base, a) && Syncs(k, a, b, directory)
    ensures Sound(mode, o, k, base, b)
  {
    hide Waiting, Promoted, Recovered, Apply, Effect, Kept, MayVary, Varied, Recoverable, Allows, Survivors, Visible,
         Varying, JournalSeen;
    SyncingLosesLess(a.now, directory);
    SyncingCovers(a.now, directory);
    SyncKeepsFine(mode, o, k, base, a, b, directory);
    if !b.noted {
      SyncKeepsShape(mode, o, k, base, a, b, directory);
    }
  }

  lemma SyncingCovers(m: Moment, directory: Directory)
    ensures forall p | p in m.Sync(directory).pending :: exists q :: q in m.pending && q.op == p.op && p.dirty == q.dirty - {directory}
    ensures AllClean(m.Sync(directory).pending) ==> m.Sync(directory).pending == []
  {
    var wiped := Wiped(m.pending, {directory});
    forall p | p in wiped ensures exists q :: q in m.pending && q.op == p.op && p.dirty == q.dirty - {directory} {
      var i :| 0 <= i < |wiped| && wiped[i] == p;
      assert m.pending[i] in m.pending;
    }
  }

  lemma SyncKeepsFine(mode: Mode, o: Origin, k: Key, base: Disk, a: State, b: State, directory: Directory)
    requires Sound(mode, o, k, base, a) && Syncs(k, a, b, directory)
    ensures forall d | d in b.now.Left() :: Fine(o, k, base, d, b.journal)
  {
    hide Waiting, Promoted, Recovered, Fine, Apply, Effect, Allows, Varying;
    SyncingLosesLess(a.now, directory);
    VisibleSurvives(a.now.durable, a.now.pending);
    SyncingIsInvisible(a.now, directory);
    SeenJournal(o, k, base, a.now.Disk(), a.journal);
    if b.due == {} {
      SyncingCleans(a.now, directory, {directory});
    }
  }

  lemma SyncKeepsShape(mode: Mode, o: Origin, k: Key, base: Disk, a: State, b: State, directory: Directory)
    requires Sound(mode, o, k, base, a) && Syncs(k, a, b, directory) && !b.noted
    ensures Shaped(mode, o, k, base, b)
  {
    hide Waiting, Promoted, Recovered, Apply, Effect, KeptInQueue, MayVary, Fine, Allows;
    SyncingIsInvisible(a.now, directory);
    SyncingCovers(a.now, directory);
    if b.private {
      var like :| Varying(o, k, base, a, like);
      VaryingIsFine(o, k, base, a, like);
      VisibleSurvives(a.now.durable, a.now.pending);
      FineIsKept(o, k, base, a.now.Disk(), a.journal);
      assert Varying(o, k, base, b, like);
    }
  }

  lemma FineIsKept(o: Origin, k: Key, base: Disk, d: Disk, journal: Journal)
    requires Fine(o, k, base, d, journal)
    ensures KeptInQueue(base, d, k) && StaysHonest(base, d, k)
  {
  }

  /** Once everything is synced the journal on disk is the one to go on with. */
  lemma SeenJournal(o: Origin, k: Key, base: Disk, d: Disk, journal: Journal)
    requires Fine(o, k, base, d, journal)
    ensures Fine(o, k, base, d, JournalSeen(Look(d, k), journal))
  {
    hide Waiting, Promoted, Kept;
    if Holder(Look(d, k)).journal.Some? {
      WritingBack(Look(d, k), Holder(Look(d, k)).journal.value);
    }
  }

  lemma NoteIsSound(mode: Mode, o: Origin, k: Key, base: Disk, a: State, b: State, evidence: string)
    requires Sound(mode, o, k, base, a) && Notes(mode, k, a, b, evidence)
    ensures Sound(mode, o, k, base, b)
  {
    hide Waiting, Promoted, Recovered, Kept, Fine;
    var noted := a.journal.(recoveryFailure := Some(evidence));
    var write := WriteJournal(HolderIn(ViewOf(a, k), k), noted);
    var last := Issued(write, {RecordDirectory});
    PlainIssue(a.now, write);
    assert b.now == Moment(a.now.durable, a.now.pending + [last]);
    assert last in b.now.pending;
    forall s | s in b.now.Left() ensures Fine(o, k, base, s, b.journal) {
      var d, w := NoteMayBeMissing(mode, o, k, base, a, last, s);
      if s != d {
        NotedIsFine(o, k, base, d, w, a.journal, evidence);
      }
    }
  }

  /** The note is written to the record directory wherever that turns out to be. */
  lemma NoteMayBeMissing(mode: Mode, o: Origin, k: Key, base: Disk, a: State, last: Issued, s: Disk) returns (d: Disk, write: Op)
    requires Sound(mode, o, k, base, a) && !a.noted
    requires last.op.WriteJournal? && last.op.at == HolderIn(ViewOf(a, k), k)
    requires s in Survivors(a.now.durable, a.now.pending + [last])
    ensures d in a.now.Left() && (s == d || s == Apply(d, write))
    ensures write == WriteJournal(HolderIn(Look(d, k), k), last.op.journal)
  {
    hide Waiting, Promoted, Recovered, Kept, Fine, Apply, Effect, Varied, MayVary;
    if a.private {
      var like :| Varying(o, k, base, a, like);
      VaryingIsFine(o, k, base, a, like);
      VisibleSurvives(a.now.durable, a.now.pending);
      d := LastMayBeMissing(a.now.durable, a.now.pending, last, s);
      write := last.op;
    } else if a.now.pending == [] {
      d := LastMayBeMissing(a.now.durable, a.now.pending, last, s);
      write := last.op;
    } else {
      assert a.now.pending == [a.now.pending[0]];
      AllowedIsSensible(mode, o, k, Look(a.now.durable, k), a.now.pending[0].op);
      d, write := NoteAfterOne(k, a.now.durable, a.now.pending[0], last, s);
    }
  }

  lemma NoteAfterOne(k: Key, durable: Disk, first: Issued, last: Issued, s: Disk) returns (d: Disk, write: Op)
    requires Sensible(k, Look(durable, k), first.op)
    requires last.op.WriteJournal? && last.op.at == HolderIn(Look(Visible(durable, [first]), k), k)
    requires s in Survivors(durable, [first] + [last])
    ensures d in Survivors(durable, [first]) && (s == d || s == Apply(d, write))
    ensures write == WriteJournal(HolderIn(Look(d, k), k), last.op.journal)
  {
    hide Apply;
    var after := Apply(durable, first.op);
    OneSurvives(durable, first.op, first.dirty);
    OneSurvives(after, last.op, last.dirty);
    assert Visible(after, []) == after && [first][1..] == [];
    assert ([first] + [last])[1..] == [last];
    OperationsAreLocal(durable, first.op, k);
    if s in Survivors(after, [last]) {
      d, write := after, last.op;
    } else {
      var other := Without(first.op, [last]);
      assert other == [Issued(other[0].op, last.dirty)];
      OneSurvives(durable, other[0].op, last.dirty);
      d, write := durable, other[0].op;
    }
  }

  lemma NotedIsFine(o: Origin, k: Key, base: Disk, d: Disk, write: Op, journal: Journal, evidence: string)
    requires Fine(o, k, base, d, journal)
    requires write == WriteJournal(HolderIn(Look(d, k), k), journal.(recoveryFailure := Some(evidence)))
    ensures Fine(o, k, base, Apply(d, write), journal)
  {
    hide Waiting, Promoted, Recovered, Kept;
    var v, noted := Look(d, k), journal.(recoveryFailure := Some(evidence));
    OperationsAreLocal(d, write, k);
    KeptTwice(base, d, Apply(d, write), k);
    NotingFailure(o, k, v, journal, evidence);
    assert Effect(v, write) == WithJournal(v, noted);
    assert WithJournal(WithJournal(v, noted), journal) == WithJournal(v, journal);
  }

  /** Whatever a process that began with nothing unsynced has done, and wherever it was stopped or raised, a power
      failure leaves a transaction that can be recovered. */
  lemma CourseIsSound(mode: Mode, o: Origin, k: Key, d: Disk, journal: Journal, s: State)
    requires InTransaction(o, k, Look(d, k)) && JournalIn(Look(d, k)) == journal
    requires Reaches(mode, k, Starting(Moment(d, []), journal), s)
    ensures Sound(mode, o, k, d, s)
  {
    hide Sound, Advances, InTransaction;
    StartIsSound(mode, o, k, d, journal);
    var start := Starting(Moment(d, []), journal);
    var run: seq<State> :| Run(mode, k, run) && run[0] == start && run[|run| - 1] == s;
    RunIsSound(mode, o, k, d, run, |run| - 1);
  }

  lemma {:induction false} RunIsSound(mode: Mode, o: Origin, k: Key, base: Disk, run: seq<State>, i: nat)
    requires Run(mode, k, run) && Sound(mode, o, k, base, run[0]) && i < |run|
    ensures Sound(mode, o, k, base, run[i])
  {
    hide Sound, Advances;
    if i > 0 {
      RunIsSound(mode, o, k, base, run, i - 1);
      AdvanceIsSound(mode, o, k, base, run[i - 1], run[i]);
    }
  }
}
