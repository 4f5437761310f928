/**
 When recovery may begin over something an earlier process left unsynced and still
 be safe against a power failure at any later moment.
 */
module Durability {
  import opened Common
  import opened Disk
  import opened Volumes
  import opened Protocol
  import opened Course
  import opened Mending
  import opened Exposure
  import opened Progress
  import Status

  // -------------------------------------------------- when nothing goes wrong

  /** Recovery can mend `d`, also once the journal in memory has been written back. */
  predicate Fair(o: Origin, k: Key, d: Disk, journal: Journal) {
    Mendable(o, k, Look(d, k)) && Mendable(o, k, WithJournal(Look(d, k), journal))
  }

  /** So it is with every disk a power failure could leave; the one recovery sees is as it should be. */
  predicate Holding(o: Origin, k: Key, base: Disk, s: State) {
    && (forall d | d in s.now.Left() :: Fair(o, k, d, s.journal))
    && (!s.noted ==> Fine(o, k, base, s.now.Disk(), s.journal))
  }

  /** What a transaction is like when it is first opened. */
  predicate Opened(o: Origin, k: Key, base: Disk) {
    Undisputed(o) && Honest(Look(base, k))
  }

  lemma FineIsFair(o: Origin, k: Key, base: Disk, d: Disk, journal: Journal)
    requires Opened(o, k, base) && Fine(o, k, base, d, journal)
    ensures Fair(o, k, d, journal)
  {
    hide Waiting, Promoted, Recovered, Kept, Mendable, Explained;
    ProtocolIsMendable(o, k, Look(d, k));
    WithJournalIsHonest(Look(d, k), journal);
    ProtocolIsMendable(o, k, WithJournal(Look(d, k), journal));
  }

  lemma WithJournalIsHonest(v: View, j: Journal)
    requires Honest(v)
    ensures Honest(WithJournal(v, j))
  {
  }

  lemma FairIsThere(o: Origin, k: Key, d: Disk, journal: Journal)
    requires Fair(o, k, d, journal)
    ensures Look(d, k).queued.Some? || Look(d, k).current.Some?
  {
  }

  lemma FineHolds(o: Origin, k: Key, base: Disk, s: State)
    requires Opened(o, k, base) && forall d | d in s.now.Left() :: Fine(o, k, base, d, s.journal)
    ensures Holding(o, k, base, s)
  {
    hide Fine, Fair, Survivors, Visible, Opened;
    VisibleSurvives(s.now.durable, s.now.pending);
    forall d | d in s.now.Left() ensures Fair(o, k, d, s.journal) {
      FineIsFair(o, k, base, d, s.journal);
    }
  }

  /** Giving up is always possible. */
  lemma NoteHolds(o: Origin, k: Key, base: Disk, a: State, b: State, evidence: string)
    requires Holding(o, k, base, a) && Notes(Recovering, k, a, b, evidence)
    requires forall p | p in a.now.pending :: !p.op.Promote?
    requires forall d | d in a.now.Left() :: HolderIn(Look(d, k), k) == HolderIn(ViewOf(a, k), k)
    ensures Holding(o, k, base, b) && b.noted
  {
    hide Fair, Fine, Apply, Effect;
    var write := WriteJournal(HolderIn(ViewOf(a, k), k), a.journal.(recoveryFailure := Some(evidence)));
    var last := Issued(write, {RecordDirectory});
    PlainIssue(a.now, write);
    forall s | s in b.now.Left() ensures Fair(o, k, s, b.journal) {
      var d := LastMayBeMissing(a.now.durable, a.now.pending, last, s);
      if s != d {
        NotedIsFair(o, k, d, write, a.journal, evidence);
      }
    }
  }

  lemma NotedIsFair(o: Origin, k: Key, d: Disk, write: Op, journal: Journal, evidence: string)
    requires Fair(o, k, d, journal)
    requires write == WriteJournal(HolderIn(Look(d, k), k), journal.(recoveryFailure := Some(evidence)))
    ensures Fair(o, k, Apply(d, write), journal)
  {
    hide Mendable, Apply;
    FairIsThere(o, k, d, journal);
    var v, noted := Look(d, k), journal.(recoveryFailure := Some(evidence));
    OperationsAreLocal(d, write, k);
    NotingIsMendable(o, k, v, journal, evidence);
    assert Effect(v, write) == WithJournal(v, noted);
    assert WithJournal(WithJournal(v, noted), journal) == WithJournal(v, journal);
  }

  /** Once it has given up, a process only syncs. */
  lemma NotedHolds(o: Origin, k: Key, base: Disk, a: State, b: State)
    requires Holding(o, k, base, a) && a.noted && Advances(Recovering, k, a, b)
    ensures Holding(o, k, base, b) && b.noted
  {
    hide Fine, Fair;
    var directory :| Syncs(k, a, b, directory);
    SyncingLosesLess(a.now, directory);
  }

  /** A sync after which nothing is unsynced any more. */
  lemma SyncSettles(o: Origin, k: Key, base: Disk, a: State, b: State, directory: Directory)
    requires Holding(o, k, base, a) && !a.noted && Syncs(k, a, b, directory)
    requires AllClean(Wiped(a.now.pending, {directory})) && b.due == {}
    ensures Sound(Recovering, o, k, base, b)
  {
    hide Waiting, Promoted, Recovered, Kept, Fine, Apply, Effect;
    VisibleSurvives(a.now.durable, a.now.pending);
    SyncingIsInvisible(a.now, directory);
    OneSurvives(a.now.Disk(), RemoveJournal(InQueue(0)), {});
    SeenJournal(o, k, base, a.now.Disk(), a.journal);
  }

  // A stage whose removal has started may be in any condition.

  predicate StageFloats(o: Origin, k: Key, base: Disk, like: Op, s: State) {
    && like.SetStage? && Varying(o, k, base, s, like) && !s.noted && s.due <= {RecordDirectory}
    && !AllClean(s.now.pending) && forall p | p in s.now.pending :: p.dirty <= {RecordDirectory}
  }

  lemma StageFloatsOn(o: Origin, k: Key, base: Disk, like: Op, a: State, b: State)
    requires Opened(o, k, base) && StageFloats(o, k, base, like, a) && Advances(Recovering, k, a, b)
    ensures StageFloats(o, k, base, like, b) || Sound(Recovering, o, k, base, b) || (b.noted && Holding(o, k, base, b))
  {
    hide Waiting, Promoted, Recovered, Kept, Fine, Apply, Effect, Varied, Sound, Holding, Opened;
    VaryingIsFine(o, k, base, a, like);
    FineHolds(o, k, base, a);
    VisibleSurvives(a.now.durable, a.now.pending);
    RemovingSees(o, k, ViewOf(a, k));
    if op :| Issues(Recovering, k, a, b, op) {
      StageFloatsOver(o, k, base, like, a, b, op);
    } else if directory :| Syncs(k, a, b, directory) {
      if directory == RecordDirectory {
        SyncSettles(o, k, base, a, b, directory);
      } else {
        OtherSync(a.now, directory);
      }
    } else {
      var evidence :| Notes(Recovering, k, a, b, evidence);
      NoteHolds(o, k, base, a, b, evidence);
    }
  }

  lemma RemovingSees(o: Origin, k: Key, v: View)
    requires Removing(o, k, v)
    ensures v.queued.Some? && RemovalStarted(v)
  {
  }

  lemma StageFloatsOver(o: Origin, k: Key, base: Disk, like: Op, a: State, b: State, op: Op)
    requires StageFloats(o, k, base, like, a) && Issues(Recovering, k, a, b, op)
    requires MayVary(o, k, ViewOf(a, k), like)
    ensures StageFloats(o, k, base, like, b)
  {
    hide Waiting, Promoted, Recovered, Kept, Apply, Effect;
    RemovingSees(o, k, ViewOf(a, k));
    DirtyRecord(a.now);
    IssuingDirties(a.now, op, {RecordDirectory});
    assert Touches(op) - Retires(op) == {RecordDirectory};
    var last := b.now.pending[|b.now.pending| - 1];
    assert last == Issued(op, {RecordDirectory}) && last in b.now.pending;
    assert {RecordDirectory} + Touches(op) - Retires(op) == {RecordDirectory};
  }

  lemma DirtyRecord(m: Moment)
    requires !AllClean(m.pending) && forall p | p in m.pending :: p.dirty <= {RecordDirectory}
    ensures !m.Clean(RecordDirectory)
  {
    var p :| p in m.pending && p.dirty != {};
    assert RecordDirectory in p.dirty;
  }

  lemma OtherSync(m: Moment, directory: Directory)
    requires forall p | p in m.pending :: directory !in p.dirty
    requires !AllClean(m.pending)
    ensures m.Sync(directory) == m
  {
    assert forall i | 0 <= i < |m.pending| :: m.pending[i] in m.pending && m.pending[i].dirty - {directory} == m.pending[i].dirty;
    assert Wiped(m.pending, {directory}) == m.pending;
  }

  // So may a candidate that is not ready or is being removed, and the intent to remove it while it is not ready.

  /** `x` is `v` but for the content of its candidate and, perhaps, the intent. */
  predicate CandidateWorld(k: Key, v: View, intent: Journal, x: View) {
    && v.current.Some? && x.current.Some?
    && x == v.(current := Some(v.current.value.(candidate := x.current.value.candidate, journal := x.current.value.journal)))
    && (x.current.value.journal == v.current.value.journal || x.current.value.journal == Some(intent))
  }

  predicate CandidateBase(o: Origin, k: Key, v: View, intent: Journal) {
    && Promoted(o, k, v) && v.products.None? && Honest(v)
    && var j := JournalIn(v);
       if j.intents.candidateRemovalStarted then intent == j
       else |j.completed| == 4 && intent == j.(intents := j.intents.(candidateRemovalStarted := true))
  }

  predicate CandidateOp(k: Key, op: Op, intent: Journal) {
    match op
    case SetCandidate(at, _) => at == InEvents(k.eventId)
    case WriteJournal(at, j) => at == InEvents(k.eventId) && j == intent
    case _ => false
  }

  predicate CandidateFloats(o: Origin, k: Key, base: Disk, v: View, intent: Journal, s: State) {
    && CandidateBase(o, k, v, intent) && Kept(base, s.now.durable, k)
    && CandidateWorld(k, v, intent, Look(s.now.durable, k))
    && (forall p | p in s.now.pending :: CandidateOp(k, p.op, intent) && p.dirty <= CANDIDATE_DIRECTORIES)
    && !AllClean(s.now.pending) && !s.noted && s.due <= CANDIDATE_DIRECTORIES
    && Some(s.journal) in {v.current.value.journal, Some(intent)}
    && (s.private || s.due == {} ==> JournalSeen(ViewOf(s, k), s.journal) == s.journal)
    && (if ViewOf(s, k).current.Some? && ViewOf(s, k).current.value.candidate.Some? then true
        else RemovalStarted(ViewOf(s, k)) && forall p | p in s.now.pending :: p.dirty <= {RecordDirectory})
  }

  lemma CandidateWorldIsRecoverable(o: Origin, k: Key, v: View, intent: Journal, x: View)
    requires CandidateBase(o, k, v, intent) && CandidateWorld(k, v, intent, x)
    ensures InTransaction(o, k, x) && x.queued.None? && x.current.Some? && Promoted(o, k, x) && x.products.None?
    ensures |JournalIn(x).completed| == 4 || JournalIn(x).intents.candidateRemovalStarted
    ensures |JournalIn(x).completed| >= 4 && Honest(x)
  {
  }

  predicate CandidateDisk(k: Key, base: Disk, v: View, intent: Journal, d: Disk) {
    Kept(base, d, k) && CandidateWorld(k, v, intent, Look(d, k))
  }

  lemma {:induction false} CandidateSurvives(
    o: Origin, k: Key, base: Disk, v: View, intent: Journal, durable: Disk, pending: seq<Issued>)
    requires CandidateBase(o, k, v, intent) && CandidateDisk(k, base, v, intent, durable)
    requires forall p | p in pending :: CandidateOp(k, p.op, intent)
    ensures forall d | d in Survivors(durable, pending) :: CandidateDisk(k, base, v, intent, d)
    decreases |pending|
  {
    hide Waiting, Promoted, Kept, CandidateWorld, Apply, CandidateBase;
    if pending != [] {
      var op := pending[0].op;
      CandidateOpKeeps(o, k, base, v, intent, durable, op);
      CandidateSurvives(o, k, base, v, intent, Apply(durable, op), pending[1..]);
      CandidateSurvives(o, k, base, v, intent, durable, pending[1..]);
    }
  }

  lemma CandidateOpKeeps(o: Origin, k: Key, base: Disk, v: View, intent: Journal, d: Disk, op: Op)
    requires CandidateBase(o, k, v, intent) && CandidateDisk(k, base, v, intent, d) && CandidateOp(k, op, intent)
    ensures CandidateDisk(k, base, v, intent, Apply(d, op))
  {
    hide Waiting, Kept, Apply;
    OperationsAreLocal(d, op, k);
    KeptTwice(base, d, Apply(d, op), k);
  }

  lemma CandidateFloatsHold(o: Origin, k: Key, base: Disk, v: View, intent: Journal, s: State)
    requires Opened(o, k, base) && CandidateFloats(o, k, base, v, intent, s)
    ensures Holding(o, k, base, s) && s.now.Disk() in s.now.Left()
    ensures forall d | d in s.now.Left() :: CandidateDisk(k, base, v, intent, d) && Look(d, k).queued.None?
  {
    hide Waiting, Promoted, Recovered, Kept, Apply, Honest, Holding, Opened, CandidateBase, Fine;
    CandidateSurvives(o, k, base, v, intent, s.now.durable, s.now.pending);
    VisibleSurvives(s.now.durable, s.now.pending);
    forall d | d in s.now.Left() ensures Fine(o, k, base, d, s.journal) && Look(d, k).queued.None? {
      var x := Look(d, k);
      CandidateWorldIsFine(o, k, base, v, intent, d, s.journal);
    }
    FineHolds(o, k, base, s);
  }

  lemma CandidateWorldIsFine(o: Origin, k: Key, base: Disk, v: View, intent: Journal, d: Disk, journal: Journal)
    requires CandidateBase(o, k, v, intent) && CandidateDisk(k, base, v, intent, d)
    requires v.current.Some? && Some(journal) in {v.current.value.journal, Some(intent)}
    ensures Fine(o, k, base, d, journal) && Look(d, k).queued.None?
  {
    hide Waiting, Promoted, Kept, Honest, CandidateBase;
    var x := Look(d, k);
    CandidateWorldIsRecoverable(o, k, v, intent, x);
    CandidateWorldIsRecoverable(o, k, v, intent, WithJournal(x, journal));
  }

  lemma CandidateFloatsOn(o: Origin, k: Key, base: Disk, v: View, intent: Journal, a: State, b: State)
    requires Opened(o, k, base) && CandidateFloats(o, k, base, v, intent, a) && Advances(Recovering, k, a, b)
    ensures CandidateFloats(o, k, base, v, intent, b) || Sound(Recovering, o, k, base, b) || (b.noted && Holding(o, k, base, b))
  {
    hide Opened, Holding, Honest, Waiting, Promoted, Recovered, Kept, Fine, Apply, Effect, CandidateWorld, CandidateBase, Sound, CandidateFloats;
    CandidateFloatsHold(o, k, base, v, intent, a);
    if op :| Issues(Recovering, k, a, b, op) {
      CandidateFloatsOver(o, k, base, v, intent, a, b, op);
    } else if directory :| Syncs(k, a, b, directory) {
      CandidateSyncs(o, k, base, v, intent, a, b, directory);
    } else {
      var evidence :| Notes(Recovering, k, a, b, evidence);
      CandidateNotes(o, k, base, v, intent, a, b, evidence);
    }
  }

  lemma CandidateNotes(o: Origin, k: Key, base: Disk, v: View, intent: Journal, a: State, b: State, evidence: string)
    requires Opened(o, k, base) && CandidateFloats(o, k, base, v, intent, a) && Notes(Recovering, k, a, b, evidence)
    ensures b.noted && Holding(o, k, base, b)
  {
    hide Opened, Holding, Honest, Waiting, Promoted, Recovered, Kept, Fine, Apply, Effect, CandidateWorld, CandidateBase;
    CandidateFloatsHold(o, k, base, v, intent, a);
    NoteHolds(o, k, base, a, b, evidence);
  }

  /** Recovery only goes on with the candidate, until the record directory is synced. */
  lemma CandidateNext(o: Origin, k: Key, base: Disk, v: View, intent: Journal, a: State, op: Op)
    requires Opened(o, k, base) && CandidateFloats(o, k, base, v, intent, a) && MayIssue(Recovering, k, a, op)
    ensures CandidateOp(k, op, intent)
    ensures op.SetCandidate? ==> RemovalStarted(ViewOf(a, k))
    ensures op.WriteJournal? ==> !PrivateOp(ViewOf(a, k), op)
  {
    hide Opened, Holding, Honest, Waiting, Promoted, Recovered, Kept, Fine, Apply, Effect, Survivors, Visible;
    CandidateFloatsHold(o, k, base, v, intent, a);
    var x := ViewOf(a, k);
    CandidateWorldIsRecoverable(o, k, v, intent, x);
    if x.current.value.candidate.None? {
      DirtyRecord(a.now);
    }
  }

  lemma CandidateFloatsOver(o: Origin, k: Key, base: Disk, v: View, intent: Journal, a: State, b: State, op: Op)
    requires Opened(o, k, base) && CandidateFloats(o, k, base, v, intent, a) && Issues(Recovering, k, a, b, op)
    ensures CandidateFloats(o, k, base, v, intent, b)
  {
    hide Opened, Holding, Honest, Waiting, Promoted, Recovered, Kept, Fine, Apply, Allows, CandidateBase, CandidateWorld, Survivors, Visible;
    CandidateNext(o, k, base, v, intent, a, op);
    IssuingIsVisible(a.now, op);
    OperationsAreLocal(a.now.Disk(), op, k);
    IssuingDirties(a.now, op, CANDIDATE_DIRECTORIES);
    CandidateIssue(a.now, op);
    CandidateSight(o, k, base, v, intent, a);
  }

  lemma CandidateSight(o: Origin, k: Key, base: Disk, v: View, intent: Journal, s: State)
    requires Opened(o, k, base) && CandidateFloats(o, k, base, v, intent, s)
    ensures var x := ViewOf(s, k); x.queued.None? && x.current.Some? && x.current.value.journal.Some?
  {
    hide Opened, Holding, Honest, Waiting, Promoted, Recovered, Kept, Fine, Apply, Effect, Survivors, Visible;
    CandidateFloatsHold(o, k, base, v, intent, s);
    CandidateWorldIsRecoverable(o, k, v, intent, ViewOf(s, k));
    WhereItIs(o, k, ViewOf(s, k));
  }

  lemma CandidateIssue(m: Moment, op: Op)
    requires op.SetCandidate? || op.WriteJournal?
    ensures !AllClean(m.Issue(op).pending) && CANDIDATE_DIRECTORIES + Touches(op) - Retires(op) <= CANDIDATE_DIRECTORIES
    ensures op.SetCandidate? && op.candidate.None? ==> CANDIDATE_DIRECTORIES + Touches(op) - Retires(op) == {RecordDirectory}
    ensures forall p | p in m.Issue(op).pending :: p.op == op || exists q :: q in m.pending && q.op == p.op
  {
    var pending := m.Issue(op).pending;
    var last := pending[|pending| - 1];
    assert last in pending && RecordDirectory in last.dirty;
    forall p | p in pending ensures p.op == op || exists q :: q in m.pending && q.op == p.op {
      var i :| 0 <= i < |pending| && pending[i] == p;
      if i < |m.pending| {
        assert m.pending[i] in m.pending;
      }
    }
  }

  lemma CandidateSyncs(o: Origin, k: Key, base: Disk, v: View, intent: Journal, a: State, b: State, directory: Directory)
    requires Opened(o, k, base) && CandidateFloats(o, k, base, v, intent, a) && Syncs(k, a, b, directory)
    ensures CandidateFloats(o, k, base, v, intent, b) || Sound(Recovering, o, k, base, b)
  {
    hide Opened, Holding, Honest, Waiting, Promoted, Recovered, Kept, Fine, Apply, Effect, Allows, CandidateBase, CandidateWorld, Survivors, Visible;
    SyncingIsInvisible(a.now, directory);
    CandidateSight(o, k, base, v, intent, a);
    if AllClean(Wiped(a.now.pending, {directory})) {
      CandidateSettles(o, k, base, v, intent, a, b, directory);
    } else {
      WipedOnly(a.now.pending, directory);
      CandidateJournals(o, k, base, v, intent, a);
    }
  }

  lemma WipedOnly(pending: seq<Issued>, directory: Directory)
    ensures forall p | p in Wiped(pending, {directory}) ::
      exists q :: q in pending && q.op == p.op && p.dirty <= q.dirty
  {
    forall p | p in Wiped(pending, {directory}) ensures exists q :: q in pending && q.op == p.op && p.dirty <= q.dirty {
      var i :| 0 <= i < |pending| && Wiped(pending, {directory})[i] == p;
      assert pending[i] in pending;
    }
  }

  lemma CandidateJournals(o: Origin, k: Key, base: Disk, v: View, intent: Journal, s: State)
    requires Opened(o, k, base) && CandidateFloats(o, k, base, v, intent, s)
    ensures ViewOf(s, k).current.Some? && ViewOf(s, k).current.value.journal in {v.current.value.journal, Some(intent)}
  {
    hide Opened, Holding, Honest, Waiting, Promoted, Recovered, Kept, Fine, Apply, Effect, Survivors, Visible;
    CandidateFloatsHold(o, k, base, v, intent, s);
  }

  lemma CandidateSettles(o: Origin, k: Key, base: Disk, v: View, intent: Journal, a: State, b: State, directory: Directory)
    requires Opened(o, k, base) && CandidateFloats(o, k, base, v, intent, a) && Syncs(k, a, b, directory)
    requires AllClean(Wiped(a.now.pending, {directory}))
    ensures Sound(Recovering, o, k, base, b)
  {
    hide Opened, Honest, Waiting, Promoted, Recovered, Fair, Fine, Apply, Effect, Allows, CandidateBase;
    CandidateFloatsHold(o, k, base, v, intent, a);
    SyncingIsInvisible(a.now, directory);
    SyncingLosesLess(a.now, directory);
    CandidateWorldIsRecoverable(o, k, v, intent, ViewOf(a, k));
    SeenJournal(o, k, base, a.now.Disk(), a.journal);
    OneSurvives(a.now.Disk(), RemoveJournal(InQueue(0)), {});
    if b.private {
      assert Varying(o, k, base, b, SetCandidate(InEvents(k.eventId), None));
    }
  }

  // Anything else that only the record directory has still to make durable is overtaken by its next sync.

  predicate StartsCandidateRemoval(v: View, op: Op) {
    && op.WriteJournal? && op.journal.intents.candidateRemovalStarted
    && !JournalSeen(v, NO_JOURNAL).intents.candidateRemovalStarted
  }

  /** An unsynced change of the record directory whose loss recovery can mend; `lost` is what is there without it. */
  predicate Overtaken(mode: Mode, o: Origin, k: Key, lost: View, p: Issued) {
    && Latest(mode, o, k, lost, p) && !Harmful(k, lost, p) && p.dirty == {RecordDirectory} <= Touches(p.op)
    && InTransaction(o, k, Effect(lost, p.op)) && !StartsCandidateRemoval(lost, p.op)
    && Undisputed(o) && Honest(lost)
  }

  /** Recovery may do this in either world and mend what it then finds, also with the journal it has in memory. */
  predicate AtHome(o: Origin, k: Key, lost: View, seen: View, op: Op) {
    && Mine(op, k) && !op.Promote? && Retires(op) <= {StageDirectory}
    && (Touches(op) == {RecordDirectory} || op.StageService?)
    && (PrivateOp(seen, op) ==> op == SetStage(InQueue(k.sequence), None))
    && Mendable(o, k, Effect(lost, op)) && Mendable(o, k, WithJournal(Effect(lost, op), JournalSeen(seen, NO_JOURNAL)))
  }

  /** Recovery may do this next where the change is there. */
  predicate Next(k: Key, seen: View, op: Op) {
    Allows(Recovering, k, seen, op) && (RemovalStarted(seen) ==> PrivateOp(seen, op))
  }

  lemma OvertakenNext(mode: Mode, o: Origin, k: Key, lost: View, p: Issued, op: Op)
    requires Overtaken(mode, o, k, lost, p) && Next(k, Effect(lost, p.op), op)
    ensures AtHome(o, k, lost, Effect(lost, p.op), op)
    ensures op.StageService? ==>
      && Overtaken(mode, o, k, Effect(lost, op), p)
      && Effect(Effect(lost, op), p.op) == Effect(Effect(lost, p.op), op)
  {
    hide Waiting, Promoted, Recovered, Overtaken, AtHome, Next;
    OvertakenKinds(mode, o, k, lost, p);
    if lost.queued.None? {
      OvertakenPromoted(mode, o, k, lost, p, op);
    } else if p.op.WriteJournal? {
      OverJournal(mode, o, k, lost, p, op);
    } else if p.op.PublishArchive? {
      OverArchive(mode, o, k, lost, p, op);
    } else {
      OverStage(mode, o, k, lost, p, op);
    }
  }

  lemma OvertakenKinds(mode: Mode, o: Origin, k: Key, lost: View, p: Issued)
    requires Overtaken(mode, o, k, lost, p)
    ensures if lost.queued.Some? then Waiting(o, k, lost) && (p.op.WriteJournal? || p.op.PublishArchive? || p.op.SetStage?)
            else Promoted(o, k, lost) && (p.op.WriteJournal? || p.op.WriteRecord?)
  {
    hide Waiting, Promoted, Honest;
    WhereItIs(o, k, lost);
    WhereItIs(o, k, Effect(lost, p.op));
  }

  lemma OverArchive(mode: Mode, o: Origin, k: Key, lost: View, p: Issued, op: Op)
    requires Overtaken(mode, o, k, lost, p) && Next(k, Effect(lost, p.op), op)
    requires Waiting(o, k, lost) && p.op.PublishArchive?
    ensures AtHome(o, k, lost, Effect(lost, p.op), op) && !op.StageService?
  {
    hide Status.Valid, Status.SameIdentity, Explained;
  }

  lemma OverStage(mode: Mode, o: Origin, k: Key, lost: View, p: Issued, op: Op)
    requires Overtaken(mode, o, k, lost, p) && Next(k, Effect(lost, p.op), op)
    requires Waiting(o, k, lost) && p.op.SetStage?
    ensures AtHome(o, k, lost, Effect(lost, p.op), op) && !op.StageService?
  {
    hide Status.Valid, Status.SameIdentity, Explained;
  }

  lemma OverJournal(mode: Mode, o: Origin, k: Key, lost: View, p: Issued, op: Op)
    requires Overtaken(mode, o, k, lost, p) && Next(k, Effect(lost, p.op), op)
    requires Waiting(o, k, lost) && p.op.WriteJournal?
    ensures AtHome(o, k, lost, Effect(lost, p.op), op)
    ensures op.StageService? ==>
      && Overtaken(mode, o, k, Effect(lost, op), p)
      && Effect(Effect(lost, op), p.op) == Effect(Effect(lost, p.op), op)
  {
    hide Waiting, Mendable, Honest;
    WorldJournals(mode, o, k, lost, p);
    if op.WriteJournal? {
      AllowedIsMendable(o, k, Effect(lost, p.op), op);
      OverJournalAgain(mode, o, k, lost, p, op);
    } else {
      OverJournalTree(mode, o, k, lost, p, op);
    }
  }

  /** The one journal replaces the other. */
  lemma OverJournalAgain(mode: Mode, o: Origin, k: Key, lost: View, p: Issued, op: Op)
    requires Overtaken(mode, o, k, lost, p) && Next(k, Effect(lost, p.op), op)
    requires Waiting(o, k, lost) && p.op.WriteJournal? && op.WriteJournal?
    ensures Mine(op, k) && !PrivateOp(Effect(lost, p.op), op) && Effect(lost, op) == Effect(Effect(lost, p.op), op)
    ensures WithJournal(Effect(lost, op), JournalSeen(Effect(lost, p.op), NO_JOURNAL)) == Effect(lost, p.op)
  {
    hide Loadable, Status.Valid, Honest;
  }

  lemma OverJournalTree(mode: Mode, o: Origin, k: Key, lost: View, p: Issued, op: Op)
    requires Overtaken(mode, o, k, lost, p) && Next(k, Effect(lost, p.op), op)
    requires Waiting(o, k, lost) && p.op.WriteJournal? && !op.WriteJournal?
    ensures AtHome(o, k, lost, Effect(lost, p.op), op)
    ensures op.StageService? ==>
      && Overtaken(mode, o, k, Effect(lost, op), p)
      && Effect(Effect(lost, op), p.op) == Effect(Effect(lost, p.op), op)
  {
    hide Status.Valid, Status.SameIdentity, Explained;
  }

  lemma OvertakenPromoted(mode: Mode, o: Origin, k: Key, lost: View, p: Issued, op: Op)
    requires Overtaken(mode, o, k, lost, p) && Next(k, Effect(lost, p.op), op)
    requires Promoted(o, k, lost) && (p.op.WriteJournal? || p.op.WriteRecord?)
    ensures AtHome(o, k, lost, Effect(lost, p.op), op) && !op.StageService?
  {
    hide Waiting, Promoted, Recovered, Overtaken, AtHome, Next;
    if p.op.WriteRecord? {
      OverRecord(mode, o, k, lost, p, op);
    } else {
      OverPromotedJournal(mode, o, k, lost, p, op);
    }
  }

  lemma OverRecord(mode: Mode, o: Origin, k: Key, lost: View, p: Issued, op: Op)
    requires Overtaken(mode, o, k, lost, p) && Next(k, Effect(lost, p.op), op)
    requires Promoted(o, k, lost) && p.op.WriteRecord?
    ensures AtHome(o, k, lost, Effect(lost, p.op), op) && !op.StageService?
  {
    hide Status.Valid, Status.SameIdentity, Explained;
  }

  lemma OverPromotedJournal(mode: Mode, o: Origin, k: Key, lost: View, p: Issued, op: Op)
    requires Overtaken(mode, o, k, lost, p) && Next(k, Effect(lost, p.op), op)
    requires Promoted(o, k, lost) && p.op.WriteJournal?
    ensures AtHome(o, k, lost, Effect(lost, p.op), op) && !op.StageService?
  {
    hide Waiting, Promoted, Recovered, Mendable, Honest, Interruption;
    var seen := Effect(lost, p.op);
    WhereItIs(o, k, lost);
    WhereItIs(o, k, seen);
    PromotedCheckpoints(mode, o, k, lost, p.op);
    AllowedKeeps(Recovering, o, k, seen, op);
    AllowedStaysHonest(mode, o, k, lost, p.op);
    AllowedStaysHonest(Recovering, o, k, seen, op);
    match op {
      case WriteRecord(_, r) =>
        InterruptionFacts(seen.current.value.record, r, seen.products.Some?);
        Failing(o, k, lost, r);
        InterruptionIsHonest(lost, r);
        assert WithJournal(Effect(lost, op), JournalIn(seen)) == Effect(seen, op);
      case RemoveJournal(_) =>
        Closing(o, k, lost);
        RemovingIsHonest(lost);
        assert WithJournal(Effect(lost, op), JournalIn(seen)) == seen;
      case _ =>
        OvertakenIntent(mode, o, k, lost, p, op);
    }
    ProtocolIsMendable(o, k, Effect(lost, op));
    WithJournalIsHonest(Effect(lost, op), JournalIn(seen));
    ProtocolIsMendable(o, k, WithJournal(Effect(lost, op), JournalIn(seen)));
  }

  lemma RemovingIsHonest(v: View)
    requires Honest(v) && v.queued.None? && v.current.Some?
    ensures Honest(v.(current := Some(v.current.value.(journal := None))))
  {
  }

  /** Only the intent may come next, and it replaces the journal either way. */
  lemma OvertakenIntent(mode: Mode, o: Origin, k: Key, lost: View, p: Issued, op: Op)
    requires Overtaken(mode, o, k, lost, p) && Promoted(o, k, lost) && p.op.WriteJournal?
    requires Next(k, Effect(lost, p.op), op) && !op.WriteRecord? && !op.RemoveJournal?
    ensures op.WriteJournal? && Effect(lost, op) == Effect(Effect(lost, p.op), op)
    ensures WithJournal(Effect(lost, op), JournalIn(Effect(lost, p.op))) == Effect(lost, p.op)
  {
    hide Waiting, Recovered, Loadable, SameCalculation;
    PromotedCheckpoints(mode, o, k, lost, p.op);
  }

  /** Two worlds: with the change, as recovery sees it, and without. */
  ghost predicate TwoWorlds(mode: Mode, o: Origin, k: Key, base: Disk, now: Moment, lost: Disk) {
    && now.pending != [] && AllClean(now.pending[1..]) && (forall p | p in now.pending :: !p.op.Promote?)
    && Overtaken(mode, o, k, Look(lost, k), now.pending[0])
    && KeptInQueue(base, now.Disk(), k) && Look(now.Disk(), k) == Effect(Look(lost, k), now.pending[0].op)
    && (forall d | d in now.Left() :: d == lost || d == now.Disk())
  }

  /** The process owes nothing. */
  ghost predicate Resting(mode: Mode, o: Origin, k: Key, base: Disk, lost: Disk, s: State) {
    && TwoWorlds(mode, o, k, base, s.now, lost)
    && s == Starting(s.now, JournalSeen(ViewOf(s, k), NO_JOURNAL))
  }

  /** It owes the record directory, and has nothing more to remove. */
  predicate Finishing(o: Origin, k: Key, base: Disk, s: State) {
    && Holding(o, k, base, s) && !s.noted && s.due == {RecordDirectory}
    && (s.private ==> ViewOf(s, k).queued.Some? && ViewOf(s, k).queued.value.stage.None?)
    && (forall p | p in s.now.pending :: p.dirty <= {RecordDirectory} && !p.op.Promote?)
    && forall d | d in s.now.Left() :: HolderIn(Look(d, k), k) == HolderIn(ViewOf(s, k), k)
  }

  /** It is staging the preceding record. */
  ghost predicate StagingOn(mode: Mode, o: Origin, k: Key, base: Disk, lost: Disk, s: State) {
    && s.now.pending != []
    && var before := Moment(s.now.durable, s.now.pending[..|s.now.pending| - 1]);
       var last := s.now.pending[|s.now.pending| - 1];
       && TwoWorlds(mode, o, k, base, before, lost) && !s.noted && !s.private && s.due != {} && last.dirty == s.due
       && last.op == StageService(InQueue(k.sequence), k.eventId) && RecordDirectory !in s.due
       && Allows(Recovering, k, Look(before.Disk(), k), last.op)
       && s.journal == JournalSeen(Look(before.Disk(), k), NO_JOURNAL)
  }

  lemma WorldsHold(mode: Mode, o: Origin, k: Key, base: Disk, now: Moment, lost: Disk)
    requires TwoWorlds(mode, o, k, base, now, lost)
    ensures var seen := Look(now.Disk(), k);
      var j := JournalSeen(seen, NO_JOURNAL);
      && now.Disk() in now.Left() && InTransaction(o, k, seen) && Honest(seen)
      && (seen.queued.Some? || seen.current.Some?) && Holder(seen).journal == Some(j)
      && Fine(o, k, base, now.Disk(), j)
      && (forall d | d in now.Left() :: Fair(o, k, d, j) && HolderIn(Look(d, k), k) == HolderIn(seen, k))
  {
    hide Waiting, Promoted, Recovered, Kept, Apply, Mendable, Honest;
    VisibleSurvives(now.durable, now.pending);
    WorldJournals(mode, o, k, Look(lost, k), now.pending[0]);
  }

  lemma WorldJournals(mode: Mode, o: Origin, k: Key, lost: View, p: Issued)
    requires Overtaken(mode, o, k, lost, p)
    ensures var seen := Effect(lost, p.op);
      var j := JournalSeen(seen, NO_JOURNAL);
      && (seen.queued.Some? || seen.current.Some?) && (lost.queued.Some? || lost.current.Some?)
      && (seen.queued.Some? <==> lost.queued.Some?) && Holder(seen).journal == Some(j)
      && WithJournal(seen, j) == seen && Honest(seen) && Undisputed(o)
      && Mendable(o, k, seen) && Mendable(o, k, lost) && Mendable(o, k, WithJournal(lost, j))
  {
    hide Waiting, Promoted, Recovered, Mendable, Honest;
    var seen := Effect(lost, p.op);
    WhereItIs(o, k, lost);
    WhereItIs(o, k, seen);
    AllowedStaysHonest(mode, o, k, lost, p.op);
    ProtocolIsMendable(o, k, seen);
    ProtocolIsMendable(o, k, lost);
    WithJournalIsHonest(lost, JournalSeen(seen, NO_JOURNAL));
    ProtocolIsMendable(o, k, WithJournal(lost, JournalSeen(seen, NO_JOURNAL)));
  }

  lemma FinishingOn(o: Origin, k: Key, base: Disk, a: State, b: State)
    requires Finishing(o, k, base, a) && Advances(Recovering, k, a, b)
    ensures Sound(Recovering, o, k, base, b) || (b.noted && Holding(o, k, base, b))
  {
    hide Waiting, Promoted, Recovered, Kept, Fine, Fair, Apply, Effect, Survivors, Visible;
    if directory :| Syncs(k, a, b, directory) {
      SyncSettles(o, k, base, a, b, directory);
    } else {
      var evidence :| Notes(Recovering, k, a, b, evidence);
      NoteHolds(o, k, base, a, b, evidence);
    }
  }

  lemma RestingOn(mode: Mode, o: Origin, k: Key, base: Disk, lost: Disk, a: State, b: State)
    requires Resting(mode, o, k, base, lost, a) && Advances(Recovering, k, a, b)
    ensures
      || Resting(mode, o, k, base, lost, b) || Finishing(o, k, base, b) || StagingOn(mode, o, k, base, lost, b)
      || Sound(Recovering, o, k, base, b) || (b.noted && Holding(o, k, base, b))
  {
    hide Waiting, Promoted, Recovered, Kept, Fine, Apply, Effect, Survivors, Visible, Overtaken;
    WorldsHold(mode, o, k, base, a.now, lost);
    if op :| Issues(Recovering, k, a, b, op) {
      RestingIssues(mode, o, k, base, lost, a, b, op);
    } else if directory :| Syncs(k, a, b, directory) {
      RestingSyncs(mode, o, k, base, lost, a, b, directory);
    } else {
      var evidence :| Notes(Recovering, k, a, b, evidence);
      NoteHolds(o, k, base, a, b, evidence);
    }
  }

  lemma RestingSyncs(mode: Mode, o: Origin, k: Key, base: Disk, lost: Disk, a: State, b: State, directory: Directory)
    requires Resting(mode, o, k, base, lost, a) && Syncs(k, a, b, directory)
    ensures Resting(mode, o, k, base, lost, b) || Sound(Recovering, o, k, base, b)
  {
    hide Waiting, Promoted, Recovered, Kept, Fine, Apply, Effect, Survivors, Visible;
    WorldsHold(mode, o, k, base, a.now, lost);
    WorldDirties(mode, o, k, base, a.now, lost);
    if directory == RecordDirectory {
      SyncSettles(o, k, base, a, b, directory);
    } else {
      OtherSync(a.now, directory);
    }
  }

  lemma WorldDirties(mode: Mode, o: Origin, k: Key, base: Disk, now: Moment, lost: Disk)
    requires TwoWorlds(mode, o, k, base, now, lost)
    ensures !AllClean(now.pending) && forall p | p in now.pending :: p.dirty <= {RecordDirectory}
  {
    hide Waiting, Promoted, Recovered, Kept, Apply, Effect, Survivors, Visible;
    assert now.pending[0] in now.pending;
    forall p | p in now.pending ensures p.dirty <= {RecordDirectory} {
      if p != now.pending[0] {
        assert p in now.pending[1..];
      }
    }
  }

  lemma RestingIssues(mode: Mode, o: Origin, k: Key, base: Disk, lost: Disk, a: State, b: State, op: Op)
    requires Resting(mode, o, k, base, lost, a) && Issues(Recovering, k, a, b, op)
    ensures Finishing(o, k, base, b) || StagingOn(mode, o, k, base, lost, b)
  {
    hide Waiting, Promoted, Recovered, Kept, Fine, Fair, Apply, Effect, Survivors, Visible, Overtaken, Allows, Recoverable;
    hide AtHome, Honest;
    WorldsHold(mode, o, k, base, a.now, lost);
    WorldDirties(mode, o, k, base, a.now, lost);
    var p, seen := a.now.pending[0], ViewOf(a, k);
    if RemovalStarted(seen) && !PrivateOp(seen, op) {
      DirtyRecord(a.now);
    }
    OvertakenNext(mode, o, k, Look(lost, k), p, op);
    HomeFacts(o, k, Look(lost, k), seen, op);
    RestingIssue(a.now, op);
    if Touches(op) - Retires(op) == {RecordDirectory} {
      RestingFinishes(mode, o, k, base, lost, a, b, op);
    } else {
      assert b.now.pending[..|b.now.pending| - 1] == a.now.pending;
    }
  }

  lemma HomeFacts(o: Origin, k: Key, lost: View, seen: View, op: Op)
    requires AtHome(o, k, lost, seen, op)
    ensures Mine(op, k) && !op.Promote? && Retires(op) <= {StageDirectory}
    ensures Touches(op) - Retires(op) == {RecordDirectory}
      || (op == StageService(InQueue(k.sequence), k.eventId) && !PrivateOp(seen, op) && Retires(op) == {})
    ensures PrivateOp(seen, op) ==> op == SetStage(InQueue(k.sequence), None)
  {
  }

  lemma RestingIssue(m: Moment, op: Op)
    requires (forall p | p in m.pending :: p.dirty <= {RecordDirectory}) && Retires(op) <= {StageDirectory}
    ensures m.Issue(op) == Moment(m.durable, m.pending + [Issued(op, Touches(op) - Retires(op))])
  {
    hide Touches, Retires;
    assert forall i | 0 <= i < |m.pending| :: m.pending[i] in m.pending && m.pending[i].dirty - Retires(op) == m.pending[i].dirty;
    assert Wiped(m.pending, Retires(op)) == m.pending;
  }

  lemma RestingFinishes(mode: Mode, o: Origin, k: Key, base: Disk, lost: Disk, a: State, b: State, op: Op)
    requires Resting(mode, o, k, base, lost, a) && Issues(Recovering, k, a, b, op) && Next(k, ViewOf(a, k), op)
    requires Touches(op) - Retires(op) == {RecordDirectory} && !op.Promote? && Mine(op, k)
    requires PrivateOp(ViewOf(a, k), op) ==> op == SetStage(InQueue(k.sequence), None)
    requires b.now == Moment(a.now.durable, a.now.pending + [Issued(op, {RecordDirectory})])
    ensures Finishing(o, k, base, b)
  {
    hide Waiting, Promoted, Recovered, Kept, Fine, Fair, Apply, Survivors, Visible, Overtaken, Allows, Recoverable, Honest;
    WorldsHold(mode, o, k, base, a.now, lost);
    WorldDirties(mode, o, k, base, a.now, lost);
    var last, seen := Issued(op, {RecordDirectory}), ViewOf(a, k);
    IssuingIsVisible(a.now, op);
    OperationsAreLocal(a.now.Disk(), op, k);
    NextIsFine(mode, o, k, base, a.now, lost, op);
    forall s | s in b.now.Left()
      ensures Fair(o, k, s, b.journal) && HolderIn(Look(s, k), k) == HolderIn(seen, k)
    {
      var d := LastMayBeMissing(a.now.durable, a.now.pending, last, s);
    }
    VisibleSurvives(b.now.durable, b.now.pending);
  }

  /** What recovery does next is fine in every world. */
  lemma NextIsFine(mode: Mode, o: Origin, k: Key, base: Disk, now: Moment, lost: Disk, op: Op)
    requires TwoWorlds(mode, o, k, base, now, lost) && Next(k, Look(now.Disk(), k), op)
    ensures var seen := Look(now.Disk(), k);
      var j := JournalSeen(seen, NO_JOURNAL);
      && Fine(o, k, base, Apply(now.Disk(), op), j)
      && forall d | d in now.Left() ::
           Fair(o, k, Apply(d, op), j) && HolderIn(Look(Apply(d, op), k), k) == HolderIn(seen, k)
  {
    hide Waiting, Promoted, Recovered, Kept, Fine, Apply, Effect, Survivors, Visible, Overtaken, Allows, Recoverable, Mendable;
    hide Honest;
    WorldsHold(mode, o, k, base, now, lost);
    WorldJournals(mode, o, k, Look(lost, k), now.pending[0]);
    var l, seen := Look(lost, k), Look(now.Disk(), k);
    OvertakenNext(mode, o, k, l, now.pending[0], op);
    HomeFacts(o, k, l, seen, op);
    OperationsAreLocal(lost, op, k);
    AllowedIsFine(Recovering, o, k, base, now.Disk(), op);
    OperationsAreLocal(now.Disk(), op, k);
    StaysWhereItIs(k, l, op);
    StaysWhereItIs(k, seen, op);
    AllowedIsMendable(o, k, seen, op);
  }

  lemma StaysWhereItIs(k: Key, v: View, op: Op)
    requires Mine(op, k) && !op.Promote? && (v.queued.Some? || v.current.Some?)
    ensures HolderIn(Effect(v, op), k) == HolderIn(v, k)
  {
  }

  /** The next operation of a transaction where everything is as it should be. */
  lemma AllowedIsFine(mode: Mode, o: Origin, k: Key, base: Disk, d: Disk, op: Op)
    requires InTransaction(o, k, Look(d, k)) && Honest(Look(d, k)) && KeptInQueue(base, d, k) && Allows(mode, k, Look(d, k), op)
    ensures Fine(o, k, base, Apply(d, op), JournalSeen(Look(d, k), NO_JOURNAL))
  {
    hide Waiting, Promoted, Recovered, Kept, Apply, Effect, Allows, Honest;
    AllowedSees(mode, o, k, Look(d, k), op);
    AllowedKeeps(mode, o, k, Look(d, k), op);
    AllowedStaysHonest(mode, o, k, Look(d, k), op);
    OperationsAreLocal(d, op, k);
    IssuingKeepsQueued(mode, k, base, d, op);
    StillThere(o, k, Effect(Look(d, k), op));
  }

  lemma AllowedIsMendable(o: Origin, k: Key, v: View, op: Op)
    requires InTransaction(o, k, v) && Honest(v) && Undisputed(o) && Allows(Recovering, k, v, op)
    ensures Mendable(o, k, Effect(v, op)) && Mendable(o, k, WithJournal(Effect(v, op), JournalSeen(v, NO_JOURNAL)))
  {
    hide Waiting, Promoted, Recovered, Effect, Allows, Honest, Mendable;
    AllowedSees(Recovering, o, k, v, op);
    AllowedKeeps(Recovering, o, k, v, op);
    AllowedStaysHonest(Recovering, o, k, v, op);
    ProtocolIsMendable(o, k, Effect(v, op));
    WithJournalIsHonest(Effect(v, op), JournalIn(v));
    ProtocolIsMendable(o, k, WithJournal(Effect(v, op), JournalIn(v)));
  }

  lemma StagingGoesOn(mode: Mode, o: Origin, k: Key, base: Disk, lost: Disk, a: State, b: State)
    requires StagingOn(mode, o, k, base, lost, a) && Advances(Recovering, k, a, b)
    ensures
      || StagingOn(mode, o, k, base, lost, b) || (b.noted && Holding(o, k, base, b))
      || Resting(mode, o, k, base, Apply(lost, StageService(InQueue(k.sequence), k.eventId)), b)
  {
    hide Waiting, Promoted, Recovered, Kept, Fine, Apply, Effect, Survivors, Visible, Overtaken, Allows, TwoWorlds;
    if directory :| Syncs(k, a, b, directory) {
      StagingSyncs(mode, o, k, base, lost, a, b, directory);
    } else {
      var evidence :| Notes(Recovering, k, a, b, evidence);
      StagingHolds(mode, o, k, base, lost, a);
      NoteHolds(o, k, base, a, b, evidence);
    }
  }

  lemma StagingHolds(mode: Mode, o: Origin, k: Key, base: Disk, lost: Disk, a: State)
    requires StagingOn(mode, o, k, base, lost, a)
    ensures Holding(o, k, base, a) && forall p | p in a.now.pending :: !p.op.Promote?
    ensures forall d | d in a.now.Left() :: HolderIn(Look(d, k), k) == HolderIn(ViewOf(a, k), k)
  {
    hide Waiting, Promoted, Recovered, Kept, Fine, Fair, Apply, Effect, Survivors, Visible, Overtaken, Allows, Recoverable, Honest;
    var pending, last := a.now.pending[..|a.now.pending| - 1], a.now.pending[|a.now.pending| - 1];
    var before := Moment(a.now.durable, pending);
    assert a.now.pending == pending + [last];
    WorldsHold(mode, o, k, base, before, lost);
    NextStagesService(mode, o, k, base, before, lost, last.op);
    NextIsFine(mode, o, k, base, before, lost, last.op);
    VisibleGrows(a.now.durable, pending, last);
    forall s | s in a.now.Left()
      ensures Fair(o, k, s, a.journal) && HolderIn(Look(s, k), k) == HolderIn(Look(before.Disk(), k), k)
    {
      var d := LastMayBeMissing(a.now.durable, pending, last, s);
    }
    VisibleSurvives(a.now.durable, a.now.pending);
  }

  lemma NextStagesService(mode: Mode, o: Origin, k: Key, base: Disk, before: Moment, lost: Disk, op: Op)
    requires TwoWorlds(mode, o, k, base, before, lost) && Allows(Recovering, k, Look(before.Disk(), k), op)
    requires op == StageService(InQueue(k.sequence), k.eventId)
    ensures Next(k, Look(before.Disk(), k), op)
  {
  }

  /** The preceding record is staged in both worlds. */
  lemma StagedNext(mode: Mode, o: Origin, k: Key, base: Disk, lost: Disk, before: Moment, op: Op)
    requires TwoWorlds(mode, o, k, base, before, lost) && Allows(Recovering, k, Look(before.Disk(), k), op)
    requires op == StageService(InQueue(k.sequence), k.eventId)
    ensures var l, w := Look(lost, k), before.pending[0];
      && Mine(op, k) && Overtaken(mode, o, k, Effect(l, op), w) && Effect(Effect(l, op), w.op) == Effect(Effect(l, w.op), op)
  {
    hide Waiting, Promoted, Recovered, Kept, Apply, Effect, Survivors, Visible, Overtaken, Recoverable, Allows;
    NextStagesService(mode, o, k, base, before, lost, op);
    OvertakenNext(mode, o, k, Look(lost, k), before.pending[0], op);
  }

  lemma StagingSyncs(mode: Mode, o: Origin, k: Key, base: Disk, lost: Disk, a: State, b: State, directory: Directory)
    requires StagingOn(mode, o, k, base, lost, a) && Syncs(k, a, b, directory)
    ensures StagingOn(mode, o, k, base, lost, b)
      || Resting(mode, o, k, base, Apply(lost, StageService(InQueue(k.sequence), k.eventId)), b)
  {
    hide Waiting, Promoted, Recovered, Kept, Fine, Apply, Effect, Survivors, Visible, Overtaken, Allows;
    var pending, last := a.now.pending[..|a.now.pending| - 1], a.now.pending[|a.now.pending| - 1];
    var before := Moment(a.now.durable, pending);
    WorldDirties(mode, o, k, base, before, lost);
    var later := Issued(last.op, last.dirty - {directory});
    assert forall i | 0 <= i < |pending| ::
      a.now.pending[i] == pending[i] && pending[i] in pending && pending[i].dirty - {directory} == pending[i].dirty;
    assert Wiped(a.now.pending, {directory}) == pending + [later];
    assert pending[0] in pending + [later] && RecordDirectory in pending[0].dirty by {
      FirstDirty(mode, o, k, base, before, lost);
    }
    assert b.now == Moment(a.now.durable, pending + [later]);
    if b.due == {} {
      StagedWorlds(mode, o, k, base, lost, before, later);
      WorldsHold(mode, o, k, base, b.now, Apply(lost, last.op));
    } else {
      assert b.now.pending[..|b.now.pending| - 1] == pending;
    }
  }

  lemma FirstDirty(mode: Mode, o: Origin, k: Key, base: Disk, now: Moment, lost: Disk)
    requires TwoWorlds(mode, o, k, base, now, lost)
    ensures now.pending[0].dirty == {RecordDirectory}
  {
  }

  lemma StagedWorlds(mode: Mode, o: Origin, k: Key, base: Disk, lost: Disk, before: Moment, later: Issued)
    requires TwoWorlds(mode, o, k, base, before, lost) && Allows(Recovering, k, Look(before.Disk(), k), later.op)
    requires later == Issued(StageService(InQueue(k.sequence), k.eventId), {})
    ensures TwoWorlds(mode, o, k, base, Moment(before.durable, before.pending + [later]), Apply(lost, later.op))
  {
    hide Waiting, Promoted, Recovered, Kept, Fine, Apply, Effect, Survivors, Visible, Overtaken, Allows;
    StagedNext(mode, o, k, base, lost, before, later.op);
    var now, moved := Moment(before.durable, before.pending + [later]), Apply(lost, later.op);
    VisibleGrows(before.durable, before.pending, later);
    OperationsAreLocal(lost, later.op, k);
    OperationsAreLocal(before.Disk(), later.op, k);
    OperationKeepsQueued(k, base, before.Disk(), later.op);
    assert now.pending[1..] == before.pending[1..] + [later];
    forall s | s in now.Left() ensures s == moved || s == now.Disk() {
      var d := LastMayBeMissing(before.durable, before.pending, later, s);
      assert d in before.Left();
    }
  }

  // A native tree that only the stage has still to make durable stays in its place or in the stage, until the preceding
  // record is staged beside it and the stage is synced.

  predicate Either<T(==)>(tree: T, place: Option<T>, held: Held<T>) {
    (place == Some(tree) && held.Absent?) || (place.None? && held == Intact(tree))
  }

  predicate TreesBase(o: Origin, k: Key, v: View) {
    && Waiting(o, k, v) && v.queued.Some? && v.queued.value.stage.Some? && v.bundle.None?
    && v.products.Some? && v.current.Some? && JournalIn(v).completed == []
    && Honest(v) && Undisputed(o)
  }

  /** `x` is `v` but for where the trees are and, perhaps, the first checkpoint. */
  predicate TreesWorld(v: View, x: View) {
    && v.queued.Some? && v.queued.value.stage.Some? && v.queued.value.journal.Some? && v.products.Some? && v.current.Some?
    && x.queued.Some? && x.queued.value.stage.Some? && x.bundle == v.bundle
    && x.queued.value == v.queued.value.(journal := x.queued.value.journal, stage := x.queued.value.stage)
    && (x.queued.value.journal == v.queued.value.journal || x.queued.value.journal == Some(Marked(JournalIn(v), ProductsStaged)))
    && Either(v.products.value, x.products, x.queued.value.stage.value.products)
    && Either(v.current.value, x.current, x.queued.value.stage.value.service)
  }

  predicate TreesOp(k: Key, v: View, op: Op) {
    match op
    case StageProducts(at, e) => at == InQueue(k.sequence) && e == k.eventId
    case StageService(at, e) => at == InQueue(k.sequence) && e == k.eventId
    case WriteJournal(at, j) =>
      at == InQueue(k.sequence) && v.queued.Some? && v.queued.value.journal.Some? && j == Marked(JournalIn(v), ProductsStaged)
    case _ => false
  }

  lemma TreesOpKeeps(k: Key, v: View, d: Disk, op: Op)
    requires TreesWorld(v, Look(d, k)) && TreesOp(k, v, op)
    ensures TreesWorld(v, Look(Apply(d, op), k))
  {
    hide Apply, Marked;
    OperationsAreLocal(d, op, k);
  }

  lemma {:induction false} TreesSurvive(k: Key, v: View, durable: Disk, pending: seq<Issued>)
    requires TreesWorld(v, Look(durable, k)) && forall p | p in pending :: TreesOp(k, v, p.op)
    ensures forall d | d in Survivors(durable, pending) :: TreesWorld(v, Look(d, k))
    decreases |pending|
  {
    hide Apply, TreesWorld;
    if pending != [] {
      TreesOpKeeps(k, v, durable, pending[0].op);
      TreesSurvive(k, v, Apply(durable, pending[0].op), pending[1..]);
      TreesSurvive(k, v, durable, pending[1..]);
    }
  }

  lemma TreesWorldIsMendable(o: Origin, k: Key, v: View, x: View)
    requires TreesBase(o, k, v) && TreesWorld(v, x)
    ensures Mendable(o, k, x) && x.queued.Some? && Honest(x)
  {
    hide Status.Valid, Status.SameIdentity, Explained;
  }

  lemma TreesWorldIsFair(o: Origin, k: Key, v: View, d: Disk, journal: Journal)
    requires TreesBase(o, k, v) && TreesWorld(v, Look(d, k))
    requires Some(journal) == v.queued.value.journal || journal == Marked(JournalIn(v), ProductsStaged)
    ensures Fair(o, k, d, journal)
  {
    hide Waiting, Mendable, Marked, Honest;
    TreesWorldIsMendable(o, k, v, Look(d, k));
    TreesWorldIsMendable(o, k, v, WithJournal(Look(d, k), journal));
  }

  predicate TreesFloat(o: Origin, k: Key, base: Disk, v: View, s: State) {
    var pending := s.now.pending;
    && TreesBase(o, k, v) && TreesWorld(v, Look(s.now.durable, k)) && (forall p | p in pending :: TreesOp(k, v, p.op))
    && !s.noted && !s.private && Fine(o, k, base, s.now.Disk(), s.journal) && ViewOf(s, k).products.None?
    && (Some(s.journal) == v.queued.value.journal || s.journal == Marked(JournalIn(v), ProductsStaged))
    && TreesPhase(s, ViewOf(s, k).current.Some?) && (s.due == {} ==> JournalSeen(ViewOf(s, k), NO_JOURNAL) == s.journal)
  }

  /** The process owes nothing, or its checkpoint, or the rename of the preceding record. */
  predicate TreesPhase(s: State, inPlace: bool) {
    var pending, n := s.now.pending, |s.now.pending| - 1;
    if s.due == {} then
      inPlace && n >= 0 && pending[0].dirty == {StageDirectory} && forall p | p in pending :: p.dirty <= {StageDirectory}
    else if s.due == {RecordDirectory} then
      && inPlace && n >= 1 && pending[0].dirty == {StageDirectory} && pending[n].dirty == {RecordDirectory}
      && forall i | 0 <= i < n :: pending[i].dirty <= {StageDirectory}
    else
      && n >= 1 && s.due <= {EventsRoot, StageDirectory} && pending[n].dirty == s.due
      && forall i | 0 <= i < n :: pending[i].dirty <= {StageDirectory} * s.due
  }

  lemma TreesHold(o: Origin, k: Key, base: Disk, v: View, s: State)
    requires TreesFloat(o, k, base, v, s)
    ensures Holding(o, k, base, s) && s.now.Disk() in s.now.Left()
    ensures forall d | d in s.now.Left() :: TreesWorld(v, Look(d, k)) && HolderIn(Look(d, k), k) == InQueue(k.sequence)
    ensures forall p | p in s.now.pending :: !p.op.Promote?
  {
    hide Fine, Fair, Apply, TreesPhase, TreesBase, Survivors, Visible, Marked;
    TreesSurvive(k, v, s.now.durable, s.now.pending);
    VisibleSurvives(s.now.durable, s.now.pending);
    forall d | d in s.now.Left() ensures Fair(o, k, d, s.journal) {
      TreesWorldIsFair(o, k, v, d, s.journal);
    }
  }

  /** Recovery checkpoints the one tree and stages the other. */
  lemma TreesNext(o: Origin, k: Key, v: View, x: View, op: Op)
    requires TreesBase(o, k, v) && TreesWorld(v, x) && x.products.None? && x.current.Some? && Allows(Recovering, k, x, op)
    ensures TreesOp(k, v, op) && !PrivateOp(x, op) && Mine(op, k)
    ensures op.WriteJournal? || op.StageService?
    ensures var y := Effect(x, op); y.products.None? && (y.current.Some? <==> op.WriteJournal?)
  {
    hide Status.Valid, Honest, SameCalculation, JournalOf;
  }

  lemma TreesOn(o: Origin, k: Key, base: Disk, v: View, a: State, b: State)
    requires TreesFloat(o, k, base, v, a) && Advances(Recovering, k, a, b)
    ensures TreesFloat(o, k, base, v, b) || Sound(Recovering, o, k, base, b) || (b.noted && Holding(o, k, base, b))
  {
    hide TreesFloat, Sound, Holding, Issues, Syncs, Notes, HolderIn, TreesWorld, Survivors, Visible;
    TreesHold(o, k, base, v, a);
    if op :| Issues(Recovering, k, a, b, op) {
      TreesIssue(o, k, base, v, a, b, op);
    } else if directory :| Syncs(k, a, b, directory) {
      TreesSync(o, k, base, v, a, b, directory);
    } else {
      var evidence :| Notes(Recovering, k, a, b, evidence);
      NoteHolds(o, k, base, a, b, evidence);
    }
  }

  lemma TreesIssue(o: Origin, k: Key, base: Disk, v: View, a: State, b: State, op: Op)
    requires TreesFloat(o, k, base, v, a) && Issues(Recovering, k, a, b, op)
    ensures TreesFloat(o, k, base, v, b)
  {
    hide Waiting, Promoted, Recovered, Kept, Fine, Apply, Effect, Allows, TreesBase, TreesWorld, Marked, Survivors, Visible, Honest;
    TreesHold(o, k, base, v, a);
    var x := ViewOf(a, k);
    TreesWorldIsMendable(o, k, v, x);
    TreesNext(o, k, v, x, op);
    FineIsOpen(o, k, base, a.now.Disk(), a.journal);
    AllowedIsFine(Recovering, o, k, base, a.now.Disk(), op);
    PlainIssue(a.now, op);
    IssuingIsVisible(a.now, op);
    OperationsAreLocal(a.now.Disk(), op, k);
    var pending := b.now.pending;
    assert pending == a.now.pending + [Issued(op, Touches(op))] && b.due == Touches(op);
    assert forall i | 0 <= i < |pending| - 1 :: pending[i] == a.now.pending[i] && pending[i] in a.now.pending;
  }

  lemma FineIsOpen(o: Origin, k: Key, base: Disk, d: Disk, journal: Journal)
    requires Fine(o, k, base, d, journal) && Look(d, k).queued.Some?
    ensures InTransaction(o, k, Look(d, k)) && KeptInQueue(base, d, k)
  {
  }

  lemma TreesSync(o: Origin, k: Key, base: Disk, v: View, a: State, b: State, directory: Directory)
    requires TreesFloat(o, k, base, v, a) && Holding(o, k, base, a) && Syncs(k, a, b, directory)
    ensures TreesFloat(o, k, base, v, b) || Sound(Recovering, o, k, base, b)
  {
    hide Waiting, Promoted, Recovered, Kept, Fine, Fair, Apply, Effect, Allows, TreesBase, TreesWorld, Marked, Survivors, Visible;
    SyncingIsInvisible(a.now, directory);
    var wiped := Wiped(a.now.pending, {directory});
    if AllClean(wiped) {
      TreesClean(a, ViewOf(a, k).current.Some?, directory);
      SyncSettles(o, k, base, a, b, directory);
    } else {
      TreesPhaseOn(a, b, ViewOf(a, k).current.Some?, directory);
      assert forall p | p in wiped :: TreesOp(k, v, p.op) by {
        WipedOnly(a.now.pending, directory);
      }
      if b.due == {} {
        TreesJournal(o, k, base, v, a);
      }
    }
  }

  lemma TreesJournal(o: Origin, k: Key, base: Disk, v: View, s: State)
    requires TreesFloat(o, k, base, v, s)
    ensures var j := JournalSeen(ViewOf(s, k), s.journal);
      && JournalSeen(ViewOf(s, k), NO_JOURNAL) == j && Fine(o, k, base, s.now.Disk(), j)
      && (Some(j) == v.queued.value.journal || j == Marked(JournalIn(v), ProductsStaged))
  {
    hide Waiting, Promoted, Recovered, Kept, Fine, Apply, TreesPhase, Survivors, Visible, TreesBase, Marked;
    TreesHold(o, k, base, v, s);
    SeenJournal(o, k, base, s.now.Disk(), s.journal);
  }

  lemma TreesClean(s: State, inPlace: bool, directory: Directory)
    requires TreesPhase(s, inPlace) && AllClean(Wiped(s.now.pending, {directory}))
    requires s.due == {} || directory in s.due
    ensures s.due - {directory} == {}
  {
    var wiped := Wiped(s.now.pending, {directory});
    assert wiped[0] in wiped && wiped[|wiped| - 1] in wiped;
    if s.due != {} && s.due != {RecordDirectory} {
      assert wiped[|wiped| - 1].dirty == s.due - {directory};
    }
  }

  lemma TreesPhaseOn(a: State, b: State, inPlace: bool, directory: Directory)
    requires TreesPhase(a, inPlace) && !AllClean(Wiped(a.now.pending, {directory}))
    requires a.due == {} || directory in a.due
    requires b.due == a.due - {directory} && b.now == a.now.Sync(directory)
    ensures TreesPhase(b, inPlace)
  {
    var pending, wiped, n := a.now.pending, Wiped(a.now.pending, {directory}), |a.now.pending| - 1;
    assert b.now.pending == wiped;
    if a.due == {} && directory == StageDirectory {
      assert false;
    } else if a.due == {RecordDirectory} {
      assert b.due == {} && wiped[0].dirty == {StageDirectory};
    } else if a.due != {} && b.due == {} {
      assert false;
    }
  }

  // --------------------------------------------------------------- the theorem

  /** Where recovery may be, begun over something harmless. */
  ghost predicate Unharmed(mode: Mode, o: Origin, k: Key, base: Disk, s: State) {
    && Opened(o, k, base)
    && (|| Sound(Recovering, o, k, base, s)
        || (s.noted && Holding(o, k, base, s))
        || (exists like :: StageFloats(o, k, base, like, s))
        || (exists v, intent :: CandidateFloats(o, k, base, v, intent, s))
        || (exists v :: TreesFloat(o, k, base, v, s))
        || (exists lost :: Resting(mode, o, k, base, lost, s))
        || (exists lost :: StagingOn(mode, o, k, base, lost, s))
        || Finishing(o, k, base, s))
  }

  lemma UnharmedOn(mode: Mode, o: Origin, k: Key, base: Disk, a: State, b: State)
    requires Unharmed(mode, o, k, base, a) && Advances(Recovering, k, a, b)
    ensures Unharmed(mode, o, k, base, b)
  {
    hide Advances, Sound, Holding, StageFloats, CandidateFloats, TreesFloat, Resting, StagingOn, Finishing, Opened;
    if Sound(Recovering, o, k, base, a) {
      AdvanceIsSound(Recovering, o, k, base, a, b);
    } else if a.noted && Holding(o, k, base, a) {
      NotedHolds(o, k, base, a, b);
    } else if like :| StageFloats(o, k, base, like, a) {
      StageFloatsOn(o, k, base, like, a, b);
    } else if v, intent :| CandidateFloats(o, k, base, v, intent, a) {
      CandidateFloatsOn(o, k, base, v, intent, a, b);
    } else if v :| TreesFloat(o, k, base, v, a) {
      TreesOn(o, k, base, v, a, b);
    } else if lost :| Resting(mode, o, k, base, lost, a) {
      RestingOn(mode, o, k, base, lost, a, b);
    } else if lost :| StagingOn(mode, o, k, base, lost, a) {
      StagingGoesOn(mode, o, k, base, lost, a, b);
    } else {
      FinishingOn(o, k, base, a, b);
    }
  }

  lemma UnharmedHolds(mode: Mode, o: Origin, k: Key, base: Disk, s: State)
    requires Unharmed(mode, o, k, base, s)
    ensures forall d | d in s.now.Left() :: Fair(o, k, d, s.journal)
  {
    hide Fair, Fine, Survivors, Visible, Overtaken, StageFloats, CandidateFloats, TreesFloat, TwoWorlds, StagingOn, Opened;
    hide Shaped, Starting;
    if Sound(Recovering, o, k, base, s) {
      FineHolds(o, k, base, s);
    } else if like :| StageFloats(o, k, base, like, s) {
      StageFloatsHold(o, k, base, like, s);
    } else if v, intent :| CandidateFloats(o, k, base, v, intent, s) {
      CandidateFloatsHold(o, k, base, v, intent, s);
    } else if v :| TreesFloat(o, k, base, v, s) {
      TreesHold(o, k, base, v, s);
    } else if lost :| Resting(mode, o, k, base, lost, s) {
      WorldsHold(mode, o, k, base, s.now, lost);
      RestingJournal(mode, o, k, base, lost, s);
    } else if lost :| StagingOn(mode, o, k, base, lost, s) {
      StagingHolds(mode, o, k, base, lost, s);
    }
  }

  lemma RestingJournal(mode: Mode, o: Origin, k: Key, base: Disk, lost: Disk, s: State)
    requires Resting(mode, o, k, base, lost, s)
    ensures s.journal == JournalSeen(Look(s.now.Disk(), k), NO_JOURNAL)
  {
    hide TwoWorlds;
  }

  lemma StageFloatsHold(o: Origin, k: Key, base: Disk, like: Op, s: State)
    requires Opened(o, k, base) && StageFloats(o, k, base, like, s)
    ensures Holding(o, k, base, s)
  {
    hide Waiting, Promoted, Recovered, Survivors, Visible, Fine, Fair;
    VaryingIsFine(o, k, base, s, like);
    FineHolds(o, k, base, s);
  }

  /** What recovery finds fair it can mend. */
  lemma UnharmedIsSafe(mode: Mode, o: Origin, k: Key, base: Disk, s: State)
    requires Unharmed(mode, o, k, base, s)
    ensures Safe(o, k, s.now)
  {
    hide Unharmed, Survivors, CanMend, Mendable;
    UnharmedHolds(mode, o, k, base, s);
    forall d | d in s.now.Left() ensures CanMend(o, k, Look(d, k)) {
      MendableCanMend(o, k, Look(d, k));
    }
  }

  lemma MendableCanMend(o: Origin, k: Key, v: View)
    requires Mendable(o, k, v)
    ensures CanMend(o, k, v)
  {
    hide Mendable, Mends;
    MendableMends(o, k, v, Remaining(v));
  }

  /** From each thing an interrupted process may leave that is not harmful, recovery starts unharmed. */
  lemma RestartsUnharmed(mode: Mode, o: Origin, k: Key, d: Disk, s: State)
    requires Interrupted(mode, o, k, d, s) && !LeftHarmful(k, s.now)
    ensures Unharmed(mode, o, k, d, Restarted(s.now, k))
  {
    hide Waiting, Promoted, Recovered, Reaches, Kept, Fine, Varying, StageFloats, CandidateFloats, TreesFloat, Resting, Harmful;
    hide Honest;
    WhereItIs(o, k, Look(d, k));
    CourseIsSound(mode, o, k, d, JournalIn(Look(d, k)), s);
    if s.now.pending == [] {
      RestartsSettled(mode, o, k, d, s);
    } else if s.private {
      var like :| Varying(o, k, d, s, like);
      RestartsPrivate(mode, o, k, d, s, like);
    } else {
      RestartsOverOne(mode, o, k, d, s);
    }
  }

  lemma RestartsSettled(mode: Mode, o: Origin, k: Key, d: Disk, s: State)
    requires Sound(mode, o, k, d, s) && s.now.pending == [] && InTransaction(o, k, ViewOf(s, k))
    ensures Sound(Recovering, o, k, d, Restarted(s.now, k))
  {
    hide Waiting, Promoted, Recovered, Kept;
    WhereItIs(o, k, ViewOf(s, k));
    SeenJournal(o, k, d, s.now.durable, s.journal);
  }

  lemma RestartsPrivate(mode: Mode, o: Origin, k: Key, d: Disk, s: State, like: Op)
    requires Opened(o, k, d) && Sound(mode, o, k, d, s) && s.now.pending != [] && Varying(o, k, d, s, like)
    ensures StageFloats(o, k, d, like, Restarted(s.now, k))
      || exists v, intent :: CandidateFloats(o, k, d, v, intent, Restarted(s.now, k))
  {
    hide Waiting, Promoted, Recovered, Kept, Fine, Apply, Effect, Survivors, Visible;
    VaryingIsFine(o, k, d, s, like);
    VisibleSurvives(s.now.durable, s.now.pending);
    WhereItIs(o, k, ViewOf(s, k));
    WhereItIs(o, k, Look(s.now.durable, k));
    if like.SetCandidate? {
      var v := Look(s.now.durable, k);
      var j := JournalIn(v);
      var intent := j.(intents := j.intents.(candidateRemovalStarted := true));
      assert j.intents.candidateRemovalStarted ==> intent == j;
      assert CandidateFloats(o, k, d, v, intent, Restarted(s.now, k));
    }
  }

  lemma RestartsOverOne(mode: Mode, o: Origin, k: Key, d: Disk, s: State)
    requires Sound(mode, o, k, d, s) && s.now.pending != [] && !s.private && !s.noted && Opened(o, k, d)
    requires InTransaction(o, k, ViewOf(s, k)) && !LeftHarmful(k, s.now)
    ensures (exists v, intent :: CandidateFloats(o, k, d, v, intent, Restarted(s.now, k)))
      || (exists v :: TreesFloat(o, k, d, v, Restarted(s.now, k)))
      || Resting(mode, o, k, d, s.now.durable, Restarted(s.now, k))
  {
    hide Waiting, Promoted, Recovered, Kept, Apply, Effect, Allows, Honest;
    var v, p := Look(s.now.durable, k), s.now.pending[0];
    assert s.now.pending == [p] && p in s.now.pending;
    OneSurvives(s.now.durable, p.op, p.dirty);
    assert s.now.durable in s.now.Left();
    LeftOneFacts(mode, o, k, s.now);
    WhereItIs(o, k, v);
    WhereItIs(o, k, ViewOf(s, k));
    LeftHarmless(mode, o, k, v, p);
    if StartsCandidateRemoval(v, p.op) {
      RestartsOverIntent(mode, o, k, d, s, v, p);
    } else if p.op.StageProducts? {
      RestartsOverTree(mode, o, k, d, s, v, p);
    } else {
      assert s.now.pending[1..] == [] && s.now.durable in s.now.Left() && s.now.Disk() in s.now.Left();
    }
  }

  /** What is not harmful concerns the record directory only, or a tree that is still to be joined in the stage. */
  lemma LeftHarmless(mode: Mode, o: Origin, k: Key, v: View, p: Issued)
    requires Latest(mode, o, k, v, p) && {} < p.dirty <= Touches(p.op) && !Harmful(k, v, p)
    requires InTransaction(o, k, Effect(v, p.op)) && Undisputed(o) && Honest(v)
    ensures !p.op.Promote?
    ensures if p.op.StageProducts? then p.dirty == {StageDirectory} && v.current.Some?
            else p.dirty == {RecordDirectory} && (StartsCandidateRemoval(v, p.op) || Overtaken(mode, o, k, v, p))
  {
    hide Waiting, Promoted, Honest;
    RecordOnly(p);
  }

  lemma RestartsOverTree(mode: Mode, o: Origin, k: Key, d: Disk, s: State, v: View, p: Issued)
    requires Sound(mode, o, k, d, s) && s.now.pending == [p] && v == Look(s.now.durable, k)
    requires LeftOne(mode, o, k, s.now) && p.op.StageProducts? && p.dirty == {StageDirectory} && v.current.Some?
    ensures TreesFloat(o, k, d, v, Restarted(s.now, k))
  {
    hide Promoted, Recovered, Kept, Apply, Fine, Survivors, Visible, Honest;
    LeftOneFacts(mode, o, k, s.now);
    VisibleSurvives(s.now.durable, s.now.pending);
    SeenJournal(o, k, d, s.now.Disk(), s.journal);
    TreesStart(mode, o, k, v, p.op);
  }

  lemma TreesStart(mode: Mode, o: Origin, k: Key, v: View, op: Op)
    requires InTransaction(o, k, v) && Undisputed(o) && Honest(v) && Allows(mode, k, v, op) && op.StageProducts? && v.current.Some?
    ensures TreesBase(o, k, v) && TreesWorld(v, v) && TreesOp(k, v, op)
    ensures var x := Effect(v, op);
      x.products.None? && x.current.Some? && x.queued.Some? && x.queued.value.journal == v.queued.value.journal
  {
    hide Honest;
  }

  /** A candidate is there when its removal is recorded. */
  lemma IntentFacts(mode: Mode, o: Origin, k: Key, v: View, op: Op)
    requires InTransaction(o, k, v) && Allows(mode, k, v, op) && StartsCandidateRemoval(v, op)
    ensures v.queued.None? && Promoted(o, k, v) && v.products.None? && v.current.value.candidate.Some?
    ensures op.at == InEvents(k.eventId) && 4 <= |JournalIn(v).completed| <= 5
    ensures op.journal == JournalIn(v).(intents := JournalIn(v).intents.(candidateRemovalStarted := true))
  {
  }

  lemma RestartsOverIntent(mode: Mode, o: Origin, k: Key, d: Disk, s: State, v: View, p: Issued)
    requires Sound(mode, o, k, d, s) && s.now.pending == [p] && v == Look(s.now.durable, k)
    requires LeftOne(mode, o, k, s.now) && !Harmful(k, v, p) && StartsCandidateRemoval(v, p.op) && p.dirty == {RecordDirectory}
    ensures CandidateFloats(o, k, d, v, p.op.journal, Restarted(s.now, k))
  {
    hide Waiting, Promoted, Recovered, Kept, Apply, Survivors, Visible;
    LeftOneFacts(mode, o, k, s.now);
    IntentFacts(mode, o, k, v, p.op);
    OneSurvives(s.now.durable, p.op, p.dirty);
    assert p in s.now.pending;
    WhereItIs(o, k, v);
    WhereItIs(o, k, ViewOf(s, k));
    assert s.now.durable in s.now.Left();
  }

  lemma {:induction false} RunStaysUnharmed(mode: Mode, o: Origin, k: Key, base: Disk, run: seq<State>, i: nat)
    requires Run(Recovering, k, run) && Unharmed(mode, o, k, base, run[0]) && i < |run|
    ensures Unharmed(mode, o, k, base, run[i])
  {
    hide Unharmed, Advances;
    if i > 0 {
      RunStaysUnharmed(mode, o, k, base, run, i - 1);
      UnharmedOn(mode, o, k, base, run[i - 1], run[i]);
    }
  }

  /** Recovery from what an interrupted process left can be struck by a power failure at any later moment, and the next
      one still comes to a good end, exactly when that process left nothing harmful unsynced. */
  lemma RecoveryIsSafeExactlyWhen(mode: Mode, o: Origin, k: Key, d: Disk, s: State)
    requires Interrupted(mode, o, k, d, s)
    ensures (forall t | Reaches(Recovering, k, Restarted(s.now, k), t) :: Safe(o, k, t.now)) <==> !LeftHarmful(k, s.now)
  {
    hide Unharmed, Advances, Interrupted, Safe, Harmful, InTransaction;
    if LeftHarmful(k, s.now) {
      LeftOneHarmful(mode, o, k, d, s);
      var t := HarmfulIsExposed(mode, o, k, s.now);
    } else {
      RestartsUnharmed(mode, o, k, d, s);
      forall t | Reaches(Recovering, k, Restarted(s.now, k), t) ensures Safe(o, k, t.now) {
        var run: seq<State> :| Run(Recovering, k, run) && run[0] == Restarted(s.now, k) && run[|run| - 1] == t;
        RunStaysUnharmed(mode, o, k, d, run, |run| - 1);
        UnharmedIsSafe(mode, o, k, d, t);
      }
    }
  }

  lemma LeftOneHarmful(mode: Mode, o: Origin, k: Key, d: Disk, s: State)
    requires Interrupted(mode, o, k, d, s) && LeftHarmful(k, s.now)
    ensures LeftOne(mode, o, k, s.now)
  {
    hide Waiting, Promoted, Recovered, Reaches, Kept, Fine, Survivors, Visible, Honest;
    WhereItIs(o, k, Look(d, k));
    CourseIsSound(mode, o, k, d, JournalIn(Look(d, k)), s);
    var p := s.now.pending[0];
    assert p in s.now.pending;
    OneSurvives(s.now.durable, p.op, p.dirty);
    if s.private {
      var like :| Varying(o, k, d, s, like);
      if like.SetStage? {
        RemovingFacts(o, k, Look(s.now.durable, k));
      }
      assert false;
    } else {
      assert s.now.pending == [p] && s.now.durable in s.now.Left();
      FineIsKept(o, k, d, s.now.durable, s.journal);
    }
  }
}
