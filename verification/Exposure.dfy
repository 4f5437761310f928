/**
 How a power failure goes wrong after recovery has begun over something an earlier
 process left unsynced.
 */
module Exposure {
  import opened Common
  import opened Disk
  import opened Volumes
  import opened Protocol
  import opened Course
  import opened Mending
  import Status

  /** What one process may leave behind, begun with nothing unsynced and killed, or given up, at any moment. */
  ghost predicate Interrupted(mode: Mode, o: Origin, k: Key, d: Disk, s: State) {
    && InTransaction(o, k, Look(d, k)) && Undisputed(o) && Honest(Look(d, k))
    && Reaches(mode, k, Starting(Moment(d, []), JournalIn(Look(d, k))), s)
    && !s.noted && InTransaction(o, k, ViewOf(s, k))
  }

  /** The next process: it finds the transaction as it looks now. */
  function Restarted(m: Moment, k: Key): State {
    Starting(m, JournalSeen(Look(m.Disk(), k), NO_JOURNAL))
  }

  /** From every disk a power failure could leave, recovery comes to a good end. */
  ghost predicate Safe(o: Origin, k: Key, m: Moment) {
    forall d | d in m.Left() :: CanMend(o, k, Look(d, k))
  }

  /** Recovery builds on this operation before it is synced, and cannot mend its loss; `v` is what was there without it. */
  predicate Harmful(k: Key, v: View, p: Issued) {
    var j := JournalSeen(v, NO_JOURNAL);
    match p.op
    case StageProducts(_, _) => ProductsRoot in p.dirty || v.current.None?
    case StageService(_, _) => true
    case PublishArchive(_, _) => ArchiveRoot in p.dirty
    case Promote(_, _) => true
    case PublishNative(_, _) => true
    case SetStage(_, _) => v.products.Some?
    case WriteJournal(_, next) =>
      || (k.archive.Some? && 2 <= |next.completed| <= 3)
      || (next.intents.stageRemovalStarted && !j.intents.stageRemovalStarted && HasPreceding(next.preceding))
      || (next.intents.candidateRemovalStarted && !j.intents.candidateRemovalStarted && |next.completed| == 5)
    case _ => false
  }

  const NO_JOURNAL := Journal("", 0, false, Preceding(false, false), None, [], Intents(false, false), None)

  /** What an interrupted process left unsynced would be harmful. */
  predicate LeftHarmful(k: Key, m: Moment) {
    m.pending != [] && Harmful(k, Look(m.durable, k), m.pending[0])
  }

  // ------------------------------------------------------ going on regardless

  /** The operation as it is if `p` does not survive. */
  function Elsewhere(p: Op, op: Op): (r: Op)
    ensures r == if p.Promote? then Relocated(op, InEvents(p.eventId), InQueue(p.sequence)) else op
  {
    Without(p, [Issued(op, {})])[0].op
  }

  /** The disk without the first of the operations that are not synced. */
  function LostDisk(m: Moment): Disk
    requires m.pending != []
  {
    Visible(m.durable, Without(m.pending[0].op, m.pending[1..]))
  }

  lemma LostSurvives(m: Moment)
    requires m.pending != [] && m.pending[0].dirty != {}
    ensures LostDisk(m) in m.Left()
  {
    VisibleSurvives(m.durable, Without(m.pending[0].op, m.pending[1..]));
  }

  lemma WithoutSame(p: Op, rest: seq<Issued>, synced: set<Directory>)
    ensures Without(p, Wiped(rest, synced)) == Wiped(Without(p, rest), synced)
  {
  }

  lemma WithoutMore(p: Op, rest: seq<Issued>, last: Issued)
    ensures Without(p, rest + [last]) == Without(p, rest) + [Without(p, [last])[0]]
    ensures Without(p, [last])[0].op == Elsewhere(p, last.op)
  {
  }

  /** `p` was found unsynced and at least these directories of it still are. */
  predicate Wanting(m: Moment, p: Op, wanting: set<Directory>) {
    m.pending != [] && m.pending[0].op == p && {} < wanting <= m.pending[0].dirty
  }

  lemma IssuingLeavesWanting(m: Moment, p: Op, wanting: set<Directory>, op: Op)
    requires Wanting(m, p, wanting) && Retires(op) !! wanting
    ensures Wanting(m.Issue(op), p, wanting) && LostDisk(m.Issue(op)) == Apply(LostDisk(m), Elsewhere(p, op))
  {
    hide Apply, Touches, Retires;
    var rest, last := m.pending[1..], Issued(op, Touches(op) - Retires(op));
    var wiped := Wiped(rest, Retires(op));
    assert m.Issue(op).pending[1..] == wiped + [last];
    WithoutMore(p, wiped, last);
    WithoutSame(p, rest, Retires(op));
    VisibleGrows(m.durable, Without(p, wiped), Without(p, [last])[0]);
    VisibleOnlyNeedsOps(m.durable, Without(p, rest), Retires(op));
  }

  lemma SyncingLeavesWanting(m: Moment, p: Op, wanting: set<Directory>, directory: Directory)
    requires Wanting(m, p, wanting) && directory !in wanting
    ensures Wanting(m.Sync(directory), p, wanting) && LostDisk(m.Sync(directory)) == LostDisk(m)
  {
    hide Apply;
    var wiped := Wiped(m.pending, {directory});
    assert wiped[0] in wiped && wanting <= wiped[0].dirty;
    assert wiped[1..] == Wiped(m.pending[1..], {directory});
    WithoutSame(p, m.pending[1..], {directory});
    VisibleOnlyNeedsOps(m.durable, Without(p, m.pending[1..]), {directory});
  }

  /** Recovery has gone on over `p` from `start`, and owes nothing. */
  ghost predicate GoneOn(k: Key, start: State, s: State, p: Op, wanting: set<Directory>) {
    Reaches(Recovering, k, start, s) && s == Starting(s.now, s.journal) && Wanting(s.now, p, wanting)
  }

  /** Recovery may issue `op` here, and does not sync what is wanting by it. */
  predicate Goes(k: Key, w: View, p: Op, wanting: set<Directory>, op: Op) {
    && Allows(Recovering, k, w, op) && (RemovalStarted(w) ==> PrivateOp(w, op))
    && Mine(op, k) && Mine(Elsewhere(p, op), k) && Retires(op) !! wanting
  }

  /** Recovery may go all this way, and `p` is unsynced to the end. */
  predicate GoesThrough(k: Key, w: View, p: Op, wanting: set<Directory>, steps: seq<Op>)
    decreases |steps|
  {
    steps == []
    || (&& Goes(k, w, p, wanting, steps[0])
        && (|steps| > 1 ==> !PrivateOp(w, steps[0]) && Touches(steps[0]) !! wanting)
        && GoesThrough(k, Effect(w, steps[0]), p, wanting, steps[1..]))
  }

  /** What is there after those steps if `p` is not; `v` is what was there without it before. */
  function Lacking(v: View, p: Op, steps: seq<Op>): View
    decreases |steps|
  {
    if steps == [] then v else Lacking(Effect(v, Elsewhere(p, steps[0])), p, steps[1..])
  }

  lemma OneMore(k: Key, start: State, s: State, p: Op, wanting: set<Directory>, op: Op) returns (t: State)
    requires GoneOn(k, start, s, p, wanting) && Goes(k, ViewOf(s, k), p, wanting, op)
    ensures t == Issuing(k, s, op) && Reaches(Recovering, k, start, t) && Wanting(t.now, p, wanting)
    ensures ViewOf(t, k) == Effect(ViewOf(s, k), op)
    ensures Look(LostDisk(t.now), k) == Effect(Look(LostDisk(s.now), k), Elsewhere(p, op))
  {
    hide Apply, Effect, Allows, Reaches, Touches, Retires, PrivateOp, Elsewhere, Wanting, Mine;
    t := Issuing(k, s, op);
    IssuingReaches(Recovering, k, start, s, t, op);
    IssuingLeavesWanting(s.now, p, wanting, op);
    IssuingIsVisible(s.now, op);
    OperationsAreLocal(s.now.Disk(), op, k);
    WantingIsPending(s.now, p, wanting);
    OperationsAreLocal(LostDisk(s.now), Elsewhere(p, op), k);
  }

  lemma WantingIsPending(m: Moment, p: Op, wanting: set<Directory>)
    requires Wanting(m, p, wanting)
    ensures m.pending != [] && m.pending[0].dirty != {}
  {
  }

  /** Recovery syncs what it owes. */
  lemma {:induction false} PayingUp(k: Key, start: State, s: State, p: Op, wanting: set<Directory>) returns (t: State)
    requires Reaches(Recovering, k, start, s) && Wanting(s.now, p, wanting) && s.due !! wanting && !s.private && !s.noted
    ensures GoneOn(k, start, t, p, wanting)
    ensures ViewOf(t, k) == ViewOf(s, k) && t.now.pending != [] && LostDisk(t.now) == LostDisk(s.now)
    decreases s.due
  {
    hide Reaches, Wanting;
    WantingIsPending(s.now, p, wanting);
    t := s;
    if s.due != {} {
      var directory :| directory in s.due;
      t := Syncing(k, s, directory);
      SyncingReaches(Recovering, k, start, s, t, directory);
      SyncingLeavesWanting(s.now, p, wanting, directory);
      SyncingIsInvisible(s.now, directory);
      t := PayingUp(k, start, t, p, wanting);
    }
  }

  /** If it goes that way, a power failure at the end may take `p` back and keep everything else. */
  lemma {:induction false} ExposedBy(k: Key, start: State, s: State, p: Op, wanting: set<Directory>, steps: seq<Op>)
    returns (t: State, lost: Disk)
    requires GoneOn(k, start, s, p, wanting) && GoesThrough(k, ViewOf(s, k), p, wanting, steps) && steps != []
    ensures Reaches(Recovering, k, start, t) && lost in t.now.Left()
    ensures s.now.pending != [] && Look(lost, k) == Lacking(Look(LostDisk(s.now), k), p, steps)
    decreases |steps|
  {
    hide Apply, Effect, Reaches, Goes, Touches, Retires, Elsewhere, Wanting, LostDisk;
    WantingIsPending(s.now, p, wanting);
    t := OneMore(k, start, s, p, wanting, steps[0]);
    WantingIsPending(t.now, p, wanting);
    if |steps| == 1 {
      LostSurvives(t.now);
      lost := LostDisk(t.now);
    } else {
      var u := PayingUp(k, start, t, p, wanting);
      t, lost := ExposedBy(k, start, u, p, wanting, steps[1..]);
    }
  }

  // -------------------------------------------------- what comes of it, one by one

  lemma OneStep(k: Key, v: View, w: View, p: Op, wanting: set<Directory>, op: Op) returns (steps: seq<Op>)
    requires Goes(k, w, p, wanting, op)
    ensures steps == [op] && GoesThrough(k, w, p, wanting, steps) && Lacking(v, p, steps) == Effect(v, Elsewhere(p, op))
  {
    hide Goes, Effect, Elsewhere;
    steps := [op];
    assert steps[1..] == [];
  }

  lemma StepBefore(k: Key, v: View, w: View, p: Op, wanting: set<Directory>, op: Op, rest: seq<Op>) returns (steps: seq<Op>)
    requires Goes(k, w, p, wanting, op) && !PrivateOp(w, op) && Touches(op) !! wanting
    requires GoesThrough(k, Effect(w, op), p, wanting, rest)
    ensures steps == [op] + rest && GoesThrough(k, w, p, wanting, steps)
    ensures Lacking(v, p, steps) == Lacking(Effect(v, Elsewhere(p, op)), p, rest)
  {
    hide Goes, Effect, Elsewhere, Touches;
    steps := [op] + rest;
    assert steps[1..] == rest;
  }

  lemma DoesThenRaises(k: Key, v: View, op: Op)
    requires Does(k, v, op) && Decide(k, Effect(v, op)) == Raise
    ensures RaisesAfter(k, v, [op])
  {
    hide Does, Decide, Effect;
    assert [op][1..] == [];
    assert Follows(k, Effect(v, op), []) && After(Effect(v, op), []) == Effect(v, op);
  }

  lemma RaisesAtOnce(k: Key, v: View)
    requires Decide(k, v) == Raise
    ensures RaisesAfter(k, v, [])
  {
  }

  lemma QueueDecides(o: Origin, k: Key, v: View)
    requires v.queued.Some? && v.queued.value.journal.Some? && (v.current.Some? ==> v.current.value.journal.None?)
    requires SameCalculation(o, k, v.queued.value) && JournalOf(o, k, v.queued.value, v.queued.value.journal.value)
    ensures Decide(k, v) == RecoverStaging(k, v, v.queued.value, v.queued.value.journal.value)
  {
    hide Loadable, Status.Valid, RecoverStaging;
  }

  lemma EventsDecide(o: Origin, k: Key, v: View)
    requires v.queued.None? && v.current.Some? && v.current.value.journal.Some?
    requires SameCalculation(o, k, v.current.value) && JournalOf(o, k, v.current.value, v.current.value.journal.value)
    ensures Decide(k, v) == FinishPromoted(k, v, v.current.value, v.current.value.journal.value)
  {
    hide Loadable, Status.Valid, FinishPromoted;
  }

  lemma OutOfOrder(completed: seq<Checkpoint>, c: Checkpoint)
    requires InOrder(completed) && |completed| < c.Rank()
    ensures c !in completed && !InOrder(completed + [c])
  {
    assert (completed + [c])[|completed|] == c;
    assert CHECKPOINTS[|completed|].Rank() == |completed|;
    assert forall i | 0 <= i < |completed| :: completed[i] == CHECKPOINTS[i] && CHECKPOINTS[i].Rank() == i;
  }

  /** A journal whose checkpoints are out of order is refused. */
  lemma SpoiltIsRefused(k: Key, v: View)
    requires v.queued.Some? || v.current.Some?
    requires var x := Holder(v);
      && x.record.eventId == k.eventId && x.record.sequence == k.sequence && x.journal.Some?
      && !InOrder(x.journal.value.completed)
    ensures Decide(k, v) == Raise
  {
    hide Status.Valid;
  }

  /** Without the stage it was moved into, the native tree is gone: recovery makes a stage and raises. */
  lemma WithoutStage(mode: Mode, o: Origin, k: Key, v: View, op: Op) returns (steps: seq<Op>)
    requires Waiting(o, k, v) && Undisputed(o) && Allows(mode, k, v, op) && op.SetStage? && v.products.Some?
    ensures GoesThrough(k, Effect(v, op), op, {RecordDirectory}, steps) && steps != []
    ensures var x := Lacking(v, op, steps);
      x.products.None? && x.queued.Some? && x.queued.value.stage.None? && x.bundle.None?
      && RaisesAfter(k, x, [SetStage(InQueue(k.sequence), Some(Stage(Absent, Absent)))])
  {
    hide Decide, Status.Valid;
    var next, again := StageProducts(InQueue(k.sequence), k.eventId), SetStage(InQueue(k.sequence), Some(Stage(Absent, Absent)));
    steps := OneStep(k, v, Effect(v, op), op, {RecordDirectory}, next);
    var x := Effect(v, next);
    QueueDecides(o, k, x);
    QueueDecides(o, k, Effect(x, again));
    DoesThenRaises(k, x, again);
  }

  /** The view as it is when the tree that `p` staged is back in its place. */
  function Unstaged(o: Origin, p: Op, w: View): View
    requires w.queued.Some? && w.queued.value.stage.Some?
  {
    var x := w.queued.value;
    if p.StageProducts? then
      w.(products := o.products, queued := Some(x.(stage := Some(x.stage.value.(products := Absent)))))
    else w.(current := o.service, queued := Some(x.(stage := Some(x.stage.value.(service := Absent)))))
  }

  predicate StagesTree(o: Origin, p: Op, wanting: set<Directory>) {
    && (p.StageProducts? || p.StageService?) && (if p.StageProducts? then o.products.Some? else o.service.Some?)
    && wanting <= {ProductsRoot, EventsRoot, StageDirectory}
  }

  /** The stage is disposed of without that tree. */
  lemma DisposingWithout(o: Origin, k: Key, w: View, p: Op, wanting: set<Directory>) returns (steps: seq<Op>)
    requires Staging(o, k, w, 2) && Undisputed(o) && StagesTree(o, p, wanting)
    ensures GoesThrough(k, w, p, wanting, steps) && steps != [] && Decide(k, Lacking(Unstaged(o, p, w), p, steps)) == Raise
  {
    hide Decide, Status.Valid;
    var v := Unstaged(o, p, w);
    var next := if k.archive.Some? then PublishArchive(InQueue(k.sequence), k.archive.value)
                else WriteJournal(InQueue(k.sequence), JournalIn(w).(intents := JournalIn(w).intents.(stageRemovalStarted := true)));
    steps := OneStep(k, v, w, p, wanting, next);
    QueueDecides(o, k, Effect(v, next));
  }

  lemma CheckpointingWithout(o: Origin, k: Key, w: View, p: Op, wanting: set<Directory>) returns (steps: seq<Op>)
    requires Staging(o, k, w, 1) && w.current.None? && Undisputed(o) && StagesTree(o, p, wanting)
    ensures GoesThrough(k, w, p, wanting, steps) && steps != [] && Decide(k, Lacking(Unstaged(o, p, w), p, steps)) == Raise
  {
    hide Decide, Waiting, Promoted, GoesThrough;
    WhereItIs(o, k, w);
    var next := WriteJournal(InQueue(k.sequence), Marked(JournalIn(w), ServiceStaged));
    CheckpointingStaged(o, k, w, false, 1);
    NextStages(Recovering, o, k, w, false, 1);
    var rest := DisposingWithout(o, k, Effect(w, next), p, wanting);
    steps := StepBefore(k, Unstaged(o, p, w), w, p, wanting, next, rest);
  }

  lemma StagingOnWithout(o: Origin, k: Key, w: View, p: Op, wanting: set<Directory>) returns (steps: seq<Op>)
    requires Staging(o, k, w, 1) && Undisputed(o) && StagesTree(o, p, wanting) && p.StageProducts?
    requires w.current.Some? ==> wanting == {ProductsRoot}
    ensures GoesThrough(k, w, p, wanting, steps) && steps != [] && Decide(k, Lacking(Unstaged(o, p, w), p, steps)) == Raise
  {
    hide Decide, Waiting, Promoted, GoesThrough;
    if w.current.None? {
      steps := CheckpointingWithout(o, k, w, p, wanting);
    } else {
      var next := StageService(InQueue(k.sequence), k.eventId);
      StagingService(o, k, w, 1);
      NextStages(Recovering, o, k, w, false, 1);
      var rest := CheckpointingWithout(o, k, Effect(w, next), p, wanting);
      steps := StepBefore(k, Unstaged(o, p, w), w, p, wanting, next, rest);
    }
  }

  /** Recovery disposes of the stage without the native tree, and raises when it finds it back in its place. */
  lemma WithoutStagedProducts(mode: Mode, o: Origin, k: Key, v: View, p: Op, wanting: set<Directory>) returns (steps: seq<Op>)
    requires Waiting(o, k, v) && Undisputed(o) && Allows(mode, k, v, p) && p.StageProducts?
    requires wanting == {ProductsRoot} || (wanting == {StageDirectory} && v.current.None?)
    ensures GoesThrough(k, Effect(v, p), p, wanting, steps) && steps != [] && RaisesAfter(k, Lacking(v, p, steps), [])
  {
    hide Decide, Waiting, Promoted, GoesThrough;
    WaitingSituations(o, k, v);
    StagingFacts(o, k, v, 0);
    StagingProducts(o, k, v, 0);
    var w := Effect(v, p);
    StagingFacts(o, k, w, 0);
    CheckpointingStaged(o, k, w, true, 0);
    NextStages(Recovering, o, k, w, true, 0);
    BackInPlace(o, k, v, p, 0);
    var next := WriteJournal(InQueue(k.sequence), Marked(JournalIn(w), ProductsStaged));
    var rest := StagingOnWithout(o, k, Effect(w, next), p, wanting);
    steps := StepBefore(k, v, w, p, wanting, next, rest);
    RaisesAtOnce(k, Lacking(v, p, steps));
  }

  lemma BackInPlace(o: Origin, k: Key, v: View, p: Op, n: nat)
    requires Staging(o, k, v, n) && (if p.StageProducts? then v.products.Some? else p.StageService? && v.current.Some?)
    ensures var w := Effect(v, p);
      && w.queued.Some? && w.queued.value.stage.Some? && Unstaged(o, p, w) == v
      && (if p.StageProducts? then o.products.Some? else o.service.Some?)
  {
  }

  /** And the same without the preceding record. */
  lemma WithoutStagedService(mode: Mode, o: Origin, k: Key, v: View, p: Op, wanting: set<Directory>) returns (steps: seq<Op>)
    requires Waiting(o, k, v) && Undisputed(o) && Allows(mode, k, v, p) && p.StageService?
    requires wanting <= {EventsRoot, StageDirectory}
    ensures GoesThrough(k, Effect(v, p), p, wanting, steps) && steps != [] && RaisesAfter(k, Lacking(v, p, steps), [])
  {
    hide Decide, Waiting, Promoted, GoesThrough;
    WaitingSituations(o, k, v);
    StagingService(o, k, v, 1);
    BackInPlace(o, k, v, p, 1);
    steps := CheckpointingWithout(o, k, Effect(v, p), p, wanting);
    RaisesAtOnce(k, Lacking(v, p, steps));
  }

  /** Promoted with its stage and without its archive: the check made after promotion can never pass, and recovery
      writes nothing but its journal before that. */
  predicate Stranded(k: Key, v: View) {
    && v.queued.None? && v.current.Some? && v.current.value.journal.Some? && v.current.value.stage.Some?
    && k.archive.Some? && v.bundle.None?
  }

  /** Recovery promotes on the strength of an archive that is lost: the preceding trees are left in the stage of a current
      record, and recovery raises for good. */
  lemma WithoutArchive(mode: Mode, o: Origin, k: Key, v: View, p: Op) returns (steps: seq<Op>, further: seq<Op>)
    requires Waiting(o, k, v) && Undisputed(o) && Allows(mode, k, v, p) && p.PublishArchive?
    ensures GoesThrough(k, Effect(v, p), p, {ArchiveRoot}, steps) && steps != []
    ensures var x := Lacking(v, p, steps);
      && Stranded(k, x) && RaisesAfter(k, x, further)
      && further == [WriteJournal(InEvents(k.eventId), Marked(JournalIn(x), RecordPromoted))]
  {
    hide Decide, Status.Valid;
    var write := WriteJournal(InQueue(k.sequence), Marked(JournalIn(v), PrecedingDisposed));
    var promote := Promote(k.sequence, k.eventId);
    var w, after := Effect(v, p), Effect(v, write);
    var rest := OneStep(k, after, Effect(w, write), p, {ArchiveRoot}, promote);
    steps := StepBefore(k, v, w, p, {ArchiveRoot}, write, rest);
    var x := Effect(after, promote);
    var again := WriteJournal(InEvents(k.eventId), Marked(JournalIn(x), RecordPromoted));
    EventsDecide(o, k, x);
    EventsDecide(o, k, Effect(x, again));
    DoesThenRaises(k, x, again);
    further := [again];
  }

  /** Recovery closes a calculation whose promotion is lost: it stays in the queue, failed and without a journal, and its
      event is left without a current record. */
  lemma WithoutPromotion(mode: Mode, o: Origin, k: Key, v: View, p: Op, wanting: set<Directory>) returns (steps: seq<Op>)
    requires Waiting(o, k, v) && Allows(mode, k, v, p) && p.Promote? && wanting <= {QueueRoot, EventsRoot}
    ensures GoesThrough(k, Effect(v, p), p, wanting, steps) && steps != []
    ensures var x := Lacking(v, p, steps); x.queued.Some? && x.current.None? && EndsBadlyAfter(o, k, x, [])
  {
    hide Decide, Waiting, Promoted, GoesThrough, SameCalculation, JournalOf;
    Promoting(o, k, v);
    var w := Effect(v, p);
    CheckpointingPromoted(o, k, w);
    NextCheckpointsPromotion(Recovering, o, k, w);
    RecordFacts(o, k, w);
    var next := WriteJournal(InEvents(k.eventId), Marked(JournalIn(w), RecordPromoted));
    var rest := ClosingWithout(o, k, Effect(v, Elsewhere(p, next)), Effect(w, next), p, wanting);
    steps := StepBefore(k, v, w, p, wanting, next, rest);
  }

  lemma ClosingWithout(o: Origin, k: Key, v: View, w: View, p: Op, wanting: set<Directory>) returns (steps: seq<Op>)
    requires Promoted(o, k, w) && |JournalIn(w).completed| == 4 && w.current.value.candidate.None?
    requires !w.current.value.record.status.Success? && !JournalIn(w).intents.candidateRemovalStarted
    requires p == Promote(k.sequence, k.eventId) && wanting <= {QueueRoot, EventsRoot}
    requires v == w.(queued := w.current, current := None)
    ensures GoesThrough(k, w, p, wanting, steps) && steps != []
    ensures var x := Lacking(v, p, steps); x.queued.Some? && x.current.None? && EndsBadlyAfter(o, k, x, [])
  {
    hide Decide, Promoted, GoesThrough, Lacking, SameCalculation, JournalOf, Interruption;
    WhereItIs(o, k, w);
    RecordFacts(o, k, w);
    CandidateFacts(o, k, w);
    NextConcludes(o, k, w);
    var remove := RemoveJournal(InEvents(k.eventId));
    if w.current.value.record.status.Failed? {
      steps := OneStep(k, v, w, p, wanting, remove);
      FailedIsLeft(o, k, Effect(v, Elsewhere(p, remove)));
    } else {
      var r := Interrupting(w.current.value.record, w.products.Some?);
      var write := WriteRecord(InEvents(k.eventId), r);
      InterruptionFacts(w.current.value.record, r, w.products.Some?);
      Failing(o, k, w, r);
      var after := Effect(w, write);
      NextConcludes(o, k, after);
      var rest := OneStep(k, Effect(v, Elsewhere(p, write)), after, p, wanting, remove);
      steps := StepBefore(k, v, w, p, wanting, write, rest);
      FailedIsLeft(o, k, Effect(Effect(v, Elsewhere(p, write)), Elsewhere(p, remove)));
    }
  }

  lemma InterruptionFacts(r: Status.Record, failed: Status.Record, published: bool)
    requires Interruption(r, failed, published)
    ensures Status.Valid(failed) && failed.status.Failed? && Status.SameIdentity(failed, r) && failed.overwrite == r.overwrite
  {
  }

  /** A failed record without a journal is left where it is. */
  lemma FailedIsLeft(o: Origin, k: Key, v: View)
    requires v.queued.Some? && v.queued.value.journal.None? && v.queued.value.record.status.Failed?
    requires Status.Valid(v.queued.value.record)
    requires v.queued.value.record.eventId == k.eventId && v.queued.value.record.sequence == k.sequence
    ensures EndsBadlyAfter(o, k, v, [])
  {
    hide Status.Valid;
  }

  /** Recovery appends to a journal that lacks a checkpoint: stopped right after, no recovery loads it again. */
  lemma WithoutCheckpoint(mode: Mode, o: Origin, k: Key, v: View, p: Op) returns (steps: seq<Op>, further: seq<Op>)
    requires Waiting(o, k, v) && Undisputed(o) && Allows(mode, k, v, p) && p.WriteJournal? && k.archive.Some?
    requires |p.journal.completed| >= 2
    ensures GoesThrough(k, Effect(v, p), p, {RecordDirectory}, steps) && steps != []
    ensures var x := Lacking(v, p, steps);
      && (x.queued.Some? || x.current.Some?) && Holder(x).journal.Some?
      && RaisesAfter(k, x, further)
      && further == [WriteJournal(HolderIn(x, k), Marked(JournalIn(x), if x.queued.Some? then PrecedingDisposed else RecordPromoted))]
  {
    hide Decide, Status.Valid;
    var w := Effect(v, p);
    var op := if |p.journal.completed| == 2 then PublishArchive(InQueue(k.sequence), k.archive.value)
              else Promote(k.sequence, k.eventId);
    steps := OneStep(k, v, w, p, {RecordDirectory}, op);
    var x := Effect(v, op);
    var next := WriteJournal(HolderIn(x, k), Marked(JournalIn(x), if x.queued.Some? then PrecedingDisposed else RecordPromoted));
    if x.queued.Some? {
      QueueDecides(o, k, x);
    } else {
      EventsDecide(o, k, x);
    }
    OutOfOrder(JournalIn(x).completed, if x.queued.Some? then PrecedingDisposed else RecordPromoted);
    SpoiltIsRefused(k, Effect(x, next));
    DoesThenRaises(k, x, next);
    further := [next];
  }

  /** Recovery has removed a tree from the stage before the intent is there: the tree is unaccounted for, and it raises. */
  lemma WithoutStageIntent(mode: Mode, o: Origin, k: Key, v: View, p: Op) returns (steps: seq<Op>)
    requires Waiting(o, k, v) && Undisputed(o) && Allows(mode, k, v, p) && p.WriteJournal?
    requires p.journal.intents.stageRemovalStarted && !JournalIn(v).intents.stageRemovalStarted
    requires HasPreceding(p.journal.preceding)
    ensures GoesThrough(k, Effect(v, p), p, {RecordDirectory}, steps) && steps != [] && RaisesAfter(k, Lacking(v, p, steps), [])
  {
    hide Decide, Status.Valid;
    var remove := SetStage(InQueue(k.sequence), Some(Stage(Absent, Absent)));
    steps := OneStep(k, v, Effect(v, p), p, {RecordDirectory}, remove);
    QueueDecides(o, k, Effect(v, remove));
    RaisesAtOnce(k, Effect(v, remove));
  }

  /** Recovery has removed a ready candidate before the intent is there: it is missing, and recovery raises. */
  lemma WithoutCandidateIntent(mode: Mode, o: Origin, k: Key, v: View, p: Op) returns (steps: seq<Op>)
    requires Promoted(o, k, v) && Allows(mode, k, v, p) && p.WriteJournal? && |p.journal.completed| == 5
    requires p.journal.intents.candidateRemovalStarted && !JournalIn(v).intents.candidateRemovalStarted
    ensures GoesThrough(k, Effect(v, p), p, {RecordDirectory}, steps) && steps != [] && RaisesAfter(k, Lacking(v, p, steps), [])
  {
    hide Decide, Status.Valid;
    var remove := SetCandidate(InEvents(k.eventId), None);
    steps := OneStep(k, v, Effect(v, p), p, {RecordDirectory}, remove);
    EventsDecide(o, k, Effect(v, remove));
    RaisesAtOnce(k, Effect(v, remove));
  }

  /** Recovery records that the native tree was published and preserved: without the rename there is none, and the next
      recovery removes the candidate it would have been. */
  lemma WithoutPublication(mode: Mode, o: Origin, k: Key, v: View, p: Op, wanting: set<Directory>)
    returns (steps: seq<Op>, further: seq<Op>)
    requires Promoted(o, k, v) && Allows(mode, k, v, p) && p.PublishNative? && wanting <= {RecordDirectory, ProductsRoot}
    ensures GoesThrough(k, Effect(v, p), p, wanting, steps) && steps != []
    ensures var x := After(Lacking(v, p, steps), further);
      && EndsBadlyAfter(o, k, Lacking(v, p, steps), further)
      && x.products.None? && x.current.Some? && Explained(x.current.value.record, true)
  {
    hide Decide, Promoted, SameCalculation, JournalOf, Interruption, Explained;
    WhereItIs(o, k, v);
    RecordFacts(o, k, v);
    var w := Effect(v, p);
    var r := Interrupting(v.current.value.record, true);
    var write := WriteRecord(InEvents(k.eventId), r);
    steps := OneStep(k, v, w, p, wanting, write);
    further := ClaimingWithout(o, k, v, r);
  }

  lemma ClaimingWithout(o: Origin, k: Key, v: View, r: Status.Record) returns (further: seq<Op>)
    requires Promoted(o, k, v) && |JournalIn(v).completed| == 5 && !JournalIn(v).intents.candidateRemovalStarted
    requires v.products.None? && v.current.value.candidate.Some? && Interruption(v.current.value.record, r, true)
    ensures var y := Effect(v, WriteRecord(InEvents(k.eventId), r));
      var x := After(y, further);
      EndsBadlyAfter(o, k, y, further) && x.products.None? && x.current.Some? && Explained(x.current.value.record, true)
  {
    hide Decide, Status.Valid;
    var y, at := Effect(v, WriteRecord(InEvents(k.eventId), r)), InEvents(k.eventId);
    var intent := WriteJournal(at, JournalIn(v).(intents := JournalIn(v).intents.(candidateRemovalStarted := true)));
    var a := Effect(y, intent);
    var b := Effect(a, SetCandidate(at, None));
    EventsDecide(o, k, y);
    EventsDecide(o, k, a);
    EventsDecide(o, k, b);
    further := [intent, SetCandidate(at, None), RemoveJournal(at)];
    ThreeSteps(k, y, intent, SetCandidate(at, None), RemoveJournal(at));
    NothingIsLeft(k, Effect(b, RemoveJournal(at)));
  }

  lemma ThreeSteps(k: Key, v: View, a: Op, b: Op, c: Op)
    requires Does(k, v, a) && Does(k, Effect(v, a), b) && Does(k, Effect(Effect(v, a), b), c)
    ensures Follows(k, v, [a, b, c]) && After(v, [a, b, c]) == Effect(Effect(Effect(v, a), b), c)
  {
    hide Does, Effect;
    assert [a, b, c][1..] == [b, c] && [b, c][1..] == [c] && [c][1..] == [];
    var x := Effect(Effect(v, a), b);
    assert Follows(k, Effect(x, c), []) && After(Effect(x, c), []) == Effect(x, c);
    assert Follows(k, x, [c]) && After(x, [c]) == Effect(x, c);
    assert Follows(k, Effect(v, a), [b, c]) && After(Effect(v, a), [b, c]) == After(x, [c]);
  }

  lemma NothingIsLeft(k: Key, v: View)
    requires v.queued.None? && v.current.Some? && v.current.value.journal.None? && v.current.value.record.status.Failed?
    requires Status.Valid(v.current.value.record)
    requires v.current.value.record.eventId == k.eventId && v.current.value.record.sequence == k.sequence
    ensures Decide(k, v) == Finish
  {
    hide Status.Valid;
  }

  // ------------------------------------------------------------------ in general

  /** Whatever is harmful: a way recovery may go that ends where, without it, nothing can be mended. */
  lemma Undermining(mode: Mode, o: Origin, k: Key, v: View, p: Issued) returns (wanting: set<Directory>, steps: seq<Op>)
    requires Latest(mode, o, k, v, p) && Harmful(k, v, p) && {} < p.dirty <= Touches(p.op) && Undisputed(o)
    ensures {} < wanting <= p.dirty && steps != []
    ensures GoesThrough(k, Effect(v, p.op), p.op, wanting, steps) && !CanMend(o, k, Lacking(v, p.op, steps))
  {
    hide Waiting, Promoted, GoesThrough, Lacking, CanMend, Effect, RaisesAfter, EndsBadlyAfter, Stranded;
    WhereItIs(o, k, v);
    RecordOnly(p);
    wanting := p.dirty;
    var further := [];
    if v.queued.Some? {
      wanting, steps, further := UnderminingWaiting(mode, o, k, v, p);
    } else if p.op.PublishNative? {
      steps, further := WithoutPublication(mode, o, k, v, p.op, p.dirty);
    } else {
      PromotedCheckpoints(mode, o, k, v, p.op);
      steps := WithoutCandidateIntent(mode, o, k, v, p.op);
    }
    DoomedCannotMend(o, k, Lacking(v, p.op, steps), further);
  }

  lemma RecordOnly(p: Issued)
    requires {} < p.dirty <= Touches(p.op)
    ensures Touches(p.op) == {RecordDirectory} ==> p.dirty == {RecordDirectory}
  {
    var directory :| directory in p.dirty;
  }

  lemma PromotedCheckpoints(mode: Mode, o: Origin, k: Key, v: View, op: Op)
    requires Promoted(o, k, v) && Allows(mode, k, v, op) && op.WriteJournal?
    ensures |op.journal.completed| >= 4
    ensures op.journal.intents.stageRemovalStarted == JournalIn(v).intents.stageRemovalStarted
  {
  }

  lemma UnderminingWaiting(mode: Mode, o: Origin, k: Key, v: View, p: Issued)
    returns (wanting: set<Directory>, steps: seq<Op>, further: seq<Op>)
    requires Waiting(o, k, v) && v.queued.Some?
    requires Latest(mode, o, k, v, p) && Harmful(k, v, p) && {} < p.dirty <= Touches(p.op) && Undisputed(o)
    ensures {} < wanting <= p.dirty && steps != [] && GoesThrough(k, Effect(v, p.op), p.op, wanting, steps)
    ensures RaisesAfter(k, Lacking(v, p.op, steps), further) || EndsBadlyAfter(o, k, Lacking(v, p.op, steps), further)
  {
    hide Waiting, Promoted, GoesThrough, Lacking, Effect, RaisesAfter, EndsBadlyAfter, Stranded;
    RecordOnly(p);
    wanting, further := p.dirty, [];
    match p.op
    case StageProducts(_, _) =>
      wanting := if ProductsRoot in p.dirty then {ProductsRoot} else {StageDirectory};
      steps := WithoutStagedProducts(mode, o, k, v, p.op, wanting);
    case StageService(_, _) => steps := WithoutStagedService(mode, o, k, v, p.op, p.dirty);
    case PublishArchive(_, _) =>
      wanting := {ArchiveRoot};
      steps, further := WithoutArchive(mode, o, k, v, p.op);
    case Promote(_, _) => steps := WithoutPromotion(mode, o, k, v, p.op, p.dirty);
    case SetStage(_, _) =>
      steps := WithoutStage(mode, o, k, v, p.op);
      further := [SetStage(InQueue(k.sequence), Some(Stage(Absent, Absent)))];
    case WriteJournal(_, j) =>
      if k.archive.Some? && |j.completed| >= 2 {
        steps, further := WithoutCheckpoint(mode, o, k, v, p.op);
      } else {
        steps := WithoutStageIntent(mode, o, k, v, p.op);
      }
  }

  /** One operation is unsynced, the latest of the process that issued it. */
  predicate LeftOne(mode: Mode, o: Origin, k: Key, m: Moment) {
    && |m.pending| == 1 && {} < m.pending[0].dirty <= Touches(m.pending[0].op) && Latest(mode, o, k, Look(m.durable, k), m.pending[0])
    && InTransaction(o, k, Look(m.Disk(), k)) && Undisputed(o) && Honest(Look(m.durable, k))
  }

  lemma LeftOneFacts(mode: Mode, o: Origin, k: Key, m: Moment)
    requires LeftOne(mode, o, k, m)
    ensures var v, op := Look(m.durable, k), m.pending[0].op;
      && m.pending == [m.pending[0]] && m.Disk() == Apply(m.durable, op) && Mine(op, k)
      && Look(m.Disk(), k) == Effect(v, op) && ViewOf(Restarted(m, k), k) == Effect(v, op)
      && Restarted(m, k).due == {} && !Restarted(m, k).noted && Restarted(m, k).now == m
      && LostDisk(m) == m.durable
  {
    hide Waiting, Promoted, Recovered, Apply, Effect, Allows, Honest;
    var p := m.pending[0];
    assert m.pending == [p] && m.pending[1..] == [];
    assert Visible(Apply(m.durable, p.op), []) == Apply(m.durable, p.op);
    AllowedKeeps(mode, o, k, Look(m.durable, k), p.op);
    OperationsAreLocal(m.durable, p.op, k);
  }

  /** Recovery that has come this far, with `p` unsynced and harmful, can go on until its loss is beyond mending. */
  lemma BuiltUpon(mode: Mode, o: Origin, k: Key, start: State, s: State, p: Issued) returns (t: State)
    requires Reaches(Recovering, k, start, s) && s == Starting(s.now, s.journal) && Undisputed(o)
    requires s.now.pending != [] && s.now.pending[0] == p && {} < p.dirty <= Touches(p.op)
    requires var v := Look(LostDisk(s.now), k);
      Latest(mode, o, k, v, p) && Harmful(k, v, p) && ViewOf(s, k) == Effect(v, p.op)
    ensures Reaches(Recovering, k, start, t) && !Safe(o, k, t.now)
  {
    hide Waiting, Promoted, Reaches, Apply, Effect, Allows, CanMend, Harmful, GoesThrough, Lacking, LostDisk;
    var wanting, steps := Undermining(mode, o, k, Look(LostDisk(s.now), k), p);
    var lost;
    t, lost := ExposedBy(k, start, s, p.op, wanting, steps);
  }

  /** Whenever what was left is harmful, recovery comes to a state from which a power failure leaves something it cannot
      mend. */
  lemma HarmfulIsExposed(mode: Mode, o: Origin, k: Key, m: Moment) returns (s: State)
    requires LeftOne(mode, o, k, m) && Harmful(k, Look(m.durable, k), m.pending[0])
    ensures Reaches(Recovering, k, Restarted(m, k), s) && !Safe(o, k, s.now)
  {
    hide Waiting, Promoted, Reaches, Apply, Effect, Allows, Harmful, Safe, LostDisk;
    LeftOneFacts(mode, o, k, m);
    ReachesItself(Recovering, k, Restarted(m, k));
    s := BuiltUpon(mode, o, k, Restarted(m, k), Restarted(m, k), m.pending[0]);
  }

  // ---------------------------------------------------------- where it happens

  predicate Rename(op: Op) {
    op.StageProducts? || op.StageService? || op.PublishArchive? || op.Promote? || op.PublishNative?
  }

  /** The process that issues `op` next, everything before being synced, and is killed right there. */
  function KilledAfter(d: Disk, k: Key, op: Op): State {
    Issuing(k, Starting(Moment(d, []), JournalSeen(Look(d, k), NO_JOURNAL)), op)
  }

  /** Wherever preparation renames, it may be killed so that no recovery is safe against a later power failure. */
  lemma NoRenameIsSafe(o: Origin, k: Key, d: Disk, op: Op)
    requires InTransaction(o, k, Look(d, k)) && Undisputed(o) && Honest(Look(d, k))
    requires Allows(Preparing, k, Look(d, k), op) && Rename(op)
    ensures var s := KilledAfter(d, k, op);
      && Interrupted(Preparing, o, k, d, s)
      && exists t :: Reaches(Recovering, k, Restarted(s.now, k), t) && !Safe(o, k, t.now)
  {
    hide Waiting, Promoted, Reaches, Allows, Safe, Honest;
    var start, s := Starting(Moment(d, []), JournalSeen(Look(d, k), NO_JOURNAL)), KilledAfter(d, k, op);
    AllowedSees(Preparing, o, k, Look(d, k), op);
    ReachesItself(Preparing, k, start);
    IssuingReaches(Preparing, k, start, start, s, op);
    KilledMoment(Preparing, o, k, d, op);
    assert s.now.pending == [Issued(op, Touches(op))];
    var t := HarmfulIsExposed(Preparing, o, k, s.now);
  }

  lemma KilledMoment(mode: Mode, o: Origin, k: Key, d: Disk, op: Op)
    requires InTransaction(o, k, Look(d, k)) && Allows(mode, k, Look(d, k), op) && Rename(op)
    ensures var s := KilledAfter(d, k, op);
      && s.now == Moment(d, [Issued(op, Touches(op))]) && s.now.Disk() == Apply(d, op)
      && ViewOf(s, k) == Effect(Look(d, k), op) && InTransaction(o, k, ViewOf(s, k)) && Mine(op, k)
      && LeftHarmful(k, s.now) && !PrivateOp(Look(d, k), op) && Touches(op) != {}
  {
    hide Waiting, Promoted, Apply;
    AllowedKeeps(mode, o, k, Look(d, k), op);
    OperationsAreLocal(d, op, k);
    PlainIssue(Moment(d, []), op);
    IssuingIsVisible(Moment(d, []), op);
    assert [] + [Issued(op, Touches(op))] == [Issued(op, Touches(op))];
    assert Touches(op) != {} by {
      assert RecordDirectory in Touches(op) || StageDirectory in Touches(op) || QueueRoot in Touches(op);
    }
  }

  /** Noting the failure does not help: a sync that raised leaves the rename as unsynced as a kill does, and the
      next recovery builds on it. */
  lemma NotingDoesNotHelp(mode: Mode, o: Origin, k: Key, d: Disk, op: Op, evidence: string) returns (t: State)
    requires InTransaction(o, k, Look(d, k)) && Undisputed(o) && Allows(mode, k, Look(d, k), op) && Rename(op)
    ensures var s := Noting(k, KilledAfter(d, k, op), evidence);
      Reaches(Recovering, k, Restarted(s.now, k), t) && !Safe(o, k, t.now)
  {
    hide Waiting, Promoted, Reaches, Apply, Effect, Allows, Safe, LostDisk;
    KilledMoment(mode, o, k, d, op);
    var v, killed, s := Look(d, k), KilledAfter(d, k, op), Noting(k, KilledAfter(d, k, op), evidence);
    var write := WriteJournal(HolderIn(ViewOf(killed, k), k), killed.journal.(recoveryFailure := Some(evidence)));
    PlainIssue(killed.now, write);
    var p, note := Issued(op, Touches(op)), Issued(write, {RecordDirectory});
    assert s.now == Moment(d, [p, note]);
    NotedMoment(d, p, note);
    NotedIsAllowed(mode, o, k, v, op, write, evidence);
    IssuingIsVisible(killed.now, write);
    OperationsAreLocal(killed.now.Disk(), write, k);
    OperationsAreLocal(d, Elsewhere(op, write), k);
    ReachesItself(Recovering, k, Restarted(s.now, k));
    t := BuiltUpon(mode, o, k, Restarted(s.now, k), Restarted(s.now, k), p);
  }

  lemma NotedMoment(d: Disk, p: Issued, note: Issued)
    ensures LostDisk(Moment(d, [p, note])) == Apply(d, Elsewhere(p.op, note.op))
  {
    hide Apply;
    var rest := Without(p.op, [note]);
    assert [p, note][1..] == [note] && rest == [rest[0]] && rest[1..] == [];
    assert Visible(Apply(d, rest[0].op), []) == Apply(d, rest[0].op);
  }

  /** The noted journal is as good as the other, with the rename and without it. */
  lemma NotedIsAllowed(mode: Mode, o: Origin, k: Key, v: View, op: Op, write: Op, evidence: string)
    requires InTransaction(o, k, v) && Allows(mode, k, v, op) && Rename(op)
    requires write == WriteJournal(HolderIn(Effect(v, op), k), JournalSeen(v, NO_JOURNAL).(recoveryFailure := Some(evidence)))
    ensures var noted := Effect(v, Elsewhere(op, write));
      && Mine(write, k) && Mine(Elsewhere(op, write), k)
      && Latest(mode, o, k, noted, Issued(op, Touches(op))) && Harmful(k, noted, Issued(op, Touches(op)))
      && Effect(noted, op) == Effect(Effect(v, op), write)
  {
    hide Waiting, Promoted;
    WhereItIs(o, k, v);
    WritingBack(v, JournalIn(v));
    NotingFailure(o, k, v, JournalIn(v), evidence);
  }

  /** The worst of it: the archive is lost after recovery went on to promote. */
  lemma LostArchiveStrands(o: Origin, k: Key, d: Disk) returns (t: State, lost: Disk)
    requires InTransaction(o, k, Look(d, k)) && Undisputed(o) && Honest(Look(d, k)) && k.archive.Some?
    requires Allows(Preparing, k, Look(d, k), PublishArchive(InQueue(k.sequence), k.archive.value))
    ensures var s := KilledAfter(d, k, PublishArchive(InQueue(k.sequence), k.archive.value));
      && Interrupted(Preparing, o, k, d, s) && Reaches(Recovering, k, Restarted(s.now, k), t)
      && lost in t.now.Left() && Stranded(k, Look(lost, k)) && !CanMend(o, k, Look(lost, k))
    ensures forall j :: Stranded(k, WithJournal(Look(lost, k), j))
  {
    hide Waiting, Promoted, Recovered, Reaches, Apply, Effect, AllowsWaiting, CanMend, RaisesAfter, GoesThrough, Lacking, LostDisk, Honest;
    var v, archive := Look(d, k), PublishArchive(InQueue(k.sequence), k.archive.value);
    WhereItIs(o, k, v);
    var s := KilledAfter(d, k, archive);
    NoRenameIsSafe(o, k, d, archive);
    KilledMoment(Preparing, o, k, d, archive);
    LeftOneFacts(Preparing, o, k, s.now);
    var start := Restarted(s.now, k);
    ReachesItself(Recovering, k, start);
    var steps, further := WithoutArchive(Preparing, o, k, v, archive);
    t, lost := ExposedBy(k, start, start, archive, {ArchiveRoot}, steps);
    DoomedCannotMend(o, k, Look(lost, k), further);
  }
}
