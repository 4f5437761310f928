/**
 What a replacement transaction may look like on disk at any instant
 (recalculation.py), and what follows from it.
 */
module Protocol {
  import opened Common
  import opened Disk
  import opened Snapshot
  import Names
  import Status

  /** The trees a transaction displaces, and its own record directory, when the journal is first written. */
  datatype Origin = Origin(products: Option<Tree>, service: Option<Entry>, claimed: Entry)

  function HeldOf<T>(tree: Option<T>): Held<T> {
    if tree.Some? then Intact(tree.value) else Absent
  }

  function BundleOf(o: Origin): Stage {
    Stage(HeldOf(o.products), HeldOf(o.service))
  }

  predicate HasPreceding(p: Preceding) {
    p.products || p.service
  }

  // ------------------------------------------------------------- the journal

  predicate InOrder(completed: seq<Checkpoint>) {
    |completed| <= |CHECKPOINTS| && completed == CHECKPOINTS[..|completed|]
  }

  /** "checkpoint in journal['completed']" */
  predicate Completed(j: Journal, c: Checkpoint)
    ensures InOrder(j.completed) ==> (Completed(j, c) <==> c.Rank() < |j.completed|)
  {
    assert InOrder(j.completed) ==> forall i | 0 <= i < |j.completed| :: j.completed[i].Rank() == i;
    assert InOrder(j.completed) && c.Rank() < |j.completed| ==> j.completed[c.Rank()] == c;
    c in j.completed
  }

  predicate ArchiveNameFor(eventId: string, name: string) {
    && |name| == |eventId| + 1 + Names.ARCHIVE_TIMESTAMP_LENGTH
    && name[..|eventId| + 1] == eventId + "-"
    && Names.ParseStamp(name[|eventId| + 1..]).Ok?
  }

  /** The checks of _load_journal. */
  predicate Loadable(j: Journal) {
    && Names.ValidEventId(j.eventId) && j.sequence >= 1
    && (j.archivePath.Some? <==> !j.overwrite && HasPreceding(j.preceding))
    && (j.archivePath.Some? ==> ArchiveNameFor(j.eventId, j.archivePath.value))
    && InOrder(j.completed)
    && (j.intents.stageRemovalStarted ==> Completed(j, ServiceStaged))
    && (j.intents.candidateRemovalStarted ==> Completed(j, RecordPromoted))
  }

  predicate JournalFor(j: Journal, r: Status.Record) {
    j.eventId == r.eventId && j.sequence == r.sequence && j.overwrite == r.overwrite
  }

  // -------------------------------------------------------- reachable states

  /** The record directory keeps its identity and its request throughout. */
  predicate SameCalculation(o: Origin, k: Key, x: Entry) {
    && x.request == o.claimed.request && x.manifest == o.claimed.manifest
    && Status.Valid(x.record) && Status.SameIdentity(x.record, o.claimed.record)
    && x.record.overwrite == o.claimed.record.overwrite
    && x.record.eventId == k.eventId && x.record.sequence == k.sequence
  }

  predicate JournalOf(o: Origin, k: Key, x: Entry, j: Journal) {
    && Loadable(j) && JournalFor(j, x.record)
    && j.preceding == Preceding(o.products.Some?, o.service.Some?)
    && j.archivePath == k.archive
  }

  /** One preceding tree is where it was, or intact in the stage. */
  predicate Moved<T(==)>(original: Option<T>, place: Option<T>, held: Held<T>, staged: bool) {
    if original.None? then place.None? && held.Absent?
    else (place == original && held.Absent? && !staged) || (place.None? && held == Intact(original.value))
  }

  predicate TreesBeforePromotion(o: Origin, k: Key, x: Entry, j: Journal, v: View) {
    var n := |j.completed|;
    if j.intents.stageRemovalStarted then
      && k.archive.None? && v.bundle.None? && v.products.None? && v.current.None?
      && n >= 2 && (n == 3 ==> x.stage.None?)
    else if v.bundle.Some? then
      k.archive.Some? && x.stage.None? && v.bundle.value == BundleOf(o) && v.products.None? && v.current.None? && n >= 2
    else if x.stage.None? then
      n == 0 && v.products == o.products && v.current == o.service
    else
      && n <= 2
      && Moved(o.products, v.products, x.stage.value.products, n >= 1)
      && Moved(o.service, v.current, x.stage.value.service, n >= 2)
  }

  /** The record is still a queue entry. */
  predicate Waiting(o: Origin, k: Key, v: View) {
    && v.queued.Some? && v.queued.value.journal.Some?
    && var x := v.queued.value;
       var j := x.journal.value;
       && SameCalculation(o, k, x) && JournalOf(o, k, x, j)
       && x.record.status in {Status.Running, Status.Failed}
       && x.candidate.None? && !j.intents.candidateRemovalStarted && |j.completed| <= 3
       && TreesBeforePromotion(o, k, x, j, v)
  }

  predicate TreesAfterPromotion(o: Origin, k: Key, x: Entry, j: Journal, v: View) {
    var n := |j.completed|;
    if j.intents.candidateRemovalStarted then
      v.products.None? && 4 <= n <= 5
    else if n <= 3 then
      v.products.None? && x.candidate.None?
    else if n == 4 then
      v.products.None?
    else if n == 5 then
      || (v.products.None? && x.candidate == Some(x.request))
      || (v.products == Some(Tree(k.sequence, x.request)) && x.candidate.None?)
    else
      v.products.Some? && v.products.value.maker == k.sequence && x.candidate.None?
  }

  /** The record is the current record of its event. */
  predicate Promoted(o: Origin, k: Key, v: View) {
    && v.queued.None? && v.current.Some? && v.current.value.journal.Some?
    && var x := v.current.value;
       var j := x.journal.value;
       && SameCalculation(o, k, x) && JournalOf(o, k, x, j)
       && x.record.status != Status.Queued
       && (x.record.status.Success? ==> |j.completed| == 6)
       && x.stage.None? && |j.completed| >= 3
       && (k.archive.Some? ==> v.bundle == Some(BundleOf(o)))
       && (j.intents.stageRemovalStarted <==> k.archive.None?)
       && TreesAfterPromotion(o, k, x, j, v)
  }

  /** Every state a transaction can be found in. */
  predicate InTransaction(o: Origin, k: Key, v: View) {
    Waiting(o, k, v) || Promoted(o, k, v)
  }

  function Holder(v: View): Entry
    requires v.queued.Some? || v.current.Some?
  {
    if v.queued.Some? then v.queued.value else v.current.value
  }

  function WithJournal(v: View, j: Journal): View {
    if v.queued.Some? then v.(queued := Some(v.queued.value.(journal := Some(j))))
    else if v.current.Some? then v.(current := Some(v.current.value.(journal := Some(j))))
    else v
  }

  lemma WritingBack(v: View, j: Journal)
    requires v.queued.Some? || v.current.Some?
    ensures Holder(v).journal == Some(j) ==> WithJournal(v, j) == v
  {
  }

  /** The native tree this calculation has renamed into place, if it got that far. */
  function PublishedTree(v: View): Option<Tree> {
    if v.queued.None? then v.products else None
  }

  /** The record directory of the transaction carries `r`. */
  predicate Carries(v: View, r: Status.Record) {
    if v.queued.Some? then v.queued.value.record == r else v.current.Some? && v.current.value.record == r
  }

  /** The record this transaction displaces was itself finished with. */
  predicate Undisputed(o: Origin) {
    o.service.Some? ==> o.service.value.journal.None?
  }

  /** Reconciliation is over. */
  predicate Recovered(o: Origin, k: Key, v: View) {
    && v.queued.None? && v.current.Some?
    && SameCalculation(o, k, v.current.value) && v.current.value.record.status.Failed?
    && v.current.value.journal.None? && v.current.value.stage.None? && v.current.value.candidate.None?
    && (k.archive.Some? ==> v.bundle == Some(BundleOf(o)))
    && (v.products.Some? ==> v.products.value.maker == k.sequence)
  }

  // ------------------------------------------- what each operation does to it

  function Marked(j: Journal, c: Checkpoint): Journal {
    if Completed(j, c) then j else j.(completed := j.completed + [c])
  }

  function JournalIn(v: View): Journal
    requires v.queued.Some? || v.current.Some?
    requires Holder(v).journal.Some?
  {
    Holder(v).journal.value
  }

  function Checkpointed(v: View, c: Checkpoint): View
    requires v.queued.Some? || v.current.Some?
    requires Holder(v).journal.Some?
  {
    WithJournal(v, Marked(JournalIn(v), c))
  }

  predicate WaitingAt(o: Origin, k: Key, v: View, n: nat) {
    Waiting(o, k, v) && |JournalIn(v).completed| == n
  }

  predicate PromotedAt(o: Origin, k: Key, v: View, n: nat) {
    Promoted(o, k, v) && |JournalIn(v).completed| == n
  }

  /** Nothing has moved yet. */
  predicate Fresh(o: Origin, k: Key, v: View) {
    && Waiting(o, k, v) && v.queued.value.stage.None? && v.bundle.None?
    && !JournalIn(v).intents.stageRemovalStarted
  }

  /** An open stage, nothing archived, no removal started. */
  predicate Staging(o: Origin, k: Key, v: View, n: nat) {
    && WaitingAt(o, k, v, n) && v.queued.value.stage.Some? && v.bundle.None?
    && !JournalIn(v).intents.stageRemovalStarted
  }

  predicate Removing(o: Origin, k: Key, v: View) {
    Waiting(o, k, v) && JournalIn(v).intents.stageRemovalStarted
  }

  /** Both preceding trees are disposed of, though it may not be checkpointed yet. */
  predicate Swept(o: Origin, k: Key, v: View) {
    && Waiting(o, k, v) && |JournalIn(v).completed| >= 2
    && (v.bundle.Some? || (JournalIn(v).intents.stageRemovalStarted && v.queued.value.stage.None?))
  }

  // ------------------------------------------------- which operation comes next

  /** A transaction is being carried out, or recovered. */
  datatype Mode = Preparing | Recovering

  /** A failed record for the same calculation, which has changed in nothing else. */
  predicate FailureOf(r: Status.Record, failed: Status.Record) {
    && Status.Valid(failed) && failed.status.Failed? && Status.SameIdentity(failed, r) && failed.overwrite == r.overwrite
    && Status.OnlyFailed(r, failed)
  }

  const INTERRUPTED_CODE := "interrupted_recalculation"

  function InterruptedMessage(published: bool): string {
    if published then "interrupted after publication" else "interrupted before publication"
  }

  /** The failure written into an interrupted record says whether its native tree had been published. */
  predicate Explained(r: Status.Record, published: bool) {
    && r.failure.Some? && r.failure.value.code == "interrupted_recalculation"
    && r.failure.value.message == if published then "interrupted after publication" else "interrupted before publication"
  }

  /** What recovery writes over a running record. */
  predicate Interruption(r: Status.Record, failed: Status.Record, published: bool) {
    FailureOf(r, failed) && Explained(failed, published)
  }

  predicate InterruptedAt(r: Status.Record, failed: Status.Record, published: bool, at: int) {
    Interruption(r, failed, published) && failed.timestamps.completedAt == Some(Status.Utc(at))
  }

  /** The record of the transaction is `r`, or `r` failed for the interruption and the same in everything else. */
  predicate KeepsRecord(v: View, r: Status.Record, published: bool, at: int) {
    && (v.queued.Some? || v.current.Some?)
    && (Holder(v).record == r || (r.status.Running? && InterruptedAt(r, Holder(v).record, published, at)))
  }

  /** A record that was failed for an interruption says what is so of the native tree. */
  predicate Honest(v: View) {
    && (v.queued.Some? || v.current.Some?)
    && var r := Holder(v).record;
       r.status.Running?
       || (r.status.Failed? && (Explained(r, true) ==> PublishedTree(v).Some?) && (Explained(r, false) ==> PublishedTree(v).None?))
  }

  function HeldWeight<T>(held: Held<T>): nat {
    if held.Absent? then 0 else if held.Torn? then 1 else 2
  }

  /** How much of a private tree is left. */
  function StageWeight(stage: Option<Stage>): nat {
    if stage.None? then 0 else 1 + HeldWeight(stage.value.products) + HeldWeight(stage.value.service)
  }

  function CandidateWeight(candidate: Option<Files>): nat {
    if candidate.None? then 0 else 1 + |candidate.value|
  }

  predicate AllowsWaiting(k: Key, x: Entry, j: Journal, v: View, op: Op) {
    var n, removing, at := |j.completed|, j.intents.stageRemovalStarted, InQueue(k.sequence);
    match op
    case SetStage(p, stage) =>
      p == at && if removing then n == 2 && StageWeight(stage) < StageWeight(x.stage)
                 else n == 0 && x.stage.None? && v.bundle.None? && stage == Some(Stage(Absent, Absent))
    case StageProducts(p, e) =>
      p == at && e == k.eventId && !removing && n == 0 && x.stage.Some? && v.bundle.None? && v.products.Some?
    case StageService(p, e) =>
      p == at && e == k.eventId && !removing && n == 1 && x.stage.Some? && v.bundle.None? && v.current.Some?
    case PublishArchive(p, name) =>
      p == at && k.archive == Some(name) && !removing && n == 2 && x.stage.Some? && v.bundle.None?
    case Promote(s, e) => s == k.sequence && e == k.eventId && n == 3
    case WriteJournal(p, next) =>
      && p == at
      && (|| (n == 0 && !removing && x.stage.Some? && v.bundle.None? && v.products.None? && next == Marked(j, ProductsStaged))
          || (n == 1 && !removing && x.stage.Some? && v.bundle.None? && v.current.None? && next == Marked(j, ServiceStaged))
          || (n == 2 && !removing && x.stage.Some? && v.bundle.None? && k.archive.None?
              && next == j.(intents := j.intents.(stageRemovalStarted := true)))
          || (n == 2 && (v.bundle.Some? || (removing && x.stage.None?)) && next == Marked(j, PrecedingDisposed)))
    case _ => false
  }

  predicate AllowsPromoted(mode: Mode, k: Key, x: Entry, j: Journal, v: View, op: Op) {
    var n, removing, at := |j.completed|, j.intents.candidateRemovalStarted, InEvents(k.eventId);
    match op
    case WriteJournal(p, next) =>
      && p == at
      && (|| (n == 3 && next == Marked(j, RecordPromoted))
          || (mode.Preparing? && n == 4 && !removing && x.candidate == Some(x.request) && next == Marked(j, CandidateReady))
          || (mode.Preparing? && n == 5 && v.products.Some? && next == Marked(j, NativeTreePublished))
          || (mode.Recovering? && n >= 4 && !removing && x.candidate.Some?
              && next == j.(intents := j.intents.(candidateRemovalStarted := true))))
    case SetCandidate(p, candidate) =>
      p == at && v.products.None?
      && if mode.Preparing? then n == 4 && !removing && candidate.Some?
         else removing && CandidateWeight(candidate) < CandidateWeight(x.candidate)
    case PublishNative(p, e) =>
      p == at && e == k.eventId && mode.Preparing? && n == 5 && !removing && x.candidate.Some? && v.products.None?
      && x.record.status.Running?
    case WriteRecord(p, r) =>
      p == at && mode.Recovering? && n >= 4 && x.candidate.None? && x.record.status.Running?
      && Interruption(x.record, r, v.products.Some?)
    case RemoveJournal(p) =>
      p == at && mode.Recovering? && n >= 4 && x.candidate.None? && x.record.status.Failed?
    case _ => false
  }

  /** What the code may issue next, from what it sees of its transaction. */
  predicate Allows(mode: Mode, k: Key, v: View, op: Op) {
    if v.queued.Some? then
      v.queued.value.journal.Some? && AllowsWaiting(k, v.queued.value, v.queued.value.journal.value, v, op)
    else
      && v.current.Some? && v.current.value.journal.Some?
      && AllowsPromoted(mode, k, v.current.value, v.current.value.journal.value, v, op)
  }

  lemma Opening(o: Origin, k: Key, v: View, x: Entry, j: Journal)
    requires v.queued == Some(x) && x.journal == Some(j) && x.stage.None? && x.candidate.None?
    requires SameCalculation(o, k, x) && JournalOf(o, k, x, j) && x.record.status.Running?
    requires j.completed == [] && j.intents == Intents(false, false)
    requires v.products == o.products && v.current == o.service && v.bundle.None?
    ensures Fresh(o, k, v)
  {
    hide SameCalculation, JournalOf;
  }

  lemma FreshFacts(o: Origin, k: Key, v: View)
    requires Fresh(o, k, v)
    ensures |JournalIn(v).completed| == 0 && v.products == o.products && v.current == o.service
  {
  }

  /** Where the record directory of a transaction is. */
  lemma WhereItIs(o: Origin, k: Key, v: View)
    requires InTransaction(o, k, v)
    ensures Waiting(o, k, v) <==> v.queued.Some?
    ensures Promoted(o, k, v) <==> v.queued.None?
    ensures v.queued.None? ==> v.current.Some?
    ensures Holder(v).journal.Some?
  {
  }

  /** The journal's preceding-tree evidence and archive intent, as the code consults them. */
  lemma PrecedingFacts(o: Origin, k: Key, v: View)
    requires InTransaction(o, k, v)
    ensures JournalIn(v).preceding == Preceding(o.products.Some?, o.service.Some?)
    ensures JournalIn(v).archivePath == k.archive
    ensures k.archive.Some? <==> !Holder(v).record.overwrite && HasPreceding(JournalIn(v).preceding)
    ensures Holder(v).record.eventId == k.eventId && Holder(v).record.sequence == k.sequence
  {
  }

  lemma RemovingFacts(o: Origin, k: Key, v: View)
    requires Removing(o, k, v)
    ensures 2 <= |JournalIn(v).completed| <= 3 && k.archive.None?
    ensures |JournalIn(v).completed| == 3 ==> v.queued.value.stage.None?
    ensures v.products.None? && v.current.None?
  {
  }

  lemma RequestFacts(o: Origin, k: Key, v: View)
    requires InTransaction(o, k, v)
    ensures Holder(v).request == o.claimed.request && Holder(v).manifest == o.claimed.manifest
    ensures Holder(v).record.sequence == k.sequence
    ensures v.queued.None? ==> v.current.Some? && Holder(v) == v.current.value
  {
  }

  lemma StagingFacts(o: Origin, k: Key, v: View, n: nat)
    requires Staging(o, k, v, n)
    ensures var stage := v.queued.value.stage.value;
      && n <= 2
      && (Completed(JournalIn(v), ProductsStaged) <==> n >= 1)
      && (Completed(JournalIn(v), ServiceStaged) <==> n >= 2)
      && (o.products.None? ==> v.products.None? && stage.products.Absent?)
      && (o.products.Some? ==> (v.products.Some? <==> stage.products.Absent?))
      && (o.service.None? ==> v.current.None? && stage.service.Absent?)
      && (o.service.Some? ==> (v.current.Some? <==> stage.service.Absent?))
      && (n >= 1 ==> v.products.None?) && (n >= 2 ==> v.current.None?)
  {
  }

  /** A queue entry is in one of four situations. */
  lemma WaitingSituations(o: Origin, k: Key, v: View)
    requires Waiting(o, k, v)
    ensures var j := JournalIn(v);
      var x := v.queued.value;
      && Holder(v) == x && |j.completed| <= 3
      && (Removing(o, k, v) ==> k.archive.None? && v.bundle.None? && v.products.None? && v.current.None?)
      && (!Removing(o, k, v) && v.bundle.Some? ==>
            !x.record.overwrite && x.stage.None? && v.bundle.value == BundleOf(o) && |j.completed| >= 2)
      && (!Removing(o, k, v) && v.bundle.None? && x.stage.None? ==> Fresh(o, k, v) && j.completed == [])
      && (!Removing(o, k, v) && v.bundle.None? && x.stage.Some? ==> Staging(o, k, v, |j.completed|))
  {
  }

  lemma MakingStage(o: Origin, k: Key, v: View)
    requires Fresh(o, k, v)
    ensures var w := Effect(v, SetStage(InQueue(k.sequence), Some(Stage(Absent, Absent))));
      Staging(o, k, w, 0) && w.products == o.products && w.current == o.service
  {
  }

  lemma StagingProducts(o: Origin, k: Key, v: View, n: nat)
    requires Staging(o, k, v, n) && v.products.Some?
    ensures var w := Effect(v, StageProducts(InQueue(k.sequence), k.eventId));
      Staging(o, k, w, n) && w.products.None? && w.current == v.current
  {
  }

  lemma StagingService(o: Origin, k: Key, v: View, n: nat)
    requires Staging(o, k, v, n) && n >= 1 && v.current.Some?
    ensures var w := Effect(v, StageService(InQueue(k.sequence), k.eventId));
      Staging(o, k, w, n) && w.current.None?
  {
  }

  lemma CheckpointingStaged(o: Origin, k: Key, v: View, products: bool, n: nat)
    requires Staging(o, k, v, n) && (products || n >= 1)
    requires if products then v.products.None? else v.current.None?
    ensures var w := Checkpointed(v, if products then ProductsStaged else ServiceStaged);
      var least := if products then 1 else 2;
      && Staging(o, k, w, if n < least then least else n)
      && w.products == v.products && w.current == v.current
  {
  }

  lemma Archiving(o: Origin, k: Key, v: View)
    requires Staging(o, k, v, 2) && k.archive.Some?
    ensures var w := Effect(v, PublishArchive(InQueue(k.sequence), k.archive.value));
      WaitingAt(o, k, w, 2) && w.bundle.Some?
  {
  }

  lemma StartingRemoval(o: Origin, k: Key, v: View)
    requires Staging(o, k, v, 2) && k.archive.None?
    ensures var j := JournalIn(v);
      var w := WithJournal(v, j.(intents := j.intents.(stageRemovalStarted := true)));
      Removing(o, k, w) && WaitingAt(o, k, w, 2)
  {
  }

  lemma StageMayVary(o: Origin, k: Key, v: View, stage: Option<Stage>)
    requires Removing(o, k, v) && WaitingAt(o, k, v, 2)
    ensures var w := v.(queued := Some(v.queued.value.(stage := stage)));
      Removing(o, k, w) && WaitingAt(o, k, w, 2)
  {
  }

  lemma CheckpointingDisposed(o: Origin, k: Key, v: View)
    requires Swept(o, k, v)
    ensures WaitingAt(o, k, Checkpointed(v, PrecedingDisposed), 3)
  {
  }

  lemma Promoting(o: Origin, k: Key, v: View)
    requires WaitingAt(o, k, v, 3)
    ensures v.current.None?
    ensures var w := Effect(v, Promote(k.sequence, k.eventId));
      PromotedAt(o, k, w, 3) && w.products.None? && w.current.value.candidate.None?
      && w.current == v.queued && w.queued.None? && JournalIn(w) == JournalIn(v)
      && !JournalIn(w).intents.candidateRemovalStarted
  {
  }

  lemma CheckpointingPromoted(o: Origin, k: Key, v: View)
    requires Promoted(o, k, v)
    ensures var w := Checkpointed(v, RecordPromoted);
      Promoted(o, k, w) && |JournalIn(w).completed| >= 4
      && |JournalIn(w).completed| == (if |JournalIn(v).completed| == 3 then 4 else |JournalIn(v).completed|)
      && JournalIn(w).intents == JournalIn(v).intents
      && w.queued.None? && w.products == v.products
      && w.current.Some? && w.current.value.candidate == v.current.value.candidate
  {
  }

  /** What _remove_private_candidate may find. */
  lemma CandidateFacts(o: Origin, k: Key, v: View)
    requires Promoted(o, k, v) && |JournalIn(v).completed| >= 4
    ensures var j := JournalIn(v);
      var x := v.current.value;
      && v.queued.None? && Holder(v) == x
      && (j.intents.candidateRemovalStarted ==> v.products.None?)
      && !(x.candidate.Some? && v.products.Some?)
      && (v.products.Some? ==> Completed(j, CandidateReady))
      && (v.products.None? ==> !Completed(j, NativeTreePublished))
      && (Completed(j, CandidateReady) && !j.intents.candidateRemovalStarted ==>
            x.candidate.Some? || v.products.Some?)
      && x.record.eventId == k.eventId && x.record.sequence == k.sequence && Status.Valid(x.record)
      && x.stage.None? && (k.archive.Some? ==> v.bundle == Some(BundleOf(o)))
  {
  }

  lemma RecordFacts(o: Origin, k: Key, v: View)
    requires InTransaction(o, k, v)
    ensures Status.Valid(Holder(v).record) && !Holder(v).record.status.Queued?
  {
  }

  lemma DispositionFacts(o: Origin, k: Key, v: View)
    requires Promoted(o, k, v)
    ensures v.current.Some? && v.current.value.stage.None?
    ensures k.archive.Some? ==> v.bundle == Some(BundleOf(o))
    ensures JournalIn(v).preceding == Preceding(o.products.Some?, o.service.Some?)
  {
  }

  lemma CandidateMayVary(o: Origin, k: Key, v: View, candidate: Option<Files>)
    requires Promoted(o, k, v)
    requires |JournalIn(v).completed| == 4 || JournalIn(v).intents.candidateRemovalStarted
    requires v.products.None?
    ensures var w := v.(current := Some(v.current.value.(candidate := candidate)));
      Promoted(o, k, w) && JournalIn(w) == JournalIn(v)
  {
  }

  lemma CheckpointingReady(o: Origin, k: Key, v: View)
    requires PromotedAt(o, k, v, 4) && !JournalIn(v).intents.candidateRemovalStarted
    requires v.current.value.candidate == Some(v.current.value.request)
    ensures PromotedAt(o, k, Checkpointed(v, CandidateReady), 5) && v.products.None?
  {
  }

  lemma Publishing(o: Origin, k: Key, v: View)
    requires PromotedAt(o, k, v, 5) && !JournalIn(v).intents.candidateRemovalStarted
    requires v.products.None? && v.current.value.candidate.Some?
    ensures var w := Effect(v, PublishNative(InEvents(k.eventId), k.eventId));
      PromotedAt(o, k, w, 5) && w.products == Some(Tree(k.sequence, w.current.value.request))
      && JournalIn(w) == JournalIn(v)
  {
  }

  lemma CheckpointingPublished(o: Origin, k: Key, v: View)
    requires PromotedAt(o, k, v, 5) && v.products.Some?
    ensures PromotedAt(o, k, Checkpointed(v, NativeTreePublished), 6)
  {
  }

  lemma StartingCandidateRemoval(o: Origin, k: Key, v: View)
    requires Promoted(o, k, v) && v.current.value.candidate.Some? && |JournalIn(v).completed| >= 4
    ensures var j := JournalIn(v);
      var w := WithJournal(v, j.(intents := j.intents.(candidateRemovalStarted := true)));
      Promoted(o, k, w) && v.products.None?
  {
  }

  lemma Failing(o: Origin, k: Key, v: View, r: Status.Record)
    requires Promoted(o, k, v) && Status.Valid(r) && r.status.Failed?
    requires Status.SameIdentity(r, v.current.value.record) && r.overwrite == v.current.value.record.overwrite
    ensures Promoted(o, k, Effect(v, WriteRecord(InEvents(k.eventId), r)))
  {
  }

  lemma StillThere(o: Origin, k: Key, v: View)
    requires InTransaction(o, k, v) || Recovered(o, k, v)
    ensures v.queued.Some? || v.current.Some?
  {
  }

  lemma NotingFailure(o: Origin, k: Key, v: View, j: Journal, evidence: string)
    requires v.queued.Some? || v.current.Some?
    requires InTransaction(o, k, WithJournal(v, j))
    ensures InTransaction(o, k, WithJournal(v, j.(recoveryFailure := Some(evidence))))
  {
    assert InOrder(j.completed);
  }

  lemma Closing(o: Origin, k: Key, v: View)
    requires Promoted(o, k, v) && v.current.value.record.status.Failed? && v.current.value.candidate.None?
    ensures Recovered(o, k, Effect(v, RemoveJournal(InEvents(k.eventId))))
  {
  }

  /** The journal of a finished calculation may be removed: its tree is published and nothing is left over. */
  predicate Concluded(o: Origin, k: Key, v: View) {
    && v.queued.None? && v.current.Some?
    && SameCalculation(o, k, v.current.value) && v.current.value.record.status.Terminal()
    && v.current.value.journal.None? && v.current.value.stage.None? && v.current.value.candidate.None?
    && (k.archive.Some? ==> v.bundle == Some(BundleOf(o)))
    && v.products.Some? && v.products.value.maker == k.sequence
  }

  /** The checks of finalize_transaction. */
  predicate Finalizable(x: Entry) {
    && x.record.status.Terminal()
    && (x.journal.Some? ==>
          && Loadable(x.journal.value) && JournalFor(x.journal.value, x.record)
          && x.journal.value.completed == CHECKPOINTS && x.journal.value.recoveryFailure.None?
          && !x.journal.value.intents.candidateRemovalStarted)
  }

  /** A journal is removed exactly when the record is terminal, its tree is published, and recovery never failed. */
  lemma FinalizingRequires(o: Origin, k: Key, v: View)
    requires Promoted(o, k, v)
    ensures v.current.Some? && v.current.value.journal.Some?
    ensures Finalizable(v.current.value) <==>
      && v.current.value.record.status.Terminal() && |JournalIn(v).completed| == 6
      && JournalIn(v).recoveryFailure.None?
    ensures Finalizable(v.current.value) ==> Concluded(o, k, Effect(v, RemoveJournal(InEvents(k.eventId))))
  {
    assert |JournalIn(v).completed| == 6 ==> JournalIn(v).completed == CHECKPOINTS;
  }

  // --------------------------------------------- what the journal says is so

  /** The effect each checkpoint vouches for. */
  predicate Vouched(o: Origin, k: Key, v: View, c: Checkpoint)
    requires v.queued.Some? || v.current.Some?
    requires Holder(v).journal.Some?
  {
    var x, j := Holder(v), JournalIn(v);
    match c
    case ProductsStaged => v.queued.Some? ==> v.products.None?
    case ServiceStaged => v.queued.Some? ==> v.current.None?
    case PrecedingDisposed => x.stage.None? && (k.archive.Some? ==> v.bundle == Some(BundleOf(o)))
    case RecordPromoted => v.queued.None? && v.current.Some?
    case CandidateReady =>
      j.intents.candidateRemovalStarted || v.products.Some? || x.candidate == Some(o.claimed.request)
    case NativeTreePublished =>
      x.candidate.None? && v.products.Some? && v.products.value.maker == k.sequence
  }

  predicate HalfRemovedStage(v: View)
    requires v.queued.Some? || v.current.Some?
  {
    StageOf(Holder(v)).products.Torn? || StageOf(Holder(v)).service.Torn?
  }

  predicate HalfRemovedCandidate(o: Origin, v: View)
    requires v.queued.Some? || v.current.Some?
    requires Holder(v).journal.Some?
  {
    && Completed(JournalIn(v), CandidateReady)
    && Holder(v).candidate.Some? && Holder(v).candidate != Some(o.claimed.request)
  }

  /** The journal never claims more than the disk holds, and nothing is half removed before its intent is recorded. */
  lemma JournalIsTruthful(o: Origin, k: Key, v: View, c: Checkpoint)
    requires InTransaction(o, k, v)
    ensures Completed(JournalIn(v), c) ==> Vouched(o, k, v, c)
    ensures HalfRemovedStage(v) ==>
      JournalIn(v).intents.stageRemovalStarted
      && (o.claimed.record.overwrite || (o.products.None? && o.service.None?))
    ensures HalfRemovedCandidate(o, v) ==> JournalIn(v).intents.candidateRemovalStarted
  {
  }

  // ------------------------------------------------------------ conservation

  /** Where one preceding tree is. */
  datatype Whereabouts = InPlace | InStage | InArchive | Discarding

  /** `original` is in exactly one place, and only a journaled removal may be discarding it. */
  predicate Accounted<T(==)>(
    original: T, place: Option<T>, staged: Held<T>, archived: Held<T>, removalStarted: bool, w: Whereabouts)
  {
    match w
    case InPlace => place == Some(original) && staged.Absent? && archived.Absent?
    case InStage => place != Some(original) && staged == Intact(original) && archived.Absent?
    case InArchive => place != Some(original) && staged.Absent? && archived == Intact(original)
    case Discarding => removalStarted
  }

  function StageOf(x: Entry): Stage {
    if x.stage.Some? then x.stage.value else Stage(Absent, Absent)
  }

  function BundleIn(v: View): Stage {
    if v.bundle.Some? then v.bundle.value else Stage(Absent, Absent)
  }

  /** A calculation's own tree or record differs from those it displaces. */
  predicate Distinguished(o: Origin, k: Key) {
    && (o.products.Some? ==> o.products.value.maker != k.sequence)
    && (o.service.Some? ==> o.service.value.record.sequence != k.sequence)
  }

  /** At every instant each preceding tree is in exactly one of its original place, the stage and
      the journaled archive, unless overwriting and the removal intent is already recorded. */
  lemma TreesAreConserved(o: Origin, k: Key, v: View)
    requires InTransaction(o, k, v) && Distinguished(o, k)
    ensures var x := Holder(v);
      var removing := o.claimed.record.overwrite && x.journal.value.intents.stageRemovalStarted;
      && (o.products.Some? ==> exists w ::
            Accounted(o.products.value, v.products, StageOf(x).products, BundleIn(v).products, removing, w))
      && (o.service.Some? ==> exists w ::
            Accounted(o.service.value, v.current, StageOf(x).service, BundleIn(v).service, removing, w))
  {
    var x := Holder(v);
    var j := x.journal.value;
    var removing := o.claimed.record.overwrite && j.intents.stageRemovalStarted;
    if o.products.Some? {
      var w := if removing then Discarding else if v.bundle.Some? then InArchive
               else if StageOf(x).products.Absent? then InPlace else InStage;
      assert Accounted(o.products.value, v.products, StageOf(x).products, BundleIn(v).products, removing, w);
    }
    if o.service.Some? {
      var w := if removing then Discarding else if v.bundle.Some? then InArchive
               else if StageOf(x).service.Absent? then InPlace else InStage;
      assert Accounted(o.service.value, v.current, StageOf(x).service, BundleIn(v).service, removing, w);
    }
  }

  /** Without overwrite, a transaction that reached promotion retains both trees, unchanged, in its archive. */
  lemma RetainedTreesAreArchived(o: Origin, k: Key, v: View)
    requires Promoted(o, k, v) || Recovered(o, k, v)
    requires !o.claimed.record.overwrite && (o.products.Some? || o.service.Some?)
    requires k.archive.Some? <==> !o.claimed.record.overwrite && (o.products.Some? || o.service.Some?)
    ensures v.bundle == Some(Stage(HeldOf(o.products), HeldOf(o.service)))
  {
  }
}
