/** What every reachable service tree satisfies, and why each kind of step keeps it. */
module Invariants {
  import opened Common
  import opened Disk
  import opened Protocol
  import opened Census
  import Acceptance
  import Preparation
  import Snapshot
  import Status

  // ---------------------------------------------------------------- invariants

  function EventAt(d: Disk, at: Place): string
    requires At(d, at).Some?
  {
    At(d, at).value.record.eventId
  }

  predicate Plain(x: Entry) {
    x.journal.None? && x.stage.None? && x.candidate.None?
  }

  ghost predicate WaitingArePlain(d: Disk) {
    forall s | s in d.queue && d.queue[s].record.status.Queued? :: Plain(d.queue[s])
  }

  /** A promoted record that is RUNNING still holds its journal. */
  ghost predicate RunningCurrentsAreJournaled(d: Disk) {
    forall e | e in d.events ::
      !d.events[e].record.status.Queued? && (d.events[e].record.status.Running? ==> Journaled(d, InEvents(e)))
  }

  /** A calculation that has started finds no unfinished transaction in its way. */
  ghost predicate StartedAreUnobstructed(d: Disk) {
    forall s | RunningAt(d, InQueue(s)) && !Journaled(d, InQueue(s)) ::
      !Journaled(d, InEvents(EventAt(d, InQueue(s))))
  }

  ghost predicate OneRunningPerEvent(d: Disk) {
    forall a, b | RunningAt(d, a) && RunningAt(d, b) && EventAt(d, a) == EventAt(d, b) :: a == b
  }

  predicate UnpromotedAreRunning(d: Disk, txns: map<string, Txn>) {
    forall e | e in txns && txns[e].key.sequence in d.queue :: d.queue[txns[e].key.sequence].record.status.Running?
  }

  /** A native tree outside any transaction belongs to the current record beside it. */
  ghost predicate TreesMatchRecords(d: Disk, txns: map<string, Txn>) {
    forall e | e in d.products && e !in txns ::
      e in d.events && d.products[e].maker == d.events[e].record.sequence
  }

  predicate SameMaker(products: Option<Tree>, service: Option<Entry>) {
    products.Some? && service.Some? ==> products.value.maker == service.value.record.sequence
  }

  predicate OriginsMatch(txns: map<string, Txn>) {
    forall e | e in txns :: SameMaker(txns[e].origin.products, txns[e].origin.service)
  }

  /** What the archive view demands of one archive tree. */
  predicate Viewable(bundle: Stage) {
    && !bundle.products.Torn? && !bundle.service.Torn?
    && (bundle.service.Intact? ==> bundle.service.tree.record.status.Terminal() && bundle.service.tree.journal.None?)
    && (bundle.products.Intact? && bundle.service.Intact? ==>
          bundle.products.tree.maker == bundle.service.tree.record.sequence)
  }

  predicate ArchiveViewable(d: Disk) {
    forall n | n in d.archive :: Viewable(d.archive[n])
  }

  /** A displaced service record is in one archive tree only, and nowhere else. */
  ghost predicate ArchivedOnce(d: Disk, txns: map<string, Txn>) {
    && (forall n, m | n in d.archive && m in d.archive && d.archive[n].service.Intact? && d.archive[m].service.Intact?
          && ArchivedSequence(d, n) == ArchivedSequence(d, m) :: n == m)
    && (forall n, at | n in d.archive && d.archive[n].service.Intact? && At(d, at).Some? ::
          At(d, at).value.record.sequence != ArchivedSequence(d, n))
    && (forall n, e | n in d.archive && d.archive[n].service.Intact? && e in txns && txns[e].origin.service.Some?
          && txns[e].key.archive != Some(n) ::
          txns[e].origin.service.value.record.sequence != ArchivedSequence(d, n))
  }

  predicate ArchiveOwned(d: Disk, owner: Owners) {
    forall n | n in d.archive && d.archive[n].service.Intact? :: Owned(d.archive[n].service.tree.record, owner)
  }

  function ArchivedSequence(d: Disk, n: string): int
    requires n in d.archive
  {
    if d.archive[n].service.Intact? then d.archive[n].service.tree.record.sequence else 0
  }

  ghost predicate DiskInv(d: Disk, owner: Owners, txns: map<string, Txn>) {
    && Coherent(d, owner, txns) && WaitingArePlain(d) && RunningCurrentsAreJournaled(d)
    && StartedAreUnobstructed(d) && OneRunningPerEvent(d) && UnpromotedAreRunning(d, txns)
    && TreesMatchRecords(d, txns) && OriginsMatch(txns) && ArchiveViewable(d) && ArchivedOnce(d, txns)
    && ArchiveOwned(d, owner) && Acceptance.Retired(d, owner.Keys)
  }

  ghost predicate ArchiveGrows(before: Disk, after: Disk) {
    forall n | n in before.archive :: n in after.archive && after.archive[n] == before.archive[n]
  }

  // ------------------------------------------------- steps of one transaction

  /** No calculation of the event runs outside this transaction. */
  ghost predicate Exclusive(d: Disk, k: Key) {
    forall at | RunningAt(d, at) && EventAt(d, at) == k.eventId :: At(d, at).value.record.sequence == k.sequence
  }

  /** The transaction's record is in its place. */
  predicate Present(d: Disk, k: Key) {
    At(d, HolderOf(d, k)).Some? && At(d, HolderOf(d, k)).value.record.sequence == k.sequence
  }

  function HolderOf(d: Disk, k: Key): Place {
    if k.sequence in d.queue then InQueue(k.sequence) else InEvents(k.eventId)
  }

  /** A step of the transaction of `e`, which is about to begin or under way. */
  ghost predicate TransactionStep(before: Disk, after: Disk, owner: Owners, txns: map<string, Txn>, e: string) {
    && Adjoined(before, owner, txns, e) && Stepped(before, after, txns, e) && Exclusive(before, txns[e].key)
    && Present(before, txns[e].key)
    && (txns[e].key.sequence in after.queue ==> after.queue[txns[e].key.sequence].record.status.Running?)
  }

  lemma QueueElsewhere(before: Disk, after: Disk, k: Key)
    requires Kept(before, after, k)
    ensures forall s | s in after.queue && s != k.sequence :: s in before.queue && after.queue[s] == before.queue[s]
    ensures forall s | s in before.queue && s != k.sequence :: s in after.queue && after.queue[s] == before.queue[s]
  {
    forall s | s != k.sequence && (s in before.queue || s in after.queue)
      ensures s in before.queue && s in after.queue && after.queue[s] == before.queue[s]
    {
      SameElsewhere(before.queue, after.queue, {k.sequence}, s);
    }
  }

  lemma EventsElsewhere(before: Disk, after: Disk, k: Key)
    requires Kept(before, after, k)
    ensures forall e | e in after.events && e != k.eventId :: e in before.events && after.events[e] == before.events[e]
    ensures forall e | e in before.events && e != k.eventId :: e in after.events && after.events[e] == before.events[e]
  {
    forall e | e != k.eventId && (e in before.events || e in after.events)
      ensures e in before.events && e in after.events && after.events[e] == before.events[e]
    {
      SameElsewhere(before.events, after.events, {k.eventId}, e);
    }
  }

  lemma ProductsElsewhere(before: Disk, after: Disk, k: Key)
    requires Kept(before, after, k)
    ensures forall e | e in after.products && e != k.eventId ::
      e in before.products && after.products[e] == before.products[e]
  {
    forall e | e != k.eventId && e in after.products
      ensures e in before.products && after.products[e] == before.products[e]
    {
      SameElsewhere(before.products, after.products, {k.eventId}, e);
    }
  }

  /** Records after a step: the transaction's own, the one it displaces, or one that was there before. */
  lemma RecordsAfterStep(before: Disk, after: Disk, owner: Owners, txns: map<string, Txn>, e: string, at: Place)
    requires TransactionStep(before, after, owner, txns, e) && At(after, at).Some?
    ensures var k := txns[e].key;
      var x := At(after, at).value;
      || (Own(x.record, k) && !x.record.status.Queued? && at == HolderOf(after, k)
          && (x.record.status.Running? ==> x.journal.Some?))
      || (at == InEvents(e) && k.sequence in after.queue && Some(x) == txns[e].origin.service
          && x.record.status.Terminal() && x.journal.None? && x.record.eventId == e)
      || (at != InEvents(e) && at != InQueue(k.sequence) && At(before, at) == Some(x))
  {
    hide InTransaction, Recovered, Concluded, Status.Valid, Adjoined;
    var t := txns[e];
    DisplacedFacts(before, owner, txns, e);
    WhoIsWhere(t.origin, t.key, Look(after, t.key));
    JournalsInTransaction(t.origin, t.key, Look(after, t.key));
    if at != InEvents(e) && at != InQueue(t.key.sequence) {
      ElsewhereSame(before, after, t.key, at);
    }
  }

  lemma DisplacedFacts(d: Disk, owner: Owners, txns: map<string, Txn>, e: string)
    requires Adjoined(d, owner, txns, e)
    ensures e in txns && txns[e].key.eventId == e
    ensures txns[e].origin.service.Some? ==>
      var x := txns[e].origin.service.value;
      x.record.status.Terminal() && x.journal.None? && x.record.eventId == e && x.record.sequence != txns[e].key.sequence
  {
    hide Live, Status.Valid;
  }

  lemma JournalsInTransaction(o: Origin, k: Key, v: View)
    requires Followed(o, k, v)
    ensures v.queued.Some? ==> v.queued.value.journal.Some?
    ensures v.queued.None? ==> v.current.Some? && (v.current.value.record.status.Running? ==> v.current.value.journal.Some?)
  {
  }

  lemma StepKeepsRecordInvariants(before: Disk, after: Disk, owner: Owners, txns: map<string, Txn>, e: string)
    requires TransactionStep(before, after, owner, txns, e)
    requires WaitingArePlain(before) && RunningCurrentsAreJournaled(before)
    ensures WaitingArePlain(after) && RunningCurrentsAreJournaled(after)
  {
    hide TransactionStep, Status.Valid;
    forall s | s in after.queue && after.queue[s].record.status.Queued? ensures Plain(after.queue[s]) {
      RecordsAfterStep(before, after, owner, txns, e, InQueue(s));
      assert At(before, InQueue(s)) == Some(after.queue[s]);
    }
    forall f | f in after.events
      ensures !after.events[f].record.status.Queued?
      ensures after.events[f].record.status.Running? ==> Journaled(after, InEvents(f))
    {
      RecordsAfterStep(before, after, owner, txns, e, InEvents(f));
      if At(before, InEvents(f)) == Some(after.events[f]) {
        assert before.events[f] == after.events[f];
      }
    }
  }

  /** Where the running records of a step's event are. */
  lemma RunningAfterStep(before: Disk, after: Disk, owner: Owners, txns: map<string, Txn>, e: string, at: Place)
    requires TransactionStep(before, after, owner, txns, e) && RunningAt(after, at)
    ensures if EventAt(after, at) == e
            then at == HolderOf(after, txns[e].key) && Journaled(after, at)
                 && At(after, at).value.record.sequence == txns[e].key.sequence
            else RunningAt(before, at) && At(before, at) == At(after, at)
  {
    hide InTransaction, Recovered, Concluded, Followed, Status.Valid, Adjoined;
    DisplacedFacts(before, owner, txns, e);
    RecordsAfterStep(before, after, owner, txns, e, at);
    if At(before, at) == At(after, at) && EventAt(after, at) == e {
      SequencesStayPut(before, owner, txns, e, at);
    }
  }

  lemma SequencesStayPut(d: Disk, owner: Owners, txns: map<string, Txn>, e: string, at: Place)
    requires Adjoined(d, owner, txns, e) && At(d, at).Some?
    ensures At(d, at).value.record.sequence == txns[e].key.sequence ==>
      at == InQueue(txns[e].key.sequence) || at == InEvents(e)
  {
    hide Live, Status.Valid;
  }

  lemma StepKeepsOneRunning(before: Disk, after: Disk, owner: Owners, txns: map<string, Txn>, e: string)
    requires TransactionStep(before, after, owner, txns, e)
    requires OneRunningPerEvent(before) && StartedAreUnobstructed(before)
    ensures OneRunningPerEvent(after) && StartedAreUnobstructed(after)
  {
    hide TransactionStep, HolderOf;
    forall a, b | RunningAt(after, a) && RunningAt(after, b) && EventAt(after, a) == EventAt(after, b) ensures a == b {
      RunningAfterStep(before, after, owner, txns, e, a);
      RunningAfterStep(before, after, owner, txns, e, b);
    }
    forall s | RunningAt(after, InQueue(s)) && !Journaled(after, InQueue(s))
      ensures !Journaled(after, InEvents(EventAt(after, InQueue(s))))
    {
      RunningAfterStep(before, after, owner, txns, e, InQueue(s));
      OthersStayPut(before, after, owner, txns, e, EventAt(after, InQueue(s)));
    }
  }

  lemma OthersStayPut(before: Disk, after: Disk, owner: Owners, txns: map<string, Txn>, e: string, f: string)
    requires TransactionStep(before, after, owner, txns, e)
    ensures f != e ==> At(after, InEvents(f)) == At(before, InEvents(f))
  {
    hide InTransaction, Recovered, Concluded, Followed, Status.Valid;
    DisplacedFacts(before, owner, txns, e);
    if f != e {
      ElsewhereSame(before, after, txns[e].key, InEvents(f));
    }
  }

  lemma StepKeepsTrees(before: Disk, after: Disk, owner: Owners, txns: map<string, Txn>, e: string)
    requires TransactionStep(before, after, owner, txns, e)
    requires TreesMatchRecords(before, txns) && OriginsMatch(txns)
    ensures TreesMatchRecords(after, Ledger(after, txns, e)) && OriginsMatch(Ledger(after, txns, e))
  {
    hide InTransaction, Recovered, Concluded, Followed, Status.Valid;
    DisplacedFacts(before, owner, txns, e);
    var t := txns[e];
    WhoIsWhere(t.origin, t.key, Look(after, t.key));
    ProductsElsewhere(before, after, t.key);
    EventsElsewhere(before, after, t.key);
  }

  lemma StepKeepsUnpromoted(before: Disk, after: Disk, owner: Owners, txns: map<string, Txn>, e: string)
    requires TransactionStep(before, after, owner, txns, e)
    requires forall f | f in txns && f != e && txns[f].key.sequence in before.queue ::
      before.queue[txns[f].key.sequence].record.status.Running?
    ensures UnpromotedAreRunning(after, Ledger(after, txns, e))
  {
    hide InTransaction, Recovered, Concluded, Followed, Status.Valid;
    DisplacedFacts(before, owner, txns, e);
    QueueElsewhere(before, after, txns[e].key);
    forall f | f in txns && f != e ensures txns[f].key.sequence != txns[e].key.sequence {
      assert Live(before, owner, txns[f]);
    }
  }

  lemma BundleOfTransaction(o: Origin, k: Key, v: View)
    requires Followed(o, k, v)
    ensures k.archive.Some? && v.bundle.Some? ==>
      v.bundle.value == BundleOf(o) && (v.queued.Some? ==> v.current.None?)
  {
  }

  lemma StepKeepsArchive(before: Disk, after: Disk, owner: Owners, txns: map<string, Txn>, e: string)
    requires TransactionStep(before, after, owner, txns, e) && ArchiveViewable(before) && OriginsMatch(txns)
    ensures ArchiveViewable(after) && ArchiveGrows(before, after)
  {
    hide InTransaction, Recovered, Concluded, Followed, Status.Valid;
    DisplacedFacts(before, owner, txns, e);
    var t := txns[e];
    BundleOfTransaction(t.origin, t.key, Look(after, t.key));
    forall n | n in after.archive || n in before.archive
      ensures n in after.archive && Viewable(after.archive[n])
      ensures n in before.archive ==> after.archive[n] == before.archive[n]
    {
      if n !in t.key.ArchiveNames() {
        SameElsewhere(before.archive, after.archive, t.key.ArchiveNames(), n);
      }
    }
  }

  /** After a step, no record has a sequence that was archived before. */
  lemma StepKeepsArchivedApart(
    before: Disk, after: Disk, owner: Owners, txns: map<string, Txn>, e: string, n: string, at: Place)
    requires TransactionStep(before, after, owner, txns, e) && ArchivedOnce(before, txns)
    requires n in before.archive && before.archive[n].service.Intact? && At(after, at).Some?
    requires n in after.archive && after.archive[n] == before.archive[n]
    ensures At(after, at).value.record.sequence != ArchivedSequence(before, n)
  {
    hide InTransaction, Recovered, Concluded, Followed, Status.Valid, Adjoined;
    var t := txns[e];
    DisplacedFacts(before, owner, txns, e);
    RecordsAfterStep(before, after, owner, txns, e, at);
    BundleOfTransaction(t.origin, t.key, Look(after, t.key));
    assert At(before, HolderOf(before, t.key)).Some?;
  }

  /** The tree a step archives was in no other archive and is no longer a record. */
  lemma NewArchiveIsApart(
    before: Disk, after: Disk, owner: Owners, txns: map<string, Txn>, e: string, at: Place)
    requires TransactionStep(before, after, owner, txns, e) && At(after, at).Some?
    requires txns[e].key.archive.Some? && txns[e].key.archive.value in after.archive && txns[e].origin.service.Some?
    ensures At(after, at).value.record.sequence != txns[e].origin.service.value.record.sequence
  {
    hide InTransaction, Recovered, Concluded, Followed, Status.Valid;
    var t := txns[e];
    DisplacedFacts(before, owner, txns, e);
    RecordsAfterStep(before, after, owner, txns, e, at);
    BundleOfTransaction(t.origin, t.key, Look(after, t.key));
    hide Live;
  }

  lemma StepKeepsArchivedOnce(before: Disk, after: Disk, owner: Owners, txns: map<string, Txn>, e: string)
    requires TransactionStep(before, after, owner, txns, e) && ArchivedOnce(before, txns)
    requires ArchiveViewable(before) && OriginsMatch(txns)
    ensures ArchivedOnce(after, Ledger(after, txns, e))
  {
    hide InTransaction, Recovered, Concluded, Followed, Status.Valid, Adjoined, Framed;
    var t := txns[e];
    StepKeepsArchive(before, after, owner, txns, e);
    BundleOfTransaction(t.origin, t.key, Look(after, t.key));
    ArchiveElsewhere(before, after, t.key);
    forall n, at | n in after.archive && after.archive[n].service.Intact? && At(after, at).Some?
      ensures At(after, at).value.record.sequence != ArchivedSequence(after, n)
    {
      if n in before.archive {
        StepKeepsArchivedApart(before, after, owner, txns, e, n, at);
      } else {
        NewArchiveIsApart(before, after, owner, txns, e, at);
      }
    }
    forall n, f | n in after.archive && after.archive[n].service.Intact? && f in txns && txns[f].origin.service.Some?
        && txns[f].key.archive != Some(n)
      ensures txns[f].origin.service.value.record.sequence != ArchivedSequence(after, n)
    {
      OriginsApart(before, owner, txns, e);
    }
  }

  lemma StepKeepsArchiveOwned(before: Disk, after: Disk, owner: Owners, txns: map<string, Txn>, e: string)
    requires TransactionStep(before, after, owner, txns, e) && ArchiveOwned(before, owner)
    requires ArchiveGrows(before, after)
    ensures ArchiveOwned(after, owner)
  {
    hide InTransaction, Recovered, Concluded, Followed, Status.Valid;
    DisplacedFacts(before, owner, txns, e);
    BundleOfTransaction(txns[e].origin, txns[e].key, Look(after, txns[e].key));
    ArchiveElsewhere(before, after, txns[e].key);
  }

  lemma ArchiveElsewhere(before: Disk, after: Disk, k: Key)
    requires Kept(before, after, k)
    ensures forall n | n in after.archive && n !in before.archive :: k.archive == Some(n)
  {
    forall n | n in after.archive && n !in before.archive ensures k.archive == Some(n) {
      if n !in k.ArchiveNames() {
        SameElsewhere(before.archive, after.archive, k.ArchiveNames(), n);
      }
    }
  }

  lemma OriginsApart(d: Disk, owner: Owners, txns: map<string, Txn>, e: string)
    requires Adjoined(d, owner, txns, e)
    ensures forall f | f in txns && f != e && txns[f].origin.service.Some? && txns[e].origin.service.Some? ::
      txns[f].origin.service.value.record.sequence != txns[e].origin.service.value.record.sequence
  {
    hide InTransaction, Status.Valid;
    forall f | f in txns && f != e && txns[f].origin.service.Some? && txns[e].origin.service.Some?
      ensures txns[f].origin.service.value.record.sequence != txns[e].origin.service.value.record.sequence
    {
      assert Live(d, owner, txns[f]);
    }
  }

  /** A step of one transaction keeps every invariant, and never touches an archive tree again. */
  lemma TransactionStepKeepsInv(before: Disk, after: Disk, owner: Owners, txns: map<string, Txn>, e: string)
    requires TransactionStep(before, after, owner, txns, e)
    requires WaitingArePlain(before) && RunningCurrentsAreJournaled(before)
    requires OneRunningPerEvent(before) && StartedAreUnobstructed(before)
    requires TreesMatchRecords(before, txns) && OriginsMatch(txns) && ArchiveViewable(before)
    requires forall f | f in txns && f != e && txns[f].key.sequence in before.queue ::
      before.queue[txns[f].key.sequence].record.status.Running?
    requires Acceptance.Retired(before, owner.Keys) && ArchivedOnce(before, txns) && ArchiveOwned(before, owner)
    ensures DiskInv(after, owner, Ledger(after, txns, e)) && ArchiveGrows(before, after)
  {
    hide TransactionStep, Coherent, ArchivedOnce;
    StepKeepsArchivedOnce(before, after, owner, txns, e);
    StepKeepsRecordInvariants(before, after, owner, txns, e);
    StepKeepsOneRunning(before, after, owner, txns, e);
    StepKeepsTrees(before, after, owner, txns, e);
    StepKeepsUnpromoted(before, after, owner, txns, e);
    StepKeepsArchive(before, after, owner, txns, e);
    StepKeepsArchiveOwned(before, after, owner, txns, e);
    StepIsCoherent(before, after, owner, txns, e);
  }

  lemma StepIsCoherent(before: Disk, after: Disk, owner: Owners, txns: map<string, Txn>, e: string)
    requires TransactionStep(before, after, owner, txns, e)
    ensures Coherent(after, owner, Ledger(after, txns, e)) && after.counter == before.counter
  {
    hide InTransaction, Recovered, Concluded, Followed, Adjoined, Coherent;
    StepKeepsCoherence(before, after, owner, txns, e);
  }

  // --------------------------------------------- steps of one plain record

  /** A queue entry with no journal is claimed, rewritten, or failed. */
  ghost predicate RecordStep(before: Disk, after: Disk, s: int, r: Status.Record) {
    && s in before.queue
    && var x := before.queue[s];
       && x.journal.None? && !x.record.status.Terminal()
       && Status.Valid(r) && Status.SameIdentity(r, x.record) && r.overwrite == x.record.overwrite
       && (r.status == x.record.status || r.status in Status.AllowedTransitions(x.record.status))
       && after == Put(before, InQueue(s), x.(record := r))
  }

  /** A waiting record may only start when nothing of its event runs or is unfinished. */
  ghost predicate MayStart(d: Disk, s: int) {
    && s in d.queue
    && var e := d.queue[s].record.eventId;
       && !Journaled(d, InEvents(e))
       && forall at | RunningAt(d, at) :: EventAt(d, at) != e
  }

  lemma RecordStepKeepsInv(before: Disk, after: Disk, owner: Owners, txns: map<string, Txn>, s: int, r: Status.Record)
    requires DiskInv(before, owner, txns) && RecordStep(before, after, s, r)
    requires r.status.Running? && before.queue[s].record.status.Queued? ==> MayStart(before, s)
    ensures DiskInv(after, owner, txns) && after.archive == before.archive
  {
    hide Live, Status.Valid, Coherent, ArchivedOnce, UnpromotedAreRunning, OneRunningPerEvent, StartedAreUnobstructed;
    RecordStepKeepsCoherence(before, owner, txns, InQueue(s), r);
    RecordStepKeepsOneRunning(before, after, owner, txns, s, r);
    RecordStepKeepsUnpromoted(before, after, owner, txns, s, r);
    RecordStepKeepsArchived(before, after, txns, s, r);
  }

  lemma RecordStepKeepsArchived(before: Disk, after: Disk, txns: map<string, Txn>, s: int, r: Status.Record)
    requires ArchivedOnce(before, txns) && RecordStep(before, after, s, r)
    ensures ArchivedOnce(after, txns)
  {
    hide Status.Valid;
    forall at | At(after, at).Some?
      ensures At(before, at).Some? && At(before, at).value.record.sequence == At(after, at).value.record.sequence
    {
    }
  }

  lemma RecordStepKeepsOneRunning(
    before: Disk, after: Disk, owner: Owners, txns: map<string, Txn>, s: int, r: Status.Record)
    requires DiskInv(before, owner, txns) && RecordStep(before, after, s, r)
    requires r.status.Running? && before.queue[s].record.status.Queued? ==> MayStart(before, s)
    ensures OneRunningPerEvent(after) && StartedAreUnobstructed(after)
  {
    hide Coherent, Status.Valid;
    assert forall at | RunningAt(after, at) && at != InQueue(s) :: RunningAt(before, at) && EventAt(before, at) == EventAt(after, at);
    assert RunningAt(after, InQueue(s)) ==> EventAt(after, InQueue(s)) == EventAt(before, InQueue(s));
    assert forall f :: Journaled(after, InEvents(f)) <==> Journaled(before, InEvents(f));
  }

  lemma RecordStepKeepsUnpromoted(
    before: Disk, after: Disk, owner: Owners, txns: map<string, Txn>, s: int, r: Status.Record)
    requires DiskInv(before, owner, txns) && RecordStep(before, after, s, r)
    ensures UnpromotedAreRunning(after, txns)
  {
    hide Status.Valid, InTransaction;
    forall e | e in txns && txns[e].key.sequence in after.queue
      ensures txns[e].key.sequence != s
    {
      assert Live(before, owner, txns[e]);
      PlainRecordsAreElsewhere(before, owner, txns[e], InQueue(s));
    }
  }

  // --------------------------------------------------------------- acceptance

  /** The counter moved and at most one fresh waiting record appeared. */
  ghost predicate Grown(before: Disk, after: Disk, owner: Owners, known: Owners, s: int) {
    && s !in owner && s !in before.queue && (forall q | q in owner :: q in known && known[q] == owner[q])
    && after.events == before.events && after.products == before.products && after.archive == before.archive
    && (forall q | q != s :: Lookup(after.queue, q) == Lookup(before.queue, q) && (q in after.queue <==> q in before.queue))
    && (s in after.queue ==>
          && Status.Valid(after.queue[s].record) && after.queue[s].record.status.Queued?
          && after.queue[s].record.sequence == s && Owned(after.queue[s].record, known) && Plain(after.queue[s]))
  }

  lemma GrowthKeepsLive(before: Disk, after: Disk, owner: Owners, known: Owners, s: int, t: Txn)
    requires Grown(before, after, owner, known, s) && Live(before, owner, t)
    ensures Live(after, known, t) && Look(after, t.key) == Look(before, t.key)
  {
    hide InTransaction, Status.Valid;
  }

  lemma GrowthKeepsCoherence(
    before: Disk, after: Disk, owner: Owners, known: Owners, txns: map<string, Txn>, s: int)
    requires Grown(before, after, owner, known, s) && Coherent(before, owner, txns)
    ensures Coherent(after, known, txns)
  {
    hide Live, Status.Valid;
    forall e | e in txns ensures Live(after, known, txns[e]) {
      GrowthKeepsLive(before, after, owner, known, s, txns[e]);
    }
    GrowthIsElsewhere(before, after, owner, known, s);
    GrowthKeepsOrder(before, after, owner, known, s);
    forall at | Journaled(after, at) ensures Known(after, at, txns) {
      assert Journaled(before, at) && Known(before, at, txns);
    }
  }

  lemma GrowthKeepsOrder(before: Disk, after: Disk, owner: Owners, known: Owners, s: int)
    requires Grown(before, after, owner, known, s) && QueueOrderly(before, owner) && EventsOrderly(before, owner)
    ensures QueueOrderly(after, known) && EventsOrderly(after, known)
  {
    hide Status.Valid;
    forall q | q in after.queue && q != s ensures q in before.queue && after.queue[q] == before.queue[q] {
      assert Lookup(after.queue, q) == Lookup(before.queue, q);
    }
  }

  lemma GrowthIsElsewhere(before: Disk, after: Disk, owner: Owners, known: Owners, s: int)
    requires Grown(before, after, owner, known, s)
    ensures forall at | at != InQueue(s) :: At(after, at) == At(before, at)
    ensures At(before, InQueue(s)).None? && (At(after, InQueue(s)).Some? ==> !Journaled(after, InQueue(s)))
  {
    hide Status.Valid;
  }

  lemma GrowthKeepsUnpromoted(
    before: Disk, after: Disk, owner: Owners, known: Owners, txns: map<string, Txn>, s: int)
    requires Grown(before, after, owner, known, s) && Coherent(before, owner, txns) && UnpromotedAreRunning(before, txns)
    ensures UnpromotedAreRunning(after, txns)
  {
    hide InTransaction, Status.Valid;
    forall e | e in txns && txns[e].key.sequence in after.queue
      ensures after.queue[txns[e].key.sequence].record.status.Running?
    {
      assert Live(before, owner, txns[e]);
      assert Lookup(after.queue, txns[e].key.sequence) == Lookup(before.queue, txns[e].key.sequence);
    }
  }

  lemma GrowthKeepsInv(before: Disk, after: Disk, owner: Owners, known: Owners, txns: map<string, Txn>, s: int)
    requires Grown(before, after, owner, known, s) && DiskInv(before, owner, txns)
    requires Acceptance.Retired(after, known.Keys)
    ensures DiskInv(after, known, txns)
  {
    hide Coherent, UnpromotedAreRunning, Grown, ArchivedOnce, ArchiveOwned;
    GrowthKeepsCoherence(before, after, owner, known, txns, s);
    GrowthKeepsArchived(before, after, owner, known, txns, s);
    GrowthKeepsUnpromoted(before, after, owner, known, txns, s);
    GrowthIsElsewhere(before, after, owner, known, s);
    GrowthKeepsRest(before, after, owner, known, s);
    assert forall at | RunningAt(after, at) :: RunningAt(before, at) && At(after, at) == At(before, at);
  }

  lemma GrowthKeepsArchived(
    before: Disk, after: Disk, owner: Owners, known: Owners, txns: map<string, Txn>, s: int)
    requires Grown(before, after, owner, known, s) && ArchivedOnce(before, txns) && ArchiveOwned(before, owner)
    ensures ArchivedOnce(after, txns) && ArchiveOwned(after, known)
  {
    hide Status.Valid;
    GrowthIsElsewhere(before, after, owner, known, s);
  }

  lemma GrowthKeepsRest(before: Disk, after: Disk, owner: Owners, known: Owners, s: int)
    requires Grown(before, after, owner, known, s)
    ensures after.events == before.events && after.products == before.products && after.archive == before.archive
    ensures WaitingArePlain(before) ==> WaitingArePlain(after)
    ensures forall at | RunningAt(after, at) :: at != InQueue(s)
  {
    forall q | q in after.queue && q != s ensures q in before.queue && after.queue[q] == before.queue[q] {
      assert Lookup(after.queue, q) == Lookup(before.queue, q);
    }
  }

  lemma AcceptanceKeepsInv(before: Disk, after: Disk, owner: Owners, txns: map<string, Txn>, s: int, entry: Entry)
    requires DiskInv(before, owner, txns) && Acceptance.Accepted(before, after, s, entry)
    requires Status.Valid(entry.record) && entry.record.status.Queued? && entry.record.sequence == s && Plain(entry)
    ensures s !in owner && (forall q | q in owner :: q < s)
    ensures DiskInv(after, owner[s := entry.record.eventId], txns) && after.archive == before.archive
  {
    hide DiskInv, Grown, Status.Valid, Acceptance.Accepted;
    AcceptanceGrows(before, after, owner, txns, s, entry);
    GrowthKeepsInv(before, after, owner, owner[s := entry.record.eventId], txns, s);
  }

  lemma AcceptanceGrows(before: Disk, after: Disk, owner: Owners, txns: map<string, Txn>, s: int, entry: Entry)
    requires DiskInv(before, owner, txns) && Acceptance.Accepted(before, after, s, entry)
    requires Status.Valid(entry.record) && entry.record.status.Queued? && entry.record.sequence == s && Plain(entry)
    ensures s !in owner && (forall q | q in owner :: q < s)
    ensures Grown(before, after, owner, owner[s := entry.record.eventId], s)
    ensures Acceptance.Retired(after, owner[s := entry.record.eventId].Keys) && after.archive == before.archive
  {
    hide Coherent, Status.Valid, ArchivedOnce, OneRunningPerEvent, StartedAreUnobstructed;
    Acceptance.SequencesAreNeverReused(before, after, owner.Keys, s, entry);
    var known := owner[s := entry.record.eventId];
    assert known.Keys == owner.Keys + {s};
  }

  lemma AbandonmentKeepsInv(before: Disk, after: Disk, owner: Owners, txns: map<string, Txn>, s: int)
    requires DiskInv(before, owner, txns) && Acceptance.Advanced(before, after, s)
    ensures DiskInv(after, owner, txns) && after.archive == before.archive
  {
    hide Live, Status.Valid;
    WaitingSequencesAreOwned(before, owner, txns);
    NumbersNeverReused(before, after, owner, s);
    GrowthKeepsInv(before, after, owner, owner, txns, s);
  }

  lemma WaitingSequencesAreOwned(d: Disk, owner: Owners, txns: map<string, Txn>)
    requires Coherent(d, owner, txns)
    ensures forall q | q in d.queue :: q in owner
  {
    hide Live, Status.Valid;
  }

  lemma NumbersNeverReused(before: Disk, after: Disk, owner: Owners, s: int)
    requires Acceptance.Retired(before, owner.Keys) && Acceptance.Advanced(before, after, s)
    ensures s !in owner && Acceptance.Retired(after, owner.Keys)
  {
  }

  // ---------------------------------------------------------- beginning and ending

  /** A running entry without a journal is its event's only business. */
  lemma NoTransactionYet(d: Disk, owner: Owners, txns: map<string, Txn>, s: int)
    requires DiskInv(d, owner, txns) && RunningAt(d, InQueue(s)) && !Journaled(d, InQueue(s))
    ensures d.queue[s].record.eventId !in txns
  {
    hide Coherent, Status.Valid;
    var e := d.queue[s].record.eventId;
    if e in txns {
      HolderIsJournaled(d, owner, txns, e);
      if txns[e].key.sequence in d.queue {
        RunningTogether(d, InQueue(s), InQueue(txns[e].key.sequence));
      }
      assert false;
    }
  }

  lemma HolderIsJournaled(d: Disk, owner: Owners, txns: map<string, Txn>, e: string)
    requires Coherent(d, owner, txns) && e in txns
    ensures txns[e].key.eventId == e && Journaled(d, HolderOf(d, txns[e].key)) && EventAt(d, HolderOf(d, txns[e].key)) == e
  {
    hide Waiting, Promoted, Status.Valid;
    assert Live(d, owner, txns[e]);
    WhereItIs(txns[e].origin, txns[e].key, Look(d, txns[e].key));
    WhoIsWhere(txns[e].origin, txns[e].key, Look(d, txns[e].key));
  }

  lemma RunningTogether(d: Disk, a: Place, b: Place)
    requires OneRunningPerEvent(d) && RunningAt(d, a) && RunningAt(d, b) && EventAt(d, a) == EventAt(d, b)
    ensures a == b
  {
  }

  /** What a claimed entry will displace is finished. */
  lemma PredecessorIsFinished(d: Disk, owner: Owners, txns: map<string, Txn>, s: int)
    requires DiskInv(d, owner, txns) && RunningAt(d, InQueue(s)) && !Journaled(d, InQueue(s))
    ensures var e := d.queue[s].record.eventId;
      e in d.events ==>
        var x := d.events[e];
        && Status.Valid(x.record) && x.record.status.Terminal() && x.journal.None?
        && x.record.eventId == e && Owned(x.record, owner) && x.record.sequence != s && x.record.sequence !in d.queue
        && SameMaker(Lookup(d.products, e), Some(x))
    ensures d.queue[s].record.eventId !in d.events ==> d.queue[s].record.eventId !in d.products
  {
    hide Status.Valid, InTransaction;
    NoTransactionYet(d, owner, txns, s);
    var e := d.queue[s].record.eventId;
    assert EventAt(d, InQueue(s)) == e;
  }

  /** Opening a transaction on a claimed entry is a step of that transaction. */
  lemma BeginIsAStep(
    hash: Snapshot.Hash, before: Disk, after: Disk, owner: Owners, txns: map<string, Txn>, k: Key, s: int)
    requires DiskInv(before, owner, txns)
    requires Preparation.Claimable(hash, before, s) && Preparation.Underway(before, after, k, s)
    ensures s in before.queue && k.eventId == before.queue[s].record.eventId && k.sequence == s && k.eventId !in txns
    ensures var t := Txn(Preparation.OriginOf(before, s), k);
      && TransactionStep(before, after, owner, txns[k.eventId := t], k.eventId)
      && OriginsMatch(txns[k.eventId := t]) && ArchivedOnce(before, txns[k.eventId := t])
      && TreesMatchRecords(before, txns[k.eventId := t])
  {
    hide Preparation.Claimable, Preparation.Underway, Adjoined, Stepped, DiskInv, OriginsMatch, TreesMatchRecords;
    BeginIsAdjoined(hash, before, after, owner, txns, k, s);
    BeginIsStepped(hash, before, after, txns, k, s);
    Preparation.ClaimedHasNoJournal(hash, before, s);
    BeginIsExclusive(before, owner, txns, s);
  }

  lemma BeginIsAdjoined(
    hash: Snapshot.Hash, before: Disk, after: Disk, owner: Owners, txns: map<string, Txn>, k: Key, s: int)
    requires DiskInv(before, owner, txns)
    requires Preparation.Claimable(hash, before, s) && Preparation.Underway(before, after, k, s)
    ensures s in before.queue && k.eventId == before.queue[s].record.eventId && k.sequence == s && k.eventId !in txns
    ensures var now := txns[k.eventId := Txn(Preparation.OriginOf(before, s), k)];
      && Adjoined(before, owner, now, k.eventId)
      && OriginsMatch(now) && TreesMatchRecords(before, now) && ArchivedOnce(before, now)
  {
    hide DiskInv, Preparation.Claimable, InTransaction;
    Preparation.ClaimedHasNoJournal(hash, before, s);
    NoTransactionYet(before, owner, txns, s);
    BeginIsOriginal(before, owner, txns, k, s);
  }

  /** The transaction a claimed entry would open. */
  lemma BeginIsOriginal(d: Disk, owner: Owners, txns: map<string, Txn>, k: Key, s: int)
    requires DiskInv(d, owner, txns) && RunningAt(d, InQueue(s)) && !Journaled(d, InQueue(s))
    requires Preparation.KeyFor(d, k, s) && k.eventId !in txns
    ensures var t := Txn(Preparation.OriginOf(d, s), k);
      var now := txns[k.eventId := t];
      && Adjoined(d, owner, now, k.eventId) && OriginsMatch(now) && TreesMatchRecords(d, now) && ArchivedOnce(d, now)
  {
    hide DiskInv, Coherent, Adjoined, Displaceable, SameMaker, ArchivedOnce, ArchiveNameFor, OriginsMatch, TreesMatchRecords;
    BeginIsDisplaceable(d, owner, txns, k, s);
    CoherenceOf(d, owner, txns);
    var t := Txn(Preparation.OriginOf(d, s), k);
    Adjoining(d, owner, txns, t);
    NewOriginIsApart(d, txns, k.eventId, t);
  }

  lemma Adjoining(d: Disk, owner: Owners, txns: map<string, Txn>, t: Txn)
    requires Coherent(d, owner, txns) && t.key.eventId !in txns && Named(t.key) && Displaceable(d, owner, t)
    requires t.key.sequence in owner && owner[t.key.sequence] == t.key.eventId
    requires OriginsMatch(txns) && TreesMatchRecords(d, txns) && SameMaker(t.origin.products, t.origin.service)
    ensures var now := txns[t.key.eventId := t];
      Adjoined(d, owner, now, t.key.eventId) && OriginsMatch(now) && TreesMatchRecords(d, now)
  {
    hide Live, QueueOrderly, EventsOrderly, Displaceable, SameMaker, Named;
  }

  lemma CoherenceOf(d: Disk, owner: Owners, txns: map<string, Txn>)
    requires DiskInv(d, owner, txns)
    ensures Coherent(d, owner, txns) && OriginsMatch(txns) && TreesMatchRecords(d, txns) && ArchivedOnce(d, txns)
  {
  }

  lemma BeginIsDisplaceable(d: Disk, owner: Owners, txns: map<string, Txn>, k: Key, s: int)
    requires DiskInv(d, owner, txns) && RunningAt(d, InQueue(s)) && !Journaled(d, InQueue(s))
    requires Preparation.KeyFor(d, k, s)
    ensures var t := Txn(Preparation.OriginOf(d, s), k);
      && Displaceable(d, owner, t) && SameMaker(t.origin.products, t.origin.service)
      && s in owner && owner[s] == k.eventId
  {
    hide Live, Status.Valid, ArchivedOnce, OneRunningPerEvent, StartedAreUnobstructed, Preparation.NeedsArchive;
    PredecessorIsFinished(d, owner, txns, s);
  }

  lemma NewOriginIsApart(d: Disk, txns: map<string, Txn>, e: string, t: Txn)
    requires ArchivedOnce(d, txns) && t.origin.service == Lookup(d.events, e)
    ensures ArchivedOnce(d, txns[e := t])
  {
    assert t.origin.service == At(d, InEvents(e));
  }

  lemma BeginIsStepped(
    hash: Snapshot.Hash, before: Disk, after: Disk, txns: map<string, Txn>, k: Key, s: int)
    requires Preparation.Claimable(hash, before, s) && Preparation.Underway(before, after, k, s)
    ensures var now := txns[k.eventId := Txn(Preparation.OriginOf(before, s), k)];
      && Stepped(before, after, now, k.eventId)
      && (k.sequence in after.queue ==> after.queue[k.sequence].record.status.Running?)
  {
    hide Preparation.Claimable, InTransaction, Status.Valid;
    Preparation.ClaimFacts(hash, before, s);
  }

  lemma BeginIsExclusive(d: Disk, owner: Owners, txns: map<string, Txn>, s: int)
    requires DiskInv(d, owner, txns) && RunningAt(d, InQueue(s))
    ensures s in d.queue
    ensures forall at | RunningAt(d, at) && EventAt(d, at) == d.queue[s].record.eventId ::
      At(d, at).value.record.sequence == s
  {
    hide Live, Status.Valid;
    forall at | RunningAt(d, at) && EventAt(d, at) == d.queue[s].record.eventId ensures at == InQueue(s) {
      assert EventAt(d, InQueue(s)) == d.queue[s].record.eventId;
    }
  }

  /** Any later step of a transaction leaves the rest of its event alone, too. */
  lemma TransactionsAreExclusive(d: Disk, owner: Owners, txns: map<string, Txn>, e: string)
    requires DiskInv(d, owner, txns) && e in txns
    ensures Exclusive(d, txns[e].key)
  {
    hide Waiting, Promoted, Status.Valid;
    var t := txns[e];
    assert Live(d, owner, t);
    WhereItIs(t.origin, t.key, Look(d, t.key));
    WhoIsWhere(t.origin, t.key, Look(d, t.key));
    forall at | RunningAt(d, at) && EventAt(d, at) == e ensures At(d, at).value.record.sequence == t.key.sequence {
      RunningInTransaction(d, owner, txns, e, at);
    }
  }

  lemma RunningInTransaction(d: Disk, owner: Owners, txns: map<string, Txn>, e: string, at: Place)
    requires DiskInv(d, owner, txns) && e in txns && RunningAt(d, at) && EventAt(d, at) == e
    ensures At(d, at).value.record.sequence == txns[e].key.sequence
  {
    hide InTransaction, Status.Valid;
    if Journaled(d, at) {
      assert Known(d, at, txns);
    } else {
      match at
      case InQueue(s) => NoTransactionYet(d, owner, txns, s);
      case InEvents(f) =>
    }
  }

  lemma FollowingIsAStep(before: Disk, after: Disk, owner: Owners, txns: map<string, Txn>, e: string)
    requires DiskInv(before, owner, txns) && Stepped(before, after, txns, e)
    requires txns[e].key.sequence in after.queue ==> after.queue[txns[e].key.sequence].record.status.Running?
    ensures TransactionStep(before, after, owner, txns, e)
  {
    hide Live, Stepped, Status.Valid, Adjoined;
    StepsAreKnown(before, after, txns, e);
    CoherentIsAdjoined(before, owner, txns, e);
    TransactionsAreExclusive(before, owner, txns, e);
    TransactionsAreHeld(before, owner, txns, e);
  }

  lemma TransactionsAreHeld(d: Disk, owner: Owners, txns: map<string, Txn>, e: string)
    requires Coherent(d, owner, txns) && e in txns
    ensures Present(d, txns[e].key)
  {
    hide InTransaction, Status.Valid;
    assert Live(d, owner, txns[e]);
    WhoIsWhere(txns[e].origin, txns[e].key, Look(d, txns[e].key));
  }

  lemma StepsAreKnown(before: Disk, after: Disk, txns: map<string, Txn>, e: string)
    requires Stepped(before, after, txns, e)
    ensures e in txns
  {
  }
}
