/** prepare_calculation (recalculation.py): displace the preceding trees and publish a clean native tree. */
module Preparation {
  import opened Common
  import opened Disk
  import opened Snapshot
  import opened Volumes
  import opened Protocol
  import opened Recalculation
  import opened Course
  import Names
  import Status

  function MissingCounterpart(products: bool, service: bool): Option<string> {
    if products && service then None
    else if !products && !service then Some("no preceding products or service tree existed")
    else if !products then Some("preceding products tree was missing")
    else Some("preceding service tree was missing")
  }

  /** The checks of _new_transaction. */
  predicate Claimable(hash: Hash, d: Disk, sequence: int) {
    && sequence in d.queue
    && var x := d.queue[sequence];
       && Status.Valid(x.record) && x.record.sequence == sequence && x.record.status.Running?
       && Matches(hash, x.manifest, x.record.eventId, sequence, x.request)
       && x.journal.None? && x.stage.None? && x.candidate.None?
  }

  function Warned(r: Status.Record, warning: Option<string>): Status.Record {
    if warning.None? || warning.value in r.warnings then r
    else r.(warnings := r.warnings + [warning.value])
  }

  function OriginOf(d: Disk, sequence: int): Origin
    requires sequence in d.queue
  {
    var x := d.queue[sequence];
    var products, service := Lookup(d.products, x.record.eventId), Lookup(d.events, x.record.eventId);
    Origin(products, service, x.(record := Warned(x.record, MissingCounterpart(products.Some?, service.Some?))))
  }

  predicate NeedsArchive(o: Origin) {
    !o.claimed.record.overwrite && (o.products.Some? || o.service.Some?)
  }

  /** A free archive name exists within the allocator's bound. */
  predicate Allocatable(d: Disk, eventId: string, selected: Names.DateTime)
    requires Names.ValidDateTime(selected)
  {
    exists n: nat :: n < Names.ARCHIVE_ATTEMPTS && Names.FirstFree(d.archive.Keys, eventId, selected, n)
  }

  predicate Preparable(hash: Hash, d: Disk, sequence: int, selected: Names.DateTime)
    requires Names.ValidDateTime(selected)
  {
    && Claimable(hash, d, sequence)
    && (NeedsArchive(OriginOf(d, sequence)) ==> Allocatable(d, d.queue[sequence].record.eventId, selected))
  }

  lemma ClaimablePreparable(hash: Hash, d: Disk, sequence: int, selected: Names.DateTime)
    requires Names.ValidDateTime(selected)
    ensures Preparable(hash, d, sequence, selected) ==> Claimable(hash, d, sequence)
  {
  }

  /** At most the missing-counterpart warning has been added. */
  predicate OnlyWarned(before: Disk, after: Disk, sequence: int) {
    after == before
    || (sequence in before.queue && after == Put(before, InQueue(sequence), OriginOf(before, sequence).claimed))
  }

  /** `warned` is the accepted record, and says at most which preceding tree was missing; what it said before it still says. */
  predicate Annotated(r: Status.Record, warned: Status.Record, products: bool, service: bool) {
    && warned == r.(warnings := warned.warnings)
    && if products && service then warned.warnings == r.warnings
       else
         var text := if !products && !service then "no preceding products or service tree existed"
                     else if !products then "preceding products tree was missing"
                     else "preceding service tree was missing";
         warned.warnings == if text in r.warnings then r.warnings else r.warnings + [text]
  }

  lemma WarningIsAdded(r: Status.Record, products: bool, service: bool)
    ensures Annotated(r, Warned(r, MissingCounterpart(products, service)), products, service)
  {
  }

  /** Wherever the calculation is now, its record is the accepted one, annotated unless nothing has been done yet. */
  predicate Announced(before: Disk, after: Disk, sequence: int, done: bool) {
    sequence in before.queue ==>
      var r := before.queue[sequence].record;
      && (sequence in after.queue || r.eventId in after.events)
      && var now := if sequence in after.queue then after.queue[sequence].record else after.events[r.eventId].record;
         (!done && now == r) || Annotated(r, now, r.eventId in before.products, r.eventId in before.events)
  }

  lemma WarnedIsAnnounced(before: Disk, after: Disk, sequence: int)
    requires OnlyWarned(before, after, sequence)
    ensures Announced(before, after, sequence, false)
  {
    hide Annotated, Warned, MissingCounterpart;
    if sequence in before.queue {
      var r := before.queue[sequence].record;
      WarningIsAdded(r, r.eventId in before.products, r.eventId in before.events);
    }
  }

  /** The transaction's names: its own, and an archive name nobody has used. */
  predicate KeyFor(before: Disk, k: Key, sequence: int) {
    && sequence in before.queue && k.sequence == sequence && k.eventId == before.queue[sequence].record.eventId
    && (k.archive.Some? <==> NeedsArchive(OriginOf(before, sequence)))
    && (k.archive.Some? ==> k.archive.value !in before.archive && ArchiveNameFor(k.eventId, k.archive.value))
  }

  function FirstJournal(o: Origin, k: Key): Journal {
    Journal(k.eventId, k.sequence, o.claimed.record.overwrite, Preceding(o.products.Some?, o.service.Some?),
            k.archive, [], Intents(false, false), None)
  }

  lemma WarningKeepsValid(r: Status.Record, warning: Option<string>)
    requires Status.Valid(r)
    ensures var w := Warned(r, warning);
      Status.Valid(w) && Status.SameIdentity(w, r) && w.overwrite == r.overwrite && w.status == r.status
  {
  }

  /** Writing the first journal beside a claimed record opens the transaction. */
  lemma FirstJournalOpens(hash: Hash, before: Disk, k: Key, sequence: int)
    requires Claimable(hash, before, sequence) && KeyFor(before, k, sequence)
    ensures var o := OriginOf(before, sequence);
      var v := Look(before, k);
      && v.queued.Some?
      && Fresh(o, k, v.(queued := Some(o.claimed.(journal := Some(FirstJournal(o, k))))))
  {
    hide Claimable, Fresh, SameCalculation, JournalOf, Status.Valid, Warned;
    ClaimFacts(hash, before, sequence);
    FirstJournalFits(hash, before, k, sequence);
    var o := OriginOf(before, sequence);
    var x := o.claimed.(journal := Some(FirstJournal(o, k)));
    Opening(o, k, Look(before, k).(queued := Some(x)), x, FirstJournal(o, k));
  }

  lemma FirstJournalFits(hash: Hash, before: Disk, k: Key, sequence: int)
    requires Claimable(hash, before, sequence) && KeyFor(before, k, sequence)
    ensures var o := OriginOf(before, sequence);
      var x := o.claimed.(journal := Some(FirstJournal(o, k)));
      && SameCalculation(o, k, x) && JournalOf(o, k, x, FirstJournal(o, k))
      && x.record.status.Running? && x.stage.None? && x.candidate.None?
  {
    hide Claimable, Loadable, Status.Valid, Warned, MissingCounterpart, NeedsArchive, Matches, ArchiveNameFor, Names.ValidEventId;
    ClaimFacts(hash, before, sequence);
    var o := OriginOf(before, sequence);
    WarningKeepsValid(before.queue[sequence].record, MissingCounterpart(o.products.Some?, o.service.Some?));
    FirstJournalLoads(o, k);
  }

  lemma ClaimFacts(hash: Hash, d: Disk, sequence: int)
    requires Claimable(hash, d, sequence)
    ensures sequence in d.queue && sequence >= 1
    ensures var x := d.queue[sequence];
      && x.record.sequence == sequence && Names.ValidEventId(x.record.eventId) && Status.Valid(x.record)
      && x.record.status.Running? && x.stage.None? && x.candidate.None?
      && Matches(hash, x.manifest, x.record.eventId, sequence, x.request)
  {
  }

  lemma FirstJournalLoads(o: Origin, k: Key)
    requires Names.ValidEventId(k.eventId) && k.sequence >= 1
    requires k.archive.Some? <==> NeedsArchive(o)
    requires k.archive.Some? ==> ArchiveNameFor(k.eventId, k.archive.value)
    ensures Loadable(FirstJournal(o, k))
  {
    assert InOrder(FirstJournal(o, k).completed);
  }

  lemma AllocatedNameFits(eventId: string, t: Names.DateTime, n: nat)
    requires Names.ValidDateTime(t) && Names.Attempt(eventId, t, n).Ok?
    ensures ArchiveNameFor(eventId, Names.Attempt(eventId, t, n).value)
  {
    var u := Names.Later(t, n).value;
    var name := Names.ArchiveName(eventId, u);
    Names.StampRoundTrip(u);
    assert name[..|eventId| + 1] == eventId + "-";
    assert name[|eventId| + 1..] == Names.Stamp(u);
  }

  lemma ClaimedHasNoJournal(hash: Hash, d: Disk, sequence: int)
    requires Claimable(hash, d, sequence)
    ensures RunningAt(d, InQueue(sequence)) && !Journaled(d, InQueue(sequence))
  {
  }

  lemma ClaimedIsRunning(hash: Hash, d: Disk, sequence: int)
    requires Claimable(hash, d, sequence)
    ensures OriginOf(d, sequence).claimed.record.status.Running?
  {
  }

  /** Reject what cannot be claimed, and say where an archive would go. */
  method Claim(hash: Hash, d: Disk, sequence: int, selected: Names.DateTime)
    returns (claimed: bool, archive: Result<Option<string>>)
    requires Names.ValidDateTime(selected)
    ensures claimed <==> Claimable(hash, d, sequence)
    ensures claimed ==> (archive.Ok? <==> Preparable(hash, d, sequence, selected))
    ensures claimed && archive.Ok? ==>
      KeyFor(d, Key(sequence, d.queue[sequence].record.eventId, archive.value), sequence)
  {
    archive := Ok(None);
    if sequence !in d.queue {
      return false, archive;
    }
    var x := d.queue[sequence];
    if !Status.Valid(x.record) || x.record.sequence != sequence || !x.record.status.Running? {
      return false, archive;
    }
    var manifested := ValidateManifest(hash, x.manifest, x.record.eventId, sequence, x.request);
    if !manifested || x.journal.Some? || x.stage.Some? || x.candidate.Some? {
      return false, archive;
    }
    claimed := true;
    if NeedsArchive(OriginOf(d, sequence)) {
      var name := Names.ArchivePath(d.archive.Keys, x.record.eventId, selected);
      if name.Ok? {
        ghost var n: nat :| n < Names.ARCHIVE_ATTEMPTS && Names.FirstFree(d.archive.Keys, x.record.eventId, selected, n)
                      && name == Names.Attempt(x.record.eventId, selected, n);
        AllocatedNameFits(x.record.eventId, selected, n);
        archive := Ok(Some(name.value));
      } else {
        archive := Raised;
      }
    }
  }

  lemma NothingWarned(d: Disk, sequence: int)
    ensures OnlyWarned(d, d, sequence)
  {
  }

  method PersistWarning(vol: Volume, sequence: int) returns (out: Outcome)
    requires vol.Valid() && vol.Synced() && sequence in vol.disk.queue
    modifies vol
    ensures vol.Valid() && vol.Synced() && OnlyWarned(old(vol.disk), vol.disk, sequence)
    ensures out.Done? ==> vol.disk == Put(old(vol.disk), InQueue(sequence), OriginOf(old(vol.disk), sequence).claimed)
    ensures (out.Error? ==> vol.regime.IoFaults?) && (out.Crashed? ==> !vol.regime.Calm?)
    ensures old(vol.pending) == [] && !vol.regime.PowerFailure? ==>
      (out.Done? ==> vol.pending == []) && forall left | left in vol.Now().Left() :: OnlyWarned(old(vol.disk), left, sequence)
  {
    var claimed := OriginOf(vol.disk, sequence).claimed;
    if claimed == vol.disk.queue[sequence] {
      assert vol.disk.queue[sequence := claimed] == vol.disk.queue;
      return Done;
    }
    out := vol.Rewrite(WriteRecord(InQueue(sequence), claimed.record), RecordDirectory);
  }

  /** A power failure would leave at most the warning, or a transaction that can be recovered. */
  predicate Spared(before: Disk, now: Moment, k: Key, sequence: int) {
    forall left | left in now.Left() :: OnlyWarned(before, left, sequence) || Resumable(before, left, k, sequence)
  }

  /** A transaction on this record is on disk and can be recovered. */
  predicate Resumable(before: Disk, after: Disk, k: Key, sequence: int) {
    && KeyFor(before, k, sequence) && Kept(before, after, k)
    && Recoverable(OriginOf(before, sequence), k, Look(after, k))
  }

  /** The transaction has begun: its journal is on disk and nothing has moved. */
  predicate Begun(before: Disk, after: Disk, k: Key, sequence: int) {
    && KeyFor(before, k, sequence) && Kept(before, after, k)
    && var o := OriginOf(before, sequence);
       && Fresh(o, k, Look(after, k))
       && Look(after, k).queued == Some(o.claimed.(journal := Some(FirstJournal(o, k))))
  }

  lemma WritingFirstJournal(hash: Hash, before: Disk, k: Key, sequence: int)
    requires Claimable(hash, before, sequence) && KeyFor(before, k, sequence)
    ensures var o := OriginOf(before, sequence);
      var warned := Put(before, InQueue(sequence), o.claimed);
      Begun(before, Apply(warned, WriteJournal(InQueue(sequence), FirstJournal(o, k))), k, sequence)
  {
    hide Claimable, Fresh, NeedsArchive;
    FirstJournalOpens(hash, before, k, sequence);
    var o := OriginOf(before, sequence);
    var x := o.claimed.(journal := Some(FirstJournal(o, k)));
    PutIsLocal(before, InQueue(sequence), x, k);
    assert before.queue[sequence := o.claimed][sequence := x] == before.queue[sequence := x];
  }

  /** _new_transaction */
  method NewTransaction(vol: Volume, hash: Hash, sequence: int, selected: Names.DateTime)
    returns (out: Outcome, begun: Option<Transaction>, ghost k: Key)
    requires vol.Valid() && vol.Synced() && Names.ValidDateTime(selected)
    modifies vol
    ensures vol.Valid() && vol.Synced()
    ensures OnlyWarned(old(vol.disk), vol.disk, sequence) || Begun(old(vol.disk), vol.disk, k, sequence)
    ensures vol.disk == old(vol.disk) || Claimable(hash, old(vol.disk), sequence)
    ensures out.Done? ==> begun.Some? && Claimable(hash, old(vol.disk), sequence)
    ensures out.Done? ==> Begun(old(vol.disk), vol.disk, k, sequence)
    ensures out.Done? ==>
      var t := begun.value;
      && fresh(t) && t.vol == vol && t.key == k && t.location == InQueue(sequence)
      && Some(t.journal) == Look(vol.disk, k).queued.value.journal && t.record == Look(vol.disk, k).queued.value.record
      && t.mode == Preparing && t.start == Starting(vol.Now(), t.journal) && t.Ready() && t.Idle()
    ensures old(vol.pending) == [] && !vol.regime.PowerFailure? ==>
      (out.Done? ==> vol.pending == []) && Spared(old(vol.disk), vol.Now(), k, sequence)
    ensures out.Crashed? ==> !vol.regime.Calm?
    ensures out.Done? ==> Preparable(hash, old(vol.disk), sequence, selected)
    ensures out.Error? ==> vol.regime.IoFaults? || !Preparable(hash, old(vol.disk), sequence, selected)
    ensures Announced(old(vol.disk), vol.disk, sequence, out.Done?)
  {
    hide Claimable, Preparable, Fresh, NeedsArchive, MissingCounterpart, Warned, Kept, InOrder, Reaches, OnlyWarned, Resumable;
    hide Announced;
    AnnouncedEitherWay(vol.disk, sequence);
    begun, k := None, Key(0, "", None);
    NothingWarned(vol.disk, sequence);
    out := vol.Strike();
    if !out.Done? {
      return;
    }
    var claimed, archive := Claim(hash, vol.disk, sequence, selected);
    ClaimablePreparable(hash, vol.disk, sequence, selected);
    if !claimed {
      return Error, None, k;
    }
    ClaimFacts(hash, vol.disk, sequence);
    var o, eventId := OriginOf(vol.disk, sequence), vol.disk.queue[sequence].record.eventId;
    out := PersistWarning(vol, sequence);
    if !out.Done? {
      return;
    }
    if archive.Raised? {
      return Error, None, k;
    }
    k := Key(sequence, eventId, archive.value);
    WritingFirstJournal(hash, old(vol.disk), k, sequence);
    out, begun := BeginTransaction(vol, Key(sequence, eventId, archive.value), o, old(vol.disk));
  }

  lemma AnnouncedEitherWay(before: Disk, sequence: int)
    ensures forall after :: OnlyWarned(before, after, sequence) ==> Announced(before, after, sequence, false)
    ensures forall after, k :: Begun(before, after, k, sequence) ==>
      Announced(before, after, sequence, true) && Announced(before, after, sequence, false)
  {
    hide OnlyWarned, Begun, Announced;
    forall after | OnlyWarned(before, after, sequence) ensures Announced(before, after, sequence, false) {
      WarnedIsAnnounced(before, after, sequence);
    }
    forall after, k | Begun(before, after, k, sequence)
      ensures Announced(before, after, sequence, true) && Announced(before, after, sequence, false)
    {
      BegunIsUnderway(before, after, k, sequence);
      UnderwayIsAnnounced(before, after, k, sequence);
    }
  }

  /** Write the first journal. */
  method BeginTransaction(vol: Volume, k: Key, o: Origin, ghost before: Disk)
    returns (out: Outcome, begun: Option<Transaction>)
    requires vol.Valid() && vol.Synced() && k.sequence in before.queue && o == OriginOf(before, k.sequence)
    requires vol.disk == Put(before, InQueue(k.sequence), o.claimed)
    requires Begun(before, Apply(vol.disk, WriteJournal(InQueue(k.sequence), FirstJournal(o, k))), k, k.sequence)
    modifies vol
    ensures vol.Valid() && vol.Synced()
    ensures vol.disk == old(vol.disk) || Begun(before, vol.disk, k, k.sequence)
    ensures out.Done? ==> begun.Some? && Begun(before, vol.disk, k, k.sequence)
    ensures out.Done? ==>
      var t := begun.value;
      && fresh(t) && t.vol == vol && t.key == k && t.location == InQueue(k.sequence)
      && Some(t.journal) == Look(vol.disk, k).queued.value.journal && t.record == Look(vol.disk, k).queued.value.record
      && t.mode == Preparing && t.start == Starting(vol.Now(), t.journal) && t.Ready() && t.Idle()
    ensures old(vol.pending) == [] && !vol.regime.PowerFailure? ==>
      (out.Done? ==> vol.pending == []) && Spared(before, vol.Now(), k, k.sequence)
    ensures (out.Error? ==> vol.regime.IoFaults?) && (out.Crashed? ==> !vol.regime.Calm?)
  {
    hide Claimable, Fresh, NeedsArchive, MissingCounterpart, Warned, Kept, InOrder, Reaches, Resumable, OriginOf, Apply;
    begun := None;
    var journal := FirstJournal(o, k);
    BegunIsResumable(before, Apply(vol.disk, WriteJournal(InQueue(k.sequence), journal)), k, k.sequence);
    out := vol.Rewrite(WriteJournal(InQueue(k.sequence), journal), RecordDirectory);
    if out.Done? {
      var t := new Transaction(vol, k, o.claimed.record, journal, InQueue(k.sequence), Preparing);
      begun := Some(t);
    }
  }

  /** A transaction on this record is on disk, in one of its recoverable states. */
  predicate Underway(before: Disk, after: Disk, k: Key, sequence: int) {
    && KeyFor(before, k, sequence) && Kept(before, after, k)
    && var o := OriginOf(before, sequence);
       InTransaction(o, k, Look(after, k)) && Carries(Look(after, k), o.claimed.record)
  }

  predicate Published(before: Disk, after: Disk, k: Key, sequence: int) {
    && Underway(before, after, k, sequence)
    && var o := OriginOf(before, sequence);
       && PromotedAt(o, k, Look(after, k), 6)
       && Look(after, k).products == Some(Tree(sequence, o.claimed.request))
  }

  lemma BegunIsUnderway(before: Disk, after: Disk, k: Key, sequence: int)
    ensures Begun(before, after, k, sequence) ==> Underway(before, after, k, sequence)
  {
    hide Waiting, Promoted, NeedsArchive;
  }

  lemma UnderwayIsAnnounced(before: Disk, after: Disk, k: Key, sequence: int)
    ensures OnlyWarned(before, after, sequence) ==> Announced(before, after, sequence, false)
    ensures Underway(before, after, k, sequence) ==>
      Announced(before, after, sequence, true) && Announced(before, after, sequence, false)
  {
    hide Waiting, Promoted, NeedsArchive, Annotated, Warned, MissingCounterpart, OnlyWarned, Kept, ArchiveNameFor;
    if OnlyWarned(before, after, sequence) {
      WarnedIsAnnounced(before, after, sequence);
    }
    if Underway(before, after, k, sequence) {
      var r := before.queue[sequence].record;
      WhereItIs(OriginOf(before, sequence), k, Look(after, k));
      WarningIsAdded(r, r.eventId in before.products, r.eventId in before.events);
    }
  }

  lemma BegunIsResumable(before: Disk, after: Disk, k: Key, sequence: int)
    requires Begun(before, after, k, sequence)
    ensures Resumable(before, after, k, sequence)
  {
    hide Waiting, Promoted, NeedsArchive;
  }

  /** The steps of prepare_calculation after its journal exists. */
  method CarryOut(t: Transaction, hash: Hash, ghost o: Origin) returns (out: Outcome)
    requires t.Open(o) && t.location.InQueue? && Fresh(o, t.key, t.Here())
    requires t.mode.Preparing? && t.start == Starting(t.vol.Now(), t.journal) && t.record.status.Running?
    requires Matches(hash, o.claimed.manifest, t.key.eventId, t.key.sequence, o.claimed.request)
    modifies t.vol, t`course, t`journal, t`location
    ensures t.Safe(o) && t.Faults(out) && Kept(old(t.vol.disk), t.vol.disk, t.key)
    ensures out.Done? ==> t.Open(o) && PromotedAt(o, t.key, t.Here(), 6)
    ensures out.Done? ==> t.Here().products == Some(Tree(t.key.sequence, o.claimed.request))
  {
    hide Waiting, Promoted, Fresh, Matches, Reaches;
    :- t.StagePreceding(o);
    :- t.DisposePreceding(o);
    :- t.PromoteRecord(o);
    :- t.CopyManifestedRequest(hash, o);
    CandidateFacts(o, t.key, t.Here());
    out := t.PublishNativeTree(o);
  }

  /** prepare_calculation. Either nothing but a warning has changed, or a recoverable transaction is on
      disk; success leaves the record RUNNING in place beside a native tree with the accepted bytes. */
  method PrepareCalculation(vol: Volume, hash: Hash, sequence: int, selected: Names.DateTime)
    returns (out: Outcome, ghost k: Key)
    requires vol.Valid() && vol.Synced() && Names.ValidDateTime(selected)
    modifies vol
    ensures vol.Valid() && vol.Synced()
    ensures vol.disk == old(vol.disk) || Claimable(hash, old(vol.disk), sequence)
    ensures OnlyWarned(old(vol.disk), vol.disk, sequence) || Underway(old(vol.disk), vol.disk, k, sequence)
    ensures out.Done? ==> Published(old(vol.disk), vol.disk, k, sequence)
    ensures vol.regime.Calm? ==> (out.Done? <==> Preparable(hash, old(vol.disk), sequence, selected))
    ensures out.Done? ==> Preparable(hash, old(vol.disk), sequence, selected)
    ensures old(vol.pending) == [] && !vol.regime.PowerFailure? ==> Spared(old(vol.disk), vol.Now(), k, sequence)
    ensures Announced(old(vol.disk), vol.disk, sequence, out.Done?)
  {
    hide Claimable, Preparable, Fresh, Waiting, Promoted, NeedsArchive, MissingCounterpart, Warned, Kept, InOrder, Matches,
         Reaches, Spared, Announced;
    var begun: Option<Transaction>;
    out, begun, k := NewTransaction(vol, hash, sequence, selected);
    BegunIsUnderway(old(vol.disk), vol.disk, k, sequence);
    UnderwayIsAnnounced(old(vol.disk), vol.disk, k, sequence);
    if !out.Done? {
      return;
    }
    ClaimFacts(hash, old(vol.disk), sequence);
    ClaimedIsRunning(hash, old(vol.disk), sequence);
    ghost var first := vol.disk;
    ghost var o := OriginOf(old(vol.disk), sequence);
    FreshIsLive(o, k, Look(first, k));
    out := CarryOut(begun.value, hash, o);
    KeptTwice(old(vol.disk), first, vol.disk, k);
    UnderwayIsAnnounced(old(vol.disk), vol.disk, k, sequence);
    if old(vol.pending) == [] && !vol.regime.PowerFailure? {
      begun.value.PowerMayFail(o, first);
      LeftIsSpared(old(vol.disk), first, vol.Now(), k, sequence);
    }
  }

  lemma FreshIsLive(o: Origin, k: Key, v: View)
    requires Fresh(o, k, v)
    ensures InTransaction(o, k, v) && v.queued.Some? && Holder(v) == v.queued.value
  {
    hide Waiting, Promoted;
    WhereItIs(o, k, v);
  }

  lemma LeftIsSpared(before: Disk, first: Disk, now: Moment, k: Key, sequence: int)
    requires Kept(before, first, k) && KeyFor(before, k, sequence)
    requires forall left | left in now.Left() ::
      KeptInQueue(first, left, k) && Recoverable(OriginOf(before, sequence), k, Look(left, k))
    ensures Spared(before, now, k, sequence)
  {
    hide KeyFor, Recoverable, OriginOf, Kept;
    forall left | left in now.Left() ensures Resumable(before, left, k, sequence) {
      KeptTwice(before, first, left, k);
    }
  }
}
