/** Sequence allocation and publication of one queue entry (submission.py). */
module Acceptance {
  import opened Common
  import opened Disk
  import opened Snapshot
  import opened Volumes
  import Names
  import Status

  /** A queue entry whose directory name parses back. */
  predicate Visible(s: int) {
    1 <= s < Names.Power10(Names.QUEUE_ENTRY_WIDTH)
  }

  predicate CounterReadable(d: Disk) {
    d.counter.Some? ==> d.counter.value >= 1
  }

  /** `next` is the least sequence that neither the counter nor any visible entry has reached. */
  predicate NextSequence(d: Disk, next: int) {
    && next >= 1 && (d.counter.Some? ==> d.counter.value <= next)
    && (forall s | s in d.queue && Visible(s) :: s < next)
    && (next == 1 || d.counter == Some(next) || (next - 1 in d.queue && Visible(next - 1)))
  }

  lemma NextSequenceIsUnique(d: Disk, a: int, b: int)
    requires NextSequence(d, a) && NextSequence(d, b)
    ensures a == b
  {
  }

  /** _queue_sequence_from_disk */
  method QueueSequenceFromDisk(d: Disk) returns (r: Result<int>)
    ensures r.Ok? <==> CounterReadable(d)
    ensures r.Ok? ==> NextSequence(d, r.value)
  {
    var left, greatest := set s | s in d.queue :: InQueue(s), 0;
    while left != {}
      invariant greatest >= 0 && forall at | at in left :: at.InQueue? && at.sequence in d.queue
      invariant forall s | s in d.queue && Visible(s) && InQueue(s) !in left :: s <= greatest
      invariant greatest == 0 || (greatest in d.queue && Visible(greatest))
      decreases |left|
    {
      var entry :| entry in left;
      if Visible(entry.sequence) && entry.sequence > greatest {
        greatest := entry.sequence;
      }
      left := left - {entry};
    }
    if d.counter.None? {
      return Ok(greatest + 1);
    }
    if d.counter.value < 1 {
      return Raised;
    }
    return Ok(if d.counter.value > greatest + 1 then d.counter.value else greatest + 1);
  }

  /** What a client asks for, with its snapshot already taken. */
  datatype Request = Request(
    eventId: string, configuration: string, overwrite: bool, warnings: seq<string>,
    inputMode: Status.InputMode, files: Files, facts: seq<FileFact>, submittedAt: int)
  {
    predicate WellFormed() {
      Names.ValidEventId(eventId) && Names.ValidBasename(configuration) && !inputMode.BadMode?
    }
  }

  function NewEntry(request: Request, sequence: int): Entry {
    Entry(
      Status.NewQueuedRecord(request.eventId, sequence, request.configuration, request.overwrite,
        request.warnings, request.inputMode, Status.Utc(request.submittedAt)),
      request.files, Manifest(request.eventId, sequence, request.facts), None, None, None)
  }

  /** The entry is what was asked for, and nothing has been done about it yet. */
  predicate AsRequested(x: Entry, request: Request, sequence: int) {
    && x.request == request.files && x.manifest == Manifest(request.eventId, sequence, request.facts)
    && x.journal.None? && x.stage.None? && x.candidate.None?
    && var r := x.record;
       && r.schemaVersion == 1 && r.eventId == request.eventId && r.sequence == sequence && r.status == Status.Queued
       && r.overwrite == request.overwrite && r.warnings == request.warnings
       && r.inputMode == request.inputMode && r.configuration == request.configuration
       && r.progress.phase.None? && r.progress.phaseStartedAt.None? && r.progress.currentModule.None?
       && r.progress.completedModules == []
       && r.progress.modulePlan == ["select", "assemble", "model", "contour", "mapping", "stations", "gridxml"]
       && r.nativeOutcome.None? && r.serviceOutcome.None? && r.failure.None?
       && r.timestamps == Status.Timestamps(Status.Utc(request.submittedAt), None, None, None, None)
       && r.sharedPaths.input == "runtime/shakemap/data/inputs/" + request.eventId
       && r.sharedPaths.products == "runtime/shakemap/products/" + request.eventId + "/current/products"
       && r.sharedPaths.provenance.None? && r.sharedPaths.productManifest.None?
       && r.sharedPaths.serviceLog.None? && r.sharedPaths.shakeLog.None?
  }

  lemma NewEntriesAreAsRequested(request: Request, sequence: int)
    ensures AsRequested(NewEntry(request, sequence), request, sequence)
  {
  }

  /** Every accepted entry is a valid waiting record with no transaction state. */
  lemma NewEntriesAreValid(request: Request, sequence: int)
    requires request.WellFormed() && sequence >= 1
    ensures var x := NewEntry(request, sequence);
      && Status.Valid(x.record) && x.record.status.Queued?
      && x.record.sequence == sequence && x.record.eventId == request.eventId
      && x.journal.None? && x.stage.None? && x.candidate.None?
  {
  }

  /** The counter moved past `s`, and possibly nothing else happened. */
  predicate Advanced(before: Disk, after: Disk, s: int) {
    NextSequence(before, s) && after == before.(counter := Some(s + 1))
  }

  predicate Accepted(before: Disk, after: Disk, s: int, entry: Entry) {
    && NextSequence(before, s) && s !in before.queue
    && after == before.(counter := Some(s + 1), queue := before.queue[s := entry])
  }

  /** _publish_queue_entry_locked: the counter is durable before the entry it numbers can appear. */
  method PublishQueueEntry(vol: Volume, request: Request) returns (out: Outcome, sequence: int)
    requires vol.Valid() && vol.Synced() && request.WellFormed()
    modifies vol
    ensures vol.Valid() && vol.Synced()
    ensures
      || vol.disk == old(vol.disk)
      || Advanced(old(vol.disk), vol.disk, sequence)
      || Accepted(old(vol.disk), vol.disk, sequence, NewEntry(request, sequence))
    ensures out.Done? ==> Accepted(old(vol.disk), vol.disk, sequence, NewEntry(request, sequence))
    ensures out.Done? ==> sequence in vol.disk.queue
    ensures sequence !in old(vol.disk).queue && sequence in vol.disk.queue ==>
      AsRequested(vol.disk.queue[sequence], request, sequence)
    ensures vol.regime.Calm? ==>
      (out.Done? <==> CounterReadable(old(vol.disk)) && sequence !in old(vol.disk).queue)
    ensures vol.regime.Calm? && CounterReadable(old(vol.disk)) ==> NextSequence(old(vol.disk), sequence)
  {
    hide NextSequence, NewEntry, AsRequested;
    sequence := 0;
    out := vol.Strike();
    if !out.Done? {
      return;
    }
    var next := QueueSequenceFromDisk(vol.disk);
    if next.Raised? {
      return Error, 0;
    }
    sequence := next.value;
    var entry := NewEntry(request, sequence);
    NewEntriesAreAsRequested(request, sequence);
    out := Publish(vol, sequence, entry);
  }

  /** Advance the counter, then let the entry appear. */
  method Publish(vol: Volume, sequence: int, entry: Entry) returns (out: Outcome)
    requires vol.Valid() && vol.Synced() && NextSequence(vol.disk, sequence)
    modifies vol
    ensures vol.Valid() && vol.Synced()
    ensures
      || vol.disk == old(vol.disk)
      || Advanced(old(vol.disk), vol.disk, sequence)
      || Accepted(old(vol.disk), vol.disk, sequence, entry)
    ensures out.Done? ==> Accepted(old(vol.disk), vol.disk, sequence, entry)
    ensures vol.regime.Calm? ==> (out.Done? <==> sequence !in old(vol.disk).queue)
  {
    hide NextSequence;
    :- vol.Rewrite(StoreCounter(sequence + 1), QueueRoot);
    if sequence in vol.disk.queue {
      return Error;
    }
    out := vol.Rewrite(PublishEntry(sequence, entry), QueueRoot);
  }

  /** Every sequence ever published stays below the stored counter. */
  predicate Retired(d: Disk, issued: set<int>) {
    forall s | s in issued :: d.counter.Some? && s < d.counter.value
  }

  /** Publication uses a sequence above every earlier one, also when an earlier attempt died between the
      counter and the entry, and after entries were promoted, archived or deleted. */
  lemma SequencesAreNeverReused(before: Disk, after: Disk, issued: set<int>, s: int, entry: Entry)
    requires Retired(before, issued)
    requires Advanced(before, after, s) || Accepted(before, after, s, entry)
    ensures s !in issued && forall earlier | earlier in issued :: earlier < s
    ensures Retired(after, issued + {s})
  {
  }
}
