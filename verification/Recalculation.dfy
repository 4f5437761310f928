/** Durable replacement of one event calculation tree (recalculation.py). */
module Recalculation {
  import opened Common
  import opened Disk
  import opened Snapshot
  import opened Volumes
  import opened Protocol
  import opened Course
  import opened Mending
  import Names
  import Status

  /** An atomic change either happened or did not. */
  predicate Struck(out: Outcome, before: View, after: View, target: View) {
    (after == before || after == target) && (out.Done? ==> after == target)
  }

  class Transaction {
    const vol: Volume
    const key: Key
    ghost const mode: Mode
    ghost const start: State
    ghost var course: State
    var record: Status.Record
    var journal: Journal
    var location: Place

    constructor (vol: Volume, key: Key, record: Status.Record, journal: Journal, location: Place, ghost mode: Mode)
      requires vol.Valid() && vol.Synced()
      ensures this.vol == vol && this.key == key && this.record == record
      ensures this.journal == journal && this.location == location
      ensures this.mode == mode && start == Starting(vol.Now(), journal) && Ready() && Idle()
    {
      this.vol, this.key, this.record, this.journal, this.location := vol, key, record, journal, location;
      this.mode, start, course := mode, Starting(vol.Now(), journal), Starting(vol.Now(), journal);
      new;
      ReachesItself(mode, key, start);
    }

    function Here(): View
      reads this, vol
    {
      Look(vol.disk, key)
    }

    /** All this process has done is a course of the transaction, up to now. Where a power failure ends the run,
        its outcome is seen instead. */
    ghost predicate OnCourse()
      reads this, vol
    {
      vol.regime.PowerFailure? || (Reaches(mode, key, start, course) && course.now == vol.Now())
    }

    ghost predicate Tracked(memory: Journal)
      reads this, vol
    {
      vol.Valid() && vol.Synced() && OnCourse() && (vol.regime.PowerFailure? || (!course.noted && course.journal == memory))
    }

    ghost predicate Ready()
      reads this, vol
    {
      Tracked(journal)
    }

    /** Everything this process has issued is synced. */
    ghost predicate Idle()
      reads this, vol
    {
      vol.regime.PowerFailure? || course == Starting(vol.Now(), course.journal)
    }

    /** This operation is the next one, and may be issued now. */
    ghost predicate Permitted(op: Op)
      reads this, vol
    {
      Allows(mode, key, Here(), op) && Cleared(Here(), vol.Now(), op)
    }

    /** Nothing is outstanding of a removal that has started. */
    predicate Tidy()
      reads this, vol
    {
      RemovalStarted(Here()) ==> vol.Now().Clean(RecordDirectory)
    }

    /** Where the open record descriptor leads. */
    function Handle(): Place
      reads this, vol
    {
      if key.sequence in vol.disk.queue then InQueue(key.sequence) else InEvents(key.eventId)
    }

    function Progress(): nat
      reads this
    {
      |journal.completed|
    }

    /** The in-memory transaction mirrors its record directory. */
    ghost predicate Open(o: Origin)
      reads this, vol
    {
      && Ready() && Idle() && InTransaction(o, key, Here())
      && location == Handle()
      && Holder(Here()).journal == Some(journal) && Holder(Here()).record == record
    }

    predicate Faults(out: Outcome)
      reads vol
    {
      (out.Error? ==> vol.regime.IoFaults?) && (out.Crashed? ==> !vol.regime.Calm?)
    }

    // ------------------------------------------------------ single operations

    method Move(op: Op, source: Directory, destination: Directory) returns (out: Outcome)
      requires Ready() && Idle() && Permitted(op) && !PrivateOp(Here(), op) && Mine(op, key)
      requires Touches(op) == {source, destination} && source != destination && Retires(op) == {}
      requires JournalSeen(Effect(Here(), op), journal) == journal
      modifies vol, this`course
      ensures Ready() && Faults(out) && Kept(old(vol.disk), vol.disk, key)
      ensures Struck(out, old(Here()), Here(), Effect(old(Here()), op))
      ensures out.Done? ==> Idle() && (old(vol.Now()).Clean(RecordDirectory) ==> vol.Now().Clean(RecordDirectory))
      ensures out.Done? ==> PassedThrough(old(vol.Now()), op)
    {
      hide Reaches, Allows, Apply, Effect, Kept, PrivateOp, Touches, Retires, Starting, Issuing, Syncing, JournalSeen;
      OperationsAreLocal(vol.disk, op, key);
      KeptItself(vol.disk, key);
      ghost var a := course;
      if !vol.regime.PowerFailure? {
        StartingFacts(vol.Now(), a.journal);
        RenamingReaches(mode, key, start, a, op, source, destination);
      }
      out := vol.Rename(op, source, destination);
      if !vol.regime.PowerFailure? {
        ghost var b := Issuing(key, a, op);
        ghost var c := Syncing(key, b, source);
        course := if out.Done? then Syncing(key, c, destination)
                  else if vol.Now() == b.now then b else if vol.Now() == c.now then c else a;
      }
      RenamingKeepsClean(old(vol.Now()), op, source, destination);
    }

    /** On the way the operation was issued and not yet synced. */
    ghost predicate PassedThrough(before: Moment, op: Op)
      reads this, vol
    {
      vol.regime.PowerFailure? || exists s :: Reaches(mode, key, start, s) && s.now == before.Issue(op) && !s.noted
    }

    /** `memory` is the journal as it was before `op`, where that writes a new one. */
    method Save(op: Op, ghost memory: Journal) returns (out: Outcome)
      requires Tracked(memory) && Idle() && Permitted(op) && !PrivateOp(Here(), op) && Mine(op, key)
      requires Touches(op) == {RecordDirectory} && Retires(op) == {}
      modifies vol, this`course
      ensures Tracked(if out.Done? then JournalSeen(Here(), memory) else memory) && Faults(out)
      ensures Kept(old(vol.disk), vol.disk, key)
      ensures Struck(out, old(Here()), Here(), Effect(old(Here()), op))
      ensures out.Done? ==> Idle() && vol.Now().Clean(RecordDirectory)
    {
      hide Reaches, Allows, Apply, Effect, Kept, PrivateOp, Touches, Retires, Starting, Issuing, Syncing, JournalSeen;
      OperationsAreLocal(vol.disk, op, key);
      KeptItself(vol.disk, key);
      ghost var a := course;
      if !vol.regime.PowerFailure? {
        StartingFacts(vol.Now(), a.journal);
        RewritingReaches(mode, key, start, a, op, RecordDirectory);
      }
      out := vol.Rewrite(op, RecordDirectory);
      if !vol.regime.PowerFailure? {
        ghost var b := Issuing(key, a, op);
        course := if out.Done? then Syncing(key, b, RecordDirectory) else if vol.Now() == b.now then b else a;
      }
      SyncedIsClean(old(vol.Now()).Issue(op), RecordDirectory);
    }

    /** Write the journal; a failure restores the in-memory journal. */
    method Persist(next: Journal) returns (out: Outcome)
      requires Ready() && Idle() && (Here().queued.Some? || Here().current.Some?)
      requires Permitted(WriteJournal(HolderIn(Here(), key), next))
      modifies vol, this`course, this`journal
      ensures Ready() && Faults(out) && Kept(old(vol.disk), vol.disk, key)
      ensures Struck(out, old(Here()), Here(), WithJournal(old(Here()), next))
      ensures journal == if out.Done? then next else old(journal)
      ensures out.Done? ==> Idle() && Tidy()
    {
      hide Allows;
      var previous := journal;
      journal := next;
      out := Save(WriteJournal(Handle(), journal), previous);
      if !out.Done? {
        journal := previous;
      }
    }

    /** The write of _record_recovery_failure; the journal in memory keeps the evidence either way. */
    method NoteFailure(evidence: string) returns (out: Outcome)
      requires Ready() && mode.Recovering? && (Here().queued.Some? || Here().current.Some?)
      modifies vol, this`course, this`journal
      ensures vol.Valid() && vol.Synced() && OnCourse() && Faults(out) && Kept(old(vol.disk), vol.disk, key)
      ensures Struck(out, old(Here()), Here(), WithJournal(old(Here()), old(journal).(recoveryFailure := Some(evidence))))
    {
      hide Reaches, Allows, Kept;
      journal := journal.(recoveryFailure := Some(evidence));
      var op := WriteJournal(Handle(), journal);
      OperationsAreLocal(vol.disk, op, key);
      KeptItself(vol.disk, key);
      ghost var a := course;
      ghost var b := Noting(key, a, evidence);
      if !vol.regime.PowerFailure? {
        NotingReaches(mode, key, start, a, b, evidence);
        SyncingReaches(mode, key, start, b, Syncing(key, b, RecordDirectory), RecordDirectory);
      }
      out := vol.Rewrite(op, RecordDirectory);
      if !vol.regime.PowerFailure? {
        course := if out.Done? then Syncing(key, b, RecordDirectory) else if vol.Now() == b.now then b else a;
      }
    }

    method NamedCheckpoint(checkpoint: Checkpoint) returns (out: Outcome)
      requires Ready() && Idle() && (Here().queued.Some? || Here().current.Some?)
      requires Holder(Here()).journal == Some(journal)
      requires Completed(journal, checkpoint)
        || Permitted(WriteJournal(HolderIn(Here(), key), Marked(journal, checkpoint)))
      modifies vol, this`course, this`journal
      ensures Ready() && Faults(out) && Kept(old(vol.disk), vol.disk, key)
      ensures Struck(out, old(Here()), Here(), WithJournal(old(Here()), Marked(old(journal), checkpoint)))
      ensures journal == if out.Done? then Marked(old(journal), checkpoint) else old(journal)
      ensures out.Done? ==> Idle() && (old(Tidy()) ==> Tidy())
    {
      hide Allows;
      if Completed(journal, checkpoint) {
        return Done;
      }
      out := Persist(journal.(completed := journal.completed + [checkpoint]));
    }

    method NamedIntent(intents: Intents) returns (out: Outcome)
      requires Ready() && Idle() && (Here().queued.Some? || Here().current.Some?)
      requires Holder(Here()).journal == Some(journal)
      requires journal.intents == intents || Permitted(WriteJournal(HolderIn(Here(), key), journal.(intents := intents)))
      modifies vol, this`course, this`journal
      ensures Ready() && Faults(out) && Kept(old(vol.disk), vol.disk, key)
      ensures Struck(out, old(Here()), Here(), WithJournal(old(Here()), old(journal).(intents := intents)))
      ensures journal == if out.Done? then old(journal).(intents := intents) else old(journal)
      ensures out.Done? ==> Idle() && (old(journal).intents != intents ==> Tidy())
    {
      hide Allows;
      if journal.intents == intents {
        return Done;
      }
      out := Persist(journal.(intents := intents));
    }

    // ------------------------------------------------------------ private trees

    /** Only the content of one private tree has changed since everything was synced. */
    ghost predicate Tinkering(base: Disk, like: Op)
      reads this, vol
    {
      && vol.Private(base, like) && OnCourse() && JournalSeen(Here(), journal) == journal
      && (vol.regime.PowerFailure? ||
            (!course.noted && course.journal == journal && course.due <= CANDIDATE_DIRECTORIES
             && (course.due == {} <==> !course.private)))
    }

    /** Change the content of a private tree. */
    method Tinker(op: Op, ghost base: Disk) returns (out: Outcome)
      requires Tinkering(base, op) && Permitted(op) && PrivateOp(Here(), op)
      requires JournalSeen(Look(Apply(vol.disk, op), key), journal) == journal
      modifies vol, this`course
      ensures Varied(base, vol.disk, op) && Faults(out)
      ensures out.Done? ==> Tinkering(base, op) && vol.disk == Apply(old(vol.disk), op)
      ensures out.Done? ==> vol.Now() == old(vol.Now()).Issue(op)
      ensures out.Done? && !vol.regime.PowerFailure? ==> course == Issuing(key, old(course), op)
      ensures !out.Done? ==> Ready()
    {
      hide Reaches, Allows, Apply, PrivateOp, Touches, Retires, Issuing, JournalSeen, Varied;
      ghost var a := course;
      if !vol.regime.PowerFailure? {
        IssuingReaches(mode, key, start, a, Issuing(key, a, op), op);
        PrivateFacts(key, a, op);
      }
      out := vol.IssuePrivate(op, base);
      if !vol.regime.PowerFailure? {
        course := if out.Done? || vol.Now() != a.now then Issuing(key, a, op) else a;
      }
    }

    /** Sync one of its directories. */
    method Settle(directory: Directory, ghost base: Disk, ghost like: Op) returns (out: Outcome)
      requires Tinkering(base, like)
      requires vol.regime.PowerFailure? || course.due == {} || directory in course.due
      modifies vol, this`course
      ensures Varied(base, vol.disk, like) && Faults(out)
      ensures out.Done? ==> Tinkering(base, like) && vol.disk == old(vol.disk) && vol.Now() == old(vol.Now()).Sync(directory)
      ensures out.Done? && !vol.regime.PowerFailure? ==> course == Syncing(key, old(course), directory)
      ensures !out.Done? ==> Ready()
      ensures old(vol.pending) == [] || !vol.regime.PowerFailure? ==> vol.disk == old(vol.disk)
    {
      hide Reaches, JournalSeen, Varied, Alike, Syncing, Look, Visible, Survivors, AllClean, Wiped, Starting;
      ghost var a := course;
      if !vol.regime.PowerFailure? {
        SyncingReaches(mode, key, start, a, Syncing(key, a, directory), directory);
        SyncingFacts(key, a, directory);
      }
      out := vol.SyncPrivate(directory, base, like);
      if !vol.regime.PowerFailure? && out.Done? {
        course := Syncing(key, a, directory);
      }
    }

    /** The last sync: nothing is outstanding any more. */
    method SettleRecord(ghost base: Disk, ghost like: Op) returns (out: Outcome)
      requires Tinkering(base, like)
      requires if vol.regime.PowerFailure? then vol.Outstanding({RecordDirectory}) else course.due <= {RecordDirectory}
      modifies vol, this`course
      ensures Ready() && Varied(base, vol.disk, like) && Faults(out)
      ensures out.Done? ==> Idle() && vol.disk == old(vol.disk) && vol.Now().Clean(RecordDirectory)
    {
      hide Reaches, JournalSeen, Varied;
      if vol.regime.PowerFailure? {
        SyncingCleans(vol.Now(), RecordDirectory, {RecordDirectory});
      }
      SyncedIsClean(vol.Now(), RecordDirectory);
      out := Settle(RecordDirectory, base, like);
    }

    /** rmtree of the private stage, then a sync of the record directory. */
    method EraseStage() returns (out: Outcome)
      requires Ready() && Idle() && Here().queued.Some? && Here().queued.value.journal == Some(journal)
      requires Here().queued.value.stage.Some? ==> |journal.completed| == 2 && journal.intents.stageRemovalStarted
      modifies vol, this`course
      ensures Ready() && Faults(out) && Kept(old(vol.disk), vol.disk, key)
      ensures out.Done? ==> Idle() && vol.Now().Clean(RecordDirectory)
      ensures Here().queued.Some?
      ensures Here() == old(Here()).(queued :=
        Some(old(Here()).queued.value.(stage := Here().queued.value.stage)))
      ensures out.Done? ==> Here().queued.value.stage.None?
      ensures old(Here()).queued.value.stage.None? ==> Here() == old(Here())
    {
      hide Reaches;
      ghost var base := vol.disk;
      var at := InQueue(key.sequence);
      ghost var like := SetStage(at, None);
      VariedFromItself(base, like);
      if vol.disk.queue[key.sequence].stage.None? {
        out := Settle(RecordDirectory, base, like);
        return;
      }
      var left: Stage := *;
      ghost var before := vol.Now();
      out := Done;
      if StageWeight(Some(left)) < StageWeight(vol.disk.queue[key.sequence].stage) {
        out := Tinker(SetStage(at, Some(left)), base);
      }
      if out.Done? {
        ghost var middle := vol.Now();
        out := Tinker(SetStage(at, None), base);
        if out.Done? {
          ErasingDirties(before, middle, SetStage(at, Some(left)), SetStage(at, None));
          out := SettleRecord(base, like);
        }
      }
      PutIsLocal(base, at, At(vol.disk, at).value, key);
    }

    /** rmtree of the private candidate, then a sync of the record directory. */
    method EraseCandidate() returns (out: Outcome)
      requires Ready() && Idle() && Here().queued.None? && Here().current.Some? && Here().products.None?
      requires mode.Recovering? && Here().current.value.journal == Some(journal) && journal.intents.candidateRemovalStarted
      modifies vol, this`course
      ensures Ready() && Faults(out) && Kept(old(vol.disk), vol.disk, key)
      ensures out.Done? ==> Idle() && vol.Now().Clean(RecordDirectory)
      ensures Here().current.Some?
      ensures Here() == old(Here()).(current :=
        Some(old(Here()).current.value.(candidate := Here().current.value.candidate)))
      ensures out.Done? ==> Here().current.value.candidate.None?
      ensures old(Here()).current.value.candidate.None? ==> Here() == old(Here())
    {
      hide Reaches;
      ghost var base := vol.disk;
      var at := InEvents(key.eventId);
      ghost var like := SetCandidate(at, None);
      VariedFromItself(base, like);
      if vol.disk.events[key.eventId].candidate.None? {
        out := Settle(RecordDirectory, base, like);
        return;
      }
      var left: Files := *;
      ghost var before := vol.Now();
      out := Done;
      if CandidateWeight(Some(left)) < CandidateWeight(vol.disk.events[key.eventId].candidate) {
        out := Tinker(SetCandidate(at, Some(left)), base);
      }
      if out.Done? {
        ghost var middle := vol.Now();
        out := Tinker(SetCandidate(at, None), base);
        if out.Done? {
          ErasingDirties(before, middle, SetCandidate(at, Some(left)), SetCandidate(at, None));
          out := SettleRecord(base, like);
        }
      }
      PutIsLocal(base, at, At(vol.disk, at).value, key);
    }

    /** The candidate of a promoted transaction is being built. */
    ghost predicate Building(base: Disk)
      reads this, vol
    {
      && mode.Preparing? && Tinkering(base, SetCandidate(InEvents(key.eventId), None))
      && Buildable(Look(base, key))
      && if vol.regime.PowerFailure? then vol.Outstanding(CANDIDATE_DIRECTORIES)
         else course.due == {} || course.due == CANDIDATE_DIRECTORIES
    }

    predicate Buildable(v: View)
      reads this
    {
      && v.queued.None? && v.current.Some? && v.products.None? && v.current.value.journal == Some(journal)
      && |journal.completed| == 4 && !journal.intents.candidateRemovalStarted
    }

    /** One step of building the candidate. */
    method Build(files: Files, ghost base: Disk) returns (out: Outcome)
      requires Building(base)
      modifies vol, this`course
      ensures Varied(base, vol.disk, SetCandidate(InEvents(key.eventId), None)) && Faults(out)
      ensures out.Done? ==> Building(base) && At(vol.disk, InEvents(key.eventId)).value.candidate == Some(files)
      ensures !out.Done? ==> Ready()
    {
      hide Reaches;
      var at := InEvents(key.eventId);
      if vol.regime.PowerFailure? {
        IssuingDirties(vol.Now(), SetCandidate(at, Some(files)), CANDIDATE_DIRECTORIES);
      }
      out := Tinker(SetCandidate(at, Some(files)), base);
    }

    /** Copy one file into the candidate; a fault may leave any part of it. */
    method CopyFile(files: Files, name: string, bytes: Bytes, ghost base: Disk) returns (out: Outcome)
      requires Building(base)
      modifies vol, this`course
      ensures Varied(base, vol.disk, SetCandidate(InEvents(key.eventId), None)) && Faults(out)
      ensures out.Done? ==> Building(base)
      ensures out.Done? ==> At(vol.disk, InEvents(key.eventId)).value.candidate == Some(files[name := bytes])
      ensures !out.Done? ==> Ready()
    {
      hide Building;
      var cut: int := *;
      var partial := if 0 <= cut <= |bytes| then bytes[..cut] else [];
      out := Build(files[name := partial], base);
      if out.Done? {
        out := Build(files[name := bytes], base);
      }
    }

    /** Sync the candidate's directories from the inside out. */
    method SyncCandidate(ghost base: Disk) returns (out: Outcome)
      requires Building(base)
      modifies vol, this`course
      ensures Ready() && Faults(out)
      ensures Varied(base, vol.disk, SetCandidate(InEvents(key.eventId), None))
      ensures out.Done? ==> Idle() && vol.disk == old(vol.disk)
    {
      hide Reaches;
      ghost var like := SetCandidate(InEvents(key.eventId), None);
      ghost var before := vol.Now();
      out := Settle(CandidateCurrent, base, like);
      if out.Done? {
        out := Settle(CandidateDirectory, base, like);
        if out.Done? {
          if vol.regime.PowerFailure? {
            SyncingCleans(before, CandidateCurrent, CANDIDATE_DIRECTORIES);
            SyncingCleans(before.Sync(CandidateCurrent), CandidateDirectory, CANDIDATE_DIRECTORIES - {CandidateCurrent});
          }
          out := SettleRecord(base, like);
        }
      }
    }

    /** Build the candidate file by file, checking each against the manifest, and sync it. */
    method BuildCandidate(hash: Hash) returns (out: Outcome)
      requires Ready() && Idle() && mode.Preparing? && Buildable(Here())
      requires Here().current.Some? && Here().current.value.candidate.None?
      requires SameNames(Here().current.value.request, Here().current.value.manifest.files)
      requires vol.regime.IoFaults? ||
        Manifested(hash, Here().current.value.request, Here().current.value.manifest.files)
      modifies vol, this`course
      ensures Ready() && Kept(old(vol.disk), vol.disk, key)
      ensures Here().current.Some?
      ensures Here() == old(Here()).(current :=
        Some(old(Here()).current.value.(candidate := Here().current.value.candidate)))
      ensures out.Done? ==> Idle() && Here().current.value.candidate == Some(old(Here()).current.value.request)
      ensures Faults(out)
    {
      hide Building, Reaches;
      ghost var base := vol.disk;
      ghost var like := SetCandidate(InEvents(key.eventId), None);
      out := FillCandidate(hash, base);
      if out.Done? {
        out := SyncCandidate(base);
      }
      PutIsLocal(base, InEvents(key.eventId), At(vol.disk, like.at).value, key);
    }

    method FillCandidate(hash: Hash, ghost base: Disk) returns (out: Outcome)
      requires Ready() && Idle() && mode.Preparing? && Buildable(Here())
      requires Here().current.Some? && vol.disk == base
      requires SameNames(Here().current.value.request, Here().current.value.manifest.files)
      requires vol.regime.IoFaults? ||
        Manifested(hash, Here().current.value.request, Here().current.value.manifest.files)
      modifies vol, this`course
      ensures Varied(base, vol.disk, SetCandidate(InEvents(key.eventId), None))
      ensures if out.Done? then Building(base) else Ready()
      ensures out.Done? ==>
        At(vol.disk, InEvents(key.eventId)).value.candidate == Some(old(Here()).current.value.request)
      ensures Faults(out)
    {
      hide Reaches;
      var at := InEvents(key.eventId);
      ghost var like := SetCandidate(at, None);
      VariedFromItself(base, like);
      var request, facts := vol.disk.events[key.eventId].request, vol.disk.events[key.eventId].manifest.files;
      assert vol.regime.IoFaults? || Manifested(hash, request, facts);
      var files: Files := map[];
      assert Building(base);
      hide Building;
      out := Build(files, base);
      if !out.Done? {
        return;
      }
      for i := 0 to |facts|
        invariant out.Done? && Building(base) && Varied(base, vol.disk, like)
        invariant At(vol.disk, at).value.candidate == Some(files)
        invariant CopiedSoFar(request, facts[..i], files)
      {
        if !ContentMatches(hash, request, facts[i]) {
          assert facts[i] in facts;
          return Error;
        }
        CopyExtends(request, facts[..i], files, facts[i]);
        assert facts[..i + 1] == facts[..i] + [facts[i]];
        out := CopyFile(files, facts[i].basename, request[facts[i].basename], base);
        if !out.Done? {
          return;
        }
        files := files[facts[i].basename := request[facts[i].basename]];
      }
      assert facts[..|facts|] == facts;
      CopyCompletes(request, facts, files);
    }

    // --------------------------------------------------------- the transaction

    ghost predicate Safe(o: Origin)
      reads this, vol
    {
      Ready() && InTransaction(o, key, Here()) && Carries(Here(), record)
    }

    /** Writing the in-memory journal back would also leave a recoverable state. */
    ghost predicate Resumable(o: Origin)
      reads this, vol
    {
      Safe(o) && InTransaction(o, key, WithJournal(Here(), journal))
    }

    method MakeStage(ghost o: Origin) returns (out: Outcome)
      requires Open(o) && Fresh(o, key, Here())
      modifies vol, this`course
      ensures Safe(o) && Resumable(o) && Faults(out) && Kept(old(vol.disk), vol.disk, key)
      ensures out.Done? ==> Open(o) && Staging(o, key, Here(), 0)
      ensures out.Done? ==> Here().products == o.products && Here().current == o.service
    {
      hide Waiting, Promoted, Reaches, Allows;
      MakingStage(o, key, Here());
      NextMakesStage(mode, o, key, Here());
      out := Save(SetStage(InQueue(key.sequence), Some(Stage(Absent, Absent))), journal);
    }

    /** One iteration of the staging loop: move the tree if it is still in place, then checkpoint. */
    method StageTree(products: bool, present: bool, ghost o: Origin) returns (out: Outcome)
      requires Open(o) && Staging(o, key, Here(), Progress()) && (products || Progress() >= 1)
      requires present <==> if products then Here().products.Some? else Here().current.Some?
      modifies vol, this`course, this`journal
      ensures Safe(o) && (out.Error? ==> Resumable(o)) && Faults(out) && Kept(old(vol.disk), vol.disk, key)
      ensures out.Done? ==> Open(o) && Staging(o, key, Here(), Progress())
      ensures out.Done? ==> Progress() >= (if products then 1 else 2)
      ensures out.Done? && products ==> Here().current == old(Here()).current
      ensures Here().queued.Some?
      ensures out.Done? && present ==> PassedThrough(old(vol.Now()), Staged(products))
    {
      hide Waiting, Promoted, Reaches, Allows, RemovalStarted, Kept, Marked, Starting;
      WhereItIs(o, key, Here());
      StagingFacts(o, key, Here(), Progress());
      NextStages(mode, o, key, Here(), products, Progress());
      if products && present {
        StagingProducts(o, key, Here(), Progress());
        :- Move(Staged(true), ProductsRoot, StageDirectory);
      } else if present {
        StagingService(o, key, Here(), Progress());
        :- Move(Staged(false), EventsRoot, StageDirectory);
      }
      KeptItself(old(vol.disk), key);
      ghost var middle := vol.disk;
      out := CheckpointTree(products, o);
      KeptTwice(old(vol.disk), middle, vol.disk, key);
    }

    method CheckpointTree(products: bool, ghost o: Origin) returns (out: Outcome)
      requires Open(o) && Staging(o, key, Here(), Progress()) && (products || Progress() >= 1)
      requires if products then Here().products.None? else Here().current.None?
      modifies vol, this`course, this`journal
      ensures Safe(o) && (out.Error? ==> Resumable(o)) && Faults(out) && Kept(old(vol.disk), vol.disk, key)
      ensures out.Done? ==> Open(o) && Staging(o, key, Here(), Progress())
      ensures out.Done? ==> Progress() >= (if products then 1 else 2)
      ensures out.Done? ==> Here().current == old(Here()).current
      ensures Here().queued.Some?
    {
      hide Waiting, Promoted, Reaches, Allows, RemovalStarted, Kept, Starting;
      WhereItIs(o, key, Here());
      NextStages(mode, o, key, Here(), products, Progress());
      CheckpointingStaged(o, key, Here(), products, Progress());
      out := NamedCheckpoint(if products then ProductsStaged else ServiceStaged);
    }

    function Staged(products: bool): Op {
      if products then StageProducts(InQueue(key.sequence), key.eventId) else StageService(InQueue(key.sequence), key.eventId)
    }

    method StagePreceding(ghost o: Origin) returns (out: Outcome)
      requires Open(o) && Fresh(o, key, Here())
      modifies vol, this`course, this`journal
      ensures Safe(o) && (out.Error? ==> Resumable(o)) && Faults(out) && Kept(old(vol.disk), vol.disk, key)
      ensures out.Done? ==> Open(o) && Staging(o, key, Here(), 2)
    {
      hide Waiting, Promoted, Reaches, Allows;
      WhereItIs(o, key, Here());
      FreshFacts(o, key, Here());
      PrecedingFacts(o, key, Here());
      :- MakeStage(o);
      :- StageTree(true, journal.preceding.products, o);
      PrecedingFacts(o, key, Here());
      out := StageTree(false, journal.preceding.service, o);
      if out.Done? {
        StagingFacts(o, key, Here(), Progress());
      }
    }

    /** Archive the stage by rename, or record the intent and remove it. */
    method DisposeStage(ghost o: Origin) returns (out: Outcome)
      requires Open(o) && Staging(o, key, Here(), 2)
      modifies vol, this`course, this`journal
      ensures Safe(o) && (out.Error? ==> Resumable(o)) && Faults(out) && Kept(old(vol.disk), vol.disk, key)
      ensures out.Done? ==> Open(o) && Swept(o, key, Here()) && Tidy()
      ensures out.Done? && key.archive.Some? ==>
        PassedThrough(old(vol.Now()), PublishArchive(InQueue(key.sequence), key.archive.value))
      ensures Here().queued.Some?
    {
      hide Waiting, Promoted, Reaches, Allows;
      WhereItIs(o, key, Here());
      PrecedingFacts(o, key, Here());
      NextDisposes(mode, o, key, Here());
      if !record.overwrite && HasPreceding(journal.preceding) {
        Archiving(o, key, Here());
        :- Move(PublishArchive(InQueue(key.sequence), journal.archivePath.value), RecordDirectory, ArchiveRoot);
      } else {
        StartingRemoval(o, key, Here());
        :- NamedIntent(journal.intents.(stageRemovalStarted := true));
        :- RemoveStage(o);
      }
      out := Done;
    }

    method DisposePreceding(ghost o: Origin) returns (out: Outcome)
      requires Open(o) && Staging(o, key, Here(), 2)
      modifies vol, this`course, this`journal
      ensures Safe(o) && (out.Error? ==> Resumable(o)) && Faults(out) && Kept(old(vol.disk), vol.disk, key)
      ensures out.Done? ==> Open(o) && WaitingAt(o, key, Here(), 3) && Tidy()
      ensures out.Done? && key.archive.Some? ==>
        PassedThrough(old(vol.Now()), PublishArchive(InQueue(key.sequence), key.archive.value))
    {
      hide Waiting, Promoted, Reaches, Allows;
      :- DisposeStage(o);
      out := CheckpointDisposal(o);
    }

    /** The last step of both _dispose_preceding and _recover_staging. */
    method CheckpointDisposal(ghost o: Origin) returns (out: Outcome)
      requires Open(o) && Swept(o, key, Here()) && Tidy()
      modifies vol, this`course, this`journal
      ensures Safe(o) && (out.Error? ==> Resumable(o)) && Faults(out) && Kept(old(vol.disk), vol.disk, key)
      ensures out.Done? ==> Open(o) && WaitingAt(o, key, Here(), 3) && Tidy()
      ensures Here().queued.Some?
    {
      hide Waiting, Promoted, Reaches, Allows, RemovalStarted;
      WhereItIs(o, key, Here());
      CheckpointingDisposed(o, key, Here());
      NextCheckpointsDisposal(mode, o, key, Here());
      out := NamedCheckpoint(PrecedingDisposed);
    }

    /** Remove whatever is left of a stage whose removal has started. */
    method RemoveStage(ghost o: Origin) returns (out: Outcome)
      requires Open(o) && Removing(o, key, Here())
      modifies vol, this`course
      ensures Safe(o) && (out.Error? ==> Resumable(o)) && Faults(out) && Kept(old(vol.disk), vol.disk, key)
      ensures Here().queued.Some? && Removing(o, key, Here()) && journal == JournalIn(Here())
      ensures out.Done? ==> Open(o) && Here().queued.value.stage.None? && Tidy()
    {
      hide Waiting, Promoted, Reaches, Allows;
      WhereItIs(o, key, Here());
      RemovingFacts(o, key, Here());
      out := EraseStage();
      if |journal.completed| == 2 {
        StageMayVary(o, key, old(Here()), Here().queued.value.stage);
      }
    }

    method PromoteRecord(ghost o: Origin) returns (out: Outcome)
      requires Open(o) && WaitingAt(o, key, Here(), 3) && Tidy()
      modifies vol, this`course, this`journal, this`location
      ensures Safe(o) && (out.Error? ==> Resumable(o)) && Faults(out) && Kept(old(vol.disk), vol.disk, key)
      ensures out.Done? ==> Open(o) && location.InEvents? && PromotedAt(o, key, Here(), 4)
      ensures out.Done? ==> Here().products.None? && Here().current.value.candidate.None?
      ensures PublishedTree(Here()).None?
      ensures out.Done? ==> !journal.intents.candidateRemovalStarted
      ensures out.Done? ==> PassedThrough(old(vol.Now()), Promote(key.sequence, key.eventId))
    {
      hide Waiting, Promoted, Reaches, Allows, RemovalStarted;
      WhereItIs(o, key, Here());
      Promoting(o, key, Here());
      NextPromotes(mode, o, key, Here());
      out := Move(Promote(key.sequence, key.eventId), QueueRoot, EventsRoot);
      WritingBack(Here(), journal);
      if !out.Done? {
        return;
      }
      location := InEvents(key.eventId);
      out := CheckpointPromotion(o);
    }

    /** The last step of both _promote_record and _recover_promotion. */
    method CheckpointPromotion(ghost o: Origin) returns (out: Outcome)
      requires Open(o) && Promoted(o, key, Here())
      modifies vol, this`course, this`journal
      ensures Safe(o) && (out.Error? ==> Resumable(o)) && Faults(out) && Kept(old(vol.disk), vol.disk, key)
      ensures out.Done? ==> Open(o) && Promoted(o, key, Here())
      ensures out.Done? ==> Progress() >= 4 && Progress() == if old(Progress()) == 3 then 4 else old(Progress())
      ensures journal.intents == old(journal).intents && Here().products == old(Here()).products
      ensures Here().queued.None? && Here().current.Some? && old(Here()).current.Some?
        && Here().current.value.candidate == old(Here()).current.value.candidate
    {
      hide Waiting, Promoted, Reaches, Allows, RemovalStarted;
      WhereItIs(o, key, Here());
      CheckpointingPromoted(o, key, Here());
      NextCheckpointsPromotion(mode, o, key, Here());
      out := NamedCheckpoint(RecordPromoted);
    }

    method CopyManifestedRequest(hash: Hash, ghost o: Origin) returns (out: Outcome)
      requires Open(o) && location.InEvents? && PromotedAt(o, key, Here(), 4) && mode.Preparing?
      requires Here().products.None? && Here().current.value.candidate.None?
      requires !journal.intents.candidateRemovalStarted
      requires Matches(hash, o.claimed.manifest, key.eventId, key.sequence, o.claimed.request)
      modifies vol, this`course, this`journal
      ensures Safe(o) && (out.Error? ==> Resumable(o)) && Faults(out) && Kept(old(vol.disk), vol.disk, key)
      ensures out.Done? ==> Open(o) && PromotedAt(o, key, Here(), 5) && Here().products.None?
      ensures out.Done? ==> Here().current.value.candidate == Some(o.claimed.request)
      ensures journal.intents == old(journal).intents
    {
      hide Waiting, Promoted, Matches, SameNames, Manifested, Reaches, Allows;
      RequestFacts(o, key, Here());
      MatchingRequest(hash, o.claimed.manifest, key.eventId, key.sequence, o.claimed.request);
      :- PrepareCandidate(hash, o);
      CheckpointingReady(o, key, Here());
      NextCheckpointsCandidate(o, key, Here());
      out := NamedCheckpoint(CandidateReady);
    }

    method PrepareCandidate(hash: Hash, ghost o: Origin) returns (out: Outcome)
      requires Open(o) && location.InEvents? && PromotedAt(o, key, Here(), 4) && mode.Preparing?
      requires !journal.intents.candidateRemovalStarted
      requires Here().current.Some? && Here().products.None? && Here().current.value.candidate.None?
      requires Here().current.value.request == o.claimed.request
      requires SameNames(Here().current.value.request, Here().current.value.manifest.files)
      requires Manifested(hash, Here().current.value.request, Here().current.value.manifest.files)
      modifies vol, this`course
      ensures Safe(o) && Resumable(o) && Faults(out) && Kept(old(vol.disk), vol.disk, key)
      ensures out.Done? ==> Open(o) && PromotedAt(o, key, Here(), 4)
      ensures out.Done? ==> Here().products.None? && Here().current.Some?
      ensures out.Done? ==> Here().current.value.request == o.claimed.request
      ensures out.Done? ==> Here().current.value.candidate == Some(o.claimed.request)
    {
      hide Waiting, Promoted, Matches, SameNames, Manifested, Reaches, Allows;
      WhereItIs(o, key, Here());
      RequestFacts(o, key, Here());
      out := BuildCandidate(hash);
      CandidateMayVary(o, key, old(Here()), Here().current.value.candidate);
      WritingBack(Here(), journal);
    }

    method PublishNativeTree(ghost o: Origin) returns (out: Outcome)
      requires Open(o) && location.InEvents? && PromotedAt(o, key, Here(), 5) && Here().products.None?
      requires Here().current.value.candidate.Some? && !journal.intents.candidateRemovalStarted && mode.Preparing?
      requires record.status.Running?
      modifies vol, this`course, this`journal
      ensures Safe(o) && (out.Error? ==> Resumable(o)) && Faults(out) && Kept(old(vol.disk), vol.disk, key)
      ensures out.Done? ==> Open(o) && PromotedAt(o, key, Here(), 6)
      ensures out.Done? ==> Here().products == Some(Tree(key.sequence, o.claimed.request))
      ensures out.Done? ==> PassedThrough(old(vol.Now()), PublishNative(InEvents(key.eventId), key.eventId))
    {
      hide Waiting, Promoted, Reaches, Allows, RemovalStarted, Kept, Starting;
      CandidateFacts(o, key, Here());
      RequestFacts(o, key, Here());
      Publishing(o, key, Here());
      NextPublishes(o, key, Here());
      :- Move(PublishNative(InEvents(key.eventId), key.eventId), RecordDirectory, ProductsRoot);
      RequestFacts(o, key, Here());
      ghost var middle := vol.disk;
      out := CheckpointPublication(o);
      KeptTwice(old(vol.disk), middle, vol.disk, key);
    }

    method CheckpointPublication(ghost o: Origin) returns (out: Outcome)
      requires Open(o) && location.InEvents? && PromotedAt(o, key, Here(), 5) && Here().products.Some? && mode.Preparing?
      modifies vol, this`course, this`journal
      ensures Safe(o) && (out.Error? ==> Resumable(o)) && Faults(out) && Kept(old(vol.disk), vol.disk, key)
      ensures out.Done? ==> Open(o) && PromotedAt(o, key, Here(), 6)
      ensures Here().products == old(Here()).products
    {
      hide Waiting, Promoted, Reaches, Allows, RemovalStarted, Kept, Starting;
      RequestFacts(o, key, Here());
      CheckpointingPublished(o, key, Here());
      NextCheckpointsPublication(o, key, Here());
      out := NamedCheckpoint(NativeTreePublished);
    }

    // ---------------------------------------------------------- reconciliation

    /** One iteration of the loop of _recover_staging. */
    method RecoverTree(products: bool, ghost o: Origin) returns (out: Outcome)
      requires Open(o) && Staging(o, key, Here(), Progress()) && (products || Progress() >= 1)
      modifies vol, this`course, this`journal
      ensures Safe(o) && (out.Error? ==> Resumable(o)) && Faults(out) && Kept(old(vol.disk), vol.disk, key)
      ensures out.Done? ==> Open(o) && Staging(o, key, Here(), Progress())
      ensures out.Done? ==> Progress() >= (if products then 1 else 2)
      ensures Here().queued.Some?
    {
      hide Waiting, Promoted, Reaches, Allows;
      WhereItIs(o, key, Here());
      StagingFacts(o, key, Here(), Progress());
      PrecedingFacts(o, key, Here());
      var sourceExists := if products then Here().products.Some? else Here().current.Some?;
      var stage := Here().queued.value.stage.value;
      var stagedExists := if products then !stage.products.Absent? else !stage.service.Absent?;
      var expected := if products then journal.preceding.products else journal.preceding.service;
      if (!expected && (sourceExists || stagedExists)) || (expected && sourceExists && stagedExists) {
        return Error;
      }
      if expected && !sourceExists && !stagedExists {
        return Error;
      }
      out := StageTree(products, sourceExists, o);
    }

    /** _ensure_stage */
    method EnsureStage(ghost o: Origin) returns (out: Outcome)
      requires Open(o) && (Fresh(o, key, Here()) || Staging(o, key, Here(), Progress()))
      modifies vol, this`course
      ensures Safe(o) && Resumable(o) && Faults(out) && Kept(old(vol.disk), vol.disk, key)
      ensures out.Done? ==> Open(o) && Staging(o, key, Here(), Progress())
      ensures Here().queued.Some?
    {
      RequestFacts(o, key, Here());
      if Here().queued.value.stage.None? {
        FreshFacts(o, key, Here());
        out := MakeStage(o);
      } else {
        out := Done;
      }
    }

    /** The general case of _recover_staging: stage what is still in place, then dispose of the stage. */
    method Restage(ghost o: Origin) returns (out: Outcome)
      requires Open(o) && (Fresh(o, key, Here()) || Staging(o, key, Here(), Progress()))
      modifies vol, this`course, this`journal
      ensures Safe(o) && (out.Error? ==> Resumable(o)) && Faults(out) && Kept(old(vol.disk), vol.disk, key)
      ensures out.Done? ==> Open(o) && Swept(o, key, Here()) && Tidy()
      ensures Here().queued.Some?
    {
      hide Waiting, Promoted, Reaches, Allows;
      :- EnsureStage(o);
      :- RecoverTree(true, o);
      :- RecoverTree(false, o);
      StagingFacts(o, key, Here(), Progress());
      out := DisposeStage(o);
    }

    /** The branches of _recover_staging: whatever a crash left, dispose of the preceding trees. */
    method Sweep(ghost o: Origin) returns (out: Outcome)
      requires Open(o) && location.InQueue?
      modifies vol, this`course, this`journal
      ensures Safe(o) && (out.Error? ==> Resumable(o)) && Faults(out) && Kept(old(vol.disk), vol.disk, key)
      ensures out.Done? ==> Open(o) && Swept(o, key, Here()) && Tidy()
      ensures Here().queued.Some?
    {
      hide Waiting, Promoted, Reaches, Allows;
      WhereItIs(o, key, Here());
      WaitingSituations(o, key, Here());
      PrecedingFacts(o, key, Here());
      var archiveExists := journal.archivePath.Some? && journal.archivePath.value in vol.disk.archive;
      var sourcesAbsent := Here().products.None? && Here().current.None?;
      var stage := Here().queued.value.stage;
      if journal.intents.stageRemovalStarted {
        if journal.archivePath.Some? || !sourcesAbsent {
          return Error;
        }
        :- RemoveStage(o);
        RemovingFacts(o, key, Here());
      } else if archiveExists {
        if record.overwrite || stage.Some? || !Contains(Here().bundle.value, journal.preceding) {
          return Error;
        }
      } else if stage.None? && sourcesAbsent && Completed(journal, ProductsStaged) && Completed(journal, ServiceStaged)
                && (record.overwrite || !HasPreceding(journal.preceding)) {
        // Nothing is left to dispose of.
      } else {
        :- Restage(o);
      }
      out := Done;
    }

    method RecoverStaging(ghost o: Origin) returns (out: Outcome)
      requires Open(o) && location.InQueue?
      modifies vol, this`course, this`journal
      ensures Safe(o) && (out.Error? ==> Resumable(o)) && Faults(out) && Kept(old(vol.disk), vol.disk, key)
      ensures out.Done? ==> Open(o) && WaitingAt(o, key, Here(), 3) && Tidy()
      ensures Here().queued.Some?
    {
      hide Waiting, Promoted, Reaches, Allows, RemovalStarted;
      :- Sweep(o);
      out := CheckpointDisposal(o);
    }

    method RecoverPromotion(ghost o: Origin) returns (out: Outcome)
      requires Open(o) && (location.InQueue? ==> WaitingAt(o, key, Here(), 3) && Tidy())
      modifies vol, this`course, this`journal, this`location
      ensures Safe(o) && (out.Error? ==> Resumable(o)) && Faults(out) && Kept(old(vol.disk), vol.disk, key)
      ensures out.Done? ==> Open(o) && location.InEvents? && Promoted(o, key, Here()) && Progress() >= 4
      ensures PublishedTree(Here()) == PublishedTree(old(Here()))
    {
      hide Waiting, Promoted, Reaches, Allows, RemovalStarted;
      WhereItIs(o, key, Here());
      RequestFacts(o, key, Here());
      if location.InEvents? {
        out := CheckpointPromotion(o);
        return;
      }
      Promoting(o, key, Here());
      if key.eventId in vol.disk.events {
        return Error;
      }
      out := PromoteRecord(o);
    }

    /** _verify_disposition_after_promotion */
    method VerifyDisposition() returns (out: Outcome)
      requires Here().current.Some?
      ensures out.Done? <==>
        && Here().current.value.stage.None?
        && (journal.archivePath.Some? && key.archive == journal.archivePath ==>
              Here().bundle.Some? && Contains(Here().bundle.value, journal.preceding))
      ensures !out.Crashed?
    {
      if Here().current.value.stage.Some? {
        return Error;
      }
      if journal.archivePath.Some? && key.archive == journal.archivePath {
        if Here().bundle.None? || !Contains(Here().bundle.value, journal.preceding) {
          return Error;
        }
      }
      return Done;
    }

    method RemovePrivateCandidate(ghost o: Origin) returns (out: Outcome, published: bool)
      requires Open(o) && location.InEvents? && Promoted(o, key, Here()) && Progress() >= 4 && mode.Recovering?
      modifies vol, this`course, this`journal
      ensures Safe(o) && (out.Error? ==> Resumable(o)) && Faults(out) && Kept(old(vol.disk), vol.disk, key)
      ensures out.Done? ==> Open(o) && location.InEvents? && Promoted(o, key, Here()) && Progress() >= 4 && Tidy()
      ensures out.Done? ==> Here().current.value.candidate.None?
      ensures out.Done? ==> (published <==> PublishedTree(old(Here())).Some?)
      ensures Here().products == old(Here()).products && Here().queued.None?
      ensures Here().current.Some? && Here().current.value.record == old(Here()).current.value.record
    {
      hide Waiting, Promoted, Reaches, Allows;
      WhereItIs(o, key, Here());
      CandidateFacts(o, key, Here());
      published := false;
      var candidateExists := Here().current.value.candidate.Some?;
      var publicExists := Here().products.Some?;
      if journal.intents.candidateRemovalStarted {
        if publicExists {
          return Error, false;
        }
        out := EraseCandidate();
        CandidateMayVary(o, key, old(Here()), Here().current.value.candidate);
        return;
      }
      if (candidateExists && publicExists) || (publicExists && !Completed(journal, CandidateReady)) {
        return Error, false;
      }
      if (!publicExists && Completed(journal, NativeTreePublished))
         || (!candidateExists && !publicExists && Completed(journal, CandidateReady)) {
        return Error, false;
      }
      if candidateExists {
        StartingCandidateRemoval(o, key, Here());
        NextStartsRemoval(o, key, Here());
        out := NamedIntent(journal.intents.(candidateRemovalStarted := true));
        if out.Done? {
          ghost var before := Here();
          out := EraseCandidate();
          CandidateMayVary(o, key, before, Here().current.value.candidate);
        }
      } else {
        out := Done;
      }
      published := publicExists;
    }

    method MarkFailed(published: bool, now: int, ghost o: Origin) returns (out: Outcome)
      requires Open(o) && location.InEvents? && Promoted(o, key, Here()) && Progress() >= 4 && mode.Recovering? && Tidy()
      requires Here().current.Some? && Here().current.value.candidate.None? && (published <==> Here().products.Some?)
      modifies vol, this`course, this`record
      ensures Ready() && Promoted(o, key, Here()) && Kept(old(vol.disk), vol.disk, key)
      ensures out.Error? ==> InTransaction(o, key, WithJournal(Here(), journal))
      ensures out.Crashed? ==> !vol.regime.Calm?
      ensures out.Error? ==> vol.regime.IoFaults? || old(record).status.Success?
      ensures out.Done? ==> Open(o) && location == old(location) && record.status.Failed? && Progress() >= 4 && Tidy()
      ensures old(record).status.Terminal() ==> Carries(Here(), old(record))
      ensures KeepsRecord(Here(), old(record), published, now)
      ensures Here().products == old(Here()).products && Here().queued.None?
      ensures Here().current.Some? && old(Here()).current.Some?
        && Here().current.value.candidate == old(Here()).current.value.candidate
    {
      hide Waiting, Promoted, Status.Valid, Status.SameIdentity, Status.Transition, Reaches, Allows;
      RequestFacts(o, key, Here());
      RecordFacts(o, key, Here());
      if record.status.Failed? {
        return Done;
      }
      if !record.status.Running? {
        return Error;
      }
      var failure := Status.Failure(None, INTERRUPTED_CODE, InterruptedMessage(published));
      var given := Status.Arguments(None, None, Some(Some(Status.ServiceOutcome(true, false))), Some(Some(failure)), None, None);
      var failed := Status.Transition(vol.disk.events[key.eventId].record, Status.Failed, given, Status.Utc(now));
      FailingRecords(record, published, now);
      if failed.Raised? {
        return Error;
      }
      Failing(o, key, Here(), failed.value);
      NextConcludes(o, key, Here());
      out := Save(WriteRecord(InEvents(key.eventId), failed.value), journal);
      if out.Done? {
        record := failed.value;
      }
    }

    method DropJournal(ghost o: Origin) returns (out: Outcome)
      requires Open(o) && Promoted(o, key, Here()) && record.status.Failed? && Progress() >= 4 && mode.Recovering? && Tidy()
      requires Here().queued.None? && Here().current.Some? && Here().current.value.candidate.None?
      modifies vol, this`course
      ensures Ready() && Faults(out) && Kept(old(vol.disk), vol.disk, key)
      ensures Promoted(o, key, Here()) || Recovered(o, key, Here())
      ensures Carries(Here(), record)
      ensures out.Done? ==> Recovered(o, key, Here()) && Idle()
      ensures out.Error? ==> InTransaction(o, key, WithJournal(Here(), journal))
      ensures Here().products == old(Here()).products && Here().queued.None?
    {
      hide Waiting, Promoted, Recovered, Reaches, Allows;
      RequestFacts(o, key, Here());
      Closing(o, key, Here());
      NextConcludes(o, key, Here());
      out := Save(RemoveJournal(InEvents(key.eventId)), journal);
    }

    /** A process that began with nothing unsynced may lose power at any moment, also after it raised or was killed. */
    lemma PowerMayFail(o: Origin, d: Disk)
      requires OnCourse() && !vol.regime.PowerFailure?
      requires start.now == Moment(d, []) && start == Starting(start.now, start.journal)
      requires InTransaction(o, key, Look(d, key)) && Holder(Look(d, key)).journal == Some(start.journal)
      ensures forall left | left in vol.Now().Left() ::
        KeptInQueue(d, left, key) && StaysHonest(d, left, key) && Recoverable(o, key, Look(left, key))
      ensures Idle() ==> vol.pending == []
    {
      hide InTransaction, Recovered, Reaches, KeptInQueue, StaysHonest;
      CourseIsSound(mode, o, key, d, start.journal, course);
      if Idle() {
        NothingOwed(mode, o, key, d, course);
      }
    }

    /** The body of reconcile_transaction. */
    method Finish(now: int, ghost o: Origin) returns (out: Outcome)
      requires Open(o) && mode.Recovering?
      modifies vol, this`course, this`journal, this`location, this`record
      ensures Ready() && Kept(old(vol.disk), vol.disk, key)
      ensures InTransaction(o, key, Here()) || Recovered(o, key, Here())
      ensures out.Done? ==> Recovered(o, key, Here()) && Idle()
      ensures out.Error? ==> InTransaction(o, key, WithJournal(Here(), journal))
      ensures out.Error? ==> vol.regime.IoFaults? || old(record).status.Success?
      ensures out.Crashed? ==> !vol.regime.Calm?
      ensures PublishedTree(Here()) == PublishedTree(old(Here()))
      ensures old(record).status.Terminal() ==> Carries(Here(), old(record))
      ensures KeepsRecord(Here(), old(record), PublishedTree(old(Here())).Some?, now)
      ensures old(record).status.Success? ==> !out.Done?
      ensures Here().queued.Some? ==> Carries(Here(), old(record))
    {
      hide Waiting, Promoted, Recovered, InterruptedAt, Reaches, Allows;
      RequestFacts(o, key, Here());
      if location.InQueue? {
        :- RecoverStaging(o);
      }
      :- RecoverPromotion(o);
      out := Conclude(now, o);
    }

    method Conclude(now: int, ghost o: Origin) returns (out: Outcome)
      requires Open(o) && location.InEvents? && Promoted(o, key, Here()) && Progress() >= 4 && mode.Recovering?
      modifies vol, this`course, this`journal, this`record
      ensures Ready() && Kept(old(vol.disk), vol.disk, key)
      ensures InTransaction(o, key, Here()) || Recovered(o, key, Here())
      ensures out.Done? ==> Recovered(o, key, Here()) && Idle()
      ensures out.Error? ==> InTransaction(o, key, WithJournal(Here(), journal))
      ensures out.Error? ==> vol.regime.IoFaults? || old(record).status.Success?
      ensures out.Crashed? ==> !vol.regime.Calm?
      ensures PublishedTree(Here()) == PublishedTree(old(Here()))
      ensures old(record).status.Terminal() ==> Carries(Here(), old(record))
      ensures KeepsRecord(Here(), old(record), PublishedTree(old(Here())).Some?, now)
      ensures old(record).status.Success? ==> !out.Done?
      ensures Here().queued.None?
    {
      hide Waiting, Promoted, Recovered, InterruptedAt, Reaches, Allows;
      RequestFacts(o, key, Here());
      DispositionFacts(o, key, Here());
      out := VerifyDisposition();
      if !out.Done? {
        return;
      }
      var published :- RemovePrivateCandidate(o);
      :- MarkFailed(published, now, o);
      out := DropJournal(o);
    }
  }

  /** The FAILED write of _mark_failed. */
  lemma FailingRecords(r: Status.Record, published: bool, now: int)
    requires Status.Valid(r) && r.status.Running?
    ensures var failure := Status.Failure(None, INTERRUPTED_CODE, InterruptedMessage(published));
      var given := Status.Arguments(None, None, Some(Some(Status.ServiceOutcome(true, false))), Some(Some(failure)), None, None);
      var failed := Status.Transition(r, Status.Failed, given, Status.Utc(now));
      failed.Ok? && InterruptedAt(r, failed.value, published, now)
  {
    hide Status.Transition, Status.Valid;
    Status.OnlyTheFailureIsRecorded(r, INTERRUPTED_CODE, InterruptedMessage(published), now);
  }

  /** Removing a private tree leaves only its parent to sync. */
  lemma ErasingDirties(before: Moment, middle: Moment, partly: Op, wholly: Op)
    requires Alike(partly, wholly) && (middle == before || middle == before.Issue(partly))
    requires (partly.SetStage? && partly.stage.Some? && wholly.stage.None?)
          || (partly.SetCandidate? && partly.candidate.Some? && wholly.candidate.None?)
    ensures before.pending == [] ==> forall p | p in middle.Issue(wholly).pending :: p.dirty <= {RecordDirectory}
  {
    if before.pending == [] {
      IssuingDirties(before, partly, {});
      IssuingDirties(middle, wholly, Touches(partly));
    }
  }

  /** The names compared by _validate_manifest. */
  predicate SameNames(request: Files, facts: seq<FileFact>) {
    (forall f | f in facts :: f.basename in request)
    && forall n | n in request :: exists f | f in facts :: f.basename == n
  }

  lemma MatchingRequest(hash: Hash, m: Manifest, eventId: string, sequence: int, request: Files)
    requires Matches(hash, m, eventId, sequence, request)
    ensures SameNames(request, m.files) && Manifested(hash, request, m.files)
  {
  }

  predicate CopiedSoFar(request: Files, facts: seq<FileFact>, files: Files) {
    (forall n | n in files :: n in request && files[n] == request[n])
    && forall f | f in facts :: f.basename in files
  }

  lemma CopyExtends(request: Files, facts: seq<FileFact>, files: Files, f: FileFact)
    requires CopiedSoFar(request, facts, files) && f.basename in request
    ensures CopiedSoFar(request, facts + [f], files[f.basename := request[f.basename]])
  {
  }

  lemma CopyCompletes(request: Files, facts: seq<FileFact>, files: Files)
    requires CopiedSoFar(request, facts, files) && SameNames(request, facts)
    ensures files == request
  {
    forall n | n in request ensures n in files {
      var f :| f in facts && f.basename == n;
    }
  }
}
