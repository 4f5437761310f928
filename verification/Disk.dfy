/**
 The durable service tree: queue entries, current records, native products and
 archive trees, and the atomic directory operations that change them.
 */
module Disk {
  import opened Common
  import opened Snapshot
  import Names
  import Status

  datatype Checkpoint =
    | ProductsStaged
    | ServiceStaged
    | PrecedingDisposed
    | RecordPromoted
    | CandidateReady
    | NativeTreePublished
  {
    function Rank(): nat {
      match this
      case ProductsStaged => 0
      case ServiceStaged => 1
      case PrecedingDisposed => 2
      case RecordPromoted => 3
      case CandidateReady => 4
      case NativeTreePublished => 5
    }
  }

  const CHECKPOINTS :=
    [ProductsStaged, ServiceStaged, PrecedingDisposed, RecordPromoted, CandidateReady, NativeTreePublished]

  datatype Preceding = Preceding(products: bool, service: bool)
  datatype Intents = Intents(stageRemovalStarted: bool, candidateRemovalStarted: bool)

  datatype Journal = Journal(
    eventId: string,
    sequence: int,
    overwrite: bool,
    preceding: Preceding,
    archivePath: Option<string>,
    completed: seq<Checkpoint>,
    intents: Intents,
    recoveryFailure: Option<string>)

  /** The native event tree, with the calculation that published it. */
  datatype Tree = Tree(maker: int, files: Files)

  /** A directory entry whose content may have been partly removed. */
  datatype Held<T> = Absent | Intact(tree: T) | Torn

  datatype Stage = Stage(products: Held<Tree>, service: Held<Entry>)

  /** One record directory. */
  datatype Entry = Entry(
    record: Status.Record,
    request: Files,
    manifest: Manifest,
    journal: Option<Journal>,
    stage: Option<Stage>,
    candidate: Option<Files>)

  /** The four directories; `counter` is the queue's .next-sequence file. */
  datatype Disk = Disk(
    queue: map<int, Entry>,
    events: map<string, Entry>,
    products: map<string, Tree>,
    archive: map<string, Stage>,
    counter: Option<int>)

  datatype Place = InQueue(sequence: int) | InEvents(eventId: string)

  function At(d: Disk, at: Place): Option<Entry> {
    match at
    case InQueue(s) => Lookup(d.queue, s)
    case InEvents(e) => Lookup(d.events, e)
  }

  predicate Journaled(d: Disk, at: Place) {
    At(d, at).Some? && At(d, at).value.journal.Some?
  }

  predicate RunningAt(d: Disk, at: Place) {
    At(d, at).Some? && At(d, at).value.record.status.Running?
  }

  function Put(d: Disk, at: Place, entry: Entry): Disk {
    match at
    case InQueue(s) => d.(queue := d.queue[s := entry])
    case InEvents(e) => d.(events := d.events[e := entry])
  }

  datatype Directory =
    | QueueRoot | EventsRoot | ProductsRoot | ArchiveRoot
    | RecordDirectory | StageDirectory | CandidateDirectory | CandidateCurrent

  /** The operations the service issues, each atomic in its directories. */
  datatype Op =
    | WriteRecord(at: Place, record: Status.Record)
    | WriteJournal(at: Place, journal: Journal)
    | RemoveJournal(at: Place)
    | SetStage(at: Place, stage: Option<Stage>)
    | StageProducts(at: Place, eventId: string)
    | StageService(at: Place, eventId: string)
    | PublishArchive(at: Place, name: string)
    | Promote(sequence: int, eventId: string)
    | SetCandidate(at: Place, candidate: Option<Files>)
    | PublishNative(at: Place, eventId: string)
    | StoreCounter(next: int)
    | PublishEntry(sequence: int, entry: Entry)

  /** The directories whose entries an operation changes. */
  function Touches(op: Op): set<Directory> {
    match op
    case WriteRecord(_, _) => {RecordDirectory}
    case WriteJournal(_, _) => {RecordDirectory}
    case RemoveJournal(_) => {RecordDirectory}
    case SetStage(_, _) => {RecordDirectory}
    case StageProducts(_, _) => {ProductsRoot, StageDirectory}
    case StageService(_, _) => {EventsRoot, StageDirectory}
    case PublishArchive(_, _) => {RecordDirectory, ArchiveRoot}
    case Promote(_, _) => {QueueRoot, EventsRoot}
    case SetCandidate(_, candidate) =>
      if candidate.None? then {RecordDirectory} else {RecordDirectory, CandidateDirectory, CandidateCurrent}
    case PublishNative(_, _) => {RecordDirectory, ProductsRoot}
    case StoreCounter(_) => {QueueRoot}
    case PublishEntry(_, _) => {QueueRoot}
  }

  /** Directories that no longer exist afterwards, and so need no sync. */
  function Retires(op: Op): set<Directory> {
    match op
    case SetStage(_, None) => {StageDirectory}
    case SetCandidate(_, None) => {CandidateDirectory, CandidateCurrent}
    case _ => {}
  }

  /** Effect of one operation; one whose source or destination is not as required does nothing, but a tree moved
      into a stage that did not survive is gone with it. */
  function Apply(d: Disk, op: Op): Disk {
    match op
    case WriteRecord(at, record) =>
      if At(d, at).Some? then Put(d, at, At(d, at).value.(record := record)) else d
    case WriteJournal(at, journal) =>
      if At(d, at).Some? then Put(d, at, At(d, at).value.(journal := Some(journal))) else d
    case RemoveJournal(at) =>
      if At(d, at).Some? then Put(d, at, At(d, at).value.(journal := None)) else d
    case SetStage(at, stage) =>
      if At(d, at).Some? then Put(d, at, At(d, at).value.(stage := stage)) else d
    case SetCandidate(at, candidate) =>
      if At(d, at).Some? then Put(d, at, At(d, at).value.(candidate := candidate)) else d
    case StageProducts(at, e) =>
      if At(d, at).Some? && e in d.products then
        var x := At(d, at).value;
        Put(d.(products := d.products - {e}), at,
            x.(stage := if x.stage.None? then None else Some(x.stage.value.(products := Intact(d.products[e])))))
      else d
    case StageService(at, e) =>
      if At(d, at).Some? && e in d.events && at.InQueue? then
        var x := At(d, at).value;
        Put(d.(events := d.events - {e}), at,
            x.(stage := if x.stage.None? then None else Some(x.stage.value.(service := Intact(d.events[e])))))
      else d
    case PublishArchive(at, name) =>
      if At(d, at).Some? && At(d, at).value.stage.Some? && name !in d.archive then
        var x := At(d, at).value;
        Put(d.(archive := d.archive[name := x.stage.value]), at, x.(stage := None))
      else d
    case Promote(s, e) =>
      if s in d.queue && e !in d.events then
        d.(queue := d.queue - {s}, events := d.events[e := d.queue[s]])
      else d
    case PublishNative(at, e) =>
      if At(d, at).Some? && At(d, at).value.candidate.Some? && e !in d.products then
        var x := At(d, at).value;
        Put(d.(products := d.products[e := Tree(x.record.sequence, x.candidate.value)]), at, x.(candidate := None))
      else d
    case StoreCounter(next) => d.(counter := Some(next))
    case PublishEntry(s, entry) =>
      if s in d.queue then d else d.(queue := d.queue[s := entry])
  }

  /** The same operation on a record directory under its other name. */
  function Relocated(op: Op, from: Place, to: Place): Op {
    match op
    case WriteRecord(at, record) => WriteRecord(Renamed(at, from, to), record)
    case WriteJournal(at, journal) => WriteJournal(Renamed(at, from, to), journal)
    case RemoveJournal(at) => RemoveJournal(Renamed(at, from, to))
    case SetStage(at, stage) => SetStage(Renamed(at, from, to), stage)
    case StageProducts(at, e) => StageProducts(Renamed(at, from, to), e)
    case StageService(at, e) => StageService(Renamed(at, from, to), e)
    case PublishArchive(at, name) => PublishArchive(Renamed(at, from, to), name)
    case SetCandidate(at, candidate) => SetCandidate(Renamed(at, from, to), candidate)
    case PublishNative(at, e) => PublishNative(Renamed(at, from, to), e)
    case _ => op
  }

  function Renamed(at: Place, from: Place, to: Place): Place {
    if at == from then to else at
  }

  function ApplyAll(d: Disk, ops: seq<Op>): Disk {
    if ops == [] then d else Apply(ApplyAll(d, ops[..|ops| - 1]), ops[|ops| - 1])
  }

  // ------------------------------------------------ what one transaction sees

  /** The names one calculation's transaction may touch. */
  datatype Key = Key(sequence: int, eventId: string, archive: Option<string>)
  {
    function ArchiveNames(): set<string> {
      if archive.Some? then {archive.value} else {}
    }
  }

  datatype View = View(
    queued: Option<Entry>,
    current: Option<Entry>,
    products: Option<Tree>,
    bundle: Option<Stage>)

  function Look(d: Disk, k: Key): View {
    View(Lookup(d.queue, k.sequence), Lookup(d.events, k.eventId), Lookup(d.products, k.eventId),
         if k.archive.Some? then Lookup(d.archive, k.archive.value) else None)
  }

  /** Nothing outside the transaction's own names differs. */
  predicate Framed(a: Disk, b: Disk, k: Key) {
    && a.queue - {k.sequence} == b.queue - {k.sequence}
    && a.events - {k.eventId} == b.events - {k.eventId}
    && a.products - {k.eventId} == b.products - {k.eventId}
    && a.archive - k.ArchiveNames() == b.archive - k.ArchiveNames()
    && a.counter == b.counter
  }

  /** Framed, and what a transaction never takes back: an archive it published, its leaving the queue. */
  predicate Kept(a: Disk, b: Disk, k: Key) {
    && Framed(a, b, k)
    && (Look(a, k).bundle.Some? ==> Look(b, k).bundle == Look(a, k).bundle)
    && (k.sequence in b.queue ==> k.sequence in a.queue)
  }

  lemma KeptItself(a: Disk, k: Key)
    ensures Kept(a, a, k)
  {
  }

  lemma KeptTwice(a: Disk, b: Disk, c: Disk, k: Key)
    requires Kept(a, b, k) && Kept(b, c, k)
    ensures Kept(a, c, k)
  {
  }

  predicate Mine(op: Op, k: Key) {
    match op
    case StageProducts(at, e) => at == InQueue(k.sequence) && e == k.eventId
    case StageService(at, e) => at == InQueue(k.sequence) && e == k.eventId
    case PublishArchive(at, name) => at == InQueue(k.sequence) && k.archive == Some(name)
    case Promote(s, e) => s == k.sequence && e == k.eventId
    case PublishNative(at, e) => at == InEvents(k.eventId) && e == k.eventId
    case StoreCounter(_) => false
    case PublishEntry(_, _) => false
    case _ => op.at == InQueue(k.sequence) || op.at == InEvents(k.eventId)
  }

  function Seen(v: View, at: Place): Option<Entry> {
    if at.InQueue? then v.queued else v.current
  }

  function Replace(v: View, at: Place, entry: Entry): View {
    if at.InQueue? then v.(queued := Some(entry)) else v.(current := Some(entry))
  }

  /** The same effects, on the transaction's own names only. */
  function Effect(v: View, op: Op): View {
    match op
    case WriteRecord(at, record) =>
      if Seen(v, at).Some? then Replace(v, at, Seen(v, at).value.(record := record)) else v
    case WriteJournal(at, journal) =>
      if Seen(v, at).Some? then Replace(v, at, Seen(v, at).value.(journal := Some(journal))) else v
    case RemoveJournal(at) =>
      if Seen(v, at).Some? then Replace(v, at, Seen(v, at).value.(journal := None)) else v
    case SetStage(at, stage) =>
      if Seen(v, at).Some? then Replace(v, at, Seen(v, at).value.(stage := stage)) else v
    case SetCandidate(at, candidate) =>
      if Seen(v, at).Some? then Replace(v, at, Seen(v, at).value.(candidate := candidate)) else v
    case StageProducts(at, _) =>
      if v.queued.Some? && v.products.Some? then
        var x := v.queued.value;
        v.(products := None,
           queued := Some(x.(stage := if x.stage.None? then None
                                      else Some(x.stage.value.(products := Intact(v.products.value))))))
      else v
    case StageService(at, _) =>
      if v.queued.Some? && v.current.Some? then
        var x := v.queued.value;
        v.(current := None,
           queued := Some(x.(stage := if x.stage.None? then None
                                      else Some(x.stage.value.(service := Intact(v.current.value))))))
      else v
    case PublishArchive(at, _) =>
      if v.queued.Some? && v.queued.value.stage.Some? && v.bundle.None? then
        v.(bundle := v.queued.value.stage, queued := Some(v.queued.value.(stage := None)))
      else v
    case Promote(_, _) =>
      if v.queued.Some? && v.current.None? then v.(queued := None, current := v.queued) else v
    case PublishNative(at, _) =>
      if v.current.Some? && v.current.value.candidate.Some? && v.products.None? then
        var x := v.current.value;
        v.(products := Some(Tree(x.record.sequence, x.candidate.value)), current := Some(x.(candidate := None)))
      else v
    case StoreCounter(_) => v
    case PublishEntry(_, _) => v
  }

  /** Operations on one private tree, the stage or the candidate of the record directory at `at`. */
  predicate Alike(op: Op, like: Op) {
    ((op.SetStage? && like.SetStage?) || (op.SetCandidate? && like.SetCandidate?)) && op.at == like.at
  }

  /** `d` differs from `base` at most by the content of that private tree. */
  predicate Varied(base: Disk, d: Disk, like: Op) {
    && Alike(like, like) && At(base, like.at).Some? && At(d, like.at).Some?
    && d == if like.SetStage?
            then Put(base, like.at, At(base, like.at).value.(stage := At(d, like.at).value.stage))
            else Put(base, like.at, At(base, like.at).value.(candidate := At(d, like.at).value.candidate))
  }

  lemma VariedFromItself(base: Disk, like: Op)
    requires Alike(like, like) && At(base, like.at).Some?
    ensures Varied(base, base, like)
  {
    assert Put(base, like.at, At(base, like.at).value) == base by {
      if like.at.InQueue? {
        assert base.queue[like.at.sequence := base.queue[like.at.sequence]] == base.queue;
      } else {
        assert base.events[like.at.eventId := base.events[like.at.eventId]] == base.events;
      }
    }
  }

  lemma VariedAgain(base: Disk, d: Disk, op: Op, like: Op)
    requires Varied(base, d, like) && Alike(op, like)
    ensures Varied(base, Apply(d, op), like)
  {
    var x := At(d, like.at).value;
    var y := if op.SetStage? then x.(stage := op.stage) else x.(candidate := op.candidate);
    assert Put(Put(base, like.at, x), like.at, y) == Put(base, like.at, y) by {
      if like.at.InQueue? {
        assert base.queue[like.at.sequence := x][like.at.sequence := y] == base.queue[like.at.sequence := y];
      } else {
        assert base.events[like.at.eventId := x][like.at.eventId := y] == base.events[like.at.eventId := y];
      }
    }
  }

  lemma {:induction false} VariedByMany(base: Disk, ops: seq<Op>, like: Op)
    requires Alike(like, like) && At(base, like.at).Some?
    requires forall op | op in ops :: Alike(op, like)
    ensures Varied(base, ApplyAll(base, ops), like)
  {
    if ops == [] {
      VariedFromItself(base, like);
    } else {
      VariedByMany(base, ops[..|ops| - 1], like);
      VariedAgain(base, ApplyAll(base, ops[..|ops| - 1]), ops[|ops| - 1], like);
    }
  }

  lemma PutIsLocal(d: Disk, at: Place, entry: Entry, k: Key)
    requires at == InQueue(k.sequence) || at == InEvents(k.eventId)
    requires At(d, at).Some?
    ensures Kept(d, Put(d, at, entry), k)
    ensures Look(Put(d, at, entry), k) == Replace(Look(d, k), at, entry)
  {
  }

  /** An operation of one transaction leaves every other calculation alone and does locally
      what it does globally. */
  lemma OperationsAreLocal(d: Disk, op: Op, k: Key)
    requires Mine(op, k)
    ensures Kept(d, Apply(d, op), k)
    ensures Look(Apply(d, op), k) == Effect(Look(d, k), op)
  {
    match op
    case StageProducts(_, _) => TreeOperationsAreLocal(d, op, k);
    case StageService(_, _) => TreeOperationsAreLocal(d, op, k);
    case PublishArchive(_, _) => ArchiveIsLocal(d, op, k);
    case PublishNative(_, _) => TreeOperationsAreLocal(d, op, k);
    case Promote(_, _) =>
    case WriteRecord(at, _) => PutsAreLocal(d, op, at, k);
    case WriteJournal(at, _) => PutsAreLocal(d, op, at, k);
    case RemoveJournal(at) => PutsAreLocal(d, op, at, k);
    case SetStage(at, _) => PutsAreLocal(d, op, at, k);
    case SetCandidate(at, _) => PutsAreLocal(d, op, at, k);
    case StoreCounter(_) =>
    case PublishEntry(_, _) =>
  }

  lemma PutsAreLocal(d: Disk, op: Op, at: Place, k: Key)
    requires Mine(op, k)
    requires op.WriteRecord? || op.WriteJournal? || op.RemoveJournal? || op.SetStage? || op.SetCandidate?
    requires at == op.at
    ensures Kept(d, Apply(d, op), k)
    ensures Look(Apply(d, op), k) == Effect(Look(d, k), op)
  {
    if At(d, at).Some? {
      PutIsLocal(d, at, At(Apply(d, op), at).value, k);
    }
  }

  lemma TreeOperationsAreLocal(d: Disk, op: Op, k: Key)
    requires Mine(op, k) && (op.StageProducts? || op.StageService? || op.PublishNative?)
    ensures Kept(d, Apply(d, op), k)
    ensures Look(Apply(d, op), k) == Effect(Look(d, k), op)
  {
  }

  lemma ArchiveIsLocal(d: Disk, op: Op, k: Key)
    requires Mine(op, k) && op.PublishArchive?
    ensures Kept(d, Apply(d, op), k)
    ensures Look(Apply(d, op), k) == Effect(Look(d, k), op)
  {
    if At(d, op.at).Some? && At(d, op.at).value.stage.Some? && op.name !in d.archive {
      var stage := At(d, op.at).value.stage.value;
      assert d.archive[op.name := stage] - {op.name} == d.archive - {op.name};
    }
  }
}

/** The filesystem as the service drives it: operations, syncs and faults. */
module Volumes {
  import opened Common
  import opened Disk

  /** An operation that was issued, and those of its directories that have not been synced since. */
  datatype Issued = Issued(op: Op, dirty: set<Directory>)

  predicate AllClean(pending: seq<Issued>) {
    forall p | p in pending :: p.dirty == {}
  }

  function Wiped(pending: seq<Issued>, synced: set<Directory>): (r: seq<Issued>)
    ensures |r| == |pending|
  {
    seq(|pending|, i requires 0 <= i < |pending| => pending[i].(dirty := pending[i].dirty - synced))
  }

  function Visible(durable: Disk, pending: seq<Issued>): Disk
    decreases |pending|
  {
    if pending == [] then durable else Visible(Apply(durable, pending[0].op), pending[1..])
  }

  /** Later operations when `lost` did not survive: what was done to a promoted record directory was done to the
      directory, which is then still in the queue. */
  function Without(lost: Op, later: seq<Issued>): (r: seq<Issued>)
    ensures |r| == |later|
  {
    if lost.Promote? then
      seq(|later|, i requires 0 <= i < |later| =>
        later[i].(op := Relocated(later[i].op, InEvents(lost.eventId), InQueue(lost.sequence))))
    else later
  }

  /** The disks the machine may come back with: what was synced in full is there, anything else may be missing. */
  function Survivors(durable: Disk, pending: seq<Issued>): set<Disk>
    decreases |pending|
  {
    if pending == [] then {durable}
    else
      Survivors(Apply(durable, pending[0].op), pending[1..])
      + if pending[0].dirty == {} then {} else Survivors(durable, Without(pending[0].op, pending[1..]))
  }

  /** What is certainly on the medium, and what has been issued since, in order, and may not be there yet. */
  datatype Moment = Moment(durable: Disk, pending: seq<Issued>)
  {
    function Disk(): Disk {
      Visible(durable, pending)
    }

    function Left(): set<Disk> {
      Survivors(durable, pending)
    }

    function Issue(op: Op): Moment {
      Moment(durable, Wiped(pending, Retires(op)) + [Issued(op, Touches(op) - Retires(op))])
    }

    function Sync(directory: Directory): Moment {
      var p := Wiped(pending, {directory});
      if AllClean(p) then Moment(Disk(), []) else Moment(durable, p)
    }

    /** No operation waits for a sync of `directory`. */
    predicate Clean(directory: Directory) {
      forall p | p in pending :: directory !in p.dirty
    }
  }

  datatype Regime =
    | Calm          // nothing fails from now on
    | IoFaults      // any call may raise, before or after its effect, or the process may die; what was issued and
                    // not synced stays so, and a power failure at any later moment leaves one of its survivors
    | PowerFailure  // the machine may stop at any moment and come back with one of the survivors

  class Volume {
    const regime: Regime
    var disk: Disk            // what the running service sees
    var durable: Disk         // what is certainly on the medium
    var pending: seq<Issued>  // issued since

    constructor (regime: Regime, disk: Disk)
      ensures Valid() && Synced() && this.regime == regime && this.disk == disk && Now() == Moment(disk, [])
    {
      this.regime := regime;
      this.disk, durable, pending := disk, disk, [];
    }

    function Now(): Moment
      reads this
    {
      Moment(durable, pending)
    }

    predicate Valid()
      reads this
    {
      disk == Now().Disk()
    }

    /** Where a power failure ends the run, nothing it could still take away. */
    predicate Synced()
      reads this
    {
      regime.PowerFailure? ==> pending == [] && durable == disk
    }

    /** The process stops here, and the machine with it where the power fails. */
    method Crash()
      requires Valid()
      modifies this
      ensures Valid() && Synced()
      ensures !regime.PowerFailure? ==> disk == old(disk) && Now() == old(Now())
      ensures regime.PowerFailure? ==> disk in old(Now()).Left()
    {
      if regime.PowerFailure? {
        VisibleSurvives(durable, pending);
        var d :| d in Survivors(durable, pending);
        disk, durable, pending := d, d, [];
      }
    }

    /** A fault may strike here. */
    method Strike() returns (out: Outcome)
      requires Valid()
      modifies this
      ensures Valid()
      ensures !out.Crashed? || !regime.PowerFailure? ==> disk == old(disk) && Now() == old(Now())
      ensures out.Error? ==> regime.IoFaults?
      ensures out.Crashed? ==> !regime.Calm? && Synced()
      ensures out.Crashed? && regime.PowerFailure? ==> disk in old(Now()).Left()
      ensures old(Synced()) ==> disk == old(disk)
    {
      var faulty: bool, fatal: bool := *, *;
      if !faulty || regime.Calm? {
        return Done;
      }
      if !fatal && regime.IoFaults? {
        return Error;
      }
      Crash();
      return Crashed;
    }

    /** Issue one operation; it is visible at once and durable only once synced. */
    method Issue(op: Op) returns (out: Outcome)
      requires Valid()
      modifies this
      ensures Valid()
      ensures out.Done? ==> disk == Apply(old(disk), op) && Now() == old(Now()).Issue(op)
      ensures out.Error? ==> regime.IoFaults?
      ensures out.Crashed? ==> !regime.Calm? && Synced()
      ensures !out.Crashed? || !regime.PowerFailure? ==>
        || (disk == old(disk) && Now() == old(Now()))
        || (disk == Apply(old(disk), op) && Now() == old(Now()).Issue(op))
      ensures out.Crashed? && regime.PowerFailure? ==>
        disk in old(Now()).Left() || disk in old(Now()).Issue(op).Left()
      ensures old(Synced()) ==> disk == old(disk) || disk == Apply(old(disk), op)
    {
      out := Strike();
      if !out.Done? {
        return;
      }
      IssuingIsVisible(Now(), op);
      ghost var issued := Now().Issue(op);
      disk, pending := Apply(disk, op), Wiped(pending, Retires(op)) + [Issued(op, Touches(op) - Retires(op))];
      assert Now() == issued;
      OneSurvives(durable, op, Touches(op) - Retires(op));
      out := Strike();
    }

    /** fsync of one directory. */
    method Sync(directory: Directory) returns (out: Outcome)
      requires Valid()
      modifies this
      ensures Valid()
      ensures !out.Crashed? ==> disk == old(disk)
      ensures out.Done? ==> Now() == old(Now()).Sync(directory)
      ensures out.Error? ==> regime.IoFaults? && Now() == old(Now())
      ensures out.Crashed? ==> !regime.Calm? && Synced()
      ensures out.Crashed? && !regime.PowerFailure? ==> disk == old(disk) && Now() == old(Now())
      ensures out.Crashed? && regime.PowerFailure? ==> disk in old(Now()).Left()
    {
      out := Strike();
      if out.Done? {
        SyncingIsInvisible(Now(), directory);
        ghost var synced := Now().Sync(directory);
        var p := Wiped(pending, {directory});
        if AllClean(p) {
          durable, pending := disk, [];
        } else {
          pending := p;
        }
        assert Now() == synced;
      }
    }

    /** A rename between two directories followed by a sync of both: all or nothing,
        whatever fails, because nothing else was unsynced when it was issued. */
    method Rename(op: Op, source: Directory, destination: Directory) returns (out: Outcome)
      requires Valid() && Synced() && Touches(op) == {source, destination} && Retires(op) == {}
      modifies this
      ensures Valid() && Synced()
      ensures disk == old(disk) || disk == Apply(old(disk), op)
      ensures out.Done? ==> disk == Apply(old(disk), op)
      ensures out.Done? ==> Now() == old(Now()).Issue(op).Sync(source).Sync(destination)
      ensures !out.Done? && !regime.PowerFailure? ==>
        || (disk == old(disk) && Now() == old(Now()))
        || (disk == Apply(old(disk), op)
            && (Now() == old(Now()).Issue(op) || Now() == old(Now()).Issue(op).Sync(source)))
      ensures (out.Error? ==> regime.IoFaults?) && (out.Crashed? ==> !regime.Calm?)
    {
      hide Apply;
      ghost var before := Now();
      SettledRename(durable, op, source, destination);
      out := Issue(op);
      if out.Done? {
        out := Sync(source);
        if out.Done? {
          out := Sync(destination);
        }
      }
    }

    /** A change inside one directory followed by its sync. */
    method Rewrite(op: Op, directory: Directory) returns (out: Outcome)
      requires Valid() && Synced() && Touches(op) == {directory} && Retires(op) == {}
      modifies this
      ensures Valid() && Synced()
      ensures disk == old(disk) || disk == Apply(old(disk), op)
      ensures out.Done? ==> disk == Apply(old(disk), op) && Now() == old(Now()).Issue(op).Sync(directory)
      ensures !out.Done? && !regime.PowerFailure? ==>
        || (disk == old(disk) && Now() == old(Now()))
        || (disk == Apply(old(disk), op) && Now() == old(Now()).Issue(op))
      ensures (out.Error? ==> regime.IoFaults?) && (out.Crashed? ==> !regime.Calm?)
      ensures old(pending) == [] && !regime.PowerFailure? ==>
        Now().Left() <= {old(disk), Apply(old(disk), op)} && (out.Done? ==> pending == [])
    {
      hide Apply;
      SettledRewrite(durable, op, directory);
      out := Issue(op);
      if out.Done? {
        OneSurvives(old(durable), op, {directory});
        out := Sync(directory);
      }
    }

    /** Only one private tree is being built or removed since `base`. */
    predicate Private(base: Disk, like: Op)
      reads this
    {
      && Valid() && Varied(base, disk, like)
      && (regime.PowerFailure? ==> Varied(base, durable, like) && forall p | p in pending :: Alike(p.op, like))
    }

    /** Only syncs of these directories are outstanding. */
    predicate Outstanding(directories: set<Directory>)
      reads this
    {
      forall p | p in pending :: p.dirty <= directories
    }

    /** One step of building or removing a private tree, not synced on its own. */
    method IssuePrivate(op: Op, ghost base: Disk) returns (out: Outcome)
      requires Private(base, op)
      modifies this
      ensures !out.Crashed? ==> Private(base, op)
      ensures out.Done? ==> disk == Apply(old(disk), op) && Now() == old(Now()).Issue(op)
      ensures !out.Done? && !regime.PowerFailure? ==>
        || (disk == old(disk) && Now() == old(Now()))
        || (disk == Apply(old(disk), op) && Now() == old(Now()).Issue(op))
      ensures out.Crashed? ==> Valid() && Synced() && Varied(base, disk, op)
      ensures (out.Error? ==> regime.IoFaults?) && (out.Crashed? ==> !regime.Calm?)
    {
      VariedAgain(base, disk, op, op);
      out := Issue(op);
      if out.Crashed? && regime.PowerFailure? {
        PrivateSurvives(base, old(durable), old(pending), op);
        PrivateSurvives(base, old(durable), old(Now()).Issue(op).pending, op);
      }
    }

    method SyncPrivate(directory: Directory, ghost base: Disk, ghost like: Op) returns (out: Outcome)
      requires Private(base, like)
      modifies this
      ensures Valid() && Varied(base, disk, like)
      ensures !out.Crashed? ==> disk == old(disk) && Private(base, like)
      ensures out.Done? ==> Now() == old(Now()).Sync(directory)
      ensures !out.Done? && !regime.PowerFailure? ==> disk == old(disk) && Now() == old(Now())
      ensures out.Crashed? || out.Error? ==> Synced()
      ensures old(pending) == [] ==> disk == old(disk)
      ensures (out.Error? ==> regime.IoFaults?) && (out.Crashed? ==> !regime.Calm?)
    {
      out := Sync(directory);
      if out.Crashed? && regime.PowerFailure? {
        PrivateSurvives(base, old(durable), old(pending), like);
      }
    }
  }

  // ---------------------------------------------------- facts about survivors

  lemma {:induction false} VisibleSurvives(durable: Disk, pending: seq<Issued>)
    ensures Visible(durable, pending) in Survivors(durable, pending)
    decreases |pending|
  {
    if pending != [] {
      VisibleSurvives(Apply(durable, pending[0].op), pending[1..]);
    }
  }

  lemma {:induction false} VisibleOnlyNeedsOps(durable: Disk, pending: seq<Issued>, synced: set<Directory>)
    ensures Visible(durable, Wiped(pending, synced)) == Visible(durable, pending)
    decreases |pending|
  {
    if pending != [] {
      assert Wiped(pending, synced)[1..] == Wiped(pending[1..], synced);
      VisibleOnlyNeedsOps(Apply(durable, pending[0].op), pending[1..], synced);
    }
  }

  lemma {:induction false} VisibleGrows(durable: Disk, pending: seq<Issued>, p: Issued)
    ensures Visible(durable, pending + [p]) == Apply(Visible(durable, pending), p.op)
    decreases |pending|
  {
    if pending == [] {
      assert pending + [p] == [p];
      assert [p][1..] == [];
    } else {
      assert (pending + [p])[1..] == pending[1..] + [p];
      VisibleGrows(Apply(durable, pending[0].op), pending[1..], p);
    }
  }

  /** An operation that retires no directory leaves the earlier ones as they were. */
  lemma PlainIssue(m: Moment, op: Op)
    requires Retires(op) == {}
    ensures m.Issue(op) == Moment(m.durable, m.pending + [Issued(op, Touches(op))])
  {
    hide Touches, Retires;
    assert Touches(op) - {} == Touches(op);
    assert forall i | 0 <= i < |m.pending| :: m.pending[i].dirty - {} == m.pending[i].dirty;
    assert Wiped(m.pending, {}) == m.pending;
  }

  lemma IssuingIsVisible(m: Moment, op: Op)
    ensures m.Issue(op).Disk() == Apply(m.Disk(), op)
  {
    VisibleOnlyNeedsOps(m.durable, m.pending, Retires(op));
    VisibleGrows(m.durable, Wiped(m.pending, Retires(op)), Issued(op, Touches(op) - Retires(op)));
  }

  lemma SyncingIsInvisible(m: Moment, directory: Directory)
    ensures m.Sync(directory).Disk() == m.Disk()
  {
    VisibleOnlyNeedsOps(m.durable, m.pending, {directory});
  }

  /** One unsynced operation is there or not. */
  lemma OneSurvives(durable: Disk, op: Op, dirty: set<Directory>)
    ensures Survivors(durable, []) == {durable}
    ensures Survivors(durable, [Issued(op, dirty)])
         == if dirty == {} then {Apply(durable, op)} else {durable, Apply(durable, op)}
  {
    var pending := [Issued(op, dirty)];
    assert pending[1..] == [] && Without(op, []) == [];
  }

  /** A rename issued when nothing else was unsynced: what may be left of it at each of its syncs. */
  lemma SettledRename(durable: Disk, op: Op, source: Directory, destination: Directory)
    requires Touches(op) == {source, destination} && Retires(op) == {}
    ensures var issued := Moment(durable, []).Issue(op);
      && issued == Moment(durable, [Issued(op, {source, destination})])
      && (source != destination ==> issued.Sync(source) == Moment(durable, [Issued(op, {destination})]))
      && issued.Sync(source).Left() <= issued.Left()
      && issued.Left() == {durable, Apply(durable, op)}
      && issued.Sync(source).Sync(destination) == Moment(Apply(durable, op), [])
  {
    hide Apply;
    var issued := Moment(durable, []).Issue(op);
    assert Wiped([], Retires(op)) == [];
    assert Touches(op) - Retires(op) == {source, destination};
    assert issued.pending == [Issued(op, {source, destination})];
    OneSurvives(durable, op, {source, destination});
    OneSurvives(durable, op, {destination});
    SyncingOne(durable, op, {source, destination}, source);
    if source != destination {
      assert {source, destination} - {source} == {destination};
      SyncingOne(durable, op, {destination}, destination);
    } else {
      assert Moment(Apply(durable, op), []).Sync(destination) == Moment(Apply(durable, op), []);
    }
  }

  lemma SettledRewrite(durable: Disk, op: Op, directory: Directory)
    requires Touches(op) == {directory} && Retires(op) == {}
    ensures var issued := Moment(durable, []).Issue(op);
      && Moment(durable, []).Left() == {durable} && issued.Left() == {durable, Apply(durable, op)}
      && issued.Sync(directory) == Moment(Apply(durable, op), []) && issued.Sync(directory).Left() == {Apply(durable, op)}
  {
    hide Apply;
    assert Wiped([], Retires(op)) == [] && Touches(op) - Retires(op) == {directory};
    OneSurvives(durable, op, {directory});
    SyncingOne(durable, op, {directory}, directory);
  }

  lemma SyncingOne(durable: Disk, op: Op, dirty: set<Directory>, directory: Directory)
    ensures Moment(durable, [Issued(op, dirty)]).Sync(directory)
         == if dirty - {directory} == {} then Moment(Apply(durable, op), [])
            else Moment(durable, [Issued(op, dirty - {directory})])
  {
    hide Apply;
    var m := Moment(durable, [Issued(op, dirty)]);
    var p := Wiped(m.pending, {directory});
    assert p == [Issued(op, dirty - {directory})];
    assert p[0] in p && m.pending[1..] == [];
    assert m.Disk() == Visible(Apply(durable, op), []);
    assert AllClean(p) <==> p[0].dirty == {};
  }

  /** Syncing takes possibilities away and adds none. */
  lemma SyncingLosesLess(m: Moment, directory: Directory)
    ensures m.Sync(directory).Left() <= m.Left()
  {
    VisibleSurvives(m.durable, m.pending);
    WipingLosesLess(m.durable, m.pending, {directory});
  }

  lemma {:induction false} WipingLosesLess(durable: Disk, pending: seq<Issued>, synced: set<Directory>)
    ensures Survivors(durable, Wiped(pending, synced)) <= Survivors(durable, pending)
    decreases |pending|
  {
    if pending != [] {
      var op, later := pending[0].op, pending[1..];
      assert Wiped(pending, synced)[1..] == Wiped(later, synced);
      WipingLosesLess(Apply(durable, op), later, synced);
      if pending[0].dirty - synced != {} {
        assert Without(op, Wiped(later, synced)) == Wiped(Without(op, later), synced);
        WipingLosesLess(durable, Without(op, later), synced);
      }
    }
  }

  /** The last operation issued is there or missing, whatever happened to the earlier ones. */
  lemma {:induction false} LastMayBeMissing(durable: Disk, pending: seq<Issued>, last: Issued, s: Disk) returns (d: Disk)
    requires forall p | p in pending :: !p.op.Promote?
    requires s in Survivors(durable, pending + [last])
    ensures d in Survivors(durable, pending) && ((s == d && last.dirty != {}) || s == Apply(d, last.op))
    decreases |pending|
  {
    if pending == [] {
      assert pending + [last] == [last];
      OneSurvives(durable, last.op, last.dirty);
      d := durable;
    } else {
      var op, later := pending[0].op, pending[1..];
      assert (pending + [last])[1..] == later + [last];
      if s in Survivors(Apply(durable, op), later + [last]) {
        d := LastMayBeMissing(Apply(durable, op), later, last, s);
      } else {
        d := LastMayBeMissing(durable, later, last, s);
      }
    }
  }

  lemma {:induction false} PrivateSurvives(base: Disk, durable: Disk, pending: seq<Issued>, like: Op)
    requires Varied(base, durable, like)
    requires forall p | p in pending :: Alike(p.op, like)
    ensures forall d | d in Survivors(durable, pending) :: Varied(base, d, like)
    decreases |pending|
  {
    if pending != [] {
      VariedAgain(base, durable, pending[0].op, like);
      PrivateSurvives(base, Apply(durable, pending[0].op), pending[1..], like);
      PrivateSurvives(base, durable, pending[1..], like);
    }
  }

  lemma RenamingKeepsClean(m: Moment, op: Op, source: Directory, destination: Directory)
    requires Touches(op) == {source, destination} && Retires(op) == {}
    ensures m.Clean(RecordDirectory) ==> m.Issue(op).Sync(source).Sync(destination).Clean(RecordDirectory)
  {
  }

  lemma SyncedIsClean(m: Moment, directory: Directory)
    ensures m.Sync(directory).Clean(directory)
  {
  }

  lemma IssuingDirties(m: Moment, op: Op, directories: set<Directory>)
    requires forall p | p in m.pending :: p.dirty <= directories
    ensures forall p | p in m.Issue(op).pending :: p.dirty <= directories + Touches(op) - Retires(op)
  {
    hide Touches, Retires;
    forall p | p in m.Issue(op).pending ensures p.dirty <= directories + Touches(op) - Retires(op) {
      if p != Issued(op, Touches(op) - Retires(op)) {
        assert p in Wiped(m.pending, Retires(op));
      }
    }
  }

  lemma SyncingCleans(m: Moment, directory: Directory, directories: set<Directory>)
    requires forall p | p in m.pending :: p.dirty <= directories
    ensures forall p | p in m.Sync(directory).pending :: p.dirty <= directories - {directory}
    ensures directories <= {directory} ==> m.Sync(directory) == Moment(m.Disk(), [])
  {
    forall p | p in Wiped(m.pending, {directory}) ensures p.dirty <= directories - {directory} {
    }
  }
}
