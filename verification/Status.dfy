/** Calculation records and their lifecycle rules (status.py). */
module Status {
  import opened Common
  import Names

  datatype LifecycleState = Queued | Running | Success | Failed
  {
    predicate Terminal() {
      Success? || Failed?
    }

    function Rank(): nat {
      if Queued? then 0 else if Running? then 1 else 2
    }
  }

  datatype Phase =
    | PrecedingTreeDisposition
    | CalculationPreparation
    | NativeExecution
    | ProductValidation
    | RecordFinalization
    | Unapproved(text: string)
  {
    predicate Approved() {
      !Unapproved?
    }
  }

  /** RFC 3339 UTC text, or any other text. */
  datatype Stamp = Utc(micros: int) | BadStamp(text: string)

  datatype InputMode = Directory | Upload | Mixed | BadMode(text: string)

  datatype Progress = Progress(
    phase: Option<Phase>,
    phaseStartedAt: Option<Stamp>,
    modulePlan: seq<string>,
    currentModule: Option<string>,
    completedModules: seq<string>)

  datatype Timestamps = Timestamps(
    submittedAt: Stamp,
    startedAt: Option<Stamp>,
    nativeStartedAt: Option<Stamp>,
    nativeFinishedAt: Option<Stamp>,
    completedAt: Option<Stamp>)

  datatype NativeOutcome = NativeOutcome(started: bool, exitCode: Option<int>, signal: Option<int>)
  datatype ServiceOutcome = ServiceOutcome(completed: bool, successful: bool)
  datatype Failure = Failure(phase: Option<Phase>, code: string, message: string)

  datatype SharedPaths = SharedPaths(
    input: string,
    products: string,
    provenance: Option<string>,
    productManifest: Option<string>,
    serviceLog: Option<string>,
    shakeLog: Option<string>)

  datatype Record = Record(
    schemaVersion: int,
    eventId: string,
    sequence: int,
    status: LifecycleState,
    overwrite: bool,
    warnings: seq<string>,
    inputMode: InputMode,
    configuration: string,
    progress: Progress,
    nativeOutcome: Option<NativeOutcome>,
    serviceOutcome: Option<ServiceOutcome>,
    failure: Option<Failure>,
    timestamps: Timestamps,
    sharedPaths: SharedPaths)

  const STATUS_SCHEMA_VERSION := 1
  const MODULE_PLAN := ["select", "assemble", "model", "contour", "mapping", "stations", "gridxml"]
  const SHARED_ROOT := "runtime/shakemap"

  function ServiceFile(eventId: string, name: string): string {
    SHARED_ROOT + "/.service/events/" + eventId + "/" + name
  }

  lemma ServiceFilesAreNamed(eventId: string, name: string)
    ensures ServiceFile(eventId, name) == "runtime/shakemap/.service/events/" + eventId + "/" + name
  {
  }

  function SharedPathsFor(eventId: string): SharedPaths {
    SharedPaths(
      SHARED_ROOT + "/data/inputs/" + eventId,
      SHARED_ROOT + "/products/" + eventId + "/current/products",
      None, None, None, None)
  }

  function NewQueuedRecord(
    eventId: string, sequence: int, configuration: string, overwrite: bool,
    warnings: seq<string>, inputMode: InputMode, now: Stamp): Record
  {
    Record(
      STATUS_SCHEMA_VERSION, eventId, sequence, Queued, overwrite, warnings, inputMode, configuration,
      Progress(None, None, MODULE_PLAN, None, []), None, None, None,
      Timestamps(now, None, None, None, None), SharedPathsFor(eventId))
  }

  // -------------------------------------------------------------- validation

  predicate ValidStamp(s: Option<Stamp>) {
    s.Some? ==> s.value.Utc?
  }

  predicate ValidProgress(p: Progress) {
    && (p.phase.Some? ==> p.phase.value.Approved())
    && ValidStamp(p.phaseStartedAt)
    && p.modulePlan == MODULE_PLAN
    && (p.currentModule.Some? ==> p.currentModule.value in MODULE_PLAN)
    && (forall m | m in p.completedModules :: m in MODULE_PLAN)
  }

  predicate ValidTimestamps(t: Timestamps, state: LifecycleState) {
    && t.submittedAt.Utc?
    && ValidStamp(t.startedAt) && ValidStamp(t.nativeStartedAt)
    && ValidStamp(t.nativeFinishedAt) && ValidStamp(t.completedAt)
    && (state.Queued? <==> t.startedAt.None?)
    && (state.Terminal() <==> t.completedAt.Some?)
  }

  predicate ValidOutcomes(r: Record) {
    && (r.status.Success? ==> r.failure.None?)
    && (r.status.Failed? ==> r.failure.Some? && r.failure.value.phase == r.progress.phase)
    && (if r.status.Queued?
        then && r.progress.phase.None? && r.progress.phaseStartedAt.None? && r.progress.currentModule.None?
             && r.progress.completedModules == []
             && r.nativeOutcome.None? && r.serviceOutcome.None? && r.failure.None?
        else r.progress.phase.Some? && r.progress.phaseStartedAt.Some?)
  }

  predicate ValidSharedPaths(p: SharedPaths, eventId: string) {
    && p.input == SharedPathsFor(eventId).input
    && p.products == SharedPathsFor(eventId).products
    && (p.provenance.Some? ==> p.provenance.value == ServiceFile(eventId, "provenance.json"))
    && (p.productManifest.Some? ==> p.productManifest.value == ServiceFile(eventId, "product-manifest.json"))
    && (p.serviceLog.Some? ==> p.serviceLog.value == ServiceFile(eventId, "logs/service.log"))
    && (p.shakeLog.Some? ==> p.shakeLog.value == ServiceFile(eventId, "logs/shake.log"))
  }

  predicate Valid(r: Record) {
    && r.schemaVersion == STATUS_SCHEMA_VERSION
    && Names.ValidEventId(r.eventId)
    && r.sequence >= 1
    && !r.inputMode.BadMode?
    && Names.ValidBasename(r.configuration)
    && ValidProgress(r.progress)
    && ValidTimestamps(r.timestamps, r.status)
    && ValidOutcomes(r)
    && ValidSharedPaths(r.sharedPaths, r.eventId)
  }

  /** What never changes after acceptance. */
  predicate SameIdentity(a: Record, b: Record) {
    a.schemaVersion == b.schemaVersion && a.eventId == b.eventId && a.sequence == b.sequence
  }

  // ------------------------------------------------------------- transitions

  function AllowedTransitions(source: LifecycleState): set<LifecycleState> {
    match source
    case Queued => {Running}
    case Running => {Success, Failed}
    case Success => {}
    case Failed => {}
  }

  /** Keyword arguments of a transition; None is the unset marker. */
  datatype Arguments = Arguments(
    progress: Option<Progress>,
    nativeOutcome: Option<Option<NativeOutcome>>,
    serviceOutcome: Option<Option<ServiceOutcome>>,
    failure: Option<Option<Failure>>,
    terminalTimestamp: Option<Stamp>,
    sharedPaths: Option<SharedPaths>)

  const NO_ARGUMENTS := Arguments(None, None, None, None, None, None)

  function OrElse<T>(given: Option<T>, kept: T): T {
    if given.Some? then given.value else kept
  }

  function StartedProgress(p: Progress, now: Stamp): Progress {
    p.(phase := Some(PrecedingTreeDisposition), phaseStartedAt := Some(now),
       currentModule := None, completedModules := [])
  }

  /** Make progress.phase and failure.phase agree before a FAILED write. */
  function ReconcilePhases(r: Record, completedAt: Stamp): Record
    requires r.failure.Some?
  {
    var failed := r.failure.value.phase;
    if failed.None? then
      r.(failure := Some(r.failure.value.(phase := r.progress.phase)))
    else if failed != r.progress.phase then
      r.(progress := r.progress.(phase := failed, phaseStartedAt := Some(completedAt)))
    else r
  }

  function Transition(r: Record, target: LifecycleState, given: Arguments, now: Stamp): Result<Record> {
    if target !in AllowedTransitions(r.status) then Raised
    else
      var r := r.(status := target, progress := OrElse(given.progress, r.progress));
      var r := if target.Running?
               then r.(progress := StartedProgress(r.progress, now),
                       timestamps := r.timestamps.(startedAt := Some(now)))
               else r;
      var completedAt := OrElse(given.terminalTimestamp, now);
      if target.Terminal() && !completedAt.Utc? then Raised
      else
        var r := if target.Terminal()
                 then r.(timestamps := r.timestamps.(completedAt := Some(completedAt)))
                 else r;
        var r := r.(nativeOutcome := OrElse(given.nativeOutcome, r.nativeOutcome),
                    serviceOutcome := OrElse(given.serviceOutcome, r.serviceOutcome),
                    failure := OrElse(given.failure, r.failure));
        var r := if target.Failed? && r.failure.Some? then ReconcilePhases(r, completedAt) else r;
        var r := r.(sharedPaths := OrElse(given.sharedPaths, r.sharedPaths));
        if Valid(r) then Ok(r) else Raised
  }

  /** The recovery write of fail_matching_running_record_if_child_absent. */
  function FailStale(r: Record, failure: Failure, now: Stamp): Result<Record> {
    var r := r.(status := Failed, failure := Some(failure));
    var r := ReconcilePhases(r, now);
    var r := r.(serviceOutcome := Some(ServiceOutcome(true, false)),
                timestamps := r.timestamps.(completedAt := Some(now)));
    if Valid(r) then Ok(r) else Raised
  }

  // ----------------------------------------------------------------- updates

  datatype Change =
    | SetSchemaVersion(int)
    | SetEventId(string)
    | SetSequence(int)
    | SetStatus(LifecycleState)
    | SetOverwrite(overwrite: bool)
    | SetWarnings(warnings: seq<string>)
    | SetInputMode(inputMode: InputMode)
    | SetConfiguration(configuration: string)
    | SetProgress(progress: Progress)
    | SetNativeOutcome(nativeOutcome: Option<NativeOutcome>)
    | SetServiceOutcome(serviceOutcome: Option<ServiceOutcome>)
    | SetFailure(failure: Option<Failure>)
    | SetTimestamps(timestamps: Timestamps)
    | SetSharedPaths(sharedPaths: SharedPaths)
    | SetUnknown(name: string)
  {
    predicate Forbidden() {
      SetSchemaVersion? || SetEventId? || SetSequence? || SetStatus?
    }

    function Apply(r: Record): Result<Record>
      requires !Forbidden()
    {
      match this
      case SetOverwrite(v) => Ok(r.(overwrite := v))
      case SetWarnings(v) => Ok(r.(warnings := v))
      case SetInputMode(v) => Ok(r.(inputMode := v))
      case SetConfiguration(v) => Ok(r.(configuration := v))
      case SetProgress(v) => Ok(r.(progress := v))
      case SetNativeOutcome(v) => Ok(r.(nativeOutcome := v))
      case SetServiceOutcome(v) => Ok(r.(serviceOutcome := v))
      case SetFailure(v) => Ok(r.(failure := v))
      case SetTimestamps(v) => Ok(r.(timestamps := v))
      case SetSharedPaths(v) => Ok(r.(sharedPaths := v))
      case _ => Raised
    }
  }

  function ApplyAll(r: Record, changes: seq<Change>): Result<Record>
    requires forall c | c in changes :: !c.Forbidden()
  {
    if changes == [] then Ok(r)
    else
      var rest :- ApplyAll(r, changes[..|changes| - 1]);
      changes[|changes| - 1].Apply(rest)
  }

  function Update(r: Record, changes: seq<Change>): Result<Record> {
    if exists c | c in changes :: c.Forbidden() then Raised
    else
      var changed :- ApplyAll(r, changes);
      if Valid(changed) then Ok(changed) else Raised
  }

  /** The record has the value that the change gives. */
  predicate Shows(r: Record, c: Change) {
    match c
    case SetOverwrite(v) => r.overwrite == v
    case SetWarnings(v) => r.warnings == v
    case SetInputMode(v) => r.inputMode == v
    case SetConfiguration(v) => r.configuration == v
    case SetProgress(v) => r.progress == v
    case SetNativeOutcome(v) => r.nativeOutcome == v
    case SetServiceOutcome(v) => r.serviceOutcome == v
    case SetFailure(v) => r.failure == v
    case SetTimestamps(v) => r.timestamps == v
    case SetSharedPaths(v) => r.sharedPaths == v
    case _ => false
  }

  /** What `r` already says of the field that the change is about. */
  predicate Untouched(r: Record, s: Record, c: Change) {
    match c
    case SetOverwrite(_) => s.overwrite == r.overwrite
    case SetWarnings(_) => s.warnings == r.warnings
    case SetInputMode(_) => s.inputMode == r.inputMode
    case SetConfiguration(_) => s.configuration == r.configuration
    case SetProgress(_) => s.progress == r.progress
    case SetNativeOutcome(_) => s.nativeOutcome == r.nativeOutcome
    case SetServiceOutcome(_) => s.serviceOutcome == r.serviceOutcome
    case SetFailure(_) => s.failure == r.failure
    case SetTimestamps(_) => s.timestamps == r.timestamps
    case SetSharedPaths(_) => s.sharedPaths == r.sharedPaths
    case SetSchemaVersion(_) => s.schemaVersion == r.schemaVersion
    case SetEventId(_) => s.eventId == r.eventId
    case SetSequence(_) => s.sequence == r.sequence
    case SetStatus(_) => s.status == r.status
    case SetUnknown(_) => true
  }

  predicate SameField(c: Change, d: Change) {
    || (c.SetOverwrite? && d.SetOverwrite?) || (c.SetWarnings? && d.SetWarnings?) || (c.SetInputMode? && d.SetInputMode?)
    || (c.SetConfiguration? && d.SetConfiguration?) || (c.SetProgress? && d.SetProgress?)
    || (c.SetNativeOutcome? && d.SetNativeOutcome?) || (c.SetServiceOutcome? && d.SetServiceOutcome?)
    || (c.SetFailure? && d.SetFailure?) || (c.SetTimestamps? && d.SetTimestamps?)
    || (c.SetSharedPaths? && d.SetSharedPaths?)
  }

  lemma OneFieldChanges(r: Record, last: Change, c: Change)
    requires !last.Forbidden() && last.Apply(r).Ok?
    ensures Shows(last.Apply(r).value, last)
    ensures !SameField(c, last) ==> Untouched(r, last.Apply(r).value, c)
    ensures !SameField(c, last) && Shows(r, c) ==> Shows(last.Apply(r).value, c)
  {
  }

  lemma UntouchedTwice(r: Record, s: Record, t: Record, c: Change)
    ensures Untouched(r, r, c)
    ensures Untouched(r, s, c) && Untouched(s, t, c) ==> Untouched(r, t, c)
  {
  }

  /** After an update every field that was named shows the last value given for it, and every other field its old one. */
  lemma {:induction false} NamedFieldsChange(r: Record, changes: seq<Change>, c: Change)
    requires (forall d | d in changes :: !d.Forbidden()) && ApplyAll(r, changes).Ok?
    ensures (forall d | d in changes :: !SameField(c, d)) ==> Untouched(r, ApplyAll(r, changes).value, c)
    ensures forall i | 0 <= i < |changes| && changes[i] == c && (forall d | d in changes[i + 1..] :: !SameField(c, d)) ::
      Shows(ApplyAll(r, changes).value, c)
  {
    hide Shows, Untouched, SameField;
    UntouchedTwice(r, r, r, c);
    if changes != [] {
      var n := |changes| - 1;
      var before, last := changes[..n], changes[n];
      NamedFieldsChange(r, before, c);
      var s := ApplyAll(r, before).value;
      OneFieldChanges(s, last, c);
      UntouchedTwice(r, s, last.Apply(s).value, c);
      forall i | 0 <= i < n && changes[i] == c && (forall d | d in changes[i + 1..] :: !SameField(c, d))
        ensures Shows(last.Apply(s).value, c)
      {
        assert changes[i + 1..] == before[i + 1..] + [last];
      }
    }
  }

  /** An update is applied unless it names a field that does not exist. */
  lemma {:induction false} UnknownFieldsAreRefused(r: Record, changes: seq<Change>)
    requires forall c | c in changes :: !c.Forbidden()
    ensures ApplyAll(r, changes).Raised? <==> exists c | c in changes :: c.SetUnknown?
  {
    if changes != [] {
      var before, last := changes[..|changes| - 1], changes[|changes| - 1];
      UnknownFieldsAreRefused(r, before);
      assert changes == before + [last];
      assert last in changes;
    }
  }

  // ------------------------------------------------------ the record on disk

  /** One record directory; a failed call leaves status.json as it was. */
  class RecordDirectory {
    var stored: Record

    constructor (initial: Record)
      ensures stored == initial
    {
      stored := initial;
    }

    method UpdateRecord(changes: seq<Change>) returns (r: Result<Record>)
      modifies this
      ensures r == Update(old(stored), changes)
      ensures stored == if r.Ok? then r.value else old(stored)
    {
      if exists c | c in changes :: c.Forbidden() {
        return Raised;
      }
      var record := stored;
      for i := 0 to |changes|
        invariant ApplyAll(old(stored), changes[..i]) == Ok(record)
        invariant stored == old(stored)
      {
        assert changes[..i + 1][..i] == changes[..i];
        var next := changes[i].Apply(record);
        if next.Raised? {
          UnknownChangeRaises(old(stored), changes, i);
          return Raised;
        }
        record := next.value;
      }
      assert changes[..|changes|] == changes;
      if !Valid(record) {
        return Raised;
      }
      stored := record;
      return Ok(record);
    }

    method TransitionRecord(target: LifecycleState, given: Arguments, now: Stamp) returns (r: Result<Record>)
      modifies this
      ensures r == Transition(old(stored), target, given, now)
      ensures stored == if r.Ok? then r.value else old(stored)
    {
      r := Transition(stored, target, given, now);
      if r.Ok? {
        stored := r.value;
      }
    }
  }

  lemma {:induction false} UnknownChangeRaises(r: Record, changes: seq<Change>, i: nat)
    requires i < |changes|
    requires forall c | c in changes :: !c.Forbidden()
    requires ApplyAll(r, changes[..i + 1]).Raised?
    ensures ApplyAll(r, changes).Raised?
    decreases |changes|
  {
    if i + 1 == |changes| {
      assert changes[..i + 1] == changes;
    } else {
      var shorter := changes[..|changes| - 1];
      assert shorter[..i + 1] == changes[..i + 1];
      UnknownChangeRaises(r, shorter, i);
    }
  }

  // --------------------------------------------------------------- theorems

  lemma {:induction false} ChangesKeepIdentity(r: Record, changes: seq<Change>)
    requires forall c | c in changes :: !c.Forbidden()
    ensures ApplyAll(r, changes).Ok? ==>
      SameIdentity(r, ApplyAll(r, changes).value) && ApplyAll(r, changes).value.status == r.status
  {
    if changes != [] {
      ChangesKeepIdentity(r, changes[..|changes| - 1]);
    }
  }

  /** A started calculation's first write can never be refused. */
  lemma QueuedAlwaysStarts(r: Record, now: Stamp)
    requires Valid(r) && now.Utc?
    ensures Transition(r, Running, NO_ARGUMENTS, now).Ok? <==> r.status.Queued?
  {
  }

  /** RUNNING becomes FAILED exactly when the failure names no phase or an approved one. */
  lemma RunningAlwaysFails(
    r: Record, failure: Failure, service: ServiceOutcome, native: Option<Option<NativeOutcome>>,
    at: Option<Stamp>, now: Stamp)
    requires Valid(r) && r.status.Running? && now.Utc? && ValidStamp(at)
    ensures Transition(r, Failed, Arguments(None, native, Some(Some(service)), Some(Some(failure)), at, None), now).Ok?
       <==> (failure.phase.Some? ==> failure.phase.value.Approved())
  {
  }

  /** The written failure is the one given, with its phase filled in. */
  lemma FailureIsRecorded(r: Record, failure: Failure, given: Arguments, now: Stamp)
    requires given.failure == Some(Some(failure)) && Transition(r, Failed, given, now).Ok?
    ensures var written := Transition(r, Failed, given, now).value;
      && SameIdentity(r, written) && written.overwrite == r.overwrite && Valid(written) && written.status.Failed?
      && written.failure.Some? && written.failure.value.code == failure.code
      && written.failure.value.message == failure.message
      && written.failure.value.phase == (if failure.phase.Some? then failure.phase else OrElse(given.progress, r.progress).phase)
      && written.progress.phase == written.failure.value.phase
      && written.timestamps.completedAt == Some(OrElse(given.terminalTimestamp, now))
  {
  }

  /** `running` is `r` started in its first phase, and the same in everything else. */
  predicate OnlyStarted(r: Record, running: Record, now: int) {
    running == r.(status := Running,
                  progress := r.progress.(phase := Some(PrecedingTreeDisposition), phaseStartedAt := Some(Utc(now)),
                                          currentModule := None, completedModules := []),
                  timestamps := r.timestamps.(startedAt := Some(Utc(now))))
  }

  lemma OnlyTheStartIsRecorded(r: Record, now: int)
    requires Valid(r) && r.status.Queued?
    ensures var running := Transition(r, Running, NO_ARGUMENTS, Utc(now));
      running.Ok? && Valid(running.value) && SameIdentity(running.value, r) && OnlyStarted(r, running.value, now)
  {
  }

  /** `failed` is `r` failed in its phase, and the same in everything else. */
  predicate OnlyFailed(r: Record, failed: Record) {
    && failed.failure.Some? && failed.timestamps.completedAt.Some?
    && failed == r.(status := Failed, failure := Some(failed.failure.value.(phase := r.progress.phase)),
                    serviceOutcome := Some(ServiceOutcome(true, false)),
                    timestamps := r.timestamps.(completedAt := failed.timestamps.completedAt))
  }

  /** It says why and when. */
  predicate FailedFor(failed: Record, code: string, message: string, at: Stamp) {
    && failed.failure.Some? && failed.failure.value.code == code && failed.failure.value.message == message
    && failed.timestamps.completedAt == Some(at)
  }

  /** A FAILED write that gives a reason without a phase is accepted, and records that reason and nothing else. */
  lemma OnlyTheFailureIsRecorded(r: Record, code: string, message: string, now: int)
    requires Valid(r) && r.status.Running?
    ensures var given := Arguments(None, None, Some(Some(ServiceOutcome(true, false))), Some(Some(Failure(None, code, message))), None, None);
      var failed := Transition(r, Failed, given, Utc(now));
      failed.Ok? && Valid(failed.value) && OnlyFailed(r, failed.value) && FailedFor(failed.value, code, message, Utc(now))
  {
  }

  /** A FAILED write may clear the native outcome as well. */
  lemma ClearingTheOutcome(r: Record, code: string, message: string, now: int)
    ensures var given := Arguments(None, None, Some(Some(ServiceOutcome(true, false))), Some(Some(Failure(None, code, message))), None, None);
      && Transition(r, Failed, given.(nativeOutcome := Some(None)), Utc(now))
         == Transition(r.(nativeOutcome := None), Failed, given, Utc(now))
      && (Valid(r) && r.status.Running? ==> Valid(r.(nativeOutcome := None)))
  {
  }

  /** So is the recovery write. */
  lemma OnlyTheStaleFailureIsRecorded(r: Record, code: string, message: string, now: int)
    requires Valid(r) && r.status.Running?
    ensures var failed := FailStale(r, Failure(None, code, message), Utc(now));
      failed.Ok? && Valid(failed.value) && OnlyFailed(r, failed.value) && FailedFor(failed.value, code, message, Utc(now))
  {
  }

  /** Starting stamps the record, opens the first phase and touches nothing else. */
  lemma StartIsRecorded(r: Record, now: Stamp)
    requires Transition(r, Running, NO_ARGUMENTS, now).Ok?
    ensures var started := Transition(r, Running, NO_ARGUMENTS, now).value;
      && started == r.(status := Running, progress := started.progress, timestamps := started.timestamps)
      && started.timestamps == r.timestamps.(startedAt := Some(now))
      && started.progress.phase == Some(PrecedingTreeDisposition) && started.progress.phaseStartedAt == Some(now)
      && started.progress.currentModule.None? && started.progress.completedModules == []
  {
  }

  lemma StaleAlwaysFails(r: Record, failure: Failure, now: Stamp)
    requires Valid(r) && r.status.Running? && now.Utc?
    ensures FailStale(r, failure, now).Ok? <==> (failure.phase.Some? ==> failure.phase.value.Approved())
  {
  }

  /** One operation any component performs on a record. */
  datatype Operation =
    | UpdateBy(changes: seq<Change>)
    | MoveTo(target: LifecycleState, given: Arguments, now: Stamp)
    | RecoverStale(failure: Failure, now: Stamp)

  /** The record after one operation; an operation that raises writes nothing. */
  function After(r: Record, op: Operation): Record {
    var attempt :=
      match op
      case UpdateBy(changes) => Update(r, changes)
      case MoveTo(target, given, now) => Transition(r, target, given, now)
      case RecoverStale(failure, now) => if r.status.Running? then FailStale(r, failure, now) else Raised;
    if attempt.Ok? then attempt.value else r
  }

  function AfterAll(r: Record, ops: seq<Operation>): Record
    decreases |ops|
  {
    if ops == [] then r else AfterAll(After(r, ops[0]), ops[1..])
  }

  lemma TransitionFollowsTable(r: Record, target: LifecycleState, given: Arguments, now: Stamp)
    ensures var moved := Transition(r, target, given, now);
      moved.Ok? ==> Valid(moved.value) && SameIdentity(r, moved.value) && moved.value.overwrite == r.overwrite
                    && moved.value.status == target && target in AllowedTransitions(r.status)
                    && (if r.status.Queued? then target.Running? else r.status.Running? && target in {Success, Failed})
  {
  }

  /** What a transition writes: what it was given, its own instants, the failure in the phase it is about, and no more. */
  lemma TransitionRecordsWhatIsGiven(r: Record, target: LifecycleState, given: Arguments, now: Stamp)
    requires Transition(r, target, given, now).Ok?
    ensures var s := Transition(r, target, given, now).value;
      && s == r.(status := target, progress := s.progress, timestamps := s.timestamps, nativeOutcome := s.nativeOutcome,
                 serviceOutcome := s.serviceOutcome, failure := s.failure, sharedPaths := s.sharedPaths)
      && s.nativeOutcome == (if given.nativeOutcome.Some? then given.nativeOutcome.value else r.nativeOutcome)
      && s.serviceOutcome == (if given.serviceOutcome.Some? then given.serviceOutcome.value else r.serviceOutcome)
      && s.sharedPaths == (if given.sharedPaths.Some? then given.sharedPaths.value else r.sharedPaths)
      && s.timestamps == (if target.Running? then r.timestamps.(startedAt := Some(now))
                          else r.timestamps.(completedAt := Some(OrElse(given.terminalTimestamp, now))))
      && (target.Success? ==> s.progress == if given.progress.Some? then given.progress.value else r.progress)
      && var was := if given.failure.Some? then given.failure.value else r.failure;
         if target.Failed? then
           && was.Some? && s.failure == Some(was.value.(phase := s.progress.phase))
           && (was.value.phase.None? || was.value.phase == s.progress.phase)
         else s.failure == was
  {
    hide ValidProgress, ValidTimestamps, ValidSharedPaths, Names.ValidEventId, Names.ValidBasename;
  }

  lemma OperationOnlyAdvances(r: Record, op: Operation)
    requires Valid(r)
    ensures Valid(After(r, op)) && SameIdentity(r, After(r, op))
    ensures r.status == After(r, op).status || After(r, op).status in AllowedTransitions(r.status)
  {
    match op
    case UpdateBy(changes) =>
      if !(exists c | c in changes :: c.Forbidden()) {
        ChangesKeepIdentity(r, changes);
      }
    case MoveTo(target, given, now) =>
      TransitionFollowsTable(r, target, given, now);
    case RecoverStale(failure, now) =>
  }

  /** Over every history of operations: the record stays valid, keeps its identity, never moves back,
      and once terminal keeps its status. */
  lemma {:induction false} LifecycleOnlyAdvances(r: Record, ops: seq<Operation>)
    requires Valid(r)
    ensures Valid(AfterAll(r, ops)) && SameIdentity(r, AfterAll(r, ops))
    ensures r.status.Rank() <= AfterAll(r, ops).status.Rank()
    ensures r.status.Terminal() ==> AfterAll(r, ops).status == r.status
    decreases |ops|
  {
    if ops != [] {
      OperationOnlyAdvances(r, ops[0]);
      LifecycleOnlyAdvances(After(r, ops[0]), ops[1..]);
    }
  }

  /** What a record tells its readers, state by state. */
  predicate TellsItsState(r: Record) {
    && (match r.status
        case Queued =>
          && r.timestamps.startedAt.None? && r.timestamps.completedAt.None? && r.progress.phase.None?
          && r.nativeOutcome.None? && r.serviceOutcome.None? && r.failure.None?
        case Running =>
          r.timestamps.startedAt.Some? && r.timestamps.completedAt.None? && r.progress.phase.Some?
        case Success =>
          r.timestamps.startedAt.Some? && r.timestamps.completedAt.Some? && r.failure.None?
        case Failed =>
          && r.timestamps.startedAt.Some? && r.timestamps.completedAt.Some? && r.failure.Some?
          && r.failure.value.phase.Some? && r.failure.value.phase == r.progress.phase
          && r.failure.value.phase.value.Approved())
    && r.progress.modulePlan == ["select", "assemble", "model", "contour", "mapping", "stations", "gridxml"]
    && (forall m | m in r.progress.completedModules :: m in r.progress.modulePlan)
    && r.sharedPaths.input == "runtime/shakemap/data/inputs/" + r.eventId
    && var own := "runtime/shakemap/.service/events/" + r.eventId + "/";
       && r.sharedPaths.provenance in {None, Some(own + "provenance.json")}
       && r.sharedPaths.productManifest in {None, Some(own + "product-manifest.json")}
       && r.sharedPaths.serviceLog in {None, Some(own + "logs/service.log")}
       && r.sharedPaths.shakeLog in {None, Some(own + "logs/shake.log")}
  }

  /** Whatever is done to an accepted record, it tells its state, and names its own files only. */
  lemma RecordsTellTheirState(r: Record, ops: seq<Operation>)
    requires Valid(r)
    ensures TellsItsState(AfterAll(r, ops)) && AfterAll(r, ops).eventId == r.eventId
  {
    hide AfterAll;
    LifecycleOnlyAdvances(r, ops);
    var s := AfterAll(r, ops);
    ServiceFilesAreNamed(s.eventId, "provenance.json");
    ServiceFilesAreNamed(s.eventId, "product-manifest.json");
    ServiceFilesAreNamed(s.eventId, "logs/service.log");
    ServiceFilesAreNamed(s.eventId, "logs/shake.log");
  }
}
