/**
 One promoted calculation, from preparation to its single terminal write
 (calculation.py, calculation_finalization.py), and the guards that freeze its
 evidence afterwards (product_manifest.py, provenance.py, calculation_log.py).
 */
module Calculation {
  import opened Common
  import opened Status
  import Names

  // ----------------------------------------------------------------- evidence

  datatype ManifestFile =
    | NoManifest
    | GarbledManifest
    | ManifestFile(eventId: string, sequence: int, partial: bool, allPassed: bool)

  datatype ProvenanceFile =
    | NoProvenance
    | GarbledProvenance
    | ProvenanceFile(eventId: string, sequence: int, terminalAt: Stamp, failed: bool)

  /** What the native command did. A nonzero exit may carry a diagnosed configuration error. */
  datatype Native =
    | InvocationFailed
    | ShutDown
    | Ran(exitCode: Option<int>, signal: Option<int>, serviceTerminated: bool, configurationError: bool, completedAt: int)

  /** Everything the calculation depends on and does not decide. */
  datatype Plan = Plan(
    context: bool,               // the native context could be prepared
    profile: bool,               // the selected configuration could be materialized
    native: Native,
    output: nat,                 // bytes the command wrote to shake.log
    resolved: bool,              // the required products could be resolved
    validation: Option<bool>,    // None when validation itself raised
    inventoried: bool,           // every native product could be read
    now: int,                    // the clock at the start of a phase,
    startedAt: int,              // when the command starts,
    terminalAt: int)             // and when the terminal evidence is published
  {
    /** The command is run, and returns. */
    predicate Returns() {
      context && profile && native.Ran?
    }
  }

  /** Why a calculation failed. */
  datatype Code =
    | PhaseRecordingFailed | ServiceLogFailed | ShakeLogFailed
    | NativeContextFailed | ConfigurationMaterializationFailed
    | NativeInvocationFailed | ServiceShutdown | NativeResultRecordingFailed
    | NativeSignal | NativeConfigurationFailed | NativeExit
    | RequiredProductResolutionFailed | RequiredProductValidationFailed
    | ProductManifestFailed | ProvenanceFailed | SuccessFinalizationFailed
  {
    function Text(): string {
      match this
      case PhaseRecordingFailed => "phase_recording_failed"
      case ServiceLogFailed => "service_log_failed"
      case ShakeLogFailed => "shake_log_failed"
      case NativeContextFailed => "native_context_failed"
      case ConfigurationMaterializationFailed => "configuration_materialization_failed"
      case NativeInvocationFailed => "native_invocation_failed"
      case ServiceShutdown => "service_shutdown"
      case NativeResultRecordingFailed => "native_result_recording_failed"
      case NativeSignal => "native_signal"
      case NativeConfigurationFailed => "native_configuration_failed"
      case NativeExit => "native_exit"
      case RequiredProductResolutionFailed => "required_product_resolution_failed"
      case RequiredProductValidationFailed => "required_product_validation_failed"
      case ProductManifestFailed => "product_manifest_failed"
      case ProvenanceFailed => "provenance_failed"
      case SuccessFinalizationFailed => "success_finalization_failed"
    }

    /** Where this code may be given, and what must have happened. */
    predicate Fits(phase: Phase, plan: Plan) {
      match this
      case PhaseRecordingFailed => phase != PrecedingTreeDisposition
      case ServiceLogFailed => phase != PrecedingTreeDisposition
      case ShakeLogFailed => phase == CalculationPreparation
      case NativeContextFailed => phase == CalculationPreparation && !plan.context
      case ConfigurationMaterializationFailed => phase == CalculationPreparation && plan.context && !plan.profile
      case NativeInvocationFailed => phase == NativeExecution && !plan.native.ShutDown?
      case ServiceShutdown =>
        phase == NativeExecution && (plan.native.ShutDown? || (plan.native.Ran? && plan.native.serviceTerminated))
      case NativeResultRecordingFailed => phase == NativeExecution && plan.Returns()
      case NativeSignal =>
        phase == NativeExecution && plan.Returns() && !plan.native.serviceTerminated && plan.native.signal.Some?
      case NativeConfigurationFailed =>
        phase == NativeExecution && plan.Returns() && !plan.native.serviceTerminated
        && plan.native.signal.None? && plan.native.exitCode != Some(0) && plan.native.configurationError
      case NativeExit =>
        phase == NativeExecution && plan.Returns() && !plan.native.serviceTerminated
        && plan.native.signal.None? && plan.native.exitCode != Some(0) && !plan.native.configurationError
      case RequiredProductResolutionFailed => phase == ProductValidation && ExitedNormally(plan.native) && !plan.resolved
      case RequiredProductValidationFailed =>
        phase == ProductValidation && ExitedNormally(plan.native) && plan.resolved && plan.validation != Some(true)
      case ProductManifestFailed => phase == RecordFinalization && plan.validation == Some(true)
      case ProvenanceFailed => phase == RecordFinalization && plan.validation == Some(true)
      case SuccessFinalizationFailed => phase == RecordFinalization && plan.validation == Some(true)
    }
  }

  /** The names clients see. */
  lemma CodesAreNamed()
    ensures PhaseRecordingFailed.Text() == "phase_recording_failed" && ServiceLogFailed.Text() == "service_log_failed"
    ensures ShakeLogFailed.Text() == "shake_log_failed" && NativeContextFailed.Text() == "native_context_failed"
    ensures ConfigurationMaterializationFailed.Text() == "configuration_materialization_failed"
    ensures NativeInvocationFailed.Text() == "native_invocation_failed" && ServiceShutdown.Text() == "service_shutdown"
    ensures NativeResultRecordingFailed.Text() == "native_result_recording_failed"
    ensures NativeSignal.Text() == "native_signal" && NativeExit.Text() == "native_exit"
    ensures NativeConfigurationFailed.Text() == "native_configuration_failed"
    ensures RequiredProductResolutionFailed.Text() == "required_product_resolution_failed"
    ensures RequiredProductValidationFailed.Text() == "required_product_validation_failed"
    ensures ProductManifestFailed.Text() == "product_manifest_failed" && ProvenanceFailed.Text() == "provenance_failed"
    ensures SuccessFinalizationFailed.Text() == "success_finalization_failed"
  {
  }

  datatype Verdict = Succeeds | Fails(phase: Phase, code: Code)

  /** What becomes of a calculation when no file operation of the service fails. */
  function Expected(plan: Plan): Verdict {
    if !plan.context then Fails(CalculationPreparation, NativeContextFailed)
    else if !plan.profile then Fails(CalculationPreparation, ConfigurationMaterializationFailed)
    else match plan.native
      case InvocationFailed => Fails(NativeExecution, NativeInvocationFailed)
      case ShutDown => Fails(NativeExecution, ServiceShutdown)
      case Ran(exitCode, signal, serviceTerminated, configurationError, _) =>
        if serviceTerminated then Fails(NativeExecution, ServiceShutdown)
        else if signal.Some? then Fails(NativeExecution, NativeSignal)
        else if exitCode != Some(0) then
          Fails(NativeExecution, if configurationError then NativeConfigurationFailed else NativeExit)
        else if !plan.resolved then Fails(ProductValidation, RequiredProductResolutionFailed)
        else if plan.validation != Some(true) then Fails(ProductValidation, RequiredProductValidationFailed)
        else if !plan.inventoried then Fails(RecordFinalization, ProductManifestFailed)
        else if plan.output == 0 then Fails(RecordFinalization, SuccessFinalizationFailed)
        else Succeeds
  }

  // ----------------------------------------------------- the terminal writes

  function SuccessArguments(native: Option<NativeOutcome>, terminalAt: Stamp, shared: SharedPaths): Arguments {
    Arguments(None, Some(native), Some(Some(ServiceOutcome(true, true))), Some(None), Some(terminalAt), Some(shared))
  }

  function FailedArguments(
    native: Option<NativeOutcome>, failure: Failure, terminalAt: Stamp, shared: SharedPaths): Arguments
  {
    Arguments(None, Some(native), Some(Some(ServiceOutcome(true, false))), Some(Some(failure)), Some(terminalAt), Some(shared))
  }

  /** `done` is `r` finished successfully, and the same in everything else but its links. */
  predicate Succeeded(r: Record, done: Record, at: Stamp) {
    done == r.(status := Success, failure := None, nativeOutcome := Some(NativeOutcome(true, Some(0), None)),
               serviceOutcome := Some(ServiceOutcome(true, true)), timestamps := r.timestamps.(completedAt := Some(at)),
               sharedPaths := done.sharedPaths)
  }

  /** `failed` is `r` failed in the given phase, and the same in everything else but its links. */
  predicate FailedIn(r: Record, failed: Record, native: Option<NativeOutcome>, failure: Failure, at: Stamp) {
    failed == r.(status := Failed, failure := Some(failure), nativeOutcome := native,
                 serviceOutcome := Some(ServiceOutcome(true, false)),
                 timestamps := r.timestamps.(completedAt := Some(at)),
                 progress := if failure.phase == r.progress.phase then r.progress
                             else r.progress.(phase := failure.phase, phaseStartedAt := Some(at)),
                 sharedPaths := failed.sharedPaths)
  }

  /** A valid running record always accepts either terminal write. */
  lemma SuccessIsAccepted(r: Record, at: int, now: int, shared: SharedPaths)
    requires Valid(r) && r.status.Running? && ValidSharedPaths(shared, r.eventId)
    ensures var native := Some(NativeOutcome(true, Some(0), None));
      var done := Transition(r, Success, SuccessArguments(native, Utc(at), shared), Utc(now));
      && done.Ok? && Valid(done.value) && SameIdentity(done.value, r)
      && Succeeded(r, done.value, Utc(at)) && done.value.sharedPaths == shared
  {
    hide ValidSharedPaths, Names.ValidEventId, Names.ValidBasename;
  }

  lemma FailureIsAccepted(
    r: Record, native: Option<NativeOutcome>, failure: Failure, at: int, now: int, shared: SharedPaths)
    requires Valid(r) && r.status.Running? && ValidSharedPaths(shared, r.eventId)
    requires failure.phase.Some? && failure.phase.value.Approved()
    ensures var failed := Transition(r, Failed, FailedArguments(native, failure, Utc(at), shared), Utc(now));
      && failed.Ok? && Valid(failed.value) && SameIdentity(failed.value, r)
      && FailedIn(r, failed.value, native, failure, Utc(at)) && failed.value.sharedPaths == shared
  {
    hide ValidSharedPaths, Names.ValidEventId, Names.ValidBasename;
  }

  // ------------------------------------------------------ what may happen to it

  /** The current record of one event and the files beside it. */
  datatype Evidence = Evidence(
    record: Record, manifest: ManifestFile, provenance: ProvenanceFile,
    serviceLog: nat,           // bytes
    shakeLog: Option<nat>)
  {
    predicate Matching(r: Record) {
      r.status.Running? && record.eventId == r.eventId && record.sequence == r.sequence && record.status.Running?
    }

    /** Everything a SUCCESS record claims, as files beside it. */
    predicate Supported(terminalAt: Stamp) {
      && manifest == ManifestFile(record.eventId, record.sequence, false, true)
      && provenance.ProvenanceFile? && provenance.eventId == record.eventId
      && provenance.sequence == record.sequence && provenance.terminalAt == terminalAt
      && serviceLog > 0 && shakeLog.Some? && shakeLog.value > 0
    }

    /** SUCCESS is earned. */
    predicate Earned() {
      record.status.Success? ==>
        && record.timestamps.completedAt.Some? && Supported(record.timestamps.completedAt.value)
        && record.nativeOutcome == Some(NativeOutcome(true, Some(0), None))
        && record.serviceOutcome == Some(ServiceOutcome(true, true)) && record.failure.None?
    }

    /** The evidence checks of finalize_success. */
    predicate Ready(native: Native, validation: Option<bool>, terminalAt: Stamp) {
      native.Ran? && native.exitCode == Some(0) && native.signal.None? && validation == Some(true)
      && (manifest.ManifestFile? && manifest.eventId == record.eventId && manifest.sequence == record.sequence
          && !manifest.partial)
      && (provenance.ProvenanceFile? && provenance.eventId == record.eventId && provenance.sequence == record.sequence
          && provenance.terminalAt == terminalAt)
      && serviceLog > 0 && shakeLog.Some? && shakeLog.value > 0
    }

    /** No complete manifest without an all-pass validation. */
    predicate Honest() {
      manifest.ManifestFile? && !manifest.partial ==> manifest.allPassed
    }

    /** The record links the files that are there and not empty, or all of them. */
    predicate LinkedBy(p: SharedPaths, all: bool) {
      && ValidSharedPaths(p, record.eventId)
      && (p.provenance.Some? <==> all || !provenance.NoProvenance?)
      && (p.productManifest.Some? <==> all || !manifest.NoManifest?)
      && (p.serviceLog.Some? <==> all || serviceLog > 0)
      && (p.shakeLog.Some? <==> all || (shakeLog.Some? && shakeLog.value > 0))
    }

    /** _shared_paths */
    function SharedPathsOf(requireAll: bool): (s: SharedPaths)
      ensures ValidSharedPaths(s, record.eventId) && LinkedBy(s, requireAll)
    {
      var e := record.eventId;
      SharedPathsFor(e).(
        provenance := if requireAll || !provenance.NoProvenance? then Some(ServiceFile(e, "provenance.json")) else None,
        productManifest := if requireAll || !manifest.NoManifest? then Some(ServiceFile(e, "product-manifest.json")) else None,
        serviceLog := if requireAll || serviceLog > 0 then Some(ServiceFile(e, "logs/service.log")) else None,
        shakeLog := if requireAll || (shakeLog.Some? && shakeLog.value > 0) then Some(ServiceFile(e, "logs/shake.log")) else None)
    }
  }

  datatype Act =
    | Append(r: Record)
    | Inventory(r: Record, validation: Option<bool>, primaryReason: bool)
    | Attest(r: Record, terminalAt: Stamp, failed: bool)
    | Revise(changes: seq<Change>)
    | Capture                    // the native command writes its log
    | Succeed(r: Record, native: Native, validation: Option<bool>, at: int)
    | Fail(r: Record, outcome: Option<NativeOutcome>, failure: Failure, at: int)

  /** What one operation may leave, whatever file operation fails. */
  predicate Performs(a: Evidence, b: Evidence, op: Act) {
    || b == a
    || match op
       case Append(r) => a.Matching(r) && b.serviceLog >= a.serviceLog && b == a.(serviceLog := b.serviceLog)
       case Inventory(r, validation, primaryReason) =>
         && a.Matching(r) && (primaryReason || validation == Some(true))
         && b == a.(manifest := NewManifest(r, validation, primaryReason))
       case Attest(r, terminalAt, failed) =>
         a.Matching(r) && b == a.(provenance := ProvenanceFile(r.eventId, r.sequence, terminalAt, failed))
       case Revise(changes) =>
         a.record.status.Running? && Status.Update(a.record, changes) == Ok(b.record) && b == a.(record := b.record)
       case Capture => a.record.status.Running? && b == a.(shakeLog := b.shakeLog)
       case Succeed(r, native, validation, at) =>
         && a.Matching(r) && a.Ready(native, validation, Utc(at)) && Valid(b.record)
         && Succeeded(a.record, b.record, Utc(at)) && a.LinkedBy(b.record.sharedPaths, true) && b == a.(record := b.record)
       case Fail(r, outcome, failure, at) =>
         && a.Matching(r) && Valid(b.record)
         && FailedIn(a.record, b.record, outcome, failure, Utc(at)) && a.LinkedBy(b.record.sharedPaths, false)
         && b == a.(record := b.record)
  }

  ghost predicate Next(a: Evidence, b: Evidence) {
    exists op :: Performs(a, b, op)
  }

  /** Every history of operations on one record directory. */
  ghost predicate History(run: seq<Evidence>) {
    forall i | 0 <= i < |run| - 1 :: Next(run[i], run[i + 1])
  }

  /** Nothing changes a SUCCESS record or the files beside it, and nothing changes a FAILED record. */
  lemma {:induction false} TerminalIsFrozen(run: seq<Evidence>, i: nat, j: nat)
    requires History(run) && i <= j < |run| && run[i].record.status.Terminal()
    ensures run[j] == run[i]
    decreases j
  {
    if i < j {
      TerminalIsFrozen(run, i, j - 1);
      assert Next(run[j - 1], run[j - 1 + 1]);
    }
  }

  /** In every history SUCCESS has been earned. */
  lemma {:induction false} SuccessIsEarned(run: seq<Evidence>, i: nat)
    requires History(run) && i < |run| && Valid(run[0].record) && run[0].Honest() && run[0].Earned()
    ensures Valid(run[i].record) && run[i].Honest() && run[i].Earned()
  {
    hide Status.Valid, Next, Evidence.Earned, Evidence.Honest;
    if i > 0 {
      SuccessIsEarned(run, i - 1);
      assert Next(run[i - 1], run[i - 1 + 1]);
      StepIsEarned(run[i - 1], run[i]);
    }
  }

  lemma StepIsEarned(a: Evidence, b: Evidence)
    requires Next(a, b) && Valid(a.record) && a.Honest() && a.Earned()
    ensures Valid(b.record) && b.Honest() && b.Earned()
  {
    hide Status.Valid, Status.Update, Transition, ValidSharedPaths;
    var op :| Performs(a, b, op);
    if b != a {
      match op
      case Revise(changes) => UpdateKeepsStatus(a.record, changes);
      case _ =>
    }
  }

  // ---------------------------------------------------------------- the record

  /** The current record directory of one event. With `calm`, no file operation fails. */
  class Workspace {
    const calm: bool
    var record: Record
    var manifest: ManifestFile
    var provenance: ProvenanceFile
    var serviceLog: nat           // bytes
    var shakeLog: Option<nat>
    var journaled: bool

    constructor (calm: bool, record: Record)
      ensures this.calm == calm && this.record == record
      ensures manifest.NoManifest? && provenance.NoProvenance? && serviceLog == 0 && shakeLog.None? && journaled
    {
      this.calm, this.record := calm, record;
      manifest, provenance, serviceLog, shakeLog, journaled := NoManifest, NoProvenance, 0, None, true;
    }

    function Contents(): Evidence
      reads this
    {
      Evidence(record, manifest, provenance, serviceLog, shakeLog)
    }

    predicate Matching(r: Record)
      reads this
    {
      Contents().Matching(r)
    }

    predicate Earned()
      reads this
    {
      Contents().Earned()
    }

    predicate Honest()
      reads this
    {
      Contents().Honest()
    }

    predicate Ready(native: Native, validation: Option<bool>, terminalAt: Stamp)
      reads this
    {
      Contents().Ready(native, validation, terminalAt)
    }

    // ------------------------------------------------------------- evidence

    /** append_service_log; a failed append may leave part of its line. */
    method AppendLog(r: Record, size: nat) returns (ok: bool)
      requires size > 0
      modifies this`serviceLog
      ensures ok ==> old(Matching(r)) && serviceLog == old(serviceLog) + size
      ensures Performs(old(Contents()), Contents(), Append(r))
      ensures !old(Matching(r)) ==> !ok && serviceLog == old(serviceLog)
      ensures old(serviceLog) <= serviceLog <= old(serviceLog) + size
      ensures calm ==> (ok <==> old(Matching(r)))
    {
      var early := MayRaise(calm);
      if early || !Matching(r) {
        return false;
      }
      var late := MayRaise(calm);
      var written: int := *;
      serviceLog := serviceLog + if late && 0 <= written < size then written else size;
      ok := !late;
    }

    /** publish_product_manifest: complete only for an all-pass validation, and only while RUNNING. */
    method PublishManifest(r: Record, validation: Option<bool>, primaryReason: bool, inventoried: bool) returns (ok: bool)
      modifies this`manifest
      ensures Performs(old(Contents()), Contents(), Inventory(r, validation, primaryReason))
      ensures ok ==> old(Matching(r)) && manifest == NewManifest(r, validation, primaryReason)
      ensures NewManifest(r, validation, primaryReason)
        == ManifestFile(r.eventId, r.sequence, primaryReason, validation == Some(true))
      ensures manifest == old(manifest) || (old(Matching(r)) && manifest == NewManifest(r, validation, primaryReason))
      ensures !primaryReason && validation != Some(true) ==> !ok && manifest == old(manifest)
      ensures calm ==> (ok <==> old(Matching(r)) && (primaryReason || (validation == Some(true) && inventoried)))
    {
      if !primaryReason && validation != Some(true) {
        return false;
      }
      var early := MayRaise(calm);
      if early || !Matching(r) || (!primaryReason && !inventoried) {
        return false;
      }
      var replaced := MayRaise(calm);
      if replaced {
        return false;
      }
      manifest := NewManifest(r, validation, primaryReason);
      var late := MayRaise(calm);
      ok := !late;
    }

    /** publish_provenance, under the same guard. */
    method PublishProvenance(r: Record, terminalAt: Stamp, failed: bool) returns (ok: bool)
      modifies this`provenance
      ensures Performs(old(Contents()), Contents(), Attest(r, terminalAt, failed))
      ensures ok ==> old(Matching(r)) && provenance == ProvenanceFile(r.eventId, r.sequence, terminalAt, failed)
      ensures provenance == old(provenance)
              || (old(Matching(r)) && provenance == ProvenanceFile(r.eventId, r.sequence, terminalAt, failed))
      ensures calm ==> (ok <==> old(Matching(r)))
    {
      var early := MayRaise(calm);
      if early || !Matching(r) {
        return false;
      }
      provenance := ProvenanceFile(r.eventId, r.sequence, terminalAt, failed);
      var late := MayRaise(calm);
      ok := !late;
    }

    // ------------------------------------------------------- the terminal write

    method FinalizeSuccess(r: Record, native: Native, validation: Option<bool>, terminalAt: int, now: int)
      returns (ok: bool)
      requires Valid(record) && Honest() && Earned()
      modifies this`record
      ensures Performs(old(Contents()), Contents(), Succeed(r, native, validation, terminalAt))
      ensures Valid(record) && Earned() && SameIdentity(record, old(record))
      ensures record == old(record)
              || (old(Matching(r)) && Ready(native, validation, Utc(terminalAt))
                  && record.status.Success? && Succeeded(old(record), record, Utc(terminalAt))
                  && Contents().LinkedBy(record.sharedPaths, true))
      ensures ok ==> record.status.Success? && old(Matching(r))
      ensures calm ==> (ok <==> old(Matching(r)) && Ready(native, validation, Utc(terminalAt)))
      ensures calm && !ok ==> record == old(record)
    {
      hide Status.Valid, Transition, ValidSharedPaths;
      var early := MayRaise(calm);
      if early || !Matching(r) || !Ready(native, validation, Utc(terminalAt)) {
        return false;
      }
      var outcome := Some(NativeOutcome(true, native.exitCode, native.signal));
      var given := SuccessArguments(outcome, Utc(terminalAt), Contents().SharedPathsOf(true));
      var done := Transition(record, Success, given, Utc(now));
      SuccessIsAccepted(record, terminalAt, now, Contents().SharedPathsOf(true));
      var replaced := MayRaise(calm);
      if replaced {
        return false;
      }
      record := done.value;
      var late := MayRaise(calm);
      ok := !late;
    }

    method FinalizeFailure(r: Record, native: Native, failure: Failure, terminalAt: int, now: int) returns (ok: bool)
      requires Valid(record) && Earned() && failure.phase.Some? && failure.phase.value.Approved()
      modifies this`record
      ensures Performs(old(Contents()), Contents(), Fail(r, Returned(native), failure, terminalAt))
      ensures Valid(record) && Earned() && SameIdentity(record, old(record))
      ensures native.Ran? ==> Returned(native) == Some(NativeOutcome(true, native.exitCode, native.signal))
      ensures !native.Ran? ==> Returned(native) == None
      ensures record == old(record)
              || (old(Matching(r)) && record.status.Failed?
                  && FailedIn(old(record), record, Returned(native), failure, Utc(terminalAt))
                  && Contents().LinkedBy(record.sharedPaths, false))
      ensures ok ==> old(Matching(r)) && record.status.Failed?
      ensures calm ==> (ok <==> old(Matching(r)))
    {
      hide Status.Valid, Transition, ValidSharedPaths;
      var early := MayRaise(calm);
      if early || !Matching(r) {
        return false;
      }
      var outcome := Returned(native);
      var failed := Transition(record, Failed, FailedArguments(outcome, failure, Utc(terminalAt), Contents().SharedPathsOf(false)), Utc(now));
      FailureIsAccepted(record, outcome, failure, terminalAt, now, Contents().SharedPathsOf(false));
      var replaced := MayRaise(calm);
      if replaced {
        return false;
      }
      record := failed.value;
      var late := MayRaise(calm);
      ok := !late;
    }

    /** recalculation.finalize_transaction, for the record this calculation has finished. */
    method FinalizeTransaction() returns (ok: bool)
      modifies this`journaled
      ensures ok ==> !journaled && record.status.Terminal()
      ensures !record.status.Terminal() ==> journaled == old(journaled)
      ensures calm && record.status.Terminal() ==> ok
    {
      var early := MayRaise(calm);
      if early || !record.status.Terminal() {
        return false;
      }
      journaled := false;
      var late := MayRaise(calm);
      ok := !late;
    }

    // ------------------------------------------------------------- the phases

    /** update_current_record on the running record. */
    method UpdateRunning(changes: seq<Change>) returns (ok: bool)
      requires Valid(record) && record.status.Running?
      modifies this`record
      ensures Performs(old(Contents()), Contents(), Revise(changes))
      ensures Valid(record) && record.status.Running? && SameIdentity(record, old(record))
      ensures record == old(record) || Update(old(record), changes) == Ok(record)
      ensures ok ==> Update(old(record), changes) == Ok(record)
      ensures calm ==> (ok <==> Update(old(record), changes).Ok?)
    {
      hide Status.Valid, Update;
      var early := MayRaise(calm);
      var updated := Update(record, changes);
      UpdateKeepsStatus(record, changes);
      if early || updated.Raised? {
        return false;
      }
      record := updated.value;
      var late := MayRaise(calm);
      ok := !late;
    }

    /** _set_phase */
    method SetPhase(phase: Phase, now: int) returns (ok: bool)
      requires Valid(record) && record.status.Running? && phase.Approved()
      modifies this`record
      ensures Valid(record) && record.status.Running? && SameIdentity(record, old(record))
      ensures record == old(record) || PhaseSet(old(record), record, phase, now)
      ensures ok ==> PhaseSet(old(record), record, phase, now)
      ensures calm ==> ok
    {
      hide Status.Valid, Update;
      var progress := PhaseProgress(record.progress, phase, now);
      PhaseIsAccepted(record, phase, now);
      ok := UpdateRunning([SetProgress(progress)]);
    }

    /** shake.log is created, and written by the native command, only while the record is running. */
    method CaptureOutput(size: nat)
      requires record.status.Running?
      modifies this`shakeLog
      ensures Performs(old(Contents()), Contents(), Capture) && shakeLog == Some(size)
    {
      shakeLog := Some(size);
    }

    /** The record is still running, as its own calculation last saw it. */
    predicate Underway(r: Record)
      reads this
    {
      Valid(record) && record.status.Running? && SameIdentity(record, r) && Honest()
    }

    /** Up to the start of the native command. */
    method PrepareNative(plan: Plan) returns (stop: Option<Stop>)
      requires Underway(record) && shakeLog.None? && manifest.NoManifest?
      modifies this`record, this`serviceLog, this`shakeLog
      ensures Underway(old(record)) && (stop.Some? ==> stop.value.Proper(plan, false) && stop.value.validation.None?)
      ensures record == old(record) || PhaseSet(old(record), record, CalculationPreparation, plan.now)
      ensures calm || stop.None? ==> InPhase(record, CalculationPreparation, plan)
      ensures stop.None? ==> PhaseSet(old(record), record, CalculationPreparation, plan.now)
      ensures stop.None? ==> shakeLog == Some(0) && plan.context && plan.profile
      ensures stop.None? ==> serviceLog == old(serviceLog) + |record.warnings| + 2
      ensures calm ==> Agrees(stop, Expected(plan), CalculationPreparation)
    {
      hide Status.Valid;
      var ok := SetPhase(CalculationPreparation, plan.now);
      if !ok {
        return Some(Stop(CalculationPreparation, PhaseRecordingFailed, true, None, false, None));
      }
      ok := AppendLog(record, 1);
      if !ok {
        return Some(Stop(CalculationPreparation, ServiceLogFailed, false, None, false, None));
      }
      for i := 0 to |record.warnings|
        invariant ok && Underway(old(record)) && serviceLog > 0
        invariant PhaseSet(old(record), record, CalculationPreparation, plan.now)
        invariant serviceLog == old(serviceLog) + 1 + i
      {
        ok := AppendLog(record, 1);
        if !ok {
          return Some(Stop(CalculationPreparation, ServiceLogFailed, false, None, false, None));
        }
      }
      var unwritable := MayRaise(calm);
      if unwritable {
        return Some(Stop(CalculationPreparation, ShakeLogFailed, true, None, false, None));
      }
      CaptureOutput(0);
      if !plan.context {
        return Some(Stop(CalculationPreparation, NativeContextFailed, true, None, false, None));
      }
      if !plan.profile {
        return Some(Stop(CalculationPreparation, ConfigurationMaterializationFailed, true, None, false, None));
      }
      ok := AppendLog(record, 1);
      if !ok {
        return Some(Stop(CalculationPreparation, ServiceLogFailed, false, None, false, None));
      }
      return None;
    }

    /** on_started, and the recording of the result once the command has returned. */
    method RecordRun(plan: Plan) returns (stop: Option<Stop>)
      requires Underway(record) && plan.Returns() && shakeLog == Some(0)
      modifies this`record, this`shakeLog
      ensures Underway(old(record)) && (stop.Some? ==> stop.value.Proper(plan, true) && stop.value.validation.None?)
      ensures Runs(old(record), record, plan) && record.progress == old(record).progress
      ensures stop.None? ==> shakeLog == Some(plan.output) && HasRun(record, plan)
      ensures calm ==> stop.None?
    {
      hide Status.Valid, Update;
      StartIsAccepted(record, plan.startedAt);
      var ok := UpdateRunning(StartChanges(record, plan.startedAt));
      if !ok {
        return Some(Stop(NativeExecution, NativeInvocationFailed, true, None, false, None));
      }
      CaptureOutput(plan.output);
      FinishIsAccepted(record, plan.native);
      ok := UpdateRunning(FinishChanges(record, plan.native));
      if !ok {
        return Some(Stop(NativeExecution, NativeResultRecordingFailed, true, None, true, None));
      }
      return None;
    }

    /** run_shake, with its on_started callback and the recording of its result. */
    method RunNative(plan: Plan) returns (stop: Option<Stop>)
      requires Underway(record) && shakeLog == Some(0) && serviceLog > 0 && plan.context && plan.profile
      modifies this`record, this`serviceLog, this`shakeLog
      ensures Underway(old(record)) && (stop.Some? ==> stop.value.Proper(plan, true) && stop.value.validation.None?)
      ensures Runs(old(record), record, plan)
      ensures stop.None? ==> shakeLog == Some(plan.output) && serviceLog == old(serviceLog) + 2 && HasRun(record, plan)
      ensures stop.None? ==> ExitedNormally(plan.native) && !plan.native.serviceTerminated
      ensures stop.None? || (calm && stop.Some?) ==> InPhase(record, NativeExecution, plan)
      ensures calm ==> Agrees(stop, Expected(plan), NativeExecution)
      ensures calm && stop.Some? ==>
        (stop.value.executed <==> plan.native.Ran?) && (plan.native.Ran? ==> HasRun(record, plan))
    {
      hide Status.Valid, Update;
      var ok := SetPhase(NativeExecution, plan.now);
      if !ok {
        return Some(Stop(NativeExecution, PhaseRecordingFailed, true, None, false, None));
      }
      ok := AppendLog(record, 1);
      if !ok {
        return Some(Stop(NativeExecution, ServiceLogFailed, false, None, false, None));
      }
      if plan.native.InvocationFailed? {
        return Some(Stop(NativeExecution, NativeInvocationFailed, true, None, false, None));
      }
      if plan.native.ShutDown? {
        return Some(Stop(NativeExecution, ServiceShutdown, true, None, false, None));
      }
      stop := RecordRun(plan);
      if stop.Some? {
        return;
      }
      ok := AppendLog(record, 1);
      if !ok {
        return Some(Stop(NativeExecution, ServiceLogFailed, false, None, true, None));
      }
      if plan.native.serviceTerminated {
        return Some(Stop(NativeExecution, ServiceShutdown, true, None, true, None));
      }
      if plan.native.signal.Some? {
        return Some(Stop(NativeExecution, NativeSignal, true, None, true, None));
      }
      if plan.native.exitCode != Some(0) {
        return Some(Stop(NativeExecution,
          if plan.native.configurationError then NativeConfigurationFailed else NativeExit, true, None, true, None));
      }
      return None;
    }

    method ValidateProducts(plan: Plan) returns (stop: Option<Stop>)
      requires Underway(record) && serviceLog > 0 && plan.context && plan.profile
      requires ExitedNormally(plan.native) && !plan.native.serviceTerminated
      modifies this`record, this`serviceLog
      ensures Underway(old(record)) && (stop.Some? ==> stop.value.Proper(plan, true) && stop.value.executed)
      ensures record == old(record) || PhaseSet(old(record), record, ProductValidation, plan.now)
      ensures calm || stop.None? ==> InPhase(record, ProductValidation, plan)
      ensures stop.None? ==> serviceLog == old(serviceLog) + 2 && plan.resolved && plan.validation == Some(true)
      ensures stop.Some? && stop.value.code.RequiredProductValidationFailed? ==> stop.value.validation == plan.validation
      ensures stop.Some? && stop.value.code in {PhaseRecordingFailed, RequiredProductResolutionFailed} ==> stop.value.validation.None?
      ensures calm ==> Agrees(stop, Expected(plan), ProductValidation)
    {
      hide Status.Valid;
      var ok := SetPhase(ProductValidation, plan.now);
      if !ok {
        return Some(Stop(ProductValidation, PhaseRecordingFailed, true, None, true, None));
      }
      ok := AppendLog(record, 1);
      if !ok {
        return Some(Stop(ProductValidation, ServiceLogFailed, false, None, true, None));
      }
      if !plan.resolved {
        return Some(Stop(ProductValidation, RequiredProductResolutionFailed, true, None, true, None));
      }
      if plan.validation != Some(true) {
        return Some(Stop(ProductValidation, RequiredProductValidationFailed, true, None, true, plan.validation));
      }
      ok := AppendLog(record, 1);
      if !ok {
        return Some(Stop(ProductValidation, ServiceLogFailed, false, None, true, Some(true)));
      }
      return None;
    }

    /** The complete manifest and the provenance of a success. */
    method PublishEvidence(plan: Plan) returns (stop: Option<Stop>)
      requires Underway(record) && serviceLog > 0 && plan.context && plan.profile
      requires ExitedNormally(plan.native) && !plan.native.serviceTerminated && plan.resolved && plan.validation == Some(true)
      modifies this`serviceLog, this`manifest, this`provenance
      ensures Honest() && (stop.None? ==> serviceLog == old(serviceLog) + 1)
      ensures stop.None? ==>
        && manifest == ManifestFile(record.eventId, record.sequence, false, true)
        && provenance == ProvenanceFile(record.eventId, record.sequence, Utc(plan.terminalAt), false)
      ensures stop.Some? ==> stop.value.Proper(plan, true) && stop.value.executed && stop.value.validation == Some(true)
      ensures calm ==> if plan.inventoried then stop.None? else stop.Some? && stop.value.code.ProductManifestFailed?
      ensures stop.Some? ==> stop.value.phase.RecordFinalization?
    {
      hide Status.Valid, Performs;
      var ok := AppendLog(record, 1);
      if !ok {
        return Some(Stop(RecordFinalization, ServiceLogFailed, false, None, true, Some(true)));
      }
      ok := PublishManifest(record, plan.validation, false, plan.inventoried);
      if !ok {
        return Some(Stop(RecordFinalization, ProductManifestFailed, true, None, true, Some(true)));
      }
      ok := PublishProvenance(record, Utc(plan.terminalAt), false);
      if !ok {
        return Some(Stop(RecordFinalization, ProvenanceFailed, true, Some(plan.terminalAt), true, Some(true)));
      }
      return None;
    }

    /** Publish the terminal evidence and write SUCCESS. */
    method PublishSuccess(plan: Plan) returns (stop: Option<Stop>)
      requires Underway(record) && Earned() && serviceLog > 0 && shakeLog == Some(plan.output) && plan.context && plan.profile
      requires ExitedNormally(plan.native) && !plan.native.serviceTerminated && plan.resolved && plan.validation == Some(true)
      modifies this`record, this`serviceLog, this`manifest, this`provenance
      ensures Valid(record) && SameIdentity(record, old(record)) && Honest() && Earned()
      ensures record.status.Running? || (record.status.Success? && plan.output > 0)
      ensures record.status.Running? ==> record == old(record) || PhaseSet(old(record), record, RecordFinalization, plan.now)
      ensures record.status.Success? ==> FinishedWell(old(record), record, plan) && Contents().LinkedBy(record.sharedPaths, true)
      ensures stop.None? ==> record.status.Success? && serviceLog == old(serviceLog) + 1
      ensures stop.Some? ==> stop.value.Proper(plan, true) && stop.value.executed && stop.value.validation == Some(true)
      ensures calm ==> Agrees(stop, Expected(plan), RecordFinalization) && (stop.Some? ==> record.status.Running?)
      ensures calm && stop.Some? ==> InPhase(record, RecordFinalization, plan)
    {
      hide Status.Valid, Succeeded, PhaseSet, Evidence.LinkedBy, Performs, FinishedWell;
      var ok := SetPhase(RecordFinalization, plan.now);
      if !ok {
        return Some(Stop(RecordFinalization, PhaseRecordingFailed, true, None, true, Some(true)));
      }
      ghost var last := record;
      PhaseIsSet(old(record), last, RecordFinalization, plan);
      stop := PublishEvidence(plan);
      if stop.Some? {
        return;
      }
      ok := FinalizeSuccess(record, plan.native, plan.validation, plan.terminalAt, plan.now);
      if record != last {
        FinishesWell(old(record), last, record, plan);
      }
      if !ok {
        return Some(Stop(RecordFinalization, SuccessFinalizationFailed, true, Some(plan.terminalAt), true, Some(true)));
      }
      return None;
    }

    /** _finish_failed. On a record that has already succeeded, every step is refused and nothing changes. */
    method FinishFailed(stop: Stop, current: Record, plan: Plan) returns (r: Result<LifecycleState>)
      requires Valid(record) && Earned() && Honest() && stop.Proper(plan, true)
      modifies this
      ensures Valid(record) && Earned() && Honest() && SameIdentity(record, old(record))
      ensures r.Ok? ==> r.value.Failed? && record.status.Failed? && !journaled
      ensures record == old(record)
        || (old(Matching(current)) && record.status.Failed?
            && FailedIn(old(record), record, stop.Outcome(plan), stop.Reason(), Utc(plan.terminalAt))
            && Contents().LinkedBy(record.sharedPaths, false))
      ensures stop.executed ==> stop.Outcome(plan) == Some(NativeOutcome(true, plan.native.exitCode, plan.native.signal))
      ensures !stop.executed ==> stop.Outcome(plan) == None
      ensures old(record).status.Terminal() ==> r.Raised? && Contents() == old(Contents())
      ensures manifest == old(manifest)
        || manifest == ManifestFile(current.eventId, current.sequence, true, stop.validation == Some(true))
      ensures provenance == old(provenance)
        || provenance == ProvenanceFile(current.eventId, current.sequence, Utc(plan.terminalAt), true)
      ensures calm && old(Matching(current)) ==>
        && r.Ok? && record.status.Failed? && serviceLog == old(serviceLog) + (if stop.logged then 1 else 0)
        && manifest == ManifestFile(current.eventId, current.sequence, true, stop.validation == Some(true))
        && provenance == ProvenanceFile(current.eventId, current.sequence, Utc(plan.terminalAt), true)
    {
      hide Status.Valid, FailedIn, Evidence.LinkedBy, Code.Text, Code.Fits, Performs;
      if stop.logged {
        var ignored := AppendLog(current, 1);
      }
      var ignored := PublishManifest(current, stop.validation, true, plan.inventoried);
      var terminalAt := if stop.terminalAt.Some? then stop.terminalAt.value else plan.terminalAt;
      ignored := PublishProvenance(current, Utc(terminalAt), true);
      var native := if stop.executed then plan.native else InvocationFailed;
      var ok := FinalizeFailure(current, native, stop.Reason(), terminalAt, plan.now);
      if !ok {
        return Raised;
      }
      ok := FinalizeTransaction();
      if !ok {
        return Raised;
      }
      return Ok(Failed);
    }

    /** The phases of execute_calculation, up to the terminal write of a success or the reason for a failure. */
    method RunPhases(plan: Plan) returns (stop: Option<Stop>)
      requires Underway(record) && shakeLog.None? && manifest.NoManifest?
      modifies this`record, this`serviceLog, this`shakeLog, this`manifest, this`provenance
      ensures Valid(record) && SameIdentity(record, old(record)) && Honest() && Earned()
      ensures record.status.Running? || record.status.Success?
      ensures record.status.Running? ==> Runs(old(record), record, plan)
      ensures record.status.Success? ==>
        && ExitedNormally(plan.native) && plan.validation == Some(true) && plan.output > 0
        && HasSucceeded(old(record), record, plan) && Contents().LinkedBy(record.sharedPaths, true)
      ensures stop.None? ==> record.status.Success?
      ensures stop.Some? ==> stop.value.Proper(plan, true)
      ensures calm && stop.Some? ==>
        && record.status.Running? && Expected(plan) == Fails(stop.value.phase, stop.value.code)
        && (stop.value.executed <==> plan.Returns()) && (plan.Returns() ==> HasRun(record, plan))
        && (stop.value.validation == Some(true) <==> stop.value.phase.RecordFinalization?)
        && InPhase(record, stop.value.phase, plan)
      ensures calm && stop.None? ==> Expected(plan).Succeeds?
      ensures stop.None? ==> serviceLog == old(serviceLog) + |record.warnings| + 7
    {
      hide Status.Valid, Evidence.Honest, Runs, PhaseSet, Evidence.LinkedBy, FinishedWell, HasSucceeded;
      ghost var first := record;
      stop := PrepareNative(plan);
      RunsThroughPhase(first, first, record, CalculationPreparation, plan);
      if stop.Some? {
        return;
      }
      ghost var prepared := record;
      stop := RunNative(plan);
      RunsOn(first, prepared, record, plan);
      if stop.Some? {
        return;
      }
      ghost var ran := record;
      stop := ValidateProducts(plan);
      RunsThroughPhase(first, ran, record, ProductValidation, plan);
      if stop.Some? {
        return;
      }
      ghost var validated := record;
      stop := PublishSuccess(plan);
      if record.status.Running? {
        RunsThroughPhase(first, validated, record, RecordFinalization, plan);
      } else {
        SucceedsAfterRun(first, validated, record, plan);
      }
    }

    /** execute_calculation after preparation: exactly one terminal write, SUCCESS only with all its evidence,
        and the outcome its circumstances call for whenever the service's own files can be written. */
    method Execute(plan: Plan) returns (r: Result<LifecycleState>)
      requires Underway(record) && shakeLog.None? && manifest.NoManifest?
      modifies this
      ensures Valid(record) && Earned() && SameIdentity(record, old(record))
      ensures r.Ok? ==> r.value == record.status && record.status.Terminal() && !journaled
      ensures record.status.Success? ==>
        && ExitedNormally(plan.native) && plan.validation == Some(true) && plan.output > 0
        && HasSucceeded(old(record), record, plan) && Contents().LinkedBy(record.sharedPaths, true)
      ensures record.status.Failed? ==> HasFailed(old(record), record, plan) && Contents().LinkedBy(record.sharedPaths, false)
      ensures calm ==> r.Ok? && (r.value.Success? <==> Expected(plan).Succeeds?)
      ensures r.Ok? && r.value.Success? ==> serviceLog == old(serviceLog) + |record.warnings| + 7
      ensures calm && Expected(plan).Fails? ==>
        && FailedAsExpected(old(record), record, plan)
        && manifest == ManifestFile(record.eventId, record.sequence, true, Expected(plan).phase.RecordFinalization?)
        && provenance == ProvenanceFile(record.eventId, record.sequence, Utc(plan.terminalAt), true)
    {
      hide Status.Valid, Evidence.Honest, Runs, HasRun, Evidence.LinkedBy, HasSucceeded, FailedIn, HasFailed, FailedAsExpected;
      var current := record;
      var stop := RunPhases(plan);
      if stop.Some? {
        ghost var before := record;
        r := FinishFailed(stop.value, current, plan);
        if record != before {
          FailsAfterRun(current, before, record, stop.value, plan);
        }
        return;
      }
      var ok := FinalizeTransaction();
      return if ok then Ok(Success) else Raised;
    }
  }

  /** The record with its progress in the given phase, and the same in everything else. */
  predicate PhaseSet(r: Record, next: Record, phase: Phase, now: int) {
    next == r.(progress := r.progress.(phase := Some(phase), phaseStartedAt := Some(Utc(now)),
                                       currentModule := None, completedModules := []))
  }

  /** The record says when this phase began. */
  predicate InPhase(r: Record, phase: Phase, plan: Plan) {
    r.progress.phase == Some(phase) && r.progress.phaseStartedAt == Some(Utc(plan.now))
  }

  lemma PhaseIsSet(r: Record, next: Record, phase: Phase, plan: Plan)
    requires PhaseSet(r, next, phase, plan.now)
    ensures InPhase(next, phase, plan)
  {
  }

  /** The start, the end and the result of the command are recorded. */
  predicate HasRun(r: Record, plan: Plan) {
    && plan.Returns()
    && r.timestamps.nativeStartedAt == Some(Utc(plan.startedAt))
    && r.timestamps.nativeFinishedAt == Some(Utc(plan.native.completedAt))
    && r.nativeOutcome == Some(NativeOutcome(true, plan.native.exitCode, plan.native.signal))
  }

  /** Still running: since `first` its progress may have changed, and the command may have been started and have returned. */
  predicate Runs(first: Record, r: Record, plan: Plan) {
    && r == first.(progress := r.progress, nativeOutcome := r.nativeOutcome,
                   timestamps := first.timestamps.(nativeStartedAt := r.timestamps.nativeStartedAt,
                                                   nativeFinishedAt := r.timestamps.nativeFinishedAt))
    && r.progress.modulePlan == first.progress.modulePlan
    && (|| (r.timestamps == first.timestamps && r.nativeOutcome == first.nativeOutcome)
        || (plan.Returns()
            && r.timestamps == first.timestamps.(nativeStartedAt := Some(Utc(plan.startedAt)))
            && r.nativeOutcome == Some(NativeOutcome(true, None, None)))
        || HasRun(r, plan))
  }

  /** The last phase, and the success. */
  predicate FinishedWell(r: Record, done: Record, plan: Plan) {
    && done.status.Success?
    && Succeeded(r.(progress := r.progress.(phase := Some(RecordFinalization), phaseStartedAt := Some(Utc(plan.now)),
                                            currentModule := None, completedModules := [])),
                 done, Utc(plan.terminalAt))
  }

  lemma FinishesWell(r: Record, last: Record, done: Record, plan: Plan)
    requires PhaseSet(r, last, RecordFinalization, plan.now) && Succeeded(last, done, Utc(plan.terminalAt))
    ensures FinishedWell(r, done, plan) && done.status.Success?
  {
  }

  /** A success is the record it began with, but for what happened. */
  predicate HasSucceeded(first: Record, done: Record, plan: Plan) {
    && plan.Returns()
    && done == first.(status := Success,
                      progress := first.progress.(phase := Some(RecordFinalization), phaseStartedAt := Some(Utc(plan.now)),
                                                  currentModule := None, completedModules := []),
                      nativeOutcome := Some(NativeOutcome(true, Some(0), None)),
                      serviceOutcome := Some(ServiceOutcome(true, true)), failure := None,
                      timestamps := first.timestamps.(nativeStartedAt := Some(Utc(plan.startedAt)),
                                                      nativeFinishedAt := Some(Utc(plan.native.completedAt)),
                                                      completedAt := Some(Utc(plan.terminalAt))),
                      sharedPaths := done.sharedPaths)
  }

  /** So is a failure. */
  predicate HasFailed(first: Record, failed: Record, plan: Plan) {
    && failed == first.(status := Failed, progress := failed.progress, nativeOutcome := failed.nativeOutcome,
                        serviceOutcome := Some(ServiceOutcome(true, false)), failure := failed.failure,
                        timestamps := first.timestamps.(nativeStartedAt := failed.timestamps.nativeStartedAt,
                                                        nativeFinishedAt := failed.timestamps.nativeFinishedAt,
                                                        completedAt := Some(Utc(plan.terminalAt))),
                        sharedPaths := failed.sharedPaths)
    && failed.progress.modulePlan == first.progress.modulePlan
    && failed.timestamps.nativeStartedAt in {first.timestamps.nativeStartedAt, Some(Utc(plan.startedAt))}
    && (failed.nativeOutcome.Some? ==>
          plan.Returns() && failed.nativeOutcome == Some(NativeOutcome(true, plan.native.exitCode, plan.native.signal)))
    && failed.failure.Some? && failed.failure.value.phase == failed.progress.phase
    && exists code: Code :: failed.failure.value.code == code.Text() && failed.failure.value.phase.Some?
         && code.Fits(failed.failure.value.phase.value, plan)
  }

  /** Without file faults the failure is the expected one, and what is known of the command is recorded. */
  predicate FailedAsExpected(first: Record, failed: Record, plan: Plan) {
    && Expected(plan).Fails? && failed.failure.Some?
    && failed.failure.value.phase == Some(Expected(plan).phase) && failed.failure.value.code == Expected(plan).code.Text()
    && failed.progress.phase == Some(Expected(plan).phase) && failed.progress.phaseStartedAt == Some(Utc(plan.now))
    && (if plan.Returns()
        then failed.nativeOutcome == Some(NativeOutcome(true, plan.native.exitCode, plan.native.signal))
             && failed.timestamps.nativeStartedAt == Some(Utc(plan.startedAt))
             && failed.timestamps.nativeFinishedAt == Some(Utc(plan.native.completedAt))
        else failed.nativeOutcome == None)
  }

  lemma RunsThroughPhase(first: Record, before: Record, after: Record, phase: Phase, plan: Plan)
    requires first == before || Runs(first, before, plan)
    requires after == before || PhaseSet(before, after, phase, plan.now)
    ensures Runs(first, after, plan) && (HasRun(before, plan) ==> HasRun(after, plan))
  {
  }

  lemma RunsOn(first: Record, before: Record, after: Record, plan: Plan)
    requires before == first || PhaseSet(first, before, CalculationPreparation, plan.now)
    requires Runs(before, after, plan)
    ensures Runs(first, after, plan)
  {
  }

  lemma SucceedsAfterRun(first: Record, before: Record, done: Record, plan: Plan)
    requires Runs(first, before, plan) && HasRun(before, plan) && FinishedWell(before, done, plan)
    ensures HasSucceeded(first, done, plan)
  {
  }

  lemma FailsAfterRun(first: Record, before: Record, failed: Record, stop: Stop, plan: Plan)
    requires Runs(first, before, plan) && stop.Proper(plan, true) && failed.status.Failed? && Valid(failed)
    requires FailedIn(before, failed, stop.Outcome(plan), stop.Reason(), Utc(plan.terminalAt))
    ensures HasFailed(first, failed, plan)
    ensures (&& Expected(plan) == Fails(stop.phase, stop.code) && (stop.executed <==> plan.Returns())
             && (plan.Returns() ==> HasRun(before, plan)) && InPhase(before, stop.phase, plan))
      ==> FailedAsExpected(first, failed, plan)
  {
    hide Valid, Code.Text, Code.Fits;
  }

  /** _native_outcome */
  function Returned(native: Native): Option<NativeOutcome> {
    if native.Ran? then Some(NativeOutcome(true, native.exitCode, native.signal)) else None
  }

  function NewManifest(r: Record, validation: Option<bool>, primaryReason: bool): ManifestFile {
    ManifestFile(r.eventId, r.sequence, primaryReason, validation == Some(true))
  }

  /** Why execution stopped, whether the failure is logged, the instant already published, if any, whether the native
      command had returned, and what validation had said by then. */
  datatype Stop = Stop(
    phase: Phase, code: Code, logged: bool, terminalAt: Option<int>, executed: bool, validation: Option<bool>)
  {
    /** The reason is one its circumstances allow. */
    predicate Proper(plan: Plan, launched: bool) {
      && phase.Approved() && code.Fits(phase, plan)
      && (terminalAt.Some? ==> terminalAt.value == plan.terminalAt)
      && (executed ==> launched && plan.Returns())
      && (validation.Some? ==> validation == plan.validation)
    }

    function Reason(): Failure {
      Failure(Some(phase), code.Text(), code.Text())
    }

    function Outcome(plan: Plan): Option<NativeOutcome> {
      if executed then Returned(plan.native) else None
    }
  }

  predicate ExitedNormally(native: Native) {
    native.Ran? && native.exitCode == Some(0) && native.signal.None?
  }

  /** `stop` is the failure the verdict calls for in this phase, or none. */
  predicate Agrees(stop: Option<Stop>, verdict: Verdict, phase: Phase) {
    if verdict.Fails? && verdict.phase == phase
    then stop.Some? && stop.value.phase == phase && stop.value.code == verdict.code
    else stop.None?
  }

  function PhaseProgress(p: Progress, phase: Phase, now: int): Progress {
    p.(phase := Some(phase), phaseStartedAt := Some(Utc(now)), currentModule := None, completedModules := [])
  }

  function StartChanges(r: Record, now: int): seq<Change> {
    [SetTimestamps(r.timestamps.(nativeStartedAt := Some(Utc(now)))),
     SetNativeOutcome(Some(NativeOutcome(true, None, None)))]
  }

  function FinishChanges(r: Record, native: Native): seq<Change>
    requires native.Ran?
  {
    [SetTimestamps(r.timestamps.(nativeFinishedAt := Some(Utc(native.completedAt)))),
     SetNativeOutcome(Some(NativeOutcome(true, native.exitCode, native.signal)))]
  }

  lemma UpdateKeepsStatus(r: Record, changes: seq<Change>)
    requires Valid(r)
    ensures var updated := Update(r, changes);
      updated.Ok? ==> Valid(updated.value) && SameIdentity(updated.value, r) && updated.value.status == r.status
  {
    hide Valid;
    if forall c | c in changes :: !c.Forbidden() {
      ChangesKeepIdentity(r, changes);
    }
  }

  lemma PhaseIsAccepted(r: Record, phase: Phase, now: int)
    requires Valid(r) && r.status.Running? && phase.Approved()
    ensures var updated := Update(r, [SetProgress(PhaseProgress(r.progress, phase, now))]);
      updated.Ok? && PhaseSet(r, updated.value, phase, now)
  {
    var change := SetProgress(PhaseProgress(r.progress, phase, now));
    assert [change][..0] == [];
    assert ApplyAll(r, [change]) == Ok(r.(progress := PhaseProgress(r.progress, phase, now)));
  }

  lemma TwoChanges(r: Record, t: Timestamps, n: Option<NativeOutcome>)
    ensures ApplyAll(r, [SetTimestamps(t), SetNativeOutcome(n)]) == Ok(r.(timestamps := t, nativeOutcome := n))
  {
    var first, second := SetTimestamps(t), SetNativeOutcome(n);
    assert [first][..0] == [];
    assert ApplyAll(r, [first]) == Ok(r.(timestamps := t));
    assert [first, second][..1] == [first];
  }

  lemma StartIsAccepted(r: Record, now: int)
    requires Valid(r) && r.status.Running?
    ensures Update(r, StartChanges(r, now))
      == Ok(r.(timestamps := r.timestamps.(nativeStartedAt := Some(Utc(now))), nativeOutcome := Some(NativeOutcome(true, None, None))))
  {
    TwoChanges(r, r.timestamps.(nativeStartedAt := Some(Utc(now))), Some(NativeOutcome(true, None, None)));
  }

  lemma FinishIsAccepted(r: Record, native: Native)
    requires Valid(r) && r.status.Running? && native.Ran?
    ensures Update(r, FinishChanges(r, native))
      == Ok(r.(timestamps := r.timestamps.(nativeFinishedAt := Some(Utc(native.completedAt))),
               nativeOutcome := Some(NativeOutcome(true, native.exitCode, native.signal))))
  {
    TwoChanges(r, r.timestamps.(nativeFinishedAt := Some(Utc(native.completedAt))),
               Some(NativeOutcome(true, native.exitCode, native.signal)));
  }
}
