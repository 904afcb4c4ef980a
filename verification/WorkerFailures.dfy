/** How the worker turns an exception of an attempt into a failure category and a retry delay. */
module WorkerFailures {
  import opened Schema
  import opened Decimal

  datatype AttemptError =
    | RunnerCancelled
    | RunnerTimeout
    | RunnerInfrastructure(message: string)
    | MissingFile
    | WorkerFatal
    | OtherError

  predicate OccursAt(text: string, part: string, i: int) {
    0 <= i <= |text| - |part| && text[i..i + |part|] == part
  }

  predicate Contains(text: string, part: string) {
    exists i :: 0 <= i <= |text| && OccursAt(text, part, i)
  }

  /** The category of an error, and the delay after which the attempt may be repeated, if it may. */
  function ClassifyFailure(error: AttemptError, retryDelay: int): (FailureCategory, Option<int>) {
    match error
    case RunnerCancelled => (CanceledByUser, None)
    case RunnerTimeout => (TimedOut, None)
    case RunnerInfrastructure(message) =>
      if Contains(message, "CUDA runtime is unavailable.") || Contains(message, "CUDA initialization failed.")
      then (InfraTransient, Some(retryDelay))
      else if Contains(message, "Required runtime asset is missing.") || Contains(message, "Scratch disk is full.")
      then (InfraPermanent, None)
      else (InfraPermanent, None)
    case MissingFile => (InputInvalid, None)
    case WorkerFatal => (InfraPermanent, None)
    case OtherError => (AlgorithmFailure, None)
  }

  /** A delay is granted exactly to transient infrastructure failures. */
  lemma DelayMeansTransient(error: AttemptError, retryDelay: int)
    ensures var (category, delay) := ClassifyFailure(error, retryDelay);
            (delay.Some? <==> category == InfraTransient) && (delay.Some? ==> delay == Some(retryDelay))
  {
  }

  /** The category tells the cause. */
  lemma CategoryTellsCause(error: AttemptError, retryDelay: int)
    ensures var category := ClassifyFailure(error, retryDelay).0;
            var cuda := error.RunnerInfrastructure? && (Contains(error.message, "CUDA runtime is unavailable.") ||
                                                        Contains(error.message, "CUDA initialization failed."));
            && (category.CanceledByUser? <==> error.RunnerCancelled?)
            && (category.TimedOut? <==> error.RunnerTimeout?)
            && (category.InputInvalid? <==> error.MissingFile?)
            && (category.AlgorithmFailure? <==> error.OtherError?)
            && (category.InfraTransient? <==> cuda)
            && (category.InfraPermanent? <==> error.WorkerFatal? || (error.RunnerInfrastructure? && !cuda))
  {
    hide Contains;
  }

  // ---------------------------------------------------------------- from the runner log to the retry

  const CUDA_MISSING := "CUDA runtime is unavailable."
  const CUDA_FAILED := "CUDA initialization failed."
  const ASSET_MISSING := "Required runtime asset is missing."
  const DISK_FULL := "Scratch disk is full."

  /** The first known pattern of the runner log, in the order in which they are tried. */
  function DetectFatalRuntimeError(log: string): Option<string> {
    if Contains(log, "No CUDA GPUs are available") then Some(CUDA_MISSING)
    else if Contains(log, "torch._C._cuda_init()") then Some(CUDA_FAILED)
    else if Contains(log, "No such file or directory") then Some(ASSET_MISSING)
    else if Contains(log, "No space left on device") then Some(DISK_FULL)
    else None
  }

  function ExitNote(code: int): string {
    " GVHMR runner exited with code " + ToDecimal(code) + ". See runner.log for details."
  }

  /** What the runner raises when its subprocess ends with a nonzero code. */
  function ErrorOfExit(log: string, code: int): AttemptError {
    match DetectFatalRuntimeError(log)
    case Some(fatal) => RunnerInfrastructure(fatal + ExitNote(code))
    case None => OtherError
  }

  lemma ContainsPrefix(part: string, rest: string)
    ensures Contains(part + rest, part)
  {
    assert OccursAt(part + rest, part, 0);
  }

  lemma MissingCharMissingPart(text: string, part: string, c: char)
    requires c in part && c !in text
    ensures !Contains(text, part)
  {
    var k :| 0 <= k < |part| && part[k] == c;
    forall i ensures !OccursAt(text, part, i) {
      assert 0 <= i <= |text| - |part| ==> text[i..i + |part|][k] == text[i + k] && text[i + k] in text;
    }
  }

  lemma NotIn(a: string, b: string, c: char)
    requires c !in a && c !in b
    ensures c !in a + b
  {
  }

  lemma ExitNoteHasNoC(code: int)
    ensures 'C' !in ExitNote(code)
  {
    DecimalDigits(code);
    NotIn(" GVHMR runner exited with code ", ToDecimal(code), 'C');
    NotIn(" GVHMR runner exited with code " + ToDecimal(code), ". See runner.log for details.", 'C');
  }

  /** Messages without a CUDA prefix are never taken for CUDA messages. */
  lemma OtherFatalIsNoCuda(fatal: string, code: int)
    requires fatal == ASSET_MISSING || fatal == DISK_FULL
    ensures !Contains(fatal + ExitNote(code), CUDA_MISSING) && !Contains(fatal + ExitNote(code), CUDA_FAILED)
  {
    ExitNoteHasNoC(code);
    assert 'C' !in ASSET_MISSING && 'C' !in DISK_FULL;
    NotIn(fatal, ExitNote(code), 'C');
    assert CUDA_MISSING[0] == 'C' && CUDA_FAILED[0] == 'C';
    MissingCharMissingPart(fatal + ExitNote(code), CUDA_MISSING, 'C');
    MissingCharMissingPart(fatal + ExitNote(code), CUDA_FAILED, 'C');
  }

  /** A crashed run is repeated exactly when its log shows one of the two CUDA patterns. */
  lemma RetriedExactlyOnCuda(log: string, code: int, retryDelay: int)
    ensures ClassifyFailure(ErrorOfExit(log, code), retryDelay).1.Some? <==>
              Contains(log, "No CUDA GPUs are available") || Contains(log, "torch._C._cuda_init()")
    ensures ClassifyFailure(ErrorOfExit(log, code), retryDelay).0.AlgorithmFailure? <==>
              && !Contains(log, "No CUDA GPUs are available") && !Contains(log, "torch._C._cuda_init()")
              && !Contains(log, "No such file or directory") && !Contains(log, "No space left on device")
    ensures ClassifyFailure(ErrorOfExit(log, code), retryDelay).0 in {InfraTransient, InfraPermanent, AlgorithmFailure}
  {
    hide Contains, ExitNote;
    match DetectFatalRuntimeError(log) {
      case None =>
      case Some(fatal) =>
        if fatal == CUDA_MISSING {
          ContainsPrefix(CUDA_MISSING, ExitNote(code));
        } else if fatal == CUDA_FAILED {
          ContainsPrefix(CUDA_FAILED, ExitNote(code));
        } else {
          OtherFatalIsNoCuda(fatal, code);
        }
    }
  }
}
