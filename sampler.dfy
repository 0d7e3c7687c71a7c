/**
  The sampler's failure path: a capture that raises is replaced by a fixed
  sentinel reading, so a device fault never stops the monitoring loop. The
  decibel value of a successful capture is an opaque input here.
 */
module Sampler {
  import opened Classifier

  /** The reading substituted when audio capture fails. */
  const SentinelDb: real := -100.0

  /** The outcome of one capture attempt. */
  datatype Capture = Captured(db: real) | CaptureFailed

  /** The decibel reading a capture yields, the sentinel for a failed one. */
  function Reading(c: Capture): real {
    match c
    case Captured(db) => db
    case CaptureFailed => SentinelDb
  }

  /** A failed capture reads as the sentinel and is classified as quiet by the
      reference table, so the tick proceeds rather than failing. */
  lemma FailedCaptureIsQuiet()
    ensures Reading(CaptureFailed) == -100.0
    ensures Classify(Thresholds, Reading(CaptureFailed)) == Quiet
  {
    BoundariesGoUp();
  }
}
