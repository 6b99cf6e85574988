/**
 * The per-batch capture callbacks of src/main.cpp as sequential state
 * machines. Each callback invocation is one call of `OnBatch`; the control
 * thread's timer firing (`testing.store(false)` / `recording.store(false)`)
 * is one call of `Deactivate`. Run one at a time, each compare-and-swap
 * retry loop stores the batch value exactly when it is larger than the
 * current one, that is, it leaves `Max(current, batchValue)`.
 *
 * The ghost history `delivered` holds every batch handed to the callback and
 * `appended` how many of them arrived while the session was active; the
 * invariants tie the counters and the buffer to that history.
 */
module Session {
  import opened Samples

  /** The state captured by the self-test callback (src/main.cpp:33-36, 40-65). */
  class ProbeSession {
    var callbackCount: int
    var active: bool
    var buffer: seq<real>
    var maxAmplitude: real

    ghost var delivered: seq<seq<real>>
    ghost var appended: nat

    ghost predicate Valid()
      reads this
    {
      callbackCount == |delivered| &&
      appended <= |delivered| &&
      (active ==> appended == |delivered|) &&
      buffer == Flatten(delivered[..appended]) &&
      maxAmplitude == Peak(buffer)
    }

    constructor ()
      ensures Valid()
      ensures active && callbackCount == 0 && buffer == [] && maxAmplitude == 0.0
      ensures delivered == []
    {
      callbackCount := 0;
      active := true;
      buffer := [];
      maxAmplitude := 0.0;
      delivered := [];
      appended := 0;
    }

    /** One invocation of the self-test callback with the batch `batch`. */
    method OnBatch(batch: seq<real>)
      requires Valid()
      modifies this
      ensures Valid()
      ensures delivered == old(delivered) + [batch]
      ensures callbackCount == old(callbackCount) + 1
      ensures active == old(active)
      ensures old(active) ==> buffer == old(buffer) + batch
      ensures old(active) ==> maxAmplitude == Max(old(maxAmplitude), Peak(batch))
      ensures !old(active) ==> buffer == old(buffer) && maxAmplitude == old(maxAmplitude)
      ensures old(maxAmplitude) <= maxAmplitude
    {
      DeliveryStep(delivered, appended, batch, active);
      callbackCount := callbackCount + 1;
      delivered := delivered + [batch];
      if active {
        var localMax := BatchPeak(batch);
        var currentMax := maxAmplitude;
        if localMax > currentMax {
          maxAmplitude := localMax;
        }
        PeakConcat(buffer, batch);
        buffer := buffer + batch;
        appended := appended + 1;
      }
    }

    /** The control thread's `testing.store(false)` (src/main.cpp:78). */
    method Deactivate()
      requires Valid()
      modifies this
      ensures Valid()
      ensures !active
      ensures callbackCount == old(callbackCount) && buffer == old(buffer)
      ensures maxAmplitude == old(maxAmplitude) && delivered == old(delivered)
    {
      active := false;
    }
  }

  /**
   * The state captured by the recording callback (src/main.cpp:106, 118-122,
   * 124-170). `rmsLevel` is merged from a per-batch RMS the caller supplies:
   * its square root is floating-point work outside this model.
   */
  class RecordingSession {
    var callbackCount: int
    var totalFrames: nat
    var active: bool
    var buffer: seq<real>
    var maxAmplitude: real
    var rmsLevel: real

    ghost var delivered: seq<seq<real>>
    ghost var appended: nat

    ghost predicate Valid()
      reads this
    {
      callbackCount == |delivered| &&
      totalFrames == FrameCount(delivered) &&
      appended <= |delivered| &&
      (active ==> appended == |delivered|) &&
      buffer == Flatten(delivered[..appended]) &&
      maxAmplitude == Peak(buffer) &&
      0.0 <= rmsLevel
    }

    constructor ()
      ensures Valid()
      ensures active && callbackCount == 0 && totalFrames == 0 && buffer == []
      ensures maxAmplitude == 0.0 && rmsLevel == 0.0 && delivered == []
    {
      callbackCount := 0;
      totalFrames := 0;
      active := true;
      buffer := [];
      maxAmplitude := 0.0;
      rmsLevel := 0.0;
      delivered := [];
      appended := 0;
    }

    /**
     * One invocation of the recording callback with `batch`, whose RMS is
     * `batchRms`. For an empty batch the source divides 0 by 0 and gets NaN,
     * which is never greater than the level, so the level is left alone.
     */
    method OnBatch(batch: seq<real>, batchRms: real)
      requires Valid()
      modifies this
      ensures Valid()
      ensures delivered == old(delivered) + [batch]
      ensures callbackCount == old(callbackCount) + 1
      ensures totalFrames == old(totalFrames) + |batch|
      ensures active == old(active)
      ensures |buffer| <= totalFrames
      ensures old(active) ==> buffer == old(buffer) + batch
      ensures old(active) ==> maxAmplitude == Max(old(maxAmplitude), Peak(batch))
      ensures old(active) ==>
                rmsLevel == (if batch != [] && batchRms > old(rmsLevel) then batchRms else old(rmsLevel))
      ensures !old(active) ==>
                buffer == old(buffer) && maxAmplitude == old(maxAmplitude) && rmsLevel == old(rmsLevel)
      ensures old(maxAmplitude) <= maxAmplitude && old(rmsLevel) <= rmsLevel
    {
      DeliveryStep(delivered, appended, batch, active);
      callbackCount := callbackCount + 1;
      totalFrames := totalFrames + |batch|;
      delivered := delivered + [batch];
      if active {
        var localMax := BatchPeak(batch);
        var currentMax := maxAmplitude;
        if localMax > currentMax {
          maxAmplitude := localMax;
        }
        var currentRms := rmsLevel;
        if batch != [] && batchRms > currentRms {
          rmsLevel := batchRms;
        }
        PeakConcat(buffer, batch);
        buffer := buffer + batch;
        appended := appended + 1;
      }
    }

    /** The control thread's `recording.store(false)` (src/main.cpp:186). */
    method Deactivate()
      requires Valid()
      modifies this
      ensures Valid()
      ensures !active
      ensures callbackCount == old(callbackCount) && totalFrames == old(totalFrames)
      ensures buffer == old(buffer) && delivered == old(delivered)
      ensures maxAmplitude == old(maxAmplitude) && rmsLevel == old(rmsLevel)
    {
      active := false;
    }
  }
}
