/**
 * The end-of-run verdicts of src/main.cpp: the self-test's signal threshold
 * and the recording's all-silent scan. The empty-buffer failure is decided in
 * `Recorder.Finish`.
 */
module Checks {
  import opened Samples

  /**
   * The literal 0.001f: single precision has no 0.001, so the comparison is
   * against the nearest float, 8589935 / 2^33.
   */
  const SignalThreshold: real := 8589935.0 / 8589934592.0

  /**
   * The literal 1e-6 is a double; a float sample is widened and compared
   * against the nearest double, 4722366482869645 / 2^72.
   */
  const SilenceThreshold: real := 4722366482869645.0 / 4722366482869645213696.0

  /**
   * The self-test's verdict on the accumulated peak (src/main.cpp:88). The
   * float 0.001f lies just above 0.001, so the verdict needs a peak above
   * 0.001 and is certain from 0.0010000001 on.
   */
  predicate HasSignal(peak: real)
    ensures HasSignal(peak) ==> peak > 0.001
    ensures peak >= 0.0010000001 ==> HasSignal(peak)
  {
    peak > SignalThreshold
  }

  /**
   * Every sample of the buffer is within the silence threshold. The double
   * 1e-6 lies just below 0.000001, so a silent sample is strictly inside
   * (-0.000001, 0.000001), and any sample within 0.00000099999999 is silent.
   */
  predicate AllSilent(buffer: seq<real>)
    ensures AllSilent(buffer) ==> forall i :: 0 <= i < |buffer| ==> -0.000001 < buffer[i] < 0.000001
    ensures (forall i :: 0 <= i < |buffer| ==> -0.00000099999999 <= buffer[i] <= 0.00000099999999) ==>
              AllSilent(buffer)
  {
    forall i :: 0 <= i < |buffer| ==> Abs(buffer[i]) <= SilenceThreshold
  }

  /** The self-test passes exactly when some captured sample exceeds 0.001f. */
  lemma SignalIffLoudSample(buffer: seq<real>)
    ensures HasSignal(Peak(buffer)) <==>
            exists i :: 0 <= i < |buffer| && Abs(buffer[i]) > SignalThreshold
  {
    PeakIsMaximum(buffer);
    if HasSignal(Peak(buffer)) {
      var i :| 0 <= i < |buffer| && Abs(buffer[i]) == Peak(buffer);
    }
  }

  /** A buffer is all-silent exactly when its peak is within the threshold. */
  lemma SilentIffQuietPeak(buffer: seq<real>)
    ensures AllSilent(buffer) <==> Peak(buffer) <= SilenceThreshold
  {
    PeakIsMaximum(buffer);
    if AllSilent(buffer) && buffer != [] {
      var i :| 0 <= i < |buffer| && Abs(buffer[i]) == Peak(buffer);
    }
  }

  /**
   * The scan over the final buffer (src/main.cpp:211-218): `allZero` is
   * cleared by any sample above 1e-6 and `maxVal` keeps the largest |sample|.
   */
  method ScanBuffer(buffer: seq<real>) returns (allZero: bool, maxVal: real)
    ensures allZero <==> AllSilent(buffer)
    ensures maxVal == Peak(buffer)
  {
    allZero := true;
    maxVal := 0.0;
    var i := 0;
    while i < |buffer|
      invariant 0 <= i <= |buffer|
      invariant allZero <==> AllSilent(buffer[..i])
      invariant maxVal == Peak(buffer[..i])
    {
      assert buffer[..i + 1][..i] == buffer[..i];
      if Abs(buffer[i]) > SilenceThreshold {
        allZero := false;
      }
      maxVal := Max(maxVal, Abs(buffer[i]));
      i := i + 1;
    }
    assert buffer[..i] == buffer;
  }
}
