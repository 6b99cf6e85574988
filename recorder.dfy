/**
 * The two runs of src/main.cpp, `testMicrophone` and `main`, with the engine,
 * the clock and the file system as parameters:
 *  - `startOk` is what `aec.start` returned;
 *  - `during` are the batches the engine delivers before the timer fires and
 *    `drain` those it delivers after, before `aec.stop` returns;
 *  - `batchRms` is the per-batch RMS (a square root outside this model);
 *  - `fileOpens` says whether the output file could be created.
 * When `start` fails the engine delivers nothing, so no batch is replayed.
 */
module Recorder {
  import opened Samples
  import opened Checks
  import opened Session
  import opened Pcm
  import opened Wav

  /** The level the recording's RMS accumulator reaches over `bs`. */
  function RmsLevel(bs: seq<seq<real>>, batchRms: seq<real> -> real): (level: real)
    ensures 0.0 <= level
    ensures level == 0.0 || exists i :: 0 <= i < |bs| && bs[i] != [] && level == batchRms(bs[i])
  {
    if bs == [] then 0.0
    else
      var level := RmsLevel(bs[..|bs| - 1], batchRms);
      var last := bs[|bs| - 1];
      if last != [] && batchRms(last) > level then batchRms(last) else level
  }

  /** The RMS level never decreases as batches arrive and never goes below 0. */
  lemma {:induction false} RmsLevelMonotone(bs: seq<seq<real>>, k: nat, batchRms: seq<real> -> real)
    requires k <= |bs|
    ensures 0.0 <= RmsLevel(bs[..k], batchRms) <= RmsLevel(bs, batchRms)
  {
    if k < |bs| {
      assert bs[..|bs| - 1][..k] == bs[..k];
      RmsLevelMonotone(bs[..|bs| - 1], k, batchRms);
    } else {
      assert bs[..k] == bs;
      if bs != [] {
        RmsLevelMonotone(bs[..|bs| - 1], |bs| - 1, batchRms);
        assert bs[..|bs| - 1][..|bs| - 1] == bs[..|bs| - 1];
      }
    }
  }

  /** The level is at least the RMS of every non-empty batch: it is their maximum. */
  lemma {:induction false} RmsLevelIsMaximum(bs: seq<seq<real>>, batchRms: seq<real> -> real)
    ensures forall i :: 0 <= i < |bs| && bs[i] != [] ==> batchRms(bs[i]) <= RmsLevel(bs, batchRms)
  {
    if bs != [] {
      var init := bs[..|bs| - 1];
      RmsLevelIsMaximum(init, batchRms);
      forall i | 0 <= i < |bs| - 1 && bs[i] != []
        ensures batchRms(bs[i]) <= RmsLevel(bs, batchRms)
      {
        assert init[i] == bs[i];
      }
    }
  }

  /** The final statistics the recording prints (src/main.cpp:194-199). */
  datatype Stats = Stats(
    callbacks: int,
    totalFrames: nat,
    bufferSize: nat,
    maxAmplitude: real,
    rmsLevel: real)

  /** How a recording run ends. */
  datatype RecordOutcome =
    | StartFailed
    | EmptyCapture(stats: Stats)
    | FileOpenFailed(stats: Stats, allZero: bool)
    | Saved(stats: Stats, allZero: bool, maxVal: real, wav: seq<byte>, fileSize: nat)
    // `fileSize` is the figure `main` prints as the file size (src/main.cpp:264)

  /** The value `main` returns: 0 after saving the file, -1 on every failure. */
  function ExitCode(o: RecordOutcome): (code: int)
    ensures code == 0 || code == -1
    ensures code == 0 <==> o.Saved?
  {
    if o.Saved? then 0 else -1
  }

  /**
   * The "file size" `main` prints at src/main.cpp:264: 36 plus the data
   * bytes, which is the RIFF chunk size and not the length of the file.
   */
  function ReportedFileSize(sampleCount: nat): (size: nat)
    ensures size + 8 == FileSize(sampleCount)
    ensures RiffHeaderRest + 2 * sampleCount < 0x1_0000_0000 ==>
              size == MakeHeader(sampleCount).chunkSize as int
  {
    RiffHeaderRest + 2 * sampleCount
  }

  /** The printed figure is 8 bytes short of the bytes actually written. */
  lemma ReportedFileSizeIsShort(pcm: seq<int16>)
    ensures ReportedFileSize(|pcm|) == |WavFile(pcm)| - 8
    ensures ReportedFileSize(|pcm|) != |WavFile(pcm)|
  {
  }

  /**
   * `testMicrophone` (src/main.cpp:29-102): run the self-test session and
   * pass exactly when the accumulated peak exceeds 0.001f.
   */
  method SelfTest(startOk: bool, during: seq<seq<real>>, drain: seq<seq<real>>) returns (ok: bool)
    ensures ok <==> startOk && HasSignal(Peak(Flatten(during)))
    ensures ok <==> startOk &&
                    exists i :: 0 <= i < |Flatten(during)| && Abs(Flatten(during)[i]) > SignalThreshold
  {
    SignalIffLoudSample(Flatten(during));
    if !startOk {
      return false;
    }
    var session := new ProbeSession();
    for i := 0 to |during|
      invariant session.Valid() && session.active
      invariant session.delivered == during[..i]
    {
      assert during[..i + 1] == during[..i] + [during[i]];
      session.OnBatch(during[i]);
    }
    assert during[..|during|] == during;
    assert session.delivered[..session.appended] == during;
    session.Deactivate();
    ghost var peak := session.maxAmplitude;
    for j := 0 to |drain|
      invariant session.Valid() && !session.active
      invariant session.maxAmplitude == peak
    {
      session.OnBatch(drain[j]);
    }
    ok := session.maxAmplitude > SignalThreshold;
  }

  /**
   * The timed window of `main` (src/main.cpp:117-186): a fresh recording
   * session receives `during` while active, then the timer deactivates it.
   */
  method RecordWindow(during: seq<seq<real>>, batchRms: seq<real> -> real)
    returns (session: RecordingSession)
    ensures fresh(session) && session.Valid() && !session.active
    ensures session.delivered == during && session.buffer == Flatten(during)
    ensures session.rmsLevel == RmsLevel(during, batchRms)
  {
    session := new RecordingSession();
    for i := 0 to |during|
      invariant session.Valid() && session.active
      invariant session.delivered == during[..i]
      invariant session.rmsLevel == RmsLevel(during[..i], batchRms)
    {
      assert during[..i + 1] == during[..i] + [during[i]];
      assert during[..i + 1][..i] == during[..i];
      session.OnBatch(during[i], batchRms(during[i]));
    }
    assert during[..|during|] == during;
    assert session.delivered[..session.appended] == during;
    session.Deactivate();
  }

  /**
   * The drain interval (src/main.cpp:189-192): batches still delivered after
   * deactivation are counted but change neither the buffer nor the maxima.
   */
  method Drain(session: RecordingSession, drain: seq<seq<real>>, batchRms: seq<real> -> real)
    requires session.Valid() && !session.active
    modifies session
    ensures session.Valid() && !session.active
    ensures session.delivered == old(session.delivered) + drain
    ensures session.buffer == old(session.buffer)
    ensures session.maxAmplitude == old(session.maxAmplitude)
    ensures session.rmsLevel == old(session.rmsLevel)
  {
    for j := 0 to |drain|
      invariant session.Valid() && !session.active
      invariant session.delivered == old(session.delivered) + drain[..j]
      invariant session.buffer == old(session.buffer)
      invariant session.maxAmplitude == old(session.maxAmplitude)
      invariant session.rmsLevel == old(session.rmsLevel)
    {
      assert old(session.delivered) + drain[..j + 1] ==
             (old(session.delivered) + drain[..j]) + [drain[j]];
      session.OnBatch(drain[j], batchRms(drain[j]));
    }
    assert drain[..|drain|] == drain;
  }

  /**
   * The capture phase of `main` (src/main.cpp:117-199): the timed window,
   * the drain, then the buffer and the statistics as `main` reads them out.
   */
  method Capture(during: seq<seq<real>>, drain: seq<seq<real>>, batchRms: seq<real> -> real)
    returns (buffer: seq<real>, stats: Stats)
    ensures buffer == Flatten(during)
    ensures stats == Stats(|during| + |drain|, FrameCount(during + drain), |Flatten(during)|,
                           Peak(Flatten(during)), RmsLevel(during, batchRms))
    ensures stats.bufferSize <= stats.totalFrames
  {
    var session := RecordWindow(during, batchRms);
    Drain(session, drain, batchRms);
    PrefixWithinFrames(session.delivered, session.appended);
    buffer := session.buffer;
    stats := Stats(session.callbackCount, session.totalFrames, |session.buffer|,
                   session.maxAmplitude, session.rmsLevel);
  }

  /**
   * The end of `main` (src/main.cpp:201-268) on the captured `buffer`: fail
   * on an empty buffer, scan for silence, convert to PCM, write the file.
   */
  method Finish(buffer: seq<real>, stats: Stats, fileOpens: bool) returns (o: RecordOutcome)
    ensures o != StartFailed && o.stats == stats
    ensures buffer == [] <==> o.EmptyCapture?
    ensures buffer != [] ==> (o.FileOpenFailed? || o.Saved?) && o.allZero == AllSilent(buffer)
    ensures buffer != [] && !fileOpens ==> o.FileOpenFailed?
    ensures buffer != [] && fileOpens ==>
              o.Saved? && o.maxVal == Peak(buffer) && o.wav == WavFile(Quantized(buffer))
    ensures o.Saved? ==> o.fileSize == ReportedFileSize(|buffer|) && o.fileSize == |o.wav| - 8
  {
    if |buffer| == 0 {
      return EmptyCapture(stats);
    }
    var allZero, maxVal := ScanBuffer(buffer);
    var pcm := ToPcm(buffer);
    assert pcm == Quantized(buffer);
    if !fileOpens {
      return FileOpenFailed(stats, allZero);
    }
    var header := MakeHeader(|pcm|);
    var bytes := EncodeHeader(header) + EncodePcm(pcm);
    ReportedFileSizeIsShort(pcm);
    o := Saved(stats, allZero, maxVal, bytes, ReportedFileSize(|pcm|));
  }

  /** `main` (src/main.cpp:104-268): start, capture, then finish the run. */
  method Record(startOk: bool, during: seq<seq<real>>, drain: seq<seq<real>>,
                batchRms: seq<real> -> real, fileOpens: bool)
    returns (o: RecordOutcome)
    ensures !startOk <==> o == StartFailed
    ensures startOk ==>
              o.stats == Stats(|during| + |drain|, FrameCount(during + drain), |Flatten(during)|,
                               Peak(Flatten(during)), RmsLevel(during, batchRms))
    ensures startOk ==> o.stats.bufferSize <= o.stats.totalFrames
    ensures startOk && Flatten(during) == [] ==> o.EmptyCapture?
    ensures startOk && Flatten(during) != [] ==>
              (o.FileOpenFailed? || o.Saved?) && o.allZero == AllSilent(Flatten(during))
    ensures startOk && Flatten(during) != [] && fileOpens ==>
              o.Saved? && o.maxVal == Peak(Flatten(during)) &&
              o.wav == WavFile(Quantized(Flatten(during)))
    ensures o.Saved? ==> o.fileSize == ReportedFileSize(|Flatten(during)|) && o.fileSize == |o.wav| - 8
    ensures ExitCode(o) == 0 <==> startOk && Flatten(during) != [] && fileOpens
  {
    if !startOk {
      return StartFailed;
    }
    var buffer, stats := Capture(during, drain, batchRms);
    o := Finish(buffer, stats, fileOpens);
  }
}
