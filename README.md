# AudioAEC capture core, modelled in Dafny

AudioAEC records ten seconds of echo-cancelled microphone audio and saves it as
a 16-bit mono 48 kHz WAV file. This project models the logic of
`src/main.cpp`:

- **Capture sessions.** The self-test (`testMicrophone`) and the recording
  (`main`) each register a callback that the audio engine calls once per
  batch of samples. Each callback counts the call, and while the session is
  active it merges the batch's peak (and, for the recording, its RMS) into
  running maxima and appends the batch to a growing buffer. The recording
  also counts every frame delivered. `Session.ProbeSession` and
  `Session.RecordingSession` are classes with those fields. `OnBatch` is one
  callback invocation. `Deactivate` is the control thread clearing the
  `testing`/`recording` flag. A ghost history of delivered batches states
  what the counters and the buffer mean. Run one at a time, each
  compare-and-swap retry loop leaves `max(current, batch value)`.
  `main` never calls `testMicrophone`: the program defines it at
  src/main.cpp:29 but does not run it. `Recorder.SelfTest` models it as
  written.
- **End-of-run checks.** These are the self-test verdict (peak > 0.001f) and
  the all-silent scan (every |sample| ≤ 1e-6) (module `Checks`). The
  empty-buffer failure is decided in `Recorder.Finish`. The thresholds are the exact binary values of the
  literals: 0.001f is 8589935/2^33 and the double 1e-6 is
  4722366482869645/2^72.
- **PCM conversion and WAV output.** Each sample is clamped to [-1, 1],
  multiplied by 32767 and truncated toward zero (module `Pcm`). The 44-byte
  RIFF/WAVE header and the little-endian sample data are spelled out as bytes
  (module `Wav`). The header's size fields wrap modulo 2^32, as the
  `uint32_t` fields do.
- **The two runs** (module `Recorder`). The engine's `start` result, the
  batches it delivers before and after the timer fires, the per-batch RMS and
  whether the output file opens are all parameters.

Samples are `real`. Taking an absolute value and comparing floats are exact,
so peaks and thresholds are faithful. The single-precision product
`sample * 32767.0f` is modelled as the exact product before truncation.

## Model

| member | source | states |
|---|---|---|
| `Samples.Abs` | src/main.cpp:47 | std::abs gives a non-negative value that is the sample or its negation |
| `Samples.Max` | src/main.cpp:47 | std::max's result is at least both arguments and is one of them |
| `Samples.Peak` | src/main.cpp:45-48 | the peak accumulator starts at 0 and is never negative |
| `Samples.PeakIsMaximum` | src/main.cpp:45-51 | the peak bounds every \|sample\| and is attained by one of them when there are samples |
| `Samples.PeakConcat` | src/main.cpp:141-148 | merging a batch's peak into the running maximum gives the peak of the buffer extended by that batch |
| `Samples.BatchPeak` | src/main.cpp:130-135 | the per-batch loop computes the batch's peak |
| `Samples.Flatten` | src/main.cpp:148 | the buffer built by the `insert` appends: the batches one after another in delivery order, so a single batch is taken as it is and batches without samples leave it empty |
| `Samples.DeliveryStep` | src/main.cpp:124-148 | one more callback adds its frames to the total; while active the buffer grows by exactly that batch, otherwise it is unchanged; the buffer never exceeds the frames delivered |
| `Samples.FlattenLength` | src/main.cpp:125-148 | concatenating the delivered batches loses and duplicates nothing: its length is the sum of the frame counts |
| `Samples.FrameCount` | src/main.cpp:126 | the `totalFrames` counter over the deliveries: the sum of their frame counts, so one batch counts its length and the latest batch is always counted in full; `Samples.FlattenLength` proves it is the length of the concatenated buffer |
| `Samples.FrameCountPrefix` | src/main.cpp:126-128 | frames counted for a prefix of the deliveries never exceed those of all deliveries |
| `Samples.PrefixWithinFrames` | src/main.cpp:126-148 | samples appended from the active prefix never exceed `totalFrames` |
| `Checks.HasSignal` | src/main.cpp:88 | the self-test's verdict compares against the float 0.001f, which lies just above 0.001: a pass needs a peak above 0.001, and any peak from 0.0010000001 passes |
| `Checks.AllSilent` | src/main.cpp:211-218 | the condition behind `allZero`, compared against the double 1e-6, which lies just below 0.000001: a silent buffer has every sample strictly inside ±0.000001, and a buffer within ±0.00000099999999 is silent |
| `Checks.SignalIffLoudSample` | src/main.cpp:88-101 | the self-test passes exactly when some captured sample has \|x\| > 0.001f |
| `Checks.SilentIffQuietPeak` | src/main.cpp:211-220 | the buffer is flagged all-zero exactly when its peak is ≤ 1e-6 |
| `Checks.ScanBuffer` | src/main.cpp:211-218 | the scan's `allZero` holds exactly when every \|sample\| ≤ 1e-6, and `maxVal` is the buffer's peak |
| `Session.ProbeSession.constructor` | src/main.cpp:33-36 | the self-test starts active with no calls, an empty buffer and a 0 peak |
| `Session.ProbeSession.OnBatch` | src/main.cpp:40-65 | one more call is counted; while active the batch is appended in order and the peak becomes max(old, batch peak); once inactive the buffer and peak are unchanged; the peak never decreases; the invariant buffer = active deliveries, peak = Peak(buffer) is kept |
| `Session.ProbeSession.Deactivate` | src/main.cpp:78 | clears `testing` and changes nothing else |
| `Session.RecordingSession.constructor` | src/main.cpp:118-122 | the recording starts active with zero counters, an empty buffer, and a peak and RMS of 0 |
| `Session.RecordingSession.OnBatch` | src/main.cpp:124-170 | `callbackCount` grows by 1 and `totalFrames` by the batch length whether active or not; while active the batch is appended in order, the peak becomes max(old, batch peak), and the RMS level is replaced only by a strictly larger value from a non-empty batch; once inactive the buffer and both maxima are unchanged; \|buffer\| ≤ totalFrames |
| `Session.RecordingSession.Deactivate` | src/main.cpp:186 | clears `recording` and changes nothing else |
| `Pcm.Clamp` | src/main.cpp:234 | the clamped sample lies in [-1, 1]: it is the sample when in range and the nearer bound otherwise |
| `Pcm.Trunc` | src/main.cpp:235 | the int conversion truncates toward zero: the result is the integer on the side of zero within 1 of the value |
| `Pcm.Quantize` | src/main.cpp:234-235 | each code lies in [-32767, 32767], never has the opposite sign of the sample (samples within 1/32767 of 0 give 0) and is Clamp(x)·32767 truncated toward zero |
| `Pcm.Quantized` | src/main.cpp:231-236 | the `pcmBuffer` values: `Quantize` applied to each sample, in order, so it has the buffer's length and every code lies in [-32767, 32767] |
| `Pcm.QuantizeFullScale` | src/main.cpp:234-235 | samples ≥ 1 map to 32767, samples ≤ -1 to -32767, and 0 to 0 |
| `Pcm.QuantizeOdd` | src/main.cpp:234-235 | negating a sample negates its code |
| `Pcm.QuantizeMonotone` | src/main.cpp:234-235 | a larger sample never gets a smaller code |
| `Pcm.QuantizeRoundTrip` | src/main.cpp:234-235 | code/32767 is within 1/32767 of the clamped sample |
| `Pcm.RoundTripErrorExceedsOne32768th` | src/main.cpp:234-235 | the in-range sample 0.99999/32767 converts to 0, so it reads back more than 1/32768 away |
| `Pcm.ToPcm` | src/main.cpp:231-236 | the PCM buffer has the buffer's length, and each entry is the quantised sample at that index |
| `Wav.FromLittleEndian` | src/main.cpp:253 | a little-endian field of w bytes holds a value below 256^w |
| `Wav.LittleEndian` | src/main.cpp:253 | a field's w bytes have length w and read back as the field's value |
| `Wav.LittleEndianOfValue` | src/main.cpp:253 | reading w bytes and writing them back gives the same bytes |
| `Wav.MakeHeader` | src/main.cpp:248-250 | the header is PCM, mono, 48000 Hz, 16-bit; byteRate = rate·channels·bits/8 and blockAlign = channels·bits/8; dataChunkSize = 2n and chunkSize = 36 + dataChunkSize, both mod 2^32, and exact when 36 + 2n < 2^32 |
| `Wav.EncodeHeader` | src/main.cpp:12-26 | the header is 44 bytes |
| `Wav.HeaderLayout` | src/main.cpp:12-26 | the four tags and every numeric field lie at their struct offsets, little-endian |
| `Wav.HeaderRoundTrip` | src/main.cpp:12-26 | decoding an encoded header gives it back |
| `Wav.HeaderDecodeEncode` | src/main.cpp:12-26 | any bytes that decode as a header are exactly that header's encoding |
| `Wav.SampleBits` | src/main.cpp:256-257 | a sample is written as its two's-complement 16-bit pattern |
| `Wav.EncodePcm` | src/main.cpp:256-257 | the data chunk is two bytes per sample |
| `Wav.PcmRoundTrip` | src/main.cpp:256-257 | the data chunk decodes to the samples written |
| `Wav.WavFile` | src/main.cpp:253-257 | the bytes written are 44 + 2n long; the first 44 decode to the header for n samples and the rest to the samples themselves |
| `Wav.FileSizeIsLength` | src/main.cpp:248-257 | the file written for n samples is 44 + 2n bytes |
| `Wav.DecodeHeaderPrefix` | src/main.cpp:253-257 | the data after the header does not disturb reading the header back |
| `Wav.WavFileLayout` | src/main.cpp:248-257 | while 36 + 2n < 2^32: chunkSize = file length − 8, dataChunkSize = file length − 44, and header and samples both read back from the file |
| `Recorder.RmsLevel` | src/main.cpp:144-145 | the level the RMS accumulator reaches is never negative, and is either its start value 0 or the RMS of one non-empty batch; `Recorder.RmsLevelIsMaximum` adds that it is at least every such batch's RMS, so it is their maximum |
| `Recorder.RmsLevelIsMaximum` | src/main.cpp:144-145 | the RMS level is at least the RMS of every non-empty batch delivered while active, so with `Recorder.RmsLevel` it is their maximum (0 when there is none) |
| `Recorder.RmsLevelMonotone` | src/main.cpp:144-145 | the RMS level is never negative and never decreases as batches arrive |
| `Recorder.ExitCode` | src/main.cpp:172-267 | `main` returns 0 exactly when it saved the file and -1 otherwise: on a start failure (line 174), an empty buffer (line 207) or an unopened file (line 244) |
| `Recorder.ReportedFileSize` | src/main.cpp:264 | the figure `main` prints as the file size is 8 less than the file length, and is the header's RIFF chunk size while 36 + 2n fits in 32 bits |
| `Recorder.ReportedFileSizeIsShort` | src/main.cpp:264 | the printed "file size" is the file length minus 8, never the file length |
| `Recorder.SelfTest` | src/main.cpp:29-102 | false at once when start fails; otherwise true exactly when the peak of the batches delivered while testing exceeds 0.001f, that is, when one of their samples does |
| `Recorder.RecordWindow` | src/main.cpp:117-186 | after the timed window the session is inactive, holds exactly the batches delivered, in order, and has the RMS level of those batches |
| `Recorder.Drain` | src/main.cpp:189-192 | batches delivered after deactivation are recorded as deliveries but leave the buffer, peak and RMS level unchanged |
| `Recorder.Capture` | src/main.cpp:117-199 | the buffer is the in-order concatenation of the batches delivered while active; the statistics count every call and every frame, drain included; the peak and RMS cover the active batches only; buffer size ≤ total frames |
| `Recorder.Finish` | src/main.cpp:201-268 | an empty buffer fails before conversion; otherwise `allZero` is the silence verdict, the file is not written when it cannot be opened, and when it is written its bytes are the header for n samples followed by the quantised samples, and the size it reports is 36 + 2n, the file length minus 8 |
| `Recorder.Record` | src/main.cpp:104-268 | a start failure returns -1 with no session; otherwise the statistics are as in `Capture`; the run returns 0 exactly when start succeeds, the active window captured samples and the file opens; the file is the WAV encoding of the quantised buffer, the reported size is 36 + 2n (the file length minus 8), and an all-silent buffer is flagged but still written |

## Findings

| source | as written | input that shows it | evidently intended | confidence | as-written member | corrected member |
|---|---|---|---|---|---|---|
| src/main.cpp:264 | prints `36 + 2n` as the file size, which is the RIFF chunk size | any recording, e.g. n = 0 samples: prints 36, but 44 bytes are written | the file length, 44 + 2n | medium, not executed | `Recorder.ReportedFileSize` (shown by `Recorder.ReportedFileSizeIsShort`) | `Wav.FileSize` (proved by `Wav.FileSizeIsLength`) |

## Notes on the code

- Converting a sample and reading the code back as code/32767 stays within
  1/32767 of the clamped sample (`Pcm.QuantizeRoundTrip`). Because the
  conversion truncates toward zero, some in-range samples are more than
  1/32768 away (`Pcm.RoundTripErrorExceedsOne32768th`).
- The self-test callback counts no frames and keeps no RMS level. Only the
  recording callback does, so there is one class per callback.

## Left out

- `src/AudioAECImpl.h`, `src/AudioAECWrapper.cpp`, `src/AudioAECWrapper.h`: the
  engine and its façade are calls into the Apple audio toolkit. Their
  implementation is not part of this model, so engine lifecycle properties
  (idempotent `stop`, refusing a second `start`) are left out. The engine
  appears only as the `startOk` result and the batches it delivers.
- Concurrency: atomics, the compare-and-swap retry loops as such, and thread
  interleaving. Each callback is one sequential `OnBatch` call. The timer
  and its 100 ms polling loops are one `Deactivate` call. The 500 ms drain is
  the `drain` batches.
- Per-batch RMS: the sum of squares, the division and `sqrt` are
  floating-point work, so the RMS arrives as a parameter. When a batch is
  empty the source computes 0/0 = NaN, which never compares greater. The
  model therefore skips the update for an empty batch.
- Floating-point rounding: NaN and infinities are not modelled. The product
  `sample * 32767.0f` is exact in the model.
- `Pcm.Quantize`: does not model the rounding of the single-precision product,
  so where that product rounds up to the next integer the source stores a
  code one larger in magnitude than the model. For example the float nearest
  1/32767, 2^-15 + 2^-30, times 32767.0f is 1 - 2^-30, which rounds to
  exactly 1.0f and converts to 1, while the model's exact product stays
  below 1 and gives 0. Samples near a multiple of 1/32767 are where the two
  can differ.
- Integer widths: `callbackCount` (a 32-bit `int`) and `totalFrames` (a
  `size_t`) are unbounded in the model. The uint32 header fields do wrap
  explicitly.
- Console output: the progress percentages, the final statistics printout and
  the every-100th-callback dump are left out. The model returns the
  statistics in `Recorder.Stats` instead. The dump reads `data[0]` to
  `data[4]` whatever the batch length, so on a batch with fewer than 5
  frames it reads past the batch. This is noted, not modelled.
- File I/O: opening, writing and closing the file. Whether the file opens is
  a parameter. The bytes written are `Wav.WavFile`, which assumes a
  little-endian target with no struct padding.
- `testDuration`/`recordDuration` and the clock: the split between `during`
  and `drain` batches stands for them.
