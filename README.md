# Two-tone paging decoder, modelled in Dafny

`twotonedecoder.py` listens for two-tone sequential paging alerts: a fire or
EMS dispatch is announced by two tones, one after the other, a few hertz
apart. The script reads an audio file in blocks of 2048 frames and, for each
block:

1. **Loudness gate and frequency estimate** (`schmitt`). A block with no
   energy, or quieter than the -70 dB squelch, gives the sentinel -1.
   Otherwise the function sets two trigger levels at 0.6 times the block's
   maximum and minimum. It scans the samples with a Schmitt trigger: the
   trigger arms when a sample reaches the upper level, and it is released at
   a falling crossing of the lower level. Each release is a counted
   crossing. The estimate is the number of periods between the first and the
   last counted crossing, divided by their distance in samples, times the
   sample rate.
2. **Smoothing buffer and tone sequence** (the loop of
   `DetectTones.detectWaveFile`). Each positive estimate is written into a
   buffer of `freqBufferSize` slots. The buffer's mean is accepted when its
   standard deviation is below 10 Hz. An accepted mean more than 4 Hz away
   from the previous one is a tone change and advances the tone index modulo
   2. Every change to index 1 classifies the pair (previous mean, current
   mean), both truncated to whole hertz.
3. **Classifier** (`DetectTones.detect_tones`). It returns 0 unless both
   tones lie in 300..3000 Hz and are 4..15 Hz apart, all bounds inclusive.
   It returns 2 for the ordered pairs (435, 440) and (467, 461), and 1 for
   any other pair. The first nonzero code ends the stream and becomes the
   result; an exhausted stream gives 0.

## Files

- `settings.dfy` (module `Settings`): the configuration constants.
- `frequency_estimator.dfy` (module `FrequencyEstimator`): the gate, the
  thresholds and the scan.
  - `Track` states the scan as a specification. Its state is the list of
    counted crossings.
  - The method `Schmitt` runs the scan as the source does, with
    `startpoint`, `endpoint` and `tc`. It is proved equal to
    `EstimateFrequency`.
  - `SquareWaveFrequency` proves that a square wave of half-period h
    measures exactly rate / (2h).
- `tone_classifier.dfy` (module `ToneClassifier`): `validate_freq` and
  `detect_tones`.
- `buffer_stats.dfy` (module `BufferStats`): numpy's `mean()` and the
  population variance behind `std()`.
- `tone_detection.dfy` (module `ToneDetection`): the streaming loop, in three
  parts.
  - A value `Session`, advanced by the function `StepSpec`. `Run` is the
    whole stream.
  - The class `ToneSession`. Its fields `freqBuffer` (an array), `freqIndex`,
    `mean`, `lastFreq` and `toneIndex` are the loop's variables, and its
    method `Step` updates them in place as `StepSpec` says.
  - The driver `DetectWaveFile`, which runs over the sample blocks of a file.

Exact arithmetic stands in for the source's floating point:

- The squelch test `20*log10(sqrt(S)/32768/n) < -70`, with S the sum of the
  squared samples, is the integer test `10^7 * S < 32768^2 * n^2`.
- `round(A*0.6)` is the integer nearest to 3A/5. That value is never a tie,
  so Python 2's rounding agrees with it.
- `std() < 10` is `Variance < 100`.

### Behaviour kept as the code has it

- `freqIndex` is never incremented, so every estimate overwrites slot 0 and
  the other slots stay 0. The buffer is therefore not a ring buffer: it is
  always `[f, 0, ..., 0]`. Its variance is `(n-1) * mean^2`, so with two or
  more slots a mean is accepted only when it is below 10 Hz.
  `WideBufferNeverDetects` proves that the stream result is then always 0.
  - Two or more slots means a sample rate of 20480 Hz or more, since the
    buffer size is `int(0.2 * rate / 2048)`.
  - So, for example, a 435 Hz tone followed by a 440 Hz tone in a 44.1 kHz
    file is not reported as a dispatch.
  - Only a single-slot buffer (rates from 10240 to 20479 Hz) follows the
    estimates; `SingleSlotFireDispatch` shows the fire code found that way.
- `toneIndex` starts at -1. The first tone change therefore moves it to 0
  and classifies nothing.
- The buffer size uses `int()`, which truncates, not rounding.
- `lastFreq` takes the current mean at the end of every block. This includes
  blocks whose estimate was rejected, where the mean is stale.
- When a classification returns a nonzero code, the loop returns before that
  copy, so `lastFreq` keeps its old value.
- The `endpoint > startpoint` guard of `schmitt` always holds (see
  `SummaryFrequency`). A block with fewer than two counted crossings
  measures 0 Hz.

## Model

| member | source | states |
|---|---|---|
| `FrequencyEstimator.SumSquares` | twotonedecoder.py:68-71 | the energy of a block is 0 exactly when every sample is 0 |
| `FrequencyEstimator.BelowSquelch` | twotonedecoder.py:73-76 | the -70 dB squelch test on `loudness`, stated exactly on integers as 10^7·S < 32768²·n²; `NoSignalIffGated` proves that this gate, with the energy gate, decides the sentinel |
| `FrequencyEstimator.Gated` | twotonedecoder.py:67-76 | the union of the two early returns of `schmitt`: zero energy or below squelch; `NoSignalIffGated` proves it is exactly when -1 comes out |
| `FrequencyEstimator.Max` | twotonedecoder.py:86 | the result is a sample of the block and no sample exceeds it |
| `FrequencyEstimator.Min` | twotonedecoder.py:87 | the result is a sample of the block and no sample is below it |
| `FrequencyEstimator.Threshold` | twotonedecoder.py:91-93 | the trigger level is the integer nearest to 0.6·a, less than half a unit away |
| `FrequencyEstimator.Track` | twotonedecoder.py:97-114 | the trigger flag and the list of counted crossings after the first n steps of the loop: an idle trigger arms on a sample at or above t1, an armed one counts a falling crossing of t2 and disarms; `TrackInvariant` and `TrackSquare` state its properties |
| `FrequencyEstimator.CycleFrequency` | twotonedecoder.py:115-119 | periods between the first and last crossing over their span in samples, times the rate, and 0 with fewer than two crossings; `CycleFrequencyBounds` and `CycleFrequencyZero` bound it |
| `FrequencyEstimator.EstimateFrequency` | twotonedecoder.py:67-139 | the value `schmitt` returns: -1 for a gated block, otherwise the cycle frequency of the crossings counted at the block's own thresholds; `Schmitt` is proved equal to it and `SquareWaveFrequency` proves it measures a square wave exactly |
| `FrequencyEstimator.TrackInvariant` | twotonedecoder.py:97-114 | every counted event is a falling crossing of t2 at a scanned index; crossings k places apart are at least 2k samples apart; a re-armed trigger is two samples past the last crossing |
| `FrequencyEstimator.Schmitt` | twotonedecoder.py:67-119 | the method returns the gated cycle frequency of the crossings, which is -1 or in [0, rate/2]; every read, including the look-ahead `data[j+1]`, is in bounds because the scan stops at `len(data)-2` |
| `FrequencyEstimator.SummaryFrequency` | twotonedecoder.py:108-119 | the source's `startpoint`, `endpoint` and `tc` always have `endpoint > startpoint`, and its division equals the periods-over-span frequency of the crossings |
| `FrequencyEstimator.SpanOfSpaced` | twotonedecoder.py:104-114 | k+1 counted crossings span at least 2k samples |
| `FrequencyEstimator.CycleFrequencyBounds` | twotonedecoder.py:118-119 | the measured frequency of properly spaced crossings lies in [0, rate/2] |
| `FrequencyEstimator.EstimateBounds` | twotonedecoder.py:67-119 | a result other than -1 lies between 0 and the Nyquist frequency rate/2 |
| `FrequencyEstimator.SilentBlockIsNoSignal` | twotonedecoder.py:68-71 | an all-zero block yields -1, whatever the squelch |
| `FrequencyEstimator.NoSignalIffGated` | twotonedecoder.py:67-76 | the result is -1 exactly when the block has no energy or is below squelch |
| `FrequencyEstimator.ZeroIffFewerThanTwoCrossings` | twotonedecoder.py:97-119 | a block that passes the gate measures exactly 0 Hz iff fewer than two crossings are counted (or the rate is 0), and a positive frequency otherwise |
| `FrequencyEstimator.SquareLevels` | twotonedecoder.py:85-93 | a square wave of amplitude A >= 2 has maximum A and minimum -A, and both trigger levels lie in (-A, A] |
| `FrequencyEstimator.SquareScanStep` | twotonedecoder.py:102-114 | one step of the loop on a square wave arms exactly at the first sample of a period and counts a crossing exactly at its last high sample |
| `FrequencyEstimator.TrackSquare` | twotonedecoder.py:97-114 | on a square wave of half-period h >= 2, at any levels in (-A, A], the k-th counted crossing is sample 2hk + h - 1, one per period |
| `FrequencyEstimator.SquareCycleFrequency` | twotonedecoder.py:115-119 | one crossing per period over at least three half-periods gives exactly rate/(2h) |
| `FrequencyEstimator.SquareWaveFrequency` | twotonedecoder.py:67-119 | a square wave of half-period h >= 2, amplitude A >= 2 and at least 3h+1 samples that passes the gate measures exactly rate/(2h), its true frequency |
| `ToneClassifier.ValidateFreq` | twotonedecoder.py:144-145 | a tone is valid in the inclusive window [300, 3000] Hz; `ClassifierOutcomes` and `ClassifierZeroCases` state how it decides the code |
| `ToneClassifier.Abs` | twotonedecoder.py:148 | the span is non-negative and equals the difference or its negation |
| `ToneClassifier.DetectTones` | twotonedecoder.py:147-170 | the code is always 0, 1 or 2 |
| `ToneClassifier.ClassifierOutcomes` | twotonedecoder.py:144-170 | nonzero iff both tones are in range and the span is in its window; 2 iff, in addition, the ordered pair is a configured one |
| `ToneClassifier.ClassifierZeroCases` | twotonedecoder.py:144-154 | a tone outside [300, 3000] or a span outside [4, 15] gives 0; both tones inside [300, 3000] and the span inside [4, 15], bounds included, give a nonzero code |
| `ToneClassifier.ClassifierOrderSensitive` | twotonedecoder.py:154-164 | swapping the tones keeps the zero/nonzero verdict, but a configured pair played in reverse gives 1 |
| `ToneClassifier.ClassifierExamples` | twotonedecoder.py:45-46 | (435,440) and (467,461) give 2; (440,435) and (500,510) give 1; (500,501) and (200,210) give 0 |
| `BufferStats.Mean` | twotonedecoder.py:213 | numpy's `mean()`: the sum over the number of slots; `ConstantBuffer` and `LeadingSlotStats` give its value on the buffers the loop builds |
| `BufferStats.SquaredDeviation` | twotonedecoder.py:209 | the sum of squared deviations is never negative |
| `BufferStats.Variance` | twotonedecoder.py:209-212 | the variance is non-negative, so comparing `std()` with 10 is comparing the variance with 100 |
| `BufferStats.ConstantBuffer` | twotonedecoder.py:209-213 | a buffer of identical values f has mean f and variance 0, so it is always accepted |
| `BufferStats.ConstantSums` | twotonedecoder.py:209-213 | identical values f sum to n·f with no deviation from f |
| `BufferStats.ZeroSums` | twotonedecoder.py:189 | zero-initialised slots add nothing to the sum and m² each to the squared deviation |
| `BufferStats.LeadingSlotStats` | twotonedecoder.py:208-213 | a buffer [f, 0, …, 0] of n slots has mean f/n and variance (n-1)·mean² |
| `ToneDetection.Trunc` | twotonedecoder.py:225 | rounds toward zero: within one unit of x, on x's side of zero |
| `ToneDetection.Stable` | twotonedecoder.py:209-212 | the `std() < 10` acceptance test, as variance below 100 (`Variance` is non-negative, so the two agree); `WideBufferStep` and `SingleSlotAcceptsEstimate` state when it holds |
| `ToneDetection.Initial` | twotonedecoder.py:185-192 | the set-up before the loop: a zeroed buffer of `freqBufferSize` slots, index 0, mean and `lastFreq` 0, tone index -1; `InitialWellFormed` proves it satisfies the loop invariant |
| `ToneDetection.StepSpec` | twotonedecoder.py:206-231 | one block keeps the buffer's capacity and `freqIndex` |
| `ToneDetection.InitialWellFormed` | twotonedecoder.py:185-192 | the initial state (zeroed buffer, `freqIndex` 0, means 0, `toneIndex` -1) satisfies the loop invariant |
| `ToneDetection.WellFormedMean` | twotonedecoder.py:213 | the mean of a reachable buffer is its slot-0 value divided by its size, so it lies between 0 and that value |
| `ToneDetection.StepPreservesWellFormed` | twotonedecoder.py:206-231 | a block keeps the invariant: `freqIndex` 0, slots other than 0 still 0, non-negative means, `toneIndex` in [-1, 2) |
| `ToneDetection.RunPreservesWellFormed` | twotonedecoder.py:194-234 | the invariant holds after any number of blocks |
| `ToneDetection.StepIgnoresNonPositive` | twotonedecoder.py:207-231 | a block with estimate <= 0 leaves buffer, mean and tone index unchanged, only copies mean into `lastFreq`, and gives 0 |
| `ToneDetection.StepWritesOneSlot` | twotonedecoder.py:189-208 | a positive estimate overwrites slot `freqIndex % size`, which is always slot 0; every other slot stays 0 |
| `ToneDetection.StepMean` | twotonedecoder.py:207-231 | the mean changes only on a positive estimate with buffer variance below 100, and then becomes the buffer's mean; a block that does not stop the stream ends with `lastFreq == mean` |
| `ToneDetection.StepToneIndex` | twotonedecoder.py:212-219 | the tone index changes exactly when an accepted mean is more than 4 Hz from `lastFreq`, to (index+1) % 2; -1 goes to 0, then it alternates 0, 1, 0, … and stays in [0, 2) |
| `ToneDetection.StepClassifies` | twotonedecoder.py:218-228 | a change to a nonzero index makes the code `detect_tones(trunc(lastFreq), trunc(mean))`; a nonzero code (always 1 or 2) comes only with such a change and leaves `lastFreq` unchanged |
| `ToneDetection.SingleSlotAcceptsEstimate` | twotonedecoder.py:207-213 | with a one-slot buffer every positive estimate becomes the mean |
| `ToneDetection.Run` | twotonedecoder.py:194-234 | the whole `while` loop over the block estimates: the first nonzero code ends it, an exhausted stream gives 0; `RunCodeRange`, `RunAppend` and `RunPreservesWellFormed` state its properties |
| `ToneDetection.RunCodeRange` | twotonedecoder.py:194-234 | the stream's result is 0, 1 or 2 |
| `ToneDetection.RunAppend` | twotonedecoder.py:225-234 | processing stops at the first nonzero code: later blocks change neither the result nor the final state; otherwise the stream continues from where the first part left it |
| `ToneDetection.WideBufferStep` | twotonedecoder.py:207-228 | with two or more slots an accepted mean stays below 10 Hz and a block never gives a nonzero code |
| `ToneDetection.MeanBelowTen` | twotonedecoder.py:209-212 | a variance (n-1)·m² below 100 with n >= 2 forces the mean below 10 |
| `ToneDetection.WideBufferRun` | twotonedecoder.py:194-234 | from any reachable state with two or more slots and mean below 10, the stream result is 0 |
| `ToneDetection.WideBufferNeverDetects` | twotonedecoder.py:188-234 | a detector with a buffer of two or more slots returns 0 for every stream of estimates |
| `ToneDetection.SingleSlotFireDispatch` | twotonedecoder.py:185-234 | with a one-slot buffer, silence then 435 Hz then 440 Hz gives code 2 |
| `ToneDetection.ToneSession.constructor` | twotonedecoder.py:185-192 | the new object's state is the initial state, and it satisfies the invariant |
| `ToneDetection.ToneSession.Step` | twotonedecoder.py:206-231 | updating the fields in place gives exactly the state and code of `StepSpec`, and keeps the invariant |
| `ToneDetection.Downmix` | twotonedecoder.py:200-204 | a stereo buffer becomes half as long and keeps the even-indexed samples, in order |
| `ToneDetection.Mono` | twotonedecoder.py:200-206 | the samples given to the estimator are never empty |
| `ToneDetection.DetectWaveFile` | twotonedecoder.py:172-234 | the result is the first nonzero code of the block estimates run through the state machine, or 0; it is always 0, 1 or 2 |

## Left out

- Audio and file input are not modelled: `wave.open`, `readframes`,
  `tell`/`getnframes`, `close` and the int16 decoding by `numpy.fromstring`.
  `DetectWaveFile` receives the blocks as sequences of integer samples,
  together with the sample rate and the channel count. The frame source
  never delivers an empty block, because the loop reads only while frames
  remain. The model therefore requires non-empty blocks; in the source,
  `max()` of an empty block would raise.
- For stereo input the model requires blocks of even length. An odd length
  would make `reshape(-1, 2)` raise; whole frames of a 16-bit stereo file
  never have one (other sample widths, decoded as int16, can).
- The buffer size `int(0.2 * rate / 2048)` is float arithmetic. It is taken
  as a parameter, and the model requires it to be positive. In the source a
  size of 0 (rates below 10240 Hz) raises a division by zero at the first
  positive estimate.
- Logging (`fileConfig`, every `logger` call) is left out. It does not affect
  control flow. The department's name is only logged, so a match is just
  code 2.
- Floating point is replaced by exact `real` and integer arithmetic, as
  described above. Rounding errors at the exact boundaries of the squelch,
  the variance test and the 4 Hz test are therefore not modelled.
- The squelch level is fixed at -70 dB, as a power ratio of 10^7. Other
  levels would need a logarithm.
- `FrequencyEstimator.EstimateFrequency`: accuracy is proved for exact
  square waves only (`SquareWaveFrequency`). For a sampled sine wave the
  crossing positions depend on rounding the wave to integer samples, so a
  bound on the error would need real-valued trigonometry, which is not
  modelled.
- Samples are unbounded integers; the 16-bit range is not enforced.
- The plotting block, the unused `schmitt` trace list and the unused `tones`
  variable are left out.
- The `__main__` argument handling and `sys.exit` are left out.
