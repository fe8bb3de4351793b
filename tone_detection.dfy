/**
  * The streaming part of `DetectTones.detectWaveFile` in twotonedecoder.py:
  * per block, the frequency estimate is written into a buffer, the buffer's
  * mean is accepted when its standard deviation is small, a large enough
  * jump of the accepted mean advances the tone index, and every second tone
  * change classifies the pair (previous mean, current mean). A nonzero code
  * ends the stream.
  *
  * The source's loop variables are modelled twice: as the values of
  * `Session`, advanced by the function `StepSpec`, and as the fields of the
  * class `ToneSession`, whose method `Step` updates them in place and is
  * proved to do what `StepSpec` says.
  */
module ToneDetection {
  import opened Settings
  import opened BufferStats
  import opened ToneClassifier
  import opened FrequencyEstimator

  // ---------------------------------------------------------------------------
  // The state carried from block to block, as a value
  // ---------------------------------------------------------------------------

  datatype Session = Session(
    freqBuffer: seq<real>,
    freqIndex: nat,
    mean: real,
    lastFreq: real,
    toneIndex: int)

  /** The state after one block, and the code the block produced (0: go on). */
  datatype StepResult = StepResult(next: Session, code: int)

  /** The state before the first block: a zeroed buffer and tone index -1. */
  function Initial(freqBufferSize: nat): Session
  {
    Session(seq(freqBufferSize, _ => 0.0), 0, 0.0, 0.0, -1)
  }

  /** numpy.trunc: rounds toward zero. */
  function Trunc(x: real): (t: int)
    ensures x >= 0.0 ==> 0 <= t && t as real <= x < t as real + 1.0
    ensures x < 0.0 ==> t <= 0 && t as real - 1.0 < x <= t as real
  {
    if x >= 0.0 then x.Floor else -((-x).Floor)
  }

  /** `stddev < MAX_TONE_FREQ_STD_DEVIATION`, stated on the variance. */
  predicate Stable(buffer: seq<real>)
    requires |buffer| > 0
  {
    Variance(buffer) < MaxToneFreqStdDeviation * MaxToneFreqStdDeviation
  }

  /** The body of the `while` loop of `detectWaveFile`, after the estimate `freq` is known. */
  function StepSpec(s: Session, freq: real): (r: StepResult)
    requires |s.freqBuffer| > 0
    ensures |r.next.freqBuffer| == |s.freqBuffer| && r.next.freqIndex == s.freqIndex
  {
    if freq > 0.0 then
      var buffer := s.freqBuffer[s.freqIndex % |s.freqBuffer| := freq];
      if Stable(buffer) then
        var mean := Mean(buffer);
        if Abs(mean - s.lastFreq) > MinToneFrequencyDifference then
          var toneIndex := (s.toneIndex + 1) % NumTones;
          var code := if toneIndex == 0 then 0
                      else DetectTones(Trunc(s.lastFreq) as real, Trunc(mean) as real);
          if code > 0 then StepResult(Session(buffer, s.freqIndex, mean, s.lastFreq, toneIndex), code)
          else StepResult(Session(buffer, s.freqIndex, mean, mean, toneIndex), 0)
        else StepResult(Session(buffer, s.freqIndex, mean, mean, s.toneIndex), 0)
      else StepResult(Session(buffer, s.freqIndex, s.mean, s.mean, s.toneIndex), 0)
    else StepResult(s.(lastFreq := s.mean), 0)
  }

  /**
    * The whole loop over the per-block estimates: the first nonzero code is
    * the result; an exhausted stream gives 0.
    */
  function Run(s: Session, freqs: seq<real>): StepResult
    requires |s.freqBuffer| > 0
    decreases |freqs|
  {
    if freqs == [] then StepResult(s, 0)
    else
      var r := StepSpec(s, freqs[0]);
      if r.code > 0 then r else Run(r.next, freqs[1..])
  }

  // ---------------------------------------------------------------------------
  // The invariant of the loop
  // ---------------------------------------------------------------------------

  /**
    * What holds of every state the loop reaches: `freqIndex` is still 0, so
    * only slot 0 of the buffer has ever been written; the slot holds a
    * non-negative estimate; the means are non-negative; and the tone index is
    * -1 before the first tone change and in [0, NumTones) after it.
    */
  ghost predicate WellFormed(s: Session)
  {
    && |s.freqBuffer| > 0
    && s.freqIndex == 0
    && s.freqBuffer[0] >= 0.0
    && (forall i :: 1 <= i < |s.freqBuffer| ==> s.freqBuffer[i] == 0.0)
    && s.mean >= 0.0
    && s.lastFreq >= 0.0
    && -1 <= s.toneIndex < NumTones
  }

  lemma InitialWellFormed(freqBufferSize: nat)
    requires freqBufferSize > 0
    ensures WellFormed(Initial(freqBufferSize))
  {
  }

  /** The mean of a reachable buffer is its slot-0 value divided by its size. */
  lemma WellFormedMean(buffer: seq<real>)
    requires |buffer| > 0 && buffer[0] >= 0.0
    requires forall i :: 1 <= i < |buffer| ==> buffer[i] == 0.0
    ensures Mean(buffer) == buffer[0] / |buffer| as real
    ensures 0.0 <= Mean(buffer) <= buffer[0]
  {
    LeadingSlotStats(buffer, buffer[0]);
    var n := |buffer| as real;
    assert Mean(buffer) * n == buffer[0];
  }

  lemma StepPreservesWellFormed(s: Session, freq: real)
    requires WellFormed(s)
    ensures WellFormed(StepSpec(s, freq).next)
  {
    if freq > 0.0 {
      var buffer := s.freqBuffer[s.freqIndex % |s.freqBuffer| := freq];
      WellFormedMean(buffer);
    }
  }

  lemma {:induction false} RunPreservesWellFormed(s: Session, freqs: seq<real>)
    requires WellFormed(s)
    ensures WellFormed(Run(s, freqs).next)
    decreases |freqs|
  {
    if freqs != [] {
      StepPreservesWellFormed(s, freqs[0]);
      RunPreservesWellFormed(StepSpec(s, freqs[0]).next, freqs[1..]);
    }
  }

  // ---------------------------------------------------------------------------
  // One block
  // ---------------------------------------------------------------------------

  /** A block without a positive estimate only copies `mean` into `lastFreq`. */
  lemma StepIgnoresNonPositive(s: Session, freq: real)
    requires |s.freqBuffer| > 0 && freq <= 0.0
    ensures StepSpec(s, freq) == StepResult(s.(lastFreq := s.mean), 0)
  {
  }

  /**
    * A positive estimate overwrites slot `freqIndex % size` and nothing else
    * of the buffer; in a reachable state that is always slot 0.
    */
  lemma StepWritesOneSlot(s: Session, freq: real)
    requires WellFormed(s) && freq > 0.0
    ensures StepSpec(s, freq).next.freqBuffer == s.freqBuffer[0 := freq]
    ensures forall i :: 1 <= i < |s.freqBuffer| ==> StepSpec(s, freq).next.freqBuffer[i] == 0.0
  {
  }

  /**
    * The mean moves only on a positive estimate that leaves the buffer
    * stable, and then it becomes the buffer's mean; a block that does not
    * stop the stream ends with `lastFreq == mean`.
    */
  lemma StepMean(s: Session, freq: real)
    requires |s.freqBuffer| > 0
    ensures var r := StepSpec(s, freq);
      var buffer := s.freqBuffer[s.freqIndex % |s.freqBuffer| := freq];
      && (r.next.mean != s.mean ==> freq > 0.0 && Stable(buffer) && r.next.mean == Mean(buffer))
      && (freq > 0.0 && Stable(buffer) ==> r.next.mean == Mean(buffer))
      && (r.code == 0 ==> r.next.lastFreq == r.next.mean)
  {
  }

  /**
    * The tone index changes exactly when an accepted mean is more than
    * MinToneFrequencyDifference away from `lastFreq`, and then to
    * (index + 1) % NumTones. The first change goes from -1 to 0; later ones
    * alternate between 0 and 1.
    */
  lemma StepToneIndex(s: Session, freq: real)
    requires WellFormed(s)
    ensures var r := StepSpec(s, freq);
      var buffer := s.freqBuffer[s.freqIndex % |s.freqBuffer| := freq];
      && (freq > 0.0 && Stable(buffer) && Abs(Mean(buffer) - s.lastFreq) > MinToneFrequencyDifference ==>
            r.next.toneIndex == (s.toneIndex + 1) % NumTones)
      && (r.next.toneIndex != s.toneIndex ==>
            && freq > 0.0
            && Stable(buffer)
            && Abs(r.next.mean - s.lastFreq) > MinToneFrequencyDifference
            && r.next.toneIndex == (s.toneIndex + 1) % NumTones
            && r.next.toneIndex == (if s.toneIndex == -1 then 0 else 1 - s.toneIndex))
      && (s.toneIndex >= 0 ==> 0 <= r.next.toneIndex < NumTones)
  {
  }

  /**
    * A tone change to a nonzero index classifies (trunc(lastFreq),
    * trunc(mean)) and that classification is the block's code. A nonzero
    * code comes only from such a change, and it leaves `lastFreq` as it was:
    * the source returns before copying the mean.
    */
  lemma StepClassifies(s: Session, freq: real)
    requires |s.freqBuffer| > 0
    ensures var r := StepSpec(s, freq);
      var buffer := s.freqBuffer[s.freqIndex % |s.freqBuffer| := freq];
      && 0 <= r.code <= 2
      && (freq > 0.0 && Stable(buffer) && Abs(Mean(buffer) - s.lastFreq) > MinToneFrequencyDifference
          && (s.toneIndex + 1) % NumTones != 0 ==>
            r.code == DetectTones(Trunc(s.lastFreq) as real, Trunc(Mean(buffer)) as real))
      && (r.code != 0 ==>
            && freq > 0.0
            && Stable(buffer)
            && r.next.toneIndex != 0
            && r.next.toneIndex == (s.toneIndex + 1) % NumTones
            && Abs(r.next.mean - s.lastFreq) > MinToneFrequencyDifference
            && r.code == DetectTones(Trunc(s.lastFreq) as real, Trunc(r.next.mean) as real)
            && r.next.lastFreq == s.lastFreq)
  {
  }

  /** A single-slot buffer accepts every positive estimate as the new mean. */
  lemma SingleSlotAcceptsEstimate(s: Session, freq: real)
    requires WellFormed(s) && |s.freqBuffer| == 1 && freq > 0.0
    ensures StepSpec(s, freq).next.mean == freq
  {
    var buffer := s.freqBuffer[0 := freq];
    assert buffer == [freq];
    ConstantBuffer(buffer, freq);
  }

  // ---------------------------------------------------------------------------
  // The whole stream
  // ---------------------------------------------------------------------------

  /** The stream's first block, and the rest. */
  lemma RunFirst(s: Session, freqs: seq<real>)
    requires |s.freqBuffer| > 0 && freqs != []
    ensures var r := StepSpec(s, freqs[0]);
      Run(s, freqs) == if r.code > 0 then r else Run(r.next, freqs[1..])
  {
  }

  lemma {:induction false} RunCodeRange(s: Session, freqs: seq<real>)
    requires |s.freqBuffer| > 0
    ensures 0 <= Run(s, freqs).code <= 2
    decreases |freqs|
  {
    if freqs != [] {
      StepClassifies(s, freqs[0]);
      RunCodeRange(StepSpec(s, freqs[0]).next, freqs[1..]);
    }
  }

  /**
    * Processing stops at the first nonzero code: the blocks after it change
    * neither the result nor the final state; otherwise the stream continues
    * from where the first part left it.
    */
  lemma {:induction false} RunAppend(s: Session, a: seq<real>, b: seq<real>)
    requires |s.freqBuffer| > 0
    ensures |Run(s, a).next.freqBuffer| == |s.freqBuffer|
    ensures Run(s, a + b) == if Run(s, a).code > 0 then Run(s, a) else Run(Run(s, a).next, b)
    decreases |a|
  {
    if a != [] {
      var r := StepSpec(s, a[0]);
      assert (a + b)[0] == a[0];
      assert (a + b)[1..] == a[1..] + b;
      RunAppend(r.next, a[1..], b);
    } else {
      assert a + b == b;
    }
  }

  /**
    * With a buffer of two or more slots, an accepted mean is always below
    * 10 Hz: the buffer is [f, 0, ..., 0], its variance is (n - 1) * mean^2,
    * and that is below 100 only when mean < 10.
    */
  lemma WideBufferStep(s: Session, freq: real)
    requires WellFormed(s) && |s.freqBuffer| >= 2 && s.mean < 10.0
    ensures StepSpec(s, freq).next.mean < 10.0
    ensures StepSpec(s, freq).code == 0
  {
    if freq > 0.0 {
      var buffer := s.freqBuffer[0 := freq];
      if Stable(buffer) {
        LeadingSlotStats(buffer, freq);
        WellFormedMean(buffer);
        var m, v := Mean(buffer), Variance(buffer);
        var k := (|buffer| - 1) as real;
        assert v == k * (m * m);
        assert v < 100.0;
        MeanBelowTen(k, m);
        ClassifierZeroCases(Trunc(s.lastFreq) as real, Trunc(m) as real);
      }
    }
  }

  /** (n - 1) * m^2 < 100 with n >= 2 and m >= 0 forces m < 10. */
  lemma MeanBelowTen(k: real, m: real)
    requires k >= 1.0 && m >= 0.0 && k * (m * m) < 100.0
    ensures m < 10.0
  {
    assert (k - 1.0) * (m * m) >= 0.0;
    assert (10.0 - m) * (10.0 + m) > 0.0;
  }

  lemma {:induction false} WideBufferRun(s: Session, freqs: seq<real>)
    requires WellFormed(s) && |s.freqBuffer| >= 2 && s.mean < 10.0
    ensures Run(s, freqs).code == 0
    decreases |freqs|
  {
    if freqs != [] {
      WideBufferStep(s, freqs[0]);
      StepPreservesWellFormed(s, freqs[0]);
      WideBufferRun(StepSpec(s, freqs[0]).next, freqs[1..]);
    }
  }

  /**
    * Because `freqIndex` never advances, a detector whose buffer has two or
    * more slots (every sample rate of 20480 Hz and above) never reports a
    * dispatch, whatever the estimates.
    */
  lemma WideBufferNeverDetects(freqBufferSize: nat, freqs: seq<real>)
    requires freqBufferSize >= 2
    ensures Run(Initial(freqBufferSize), freqs).code == 0
  {
    WideBufferRun(Initial(freqBufferSize), freqs);
  }

  /**
    * With a single-slot buffer, silence, a 435 Hz block and a 440 Hz block
    * are the fire department's code: the first change starts the pair, the
    * second classifies it.
    */
  lemma SingleSlotFireDispatch()
    ensures Run(Initial(1), [-1.0, 435.0, 440.0]).code == 2
  {
    var s0 := Initial(1);
    assert s0.freqBuffer == [0.0];
    var s1 := StepSpec(s0, -1.0).next;
    assert s1 == Session([0.0], 0, 0.0, 0.0, -1);
    assert [0.0][0 := 435.0] == [435.0];
    ConstantBuffer([435.0], 435.0);
    var s2 := StepSpec(s1, 435.0).next;
    assert s2 == Session([435.0], 0, 435.0, 435.0, 0);
    assert [435.0][0 := 440.0] == [440.0];
    ConstantBuffer([440.0], 440.0);
    ClassifierExamples();
    assert StepSpec(s2, 440.0).code == 2;
    assert [-1.0, 435.0, 440.0][1..] == [435.0, 440.0];
    assert [435.0, 440.0][1..] == [440.0];
  }

  // ---------------------------------------------------------------------------
  // The same state, updated in place
  // ---------------------------------------------------------------------------

  class ToneSession {
    const freqBuffer: array<real>
    var freqIndex: nat
    var mean: real
    var lastFreq: real
    var toneIndex: int

    ghost function State(): Session
      reads this, freqBuffer
    {
      Session(freqBuffer[..], freqIndex, mean, lastFreq, toneIndex)
    }

    ghost predicate Valid()
      reads this, freqBuffer
    {
      WellFormed(State())
    }

    /** The set-up before the loop, for a buffer of `freqBufferSize` slots. */
    constructor (freqBufferSize: nat)
      requires freqBufferSize > 0
      ensures Valid() && fresh(freqBuffer)
      ensures State() == Initial(freqBufferSize)
    {
      freqBuffer := new real[freqBufferSize](_ => 0.0);
      freqIndex := 0;
      mean := 0.0;
      lastFreq := 0.0;
      toneIndex := -1;
      new;
      assert freqBuffer[..] == seq(freqBufferSize, _ => 0.0);
    }

    /** One pass of the loop body, given the block's estimate; returns the block's code. */
    method Step(freq: real) returns (code: int)
      requires Valid()
      modifies this, freqBuffer
      ensures Valid()
      ensures StepResult(State(), code) == StepSpec(old(State()), freq)
    {
      StepPreservesWellFormed(State(), freq);
      code := 0;
      if freq > 0.0 {
        freqBuffer[freqIndex % freqBuffer.Length] := freq;
        var variance := Variance(freqBuffer[..]);
        if variance < MaxToneFreqStdDeviation * MaxToneFreqStdDeviation {
          mean := Mean(freqBuffer[..]);
          if Abs(mean - lastFreq) > MinToneFrequencyDifference {
            toneIndex := (toneIndex + 1) % NumTones;
            if toneIndex != 0 {
              code := DetectTones(Trunc(lastFreq) as real, Trunc(mean) as real);
              if code > 0 {
                return;
              }
            }
          }
        }
      }
      lastFreq := mean;
    }
  }

  // ---------------------------------------------------------------------------
  // The driver over the blocks of a file
  // ---------------------------------------------------------------------------

  /** A block as the frame source delivers it: non-empty, and whole frames of two samples when stereo. */
  predicate IsFrameBlock(block: seq<int>, channels: nat)
  {
    |block| > 0 && (channels == 2 ==> |block| % 2 == 0)
  }

  /** Drops the second channel of interleaved stereo samples, keeping the even-indexed ones. */
  function Downmix(buf: seq<int>): (mono: seq<int>)
    requires |buf| % 2 == 0
    ensures |mono| == |buf| / 2
    ensures forall i :: 0 <= i < |mono| ==> mono[i] == buf[2 * i]
  {
    if buf == [] then []
    else
      var rest := Downmix(buf[2..]);
      assert forall i :: 1 <= i < |buf| / 2 ==> buf[2 * i] == buf[2..][2 * (i - 1)];
      [buf[0]] + rest
  }

  /** The samples the estimator sees for one block. */
  function Mono(block: seq<int>, channels: nat): (mono: seq<int>)
    requires IsFrameBlock(block, channels)
    ensures |mono| > 0
  {
    if channels == 2 then Downmix(block) else block
  }

  /** The estimate `schmitt` gives for each block. */
  function Estimates(blocks: seq<seq<int>>, rate: nat, channels: nat): seq<real>
    requires forall k :: 0 <= k < |blocks| ==> IsFrameBlock(blocks[k], channels)
  {
    seq(|blocks|, k requires 0 <= k < |blocks| => EstimateFrequency(Mono(blocks[k], channels), rate))
  }

  /**
    * `detectWaveFile` without the file: the blocks, the sample rate, the
    * channel count and the buffer size are given. The result is the first
    * nonzero code of the stream of estimates, or 0.
    */
  method DetectWaveFile(blocks: seq<seq<int>>, rate: nat, channels: nat, freqBufferSize: nat)
    returns (code: int)
    requires freqBufferSize > 0
    requires forall k :: 0 <= k < |blocks| ==> IsFrameBlock(blocks[k], channels)
    ensures code == Run(Initial(freqBufferSize), Estimates(blocks, rate, channels)).code
    ensures 0 <= code <= 2
  {
    ghost var freqs := Estimates(blocks, rate, channels);
    RunCodeRange(Initial(freqBufferSize), freqs);
    var session := new ToneSession(freqBufferSize);
    var i := 0;
    while i < |blocks|
      invariant 0 <= i <= |blocks|
      invariant session.Valid() && fresh(session.freqBuffer)
      invariant Run(Initial(freqBufferSize), freqs) == Run(session.State(), freqs[i..])
    {
      var buf := blocks[i];
      if channels == 2 {
        buf := Downmix(buf);
      }
      var freq := Schmitt(buf, rate);
      ghost var before := session.State();
      RunFirst(before, freqs[i..]);
      assert freqs[i..][0] == freq && freqs[i..][1..] == freqs[i + 1..];
      code := session.Step(freq);
      if code > 0 {
        return;
      }
      i := i + 1;
    }
    code := 0;
  }
}
