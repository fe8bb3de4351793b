/**
  * `DetectTones.validate_freq` and `DetectTones.detect_tones` of
  * twotonedecoder.py: a pair of tone frequencies becomes a dispatch code,
  * 0 (no dispatch), 1 (a two-tone pattern of no known department) or
  * 2 (a configured department's pair).
  */
module ToneClassifier {
  import opened Settings

  function Abs(x: real): (r: real)
    ensures r >= 0.0 && (r == x || r == -x)
  {
    if x < 0.0 then -x else x
  }

  /** A single tone frequency inside [MinFreq, MaxFreq], bounds included. */
  predicate ValidateFreq(freq: real)
  {
    freq >= MinFreq && freq <= MaxFreq
  }

  /** The span between the two tones is inside the configured window, bounds included. */
  predicate ValidSpan(freq1: real, freq2: real)
  {
    var span := Abs(freq2 - freq1);
    span >= MinToneFrequencyDifference && span <= MaxToneFrequencyDifference
  }

  /** The ordered pair is one of the configured department pairs. */
  predicate KnownPair(freq1: real, freq2: real)
  {
    (freq1, freq2) == FireDeptTones || (freq1, freq2) == EmsDeptTones
  }

  function DetectTones(freq1: real, freq2: real): (code: int)
    ensures 0 <= code <= 2
  {
    if ValidateFreq(freq1) && ValidateFreq(freq2) then
      if ValidSpan(freq1, freq2) then
        if (freq1, freq2) == FireDeptTones then 2
        else if (freq1, freq2) == EmsDeptTones then 2
        else 1
      else 0
    else 0
  }

  /**
    * The three outcomes exactly: nonzero iff both tones are in range and
    * their span is in its window; 2 iff, in addition, the ordered pair is
    * configured.
    */
  lemma ClassifierOutcomes(freq1: real, freq2: real)
    ensures DetectTones(freq1, freq2) != 0 <==>
      ValidateFreq(freq1) && ValidateFreq(freq2) && ValidSpan(freq1, freq2)
    ensures DetectTones(freq1, freq2) == 2 <==>
      DetectTones(freq1, freq2) != 0 && KnownPair(freq1, freq2)
  {
  }

  /**
    * Either tone outside [300, 3000], or a span outside [4, 15], gives 0;
    * inside those windows, bounds included, the code is nonzero.
    */
  lemma ClassifierZeroCases(freq1: real, freq2: real)
    ensures freq1 < 300.0 || freq1 > 3000.0 || freq2 < 300.0 || freq2 > 3000.0 ==>
      DetectTones(freq1, freq2) == 0
    ensures Abs(freq2 - freq1) < 4.0 || Abs(freq2 - freq1) > 15.0 ==>
      DetectTones(freq1, freq2) == 0
    ensures (300.0 <= freq1 <= 3000.0 && 300.0 <= freq2 <= 3000.0 &&
             4.0 <= Abs(freq2 - freq1) <= 15.0) ==> DetectTones(freq1, freq2) != 0
  {
  }

  /**
    * Matching is order-sensitive: swapping the tones never changes whether
    * the pair is a dispatch, but a configured pair played in reverse is an
    * unidentified one.
    */
  lemma ClassifierOrderSensitive(freq1: real, freq2: real)
    ensures (DetectTones(freq1, freq2) == 0) == (DetectTones(freq2, freq1) == 0)
    ensures KnownPair(freq1, freq2) ==> DetectTones(freq1, freq2) == 2 && DetectTones(freq2, freq1) == 1
  {
    assert Abs(freq2 - freq1) == Abs(freq1 - freq2);
  }

  /** The configured pairs and a few other pairs, worked out. */
  lemma ClassifierExamples()
    ensures DetectTones(435.0, 440.0) == 2
    ensures DetectTones(467.0, 461.0) == 2
    ensures DetectTones(440.0, 435.0) == 1
    ensures DetectTones(500.0, 510.0) == 1
    ensures DetectTones(500.0, 501.0) == 0
    ensures DetectTones(200.0, 210.0) == 0
  {
  }
}
