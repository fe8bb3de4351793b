/** The configuration block at the top of twotonedecoder.py. */
module Settings {

  /** Number of tones measured in sequence before a new tone group starts. */
  const NumTones: int := 2

  /** Smallest and largest difference, in Hz, between the two tones of a code. */
  const MinToneFrequencyDifference: real := 4.0
  const MaxToneFrequencyDifference: real := 15.0

  /** Accepted frequency window of a single tone, in Hz (inclusive). */
  const MaxFreq: real := 3000.0
  const MinFreq: real := 300.0

  /** Largest standard deviation of the frequency buffer for its mean to count as one tone. */
  const MaxToneFreqStdDeviation: real := 10.0

  /** The configured department tone pairs, as ordered pairs. */
  const FireDeptTones: (real, real) := (435.0, 440.0)
  const EmsDeptTones: (real, real) := (467.0, 461.0)

  /** Full-scale magnitude of a 16-bit signed sample. */
  const FullScale: int := 32768

  /**
    * The squelch level of -70 dB as a power ratio: a block is below squelch
    * when 20 * log10(loudness) < -70, that is when loudness^2 < 10^-7.
    */
  const SquelchPowerRatio: int := 10_000_000
}
