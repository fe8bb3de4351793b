/**
  * The loudness gate and the hysteresis (Schmitt-trigger) cycle counter of
  * `schmitt` in twotonedecoder.py. A block of samples yields either the
  * no-signal sentinel -1 or an estimate of its dominant frequency in Hz.
  */
module FrequencyEstimator {
  import opened Settings

  /** The sentinel `schmitt` returns for a silent or squelched block. */
  const NoSignal: real := -1.0

  // ---------------------------------------------------------------------------
  // Loudness gate
  // ---------------------------------------------------------------------------

  /** Sum of the squared samples: (32768 * n * loudness)^2 of the source. */
  function SumSquares(s: seq<int>): (r: nat)
    ensures r == 0 <==> forall i :: 0 <= i < |s| ==> s[i] == 0
  {
    if s == [] then 0
    else
      var rest := SumSquares(s[1..]);
      assert s[0] * s[0] >= 0;
      assert s[0] != 0 ==> s[0] * s[0] > 0;
      assert forall i :: 1 <= i < |s| ==> s[i] == s[1..][i - 1];
      s[0] * s[0] + rest
  }

  /**
    * The dB squelch test: 20 * log10(sqrt(S) / 32768 / n) < -70, which for
    * S > 0 is the same as 10^7 * S < 32768^2 * n^2.
    */
  predicate BelowSquelch(s: seq<int>)
  {
    SquelchPowerRatio * SumSquares(s) < FullScale * FullScale * |s| * |s|
  }

  /** A block the gate rejects: zero loudness, or below squelch. */
  predicate Gated(s: seq<int>)
  {
    SumSquares(s) == 0 || BelowSquelch(s)
  }

  // ---------------------------------------------------------------------------
  // Thresholds
  // ---------------------------------------------------------------------------

  function Max(s: seq<int>): (m: int)
    requires |s| > 0
    ensures m in s
    ensures forall i :: 0 <= i < |s| ==> s[i] <= m
  {
    if |s| == 1 then s[0]
    else
      var r := Max(s[1..]);
      assert forall i :: 1 <= i < |s| ==> s[i] == s[1..][i - 1];
      if s[0] >= r then s[0] else r
  }

  function Min(s: seq<int>): (m: int)
    requires |s| > 0
    ensures m in s
    ensures forall i :: 0 <= i < |s| ==> m <= s[i]
  {
    if |s| == 1 then s[0]
    else
      var r := Min(s[1..]);
      assert forall i :: 1 <= i < |s| ==> s[i] == s[1..][i - 1];
      if s[0] <= r then s[0] else r
  }

  /**
    * The trigger level round(a * 0.6). The exact value 3a/5 has a fractional
    * part that is a multiple of 1/5, so it is never halfway between two
    * integers and every rounding rule picks the nearest one.
    */
  function Threshold(a: int): (t: int)
    ensures -5 < 10 * t - 6 * a < 5
  {
    var t := (6 * a + 5) / 10;
    assert 10 * t <= 6 * a + 5 < 10 * t + 10;
    assert 2 * (5 * t - 3 * a - 2) != 1;
    t
  }

  // ---------------------------------------------------------------------------
  // The hysteresis scan, as a specification
  // ---------------------------------------------------------------------------

  /**
    * The trigger state after the scan has looked at samples 0 .. n-1, and
    * the indices of the falling crossings of t2 it has counted so far.
    */
  datatype Hysteresis = Hysteresis(triggered: bool, crossings: seq<int>)

  /** A falling crossing of the lower threshold between samples j and j+1. */
  predicate IsFallingCrossing(data: seq<int>, t2: int, j: int)
    requires 0 <= j < |data| - 1
  {
    data[j] >= t2 && data[j + 1] < t2
  }

  /** The scan of `schmitt` over samples 0 .. n-1 (the loop reads j+1 too). */
  function Track(data: seq<int>, t1: int, t2: int, n: nat): Hysteresis
    requires n < |data|
  {
    if n == 0 then Hysteresis(false, [])
    else
      var h := Track(data, t1, t2, n - 1);
      var j := n - 1;
      if !h.triggered then Hysteresis(data[j] >= t1, h.crossings)
      else if IsFallingCrossing(data, t2, j) then Hysteresis(false, h.crossings + [j])
      else h
  }

  /** Two counted crossings k - i places apart are at least 2 * (k - i) samples apart. */
  ghost predicate Spaced(c: seq<int>)
  {
    forall i, k :: 0 <= i < k < |c| ==> c[i] + 2 * (k - i) <= c[k]
  }

  /**
    * What the scan keeps true: every counted event is a falling crossing at
    * an index already scanned, successive events are at least two samples
    * apart (after a crossing at j the trigger re-arms at j+1 at the earliest),
    * and a re-armed trigger is at least two samples past the last event.
    * These bounds hold for any pair of thresholds. With the block's own
    * thresholds t1 >= t2, so the sample just below t2 cannot re-arm and the
    * true spacing is at least three samples; the model proves only the
    * weaker spacing of two, which is enough for the rate/2 bound.
    */
  lemma {:induction false} TrackInvariant(data: seq<int>, t1: int, t2: int, n: nat)
    requires n < |data|
    ensures var c := Track(data, t1, t2, n).crossings;
      && Spaced(c)
      && (forall i :: 0 <= i < |c| ==> 0 <= c[i] < n && IsFallingCrossing(data, t2, c[i]))
      && (Track(data, t1, t2, n).triggered && |c| > 0 ==> c[|c| - 1] + 2 <= n)
  {
    if n > 0 {
      TrackInvariant(data, t1, t2, n - 1);
      var h := Track(data, t1, t2, n - 1);
      var c := h.crossings;
      var j := n - 1;
      if h.triggered && IsFallingCrossing(data, t2, j) {
        var c' := c + [j];
        forall i, k | 0 <= i < k < |c'| ensures c'[i] + 2 * (k - i) <= c'[k] {
          if k == |c| && i < |c| - 1 {
            assert c[i] + 2 * (|c| - 1 - i) <= c[|c| - 1];
          }
        }
      }
    }
  }

  /** The counted falling crossings of a whole block, at the block's own thresholds. */
  function Crossings(data: seq<int>): seq<int>
    requires |data| > 0
  {
    Track(data, Threshold(Max(data)), Threshold(Min(data)), |data| - 1).crossings
  }

  /**
    * The cycle frequency measured between the first and the last counted
    * crossing: (number of periods) / (their span in samples) * rate. With
    * fewer than two crossings no period is measured and the result is 0.
    */
  function CycleFrequency(rate: nat, c: seq<int>): real
  {
    if |c| >= 2 && c[|c| - 1] > c[0] then
      rate as real * ((|c| - 1) as real / (c[|c| - 1] - c[0]) as real)
    else 0.0
  }

  /** The value `schmitt` returns for a non-empty block. */
  function EstimateFrequency(data: seq<int>, rate: nat): real
    requires |data| > 0
  {
    if SumSquares(data) == 0 then NoSignal
    else if BelowSquelch(data) then NoSignal
    else CycleFrequency(rate, Crossings(data))
  }

  // ---------------------------------------------------------------------------
  // The scan as the source runs it
  // ---------------------------------------------------------------------------

  /**
    * `schmitt(data, rate)`: the gates, then one pass over samples
    * 0 .. |data|-2 keeping the trigger flag, the first and last crossing and
    * the cycle count. Every read, including the look-ahead data[j+1], is in
    * bounds.
    */
  method Schmitt(data: seq<int>, rate: nat) returns (freq: real)
    requires |data| > 0
    ensures freq == EstimateFrequency(data, rate)
    ensures freq == NoSignal || 0.0 <= freq <= rate as real / 2.0
  {
    if SumSquares(data) == 0 {
      return NoSignal;
    }
    if BelowSquelch(data) {
      return NoSignal;
    }
    var blockSize := |data| - 1;
    freq := 0.0;
    var t1 := Threshold(Max(data));
    var t2 := Threshold(Min(data));
    var startpoint, endpoint, tc := -1, 0, 0;
    var schmittTriggered := false;
    for j := 0 to blockSize
      invariant schmittTriggered == Track(data, t1, t2, j).triggered
      invariant Summarizes(Track(data, t1, t2, j).crossings, startpoint, endpoint, tc)
    {
      TrackInvariant(data, t1, t2, j);
      if !schmittTriggered {
        schmittTriggered := data[j] >= t1;
      } else if data[j] >= t2 && data[j + 1] < t2 {
        schmittTriggered := false;
        if startpoint == -1 {
          tc := 0;
          startpoint := j;
          endpoint := startpoint + 1;
        } else {
          endpoint := j;
          tc := tc + 1;
        }
      }
    }
    TrackInvariant(data, t1, t2, blockSize);
    if endpoint > startpoint {
      freq := rate as real * (tc as real / (endpoint - startpoint) as real);
    }
    SummaryFrequency(rate, Crossings(data), startpoint, endpoint, tc);
    CycleFrequencyBounds(rate, Crossings(data));
  }

  /**
    * The scan's variables `startpoint`, `endpoint` and `tc` as functions of
    * the counted crossings: -1, 0, 0 before the first; the first crossing, the
    * sample after it and 0 after one; the first, the last and the number of
    * periods between them after more.
    */
  ghost predicate Summarizes(c: seq<int>, startpoint: int, endpoint: int, tc: int)
  {
    && startpoint == (if c == [] then -1 else c[0])
    && tc == (if c == [] then 0 else |c| - 1)
    && endpoint == (if c == [] then 0 else if |c| == 1 then c[0] + 1 else c[|c| - 1])
  }

  /** The source's final division computes the cycle frequency of the crossings. */
  lemma SummaryFrequency(rate: nat, c: seq<int>, startpoint: int, endpoint: int, tc: int)
    requires Spaced(c) && Summarizes(c, startpoint, endpoint, tc)
    ensures endpoint > startpoint
    ensures rate as real * (tc as real / (endpoint - startpoint) as real) == CycleFrequency(rate, c)
  {
    if |c| >= 2 {
      SpanOfSpaced(c);
    }
  }

  // ---------------------------------------------------------------------------
  // Properties of the estimate
  // ---------------------------------------------------------------------------

  /** A spaced list of k + 1 crossings spans at least 2k samples. */
  lemma SpanOfSpaced(c: seq<int>)
    requires Spaced(c) && |c| >= 2
    ensures c[|c| - 1] - c[0] >= 2 * (|c| - 1)
  {
    assert c[0] + 2 * (|c| - 1 - 0) <= c[|c| - 1];
  }

  /** k periods over at least 2k samples are at most half the sample rate. */
  lemma HalfRateBound(rate: nat, k: nat, d: int)
    requires k >= 1 && d >= 2 * k
    ensures 0.0 <= rate as real * (k as real / d as real) <= rate as real / 2.0
  {
    var q := k as real / d as real;
    assert q <= 0.5;
    assert rate as real * (0.5 - q) >= 0.0;
  }

  /** The measured cycle frequency of spaced crossings lies between 0 and rate/2. */
  lemma CycleFrequencyBounds(rate: nat, c: seq<int>)
    requires Spaced(c)
    ensures 0.0 <= CycleFrequency(rate, c) <= rate as real / 2.0
  {
    if |c| >= 2 {
      SpanOfSpaced(c);
      var k, d := |c| - 1, c[|c| - 1] - c[0];
      HalfRateBound(rate, k, d);
      assert CycleFrequency(rate, c) == rate as real * (k as real / d as real);
    }
  }

  /** A non-sentinel estimate lies between 0 and the Nyquist frequency rate/2. */
  lemma EstimateBounds(data: seq<int>, rate: nat)
    requires |data| > 0
    ensures var f := EstimateFrequency(data, rate);
      f == NoSignal || 0.0 <= f <= rate as real / 2.0
  {
    TrackInvariant(data, Threshold(Max(data)), Threshold(Min(data)), |data| - 1);
    CycleFrequencyBounds(rate, Crossings(data));
  }

  /** An all-zero block is rejected by the first gate, whatever the squelch level. */
  lemma SilentBlockIsNoSignal(data: seq<int>, rate: nat)
    requires |data| > 0
    requires forall i :: 0 <= i < |data| ==> data[i] == 0
    ensures EstimateFrequency(data, rate) == NoSignal
  {
  }

  /** The sentinel comes out exactly for the blocks the gate rejects. */
  lemma NoSignalIffGated(data: seq<int>, rate: nat)
    requires |data| > 0
    ensures EstimateFrequency(data, rate) == NoSignal <==> Gated(data)
  {
    if !Gated(data) {
      TrackInvariant(data, Threshold(Max(data)), Threshold(Min(data)), |data| - 1);
      CycleFrequencyBounds(rate, Crossings(data));
      assert EstimateFrequency(data, rate) == CycleFrequency(rate, Crossings(data));
    }
  }

  /** Spaced crossings measure 0 Hz exactly when there are fewer than two, or the rate is 0. */
  lemma CycleFrequencyZero(rate: nat, c: seq<int>)
    requires Spaced(c)
    ensures CycleFrequency(rate, c) == 0.0 <==> (|c| < 2 || rate == 0)
  {
    if |c| >= 2 && rate > 0 {
      SpanOfSpaced(c);
      var q := (|c| - 1) as real / (c[|c| - 1] - c[0]) as real;
      assert q > 0.0;
      assert rate as real * q > 0.0;
    }
  }

  /**
    * A block that passes the gate measures exactly 0 Hz when fewer than two
    * crossings are counted (or the rate is 0), and a positive frequency
    * otherwise.
    */
  lemma ZeroIffFewerThanTwoCrossings(data: seq<int>, rate: nat)
    requires |data| > 0 && !Gated(data)
    ensures EstimateFrequency(data, rate) == 0.0 <==> (|Crossings(data)| < 2 || rate == 0)
    ensures !(|Crossings(data)| < 2 || rate == 0) ==> EstimateFrequency(data, rate) > 0.0
  {
    TrackInvariant(data, Threshold(Max(data)), Threshold(Min(data)), |data| - 1);
    CycleFrequencyZero(rate, Crossings(data));
    CycleFrequencyBounds(rate, Crossings(data));
  }

  // ---------------------------------------------------------------------------
  // Accuracy on a square wave
  // ---------------------------------------------------------------------------

  /** L samples of a square wave of amplitude A: h samples at A, h at -A, and so on. */
  function Square(A: int, h: nat, L: nat): seq<int>
    requires h >= 1
  {
    seq(L, i => if i % (2 * h) < h then A else -A)
  }

  /** k whole periods of length p plus an offset r in [0, p) leave the remainder r. */
  lemma ModOffset(k: int, p: int, r: int)
    requires p > 0 && 0 <= r < p
    ensures (k * p + r) % p == r
  {
    var x := k * p + r;
    var q, s := x / p, x % p;
    var d := q - k;
    assert d * p == r - s;
    if d >= 1 {
      assert d * p == p + (d - 1) * p;
    } else if d <= -1 {
      assert d * p == -p + (d + 1) * p;
    }
  }

  /** Sample r of period k of the square wave. */
  lemma SquareAt(A: int, h: nat, L: nat, k: int, r: int)
    requires h >= 1 && 0 <= r < 2 * h && 0 <= k * (2 * h) + r < L
    ensures Square(A, h, L)[k * (2 * h) + r] == if r < h then A else -A
  {
    ModOffset(k, 2 * h, r);
  }

  /**
    * The scan of a square wave after n samples, with m crossings counted:
    * crossing k is the last high sample h - 1 of period k, the next crossing
    * has not been reached, and the trigger is armed once period m has begun.
    */
  ghost predicate SquareScan(h: int, n: int, st: Hysteresis)
  {
    var m := |st.crossings|;
    && (forall k :: 0 <= k < m ==> st.crossings[k] == k * (2 * h) + h - 1)
    && m * (2 * h) - 2 * h + h - 1 < n <= m * (2 * h) + h - 1
    && (st.triggered <==> m * (2 * h) < n)
  }

  /**
    * One step of the scan keeps SquareScan: an idle trigger arms exactly at
    * the first sample of period m, an armed one counts a crossing exactly at
    * its last high sample, and otherwise nothing changes.
    */
  lemma SquareScanStep(h: nat, j: nat, st: Hysteresis)
    requires h >= 2 && SquareScan(h, j, st)
    ensures var mp := |st.crossings| * (2 * h);
      && (!st.triggered ==> SquareScan(h, j + 1, Hysteresis(j == mp, st.crossings)))
      && (st.triggered && j == mp + h - 1 ==> SquareScan(h, j + 1, Hysteresis(false, st.crossings + [j])))
      && (st.triggered && j != mp + h - 1 ==> SquareScan(h, j + 1, st))
  {
    var m := |st.crossings|;
    assert (m + 1) * (2 * h) == m * (2 * h) + 2 * h;
  }

  /**
    * For any thresholds strictly above -A and at most A, the scan of a square
    * wave with half-period h >= 2 counts one crossing per period, at the last
    * high sample of each.
    */
  lemma {:induction false} TrackSquare(A: int, h: nat, L: nat, t1: int, t2: int, n: nat)
    requires h >= 2 && n < L
    requires -A < t1 <= A && -A < t2 <= A
    ensures SquareScan(h, n, Track(Square(A, h, L), t1, t2, n))
  {
    if n > 0 {
      TrackSquare(A, h, L, t1, t2, n - 1);
      var st := Track(Square(A, h, L), t1, t2, n - 1);
      var m := |st.crossings|;
      var mp := m * (2 * h);
      var j := n - 1;
      SquareScanStep(h, j, st);
      if !st.triggered {
        if j == mp {
          SquareAt(A, h, L, m, 0);
        } else {
          assert (m - 1) * (2 * h) == mp - 2 * h;
          SquareAt(A, h, L, m - 1, j - (mp - 2 * h));
        }
      } else {
        SquareAt(A, h, L, m, j - mp);
        if j == mp + h - 1 {
          SquareAt(A, h, L, m, h);
        } else {
          SquareAt(A, h, L, m, j + 1 - mp);
        }
      }
    }
  }

  /** k periods over k * p samples, times the rate, is rate / p. */
  lemma PeriodRatio(rate: nat, k: nat, p: nat)
    requires k >= 1 && p >= 1
    ensures rate as real * (k as real / (k * p) as real) == rate as real / p as real
  {
    assert (k * p) as real == k as real * p as real;
    assert k as real / (k as real * p as real) == 1.0 / p as real;
  }

  /** A square wave's extremes are A and -A, so both trigger levels lie strictly inside (-A, A]. */
  lemma SquareLevels(A: int, h: nat, L: nat)
    requires h >= 1 && A >= 2 && L > h
    ensures Max(Square(A, h, L)) == A && Min(Square(A, h, L)) == -A
    ensures -A < Threshold(A) <= A && -A < Threshold(-A) <= A
  {
    var data := Square(A, h, L);
    assert data[0] == A;
    SquareAt(A, h, L, 0, h);
    assert data[h] == -A;
  }

  /** One crossing per period, over at least three half-periods, measures rate / (2h). */
  lemma SquareCycleFrequency(rate: nat, h: nat, n: nat, st: Hysteresis)
    requires h >= 2 && n >= 3 * h && SquareScan(h, n, st)
    ensures CycleFrequency(rate, st.crossings) == rate as real / (2 * h) as real
  {
    var c := st.crossings;
    var m := |c|;
    assert m >= 2;
    assert (m - 1) * (2 * h) == m * (2 * h) - 2 * h;
    assert c[0] == h - 1;
    assert c[m - 1] - c[0] == (m - 1) * (2 * h);
    PeriodRatio(rate, m - 1, 2 * h);
  }

  /**
    * The estimator measures a square wave exactly: a block of at least three
    * half-periods plus one sample, with half-period h >= 2 and amplitude
    * A >= 2, that passes the gate measures rate / (2h), its true frequency.
    */
  lemma SquareWaveFrequency(A: int, h: nat, L: nat, rate: nat)
    requires h >= 2 && A >= 2 && L >= 3 * h + 1
    requires !Gated(Square(A, h, L))
    ensures EstimateFrequency(Square(A, h, L), rate) == rate as real / (2 * h) as real
  {
    var data := Square(A, h, L);
    SquareLevels(A, h, L);
    var t1, t2 := Threshold(A), Threshold(-A);
    TrackSquare(A, h, L, t1, t2, L - 1);
    var st := Track(data, t1, t2, L - 1);
    SquareCycleFrequency(rate, h, L - 1, st);
    assert Crossings(data) == st.crossings;
  }
}
