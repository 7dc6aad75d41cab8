/** Bar layout of the spectrum analyzer: how many bars fit, which FFT bins
    each bar owns (the linear boundary table) and where each bar is drawn. */
module SpectrumLayout {
  import opened Rounding

  /** Frequencies (Hz) whose FFT bins bound the displayed range. */
  const MaximumFrequency: int := 20000
  const MinimumFrequency: int := 20
  /** Neither frequency index may exceed this bin. */
  const FrequencyIndexCap: int := 2047

  /** An axis-aligned rectangle, as drawn for one bar. */
  datatype Rect = Rect(x: real, y: real, width: real, height: real)

  function Min(a: int, b: int): int {
    if a < b then a else b
  }

  /** Last bin of the displayed range: one past the player's bin for 20 kHz,
      but never above 2047. `binOf` is the player's frequency-to-bin map. */
  function MaximumFrequencyIndex(binOf: int -> int): (r: int)
    ensures r <= FrequencyIndexCap && r <= binOf(MaximumFrequency) + 1
    ensures r == FrequencyIndexCap || r == binOf(MaximumFrequency) + 1
  {
    Min(binOf(MaximumFrequency) + 1, FrequencyIndexCap)
  }

  /** First bin of the displayed range: the player's bin for 20 Hz, capped at 2047. */
  function MinimumFrequencyIndex(binOf: int -> int): (r: int)
    ensures r <= FrequencyIndexCap && r <= binOf(MinimumFrequency)
    ensures r == FrequencyIndexCap || r == binOf(MinimumFrequency)
  {
    Min(binOf(MinimumFrequency), FrequencyIndexCap)
  }

  /** The effective bar count needs a division by BarWidth + BarSpacing when
      BarWidth is below one; that divisor must then not be zero. */
  predicate CountDefined(barWidth: real, barSpacing: real) {
    barWidth >= 1.0 || barWidth + barSpacing != 0.0
  }

  /** Effective bar count: BarCount when bars are at least one unit wide,
      otherwise as many bar slots (bar plus spacing) as fit after the left
      spacing, and never fewer than one. */
  function ActualBarCount(barCount: int, barWidth: real, barSpacing: real, canvasWidth: real): (n: int)
    requires barCount >= 1 && CountDefined(barWidth, barSpacing)
    ensures n >= 1
    ensures barWidth >= 1.0 ==> n == barCount
  {
    if barWidth >= 1.0 then barCount
    else
      var pitch := barWidth + barSpacing;
      var fit := Truncate((canvasWidth - barSpacing) / pitch);
      if fit > 1 then fit else 1
  }

  /** With narrow bars and a positive pitch, the effective bar count is the
      number of whole slots that fit after the left spacing, or one when not
      even two fit. */
  lemma ActualBarCountFits(barCount: int, barWidth: real, barSpacing: real, canvasWidth: real)
    requires barCount >= 1 && barWidth < 1.0 && barWidth + barSpacing > 0.0
    ensures var n := ActualBarCount(barCount, barWidth, barSpacing, canvasWidth);
      && (n > 1 ==>
            barSpacing + n as real * (barWidth + barSpacing) <= canvasWidth
            < barSpacing + (n + 1) as real * (barWidth + barSpacing))
      && (n == 1 ==> canvasWidth < barSpacing + 2.0 * (barWidth + barSpacing))
  {
    var pitch := barWidth + barSpacing;
    SlotBounds(canvasWidth - barSpacing, pitch, Truncate((canvasWidth - barSpacing) / pitch));
  }

  /** `fit` slots of size `pitch` fill `room` as far as whole slots go. */
  lemma SlotBounds(room: real, pitch: real, fit: int)
    requires pitch != 0.0 && fit == Truncate(room / pitch)
    ensures pitch > 0.0 && fit >= 1 ==> fit as real * pitch <= room < (fit + 1) as real * pitch
    ensures pitch > 0.0 && fit <= 1 ==> room < 2.0 * pitch
  {
    if pitch > 0.0 {
      var q := room / pitch;
      if fit >= 1 {
        ScaleBelow(q, room, pitch, fit as real);
        ScaleAbove(q, room, pitch, (fit + 1) as real);
      } else {
        ScaleAbove(q, room, pitch, 2.0);
      }
    }
  }

  /** f <= room / pitch means f * pitch <= room. */
  lemma ScaleBelow(q: real, room: real, pitch: real, f: real)
    requires pitch > 0.0 && q == room / pitch && f <= q
    ensures f * pitch <= room
  {
    assert q * pitch == room;
    ScaleDifference(q, f, pitch);
  }

  /** room / pitch < g means room < g * pitch. */
  lemma ScaleAbove(q: real, room: real, pitch: real, g: real)
    requires pitch > 0.0 && q == room / pitch && q < g
    ensures room < g * pitch
  {
    assert q * pitch == room;
    ScaleDifference(g, q, pitch);
  }

  lemma ScaleDifference(x: real, y: real, p: real)
    ensures (x - y) * p == x * p - y * p
  {
  }

  /** Dividing by a positive number keeps the order. */
  lemma QuotientMonotone(x1: real, x2: real, pitch: real)
    requires pitch > 0.0 && x1 <= x2
    ensures x1 / pitch <= x2 / pitch
  {
    var q1, q2 := x1 / pitch, x2 / pitch;
    if q2 < q1 {
      ScaleAbove(q2, x2, pitch, q1);
      assert false;
    }
  }

  /** A wider canvas never holds fewer bars (BarWidth below one). */
  lemma {:induction false} ActualBarCountMonotone(barCount: int, barWidth: real, barSpacing: real, w1: real, w2: real)
    requires barCount >= 1 && barWidth < 1.0 && barWidth + barSpacing > 0.0 && w1 <= w2
    ensures ActualBarCount(barCount, barWidth, barSpacing, w1) <= ActualBarCount(barCount, barWidth, barSpacing, w2)
  {
    QuotientMonotone(w1 - barSpacing, w2 - barSpacing, barWidth + barSpacing);
  }

  /** Math.Round(indexCount / barCount): the number of bins per bar. */
  function BucketSize(indexCount: int, barCount: int): int
    requires barCount >= 1
  {
    RoundHalfEven(indexCount, barCount)
  }

  /** barIndexMax: entry k is the last FFT bin owned by bar k. Bars 0..n-2 end
      at whole multiples of the rounded bucket size; the last bar always ends
      at the maximum frequency index, whatever the rounding did. */
  function BoundaryTable(minIdx: int, maxIdx: int, n: int): (table: seq<int>)
    requires n >= 1
    ensures |table| == n
    ensures table[n - 1] == maxIdx
    ensures forall k :: 0 <= k < n - 1 ==> table[k] == minIdx + (k + 1) * BucketSize(maxIdx - minIdx, n)
  {
    var size := BucketSize(maxIdx - minIdx, n);
    seq(n, k requires 0 <= k < n => if k < n - 1 then minIdx + (k + 1) * size else maxIdx)
  }

  predicate StrictlyIncreasing(s: seq<int>) {
    forall j, k :: 0 <= j < k < |s| ==> s[j] < s[k]
  }

  lemma MulStrict(x: int, y: int, b: int)
    requires b >= 1 && x < y
    ensures x * b < y * b
  {
  }

  /** When the rounded buckets do not overshoot the range, the boundaries
      strictly increase and every one lies inside (minIdx, maxIdx]. */
  lemma BoundariesIncreasing(minIdx: int, maxIdx: int, n: int)
    requires n >= 1
    requires BucketSize(maxIdx - minIdx, n) >= 1
    requires minIdx + (n - 1) * BucketSize(maxIdx - minIdx, n) < maxIdx
    ensures StrictlyIncreasing(BoundaryTable(minIdx, maxIdx, n))
    ensures forall k :: 0 <= k < n ==> minIdx < BoundaryTable(minIdx, maxIdx, n)[k] <= maxIdx
  {
    var size := BucketSize(maxIdx - minIdx, n);
    var table := BoundaryTable(minIdx, maxIdx, n);
    forall j, k | 0 <= j < k < n
      ensures table[j] < table[k]
    {
      if k < n - 1 {
        MulStrict(j + 1, k + 1, size);
      } else {
        MulMonotone(j + 1, n - 1, size);
      }
    }
    forall k | 0 <= k < n
      ensures minIdx < table[k] <= maxIdx
    {
      if k < n - 1 {
        MulMonotone(1, k + 1, size);
        MulMonotone(k + 1, n - 1, size);
      }
    }
  }

  /** A range that splits evenly into n buckets of w bins gets exactly the
      uniform partition: bar k ends at minIdx + (k + 1) * w. */
  lemma EvenSplit(minIdx: int, maxIdx: int, n: int, w: int)
    requires n >= 1 && maxIdx - minIdx == n * w
    ensures BucketSize(maxIdx - minIdx, n) == w
    ensures forall k :: 0 <= k < n ==> BoundaryTable(minIdx, maxIdx, n)[k] == minIdx + (k + 1) * w
  {
    assert TwiceError(maxIdx - minIdx, n, w) == 0;
    RoundHalfEvenUnique(maxIdx - minIdx, n, w);
  }

  /** Rounding up can push boundaries past the range: 928 bins over 159 bars
      (an 800-unit canvas with BarWidth 0 and BarSpacing 5) round to 6 bins
      per bar, so bar 154 would end at bin 931, beyond the last bin 929, and
      the table is no longer increasing. */
  lemma BoundaryOvershoot()
    ensures ActualBarCount(32, 0.0, 5.0, 800.0) == 159
    ensures BucketSize(928, 159) == 6
    ensures BoundaryTable(1, 929, 159)[154] == 931 > 929
    ensures BoundaryTable(1, 929, 159)[157] > BoundaryTable(1, 929, 159)[158]
  {
    assert TwiceError(928, 159, 6) < 159;
    RoundHalfEvenUnique(928, 159, 6);
  }

  /** Left edge of bar i: one unit right of the spacing, at pitch width + spacing. */
  function BarX(barSpacing: real, barWidth: real, i: nat): real {
    barSpacing + barWidth * i as real + barSpacing * i as real + 1.0
  }

  /** The rectangles a fresh layout creates: one per bar, zero high, sitting on
      the bottom edge of the canvas. */
  function InitialRects(n: nat, barSpacing: real, barWidth: real, height: real): (rects: seq<Rect>)
    ensures |rects| == n
    ensures forall i :: 0 <= i < n ==> rects[i].height == 0.0 && rects[i].y == height
    ensures forall i :: 0 <= i < n ==> rects[i].width == barWidth
  {
    seq(n, i requires 0 <= i < n => Rect(BarX(barSpacing, barWidth, i), height, barWidth, 0.0))
  }
}
