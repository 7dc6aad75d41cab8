/** One drawing pass of the spectrum analyzer (UpdateSpectrumShapes): FFT
    bins are walked from the minimum to the maximum frequency index, each
    bar's height is the largest bin height of its bucket, the per-bar peak
    follows the hold/decay rule and one rectangle per bar is redrawn.

    The pass is specified as a fold of `Step` over the bins; the analyzer's
    imperative loop is proved to compute exactly this fold. */
module SpectrumScan {
  import opened SpectrumLayout

  /** Decibel window mapped onto the canvas height. */
  const MinDb: real := -90.0
  const MaxDb: real := 0.0
  const DbScale: real := MaxDb - MinDb
  /** Weight of the old peak in the decay average. */
  const PeakFallDelay: int := 10
  /** A peak at or below this level counts as settled. */
  const PeakRestLevel: real := 0.05

  datatype AnimationStyle = Nervous | Gentle

  /** Height, in canvas units, of one FFT bin whose level is `db` decibels
      (20 log10 of its magnitude): -90 dB is the bottom, 0 dB the top. */
  function BinHeight(db: real, height: real): (r: real)
    ensures height >= 0.0 && MinDb <= db <= MaxDb ==> 0.0 <= r <= height
    ensures db == MaxDb ==> r == height
    ensures db == MinDb ==> r == 0.0
  {
    var fraction := (db - MinDb) / DbScale;
    FractionOfHeight(fraction, height);
    fraction * height
  }

  lemma FractionOfHeight(fraction: real, height: real)
    ensures height >= 0.0 && 0.0 <= fraction <= 1.0 ==> 0.0 <= fraction * height <= height
  {
    if height >= 0.0 && 0.0 <= fraction <= 1.0 {
      assert (1.0 - fraction) * height >= 0.0;
    }
  }

  /** Peak hold and decay: a rising bar lifts its peak at once, otherwise the
      peak decays towards the bar as the weighted average (h + 10 * peak) / 11. */
  function PeakUpdate(peak: real, h: real): (r: real)
    ensures h <= r
    ensures r <= (if peak < h then h else peak)
    ensures h < peak ==> r < peak
  {
    if peak < h then h
    else (h + PeakFallDelay as real * peak) / (PeakFallDelay + 1) as real
  }

  /** Heights of all FFT bins whose levels are given in decibels. */
  function BinHeights(levels: seq<real>, height: real): (r: seq<real>)
    ensures |r| == |levels|
    ensures forall j :: 0 <= j < |levels| ==> r[j] == BinHeight(levels[j], height)
  {
    seq(|levels|, j requires 0 <= j < |levels| => BinHeight(levels[j], height))
  }

  /** Everything a pass reads and does not change: whether the player is
      playing, the bin heights (BinHeights of the FFT levels, read only while
      playing), the canvas height, the drawing style and geometry, the
      frequency-index range and the boundary table. */
  datatype Pass = Pass(
    playing: bool,
    bins: seq<real>,
    height: real,
    style: AnimationStyle,
    barWidth: real,
    barSpacing: real,
    minIdx: int,
    maxIdx: int,
    table: seq<int>)

  /** State of a pass between two bins: the bar being filled, its running
      height, whether every peak drawn so far is settled, the peaks and
      rectangles, and whether an index fell out of range (the pass then stops
      where it is, its exception being swallowed). */
  datatype Scan = Scan(
    bar: nat,
    acc: real,
    allZero: bool,
    peaks: seq<real>,
    rects: seq<Rect>,
    aborted: bool)

  function Start(peaks: seq<real>, rects: seq<Rect>): Scan {
    Scan(0, 0.0, true, peaks, rects, false)
  }

  predicate Fits(p: Pass, peaks: seq<real>, rects: seq<Rect>) {
    |peaks| == |rects| == |p.table|
  }

  function Cap(x: real, height: real): real {
    if x > height then height else x
  }

  /** The running height after bin i: the larger of the two, never below zero. */
  function Accumulate(p: Pass, acc: real, i: int): real
    requires 0 <= i < |p.bins|
  {
    var v := p.bins[i];
    var a := if acc < v then v else acc;
    if a < 0.0 then 0.0 else a
  }

  /** Rectangle of bar `bar`: the Nervous style draws the bar's height, the
      Gentle style its peak; either way it hangs from y = height - 1 - drawn. */
  function DrawnRect(p: Pass, bar: nat, h: real, peak: real): Rect {
    var drawn := if p.style == Nervous then h else peak;
    Rect(BarX(p.barSpacing, p.barWidth, bar), (p.height - 1.0) - drawn, p.barWidth, drawn)
  }

  /** Processing of bin i. */
  function Step(p: Pass, s: Scan, i: int): (r: Scan)
    requires Fits(p, s.peaks, s.rects)
    ensures Fits(p, r.peaks, r.rects)
  {
    if s.aborted then s
    else if p.playing && !(0 <= i < |p.bins|) then s.(aborted := true)
    else
      var acc := if p.playing then Accumulate(p, s.acc, i) else 0.0;
      if s.bar >= |p.table| then s.(aborted := true)
      else if i != p.table[s.bar] then s.(acc := acc)
      else
        var h := Cap(acc, p.height);
        var peak := PeakUpdate(s.peaks[s.bar], h);
        Scan(s.bar + 1, 0.0, s.allZero && !(peak > PeakRestLevel),
             s.peaks[s.bar := peak], s.rects[s.bar := DrawnRect(p, s.bar, h, peak)], false)
  }

  /** A step that aborts changes nothing but the flag. */
  lemma StepAborts(p: Pass, s: Scan, i: int)
    requires Fits(p, s.peaks, s.rects) && !s.aborted
    ensures Step(p, s, i).aborted ==> Step(p, s, i) == s.(aborted := true)
  {
  }

  /** The pass after its first k bins. */
  function Scanned(p: Pass, peaks0: seq<real>, rects0: seq<Rect>, k: nat): (s: Scan)
    requires Fits(p, peaks0, rects0)
    ensures Fits(p, s.peaks, s.rects)
  {
    if k == 0 then Start(peaks0, rects0)
    else Step(p, Scanned(p, peaks0, rects0, k - 1), p.minIdx + (k - 1))
  }

  /** Number of bins from minIdx to maxIdx inclusive. */
  function BinCount(p: Pass): nat {
    if p.minIdx <= p.maxIdx then p.maxIdx - p.minIdx + 1 else 0
  }

  function FullPass(p: Pass, peaks0: seq<real>, rects0: seq<Rect>): Scan
    requires Fits(p, peaks0, rects0)
  {
    Scanned(p, peaks0, rects0, BinCount(p))
  }

  /** The timer is stopped after a pass that ran to its end while the player
      was not playing and no drawn peak was above the rest level. */
  predicate StopsTimer(p: Pass, s: Scan) {
    !s.aborted && s.allZero && !p.playing
  }

  // ---------------------------------------------------------------------------
  // What a pass computes

  /** First bin of bar b's bucket: the bin after the previous bar's last one. */
  function BucketStart(p: Pass, b: nat): int
    requires b <= |p.table|
  {
    if b == 0 then p.minIdx else p.table[b - 1] + 1
  }

  /** Largest bin height over bins lo..hi-1, and never below zero. */
  function BucketMax(p: Pass, lo: int, hi: int): (r: real)
    requires 0 <= lo <= hi <= |p.bins|
    ensures r >= 0.0
    decreases hi - lo
  {
    if lo == hi then 0.0
    else
      var m := BucketMax(p, lo, hi - 1);
      var v := p.bins[hi - 1];
      if m < v then v else m
  }

  /** BucketMax is the maximum of the bucket's bin heights, or zero when every
      one of them is below zero. */
  lemma {:induction false} BucketMaxIsMax(p: Pass, lo: int, hi: int)
    requires 0 <= lo <= hi <= |p.bins|
    ensures forall j :: lo <= j < hi ==> p.bins[j] <= BucketMax(p, lo, hi)
    ensures BucketMax(p, lo, hi) == 0.0 || exists j :: lo <= j < hi && BucketMax(p, lo, hi) == p.bins[j]
    decreases hi - lo
  {
    if lo < hi {
      BucketMaxIsMax(p, lo, hi - 1);
      if BucketMax(p, lo, hi) != 0.0 && BucketMax(p, lo, hi) != BucketMax(p, lo, hi - 1) {
        assert BucketMax(p, lo, hi) == p.bins[hi - 1];
      }
    }
  }

  /** Height bar b is drawn from: its bucket's maximum capped at the canvas
      height while playing, and zero while not playing. */
  function RawHeight(p: Pass, b: nat): real
    requires b < |p.table|
  {
    if !p.playing then Cap(0.0, p.height)
    else if 0 <= BucketStart(p, b) <= p.table[b] + 1 <= |p.bins| then
      Cap(BucketMax(p, BucketStart(p, b), p.table[b] + 1), p.height)
    else 0.0
  }

  /** Bucket bookkeeping after the first k bins: bar `bar` is being filled,
      its bucket starts at or before bin i = minIdx + k, and every bar before
      it has a bucket that lies wholly before bin i. */
  ghost predicate Bounds(p: Pass, k: nat, s: Scan) {
    var i := p.minIdx + k;
    && s.bar <= |p.table|
    && (p.playing && k > 0 ==> 0 <= p.minIdx && i <= |p.bins|)
    && p.minIdx <= BucketStart(p, s.bar) <= i
    && (forall b {:trigger BucketStart(p, b)} :: 0 <= b < s.bar ==> p.minIdx <= BucketStart(p, b) <= p.table[b] < i)
  }

  /** The running height is the maximum over the current bucket so far. */
  ghost predicate Running(p: Pass, k: nat, s: Scan)
    requires Bounds(p, k, s)
  {
    var i := p.minIdx + k;
    s.acc == (if p.playing && BucketStart(p, s.bar) < i then BucketMax(p, BucketStart(p, s.bar), i) else 0.0)
  }

  /** Bars before `bar` are drawn from their bucket's height and updated peak. */
  ghost predicate Drawn(p: Pass, peaks0: seq<real>, s: Scan)
    requires |peaks0| == |p.table| && Fits(p, s.peaks, s.rects) && s.bar <= |p.table|
  {
    forall b :: 0 <= b < s.bar ==>
      s.peaks[b] == PeakUpdate(peaks0[b], RawHeight(p, b))
      && s.rects[b] == DrawnRect(p, b, RawHeight(p, b), s.peaks[b])
  }

  /** Bars from `bar` on keep their peaks and rectangles. */
  ghost predicate Untouched(p: Pass, peaks0: seq<real>, rects0: seq<Rect>, s: Scan)
    requires Fits(p, peaks0, rects0) && Fits(p, s.peaks, s.rects)
  {
    forall b :: s.bar <= b < |p.table| ==> s.peaks[b] == peaks0[b] && s.rects[b] == rects0[b]
  }

  /** No peak among the first n is above the rest level. */
  predicate Quiet(peaks: seq<real>, n: nat)
    requires n <= |peaks|
  {
    forall b :: 0 <= b < n ==> peaks[b] <= PeakRestLevel
  }

  /** What holds after the first k bins of a pass that has not aborted. */
  ghost predicate Settled(p: Pass, peaks0: seq<real>, rects0: seq<Rect>, k: nat, s: Scan)
    requires Fits(p, peaks0, rects0)
  {
    && Fits(p, s.peaks, s.rects)
    && Bounds(p, k, s)
    && Running(p, k, s)
    && Drawn(p, peaks0, s)
    && Untouched(p, peaks0, rects0, s)
    && s.allZero == Quiet(s.peaks, s.bar)
  }

  /** Folding bin i into the running height extends the bucket maximum by one bin. */
  lemma AccumulateExtends(p: Pass, lo: int, i: int, acc: real)
    requires 0 <= lo <= i < |p.bins|
    requires acc == (if lo < i then BucketMax(p, lo, i) else 0.0)
    ensures Accumulate(p, acc, i) == BucketMax(p, lo, i + 1)
  {
    if lo == i {
      assert BucketMax(p, lo, i) == 0.0;
    }
  }

  /** Bin i does not end the current bar: only the running height changes. */
  lemma StepSettledWithin(p: Pass, peaks0: seq<real>, rects0: seq<Rect>, k: nat, s: Scan, acc: real)
    requires Fits(p, peaks0, rects0)
    requires !s.aborted && Settled(p, peaks0, rects0, k, s)
    requires s.bar < |p.table| && p.minIdx + k != p.table[s.bar]
    requires p.playing ==> 0 <= p.minIdx + k < |p.bins|
    requires acc == (if p.playing then BucketMax(p, BucketStart(p, s.bar), p.minIdx + k + 1) else 0.0)
    ensures Settled(p, peaks0, rects0, k + 1, s.(acc := acc))
  {
    var r := s.(acc := acc);
    WithinBounds(p, k, s, r);
    assert Drawn(p, peaks0, r);
    assert Untouched(p, peaks0, rects0, r);
  }

  /** Moving one bin on within the same bar keeps the bucket bookkeeping. */
  lemma WithinBounds(p: Pass, k: nat, s: Scan, r: Scan)
    requires Bounds(p, k, s) && r.bar == s.bar
    requires p.playing ==> 0 <= p.minIdx + k < |p.bins|
    ensures Bounds(p, k + 1, r)
  {
    var i := p.minIdx + k;
    forall b | 0 <= b < r.bar
      ensures p.minIdx <= BucketStart(p, b) <= p.table[b] < i + 1
    {
      assert BucketStart(p, b) <= p.table[b] < i;
    }
  }

  /** Bin i ends the current bar: the bar is drawn and the next bucket starts. */
  lemma StepSettledEnds(p: Pass, peaks0: seq<real>, rects0: seq<Rect>, k: nat, s: Scan, acc: real)
    requires Fits(p, peaks0, rects0)
    requires !s.aborted && Settled(p, peaks0, rects0, k, s)
    requires s.bar < |p.table| && p.minIdx + k == p.table[s.bar]
    requires p.playing ==> 0 <= p.minIdx + k < |p.bins|
    requires acc == (if p.playing then BucketMax(p, BucketStart(p, s.bar), p.minIdx + k + 1) else 0.0)
    ensures var h := Cap(acc, p.height);
            var peak := PeakUpdate(s.peaks[s.bar], h);
            Settled(p, peaks0, rects0, k + 1,
              Scan(s.bar + 1, 0.0, s.allZero && !(peak > PeakRestLevel),
                   s.peaks[s.bar := peak], s.rects[s.bar := DrawnRect(p, s.bar, h, peak)], false))
  {
    var b := s.bar;
    var h := Cap(acc, p.height);
    var peak := PeakUpdate(s.peaks[b], h);
    var r := Scan(b + 1, 0.0, s.allZero && !(peak > PeakRestLevel),
                  s.peaks[b := peak], s.rects[b := DrawnRect(p, b, h, peak)], false);
    EndsBounds(p, k, s, r);
    assert RawHeight(p, b) == h;
    assert s.peaks[b] == peaks0[b];
    EndsDrawn(p, peaks0, s, h, r);
    EndsUntouched(p, peaks0, rects0, s, peak, DrawnRect(p, b, h, peak), r);
    EndsAllZero(s, peak, r);
  }

  lemma EndsBounds(p: Pass, k: nat, s: Scan, r: Scan)
    requires Bounds(p, k, s) && s.bar < |p.table| && p.minIdx + k == p.table[s.bar]
    requires p.playing ==> 0 <= p.minIdx + k < |p.bins|
    requires r.bar == s.bar + 1 && r.acc == 0.0
    ensures Bounds(p, k + 1, r) && Running(p, k + 1, r)
  {
    var i := p.minIdx + k;
    assert BucketStart(p, r.bar) == i + 1;
    forall b | 0 <= b < r.bar
      ensures p.minIdx <= BucketStart(p, b) <= p.table[b] < i + 1
    {
      if b == s.bar {
        assert BucketStart(p, b) <= i;
      }
    }
  }

  lemma EndsDrawn(p: Pass, peaks0: seq<real>, s: Scan, h: real, r: Scan)
    requires |peaks0| == |p.table| && Fits(p, s.peaks, s.rects)
    requires s.bar < |p.table| && RawHeight(p, s.bar) == h && s.peaks[s.bar] == peaks0[s.bar]
    requires Drawn(p, peaks0, s)
    requires var peak := PeakUpdate(s.peaks[s.bar], h);
      r.bar == s.bar + 1 && r.peaks == s.peaks[s.bar := peak] && r.rects == s.rects[s.bar := DrawnRect(p, s.bar, h, peak)]
    ensures Fits(p, r.peaks, r.rects) && Drawn(p, peaks0, r)
  {
  }

  lemma EndsUntouched(p: Pass, peaks0: seq<real>, rects0: seq<Rect>, s: Scan, peak: real, rect: Rect, r: Scan)
    requires Fits(p, peaks0, rects0) && Fits(p, s.peaks, s.rects) && s.bar < |p.table|
    requires Untouched(p, peaks0, rects0, s)
    requires r.bar == s.bar + 1 && r.peaks == s.peaks[s.bar := peak] && r.rects == s.rects[s.bar := rect]
    ensures Fits(p, r.peaks, r.rects) && Untouched(p, peaks0, rects0, r)
  {
  }

  lemma EndsAllZero(s: Scan, peak: real, r: Scan)
    requires s.bar < |s.peaks|
    requires s.allZero == Quiet(s.peaks, s.bar)
    requires r.bar == s.bar + 1 && r.peaks == s.peaks[s.bar := peak]
    requires r.allZero == (s.allZero && !(peak > PeakRestLevel))
    ensures r.allZero == Quiet(r.peaks, r.bar)
  {
    if r.allZero {
      forall c | 0 <= c < r.bar ensures r.peaks[c] <= PeakRestLevel {
        if c < s.bar {
          assert r.peaks[c] == s.peaks[c];
        }
      }
    } else if !s.allZero {
      var c :| 0 <= c < s.bar && s.peaks[c] > PeakRestLevel;
      assert r.peaks[c] == s.peaks[c];
    } else {
      assert r.peaks[s.bar] == peak;
    }
  }

  lemma StepSettled(p: Pass, peaks0: seq<real>, rects0: seq<Rect>, k: nat, s: Scan)
    requires Fits(p, peaks0, rects0)
    requires !s.aborted && Settled(p, peaks0, rects0, k, s)
    requires !Step(p, s, p.minIdx + k).aborted
    ensures Settled(p, peaks0, rects0, k + 1, Step(p, s, p.minIdx + k))
  {
    var i := p.minIdx + k;
    var lo := BucketStart(p, s.bar);
    var acc := if p.playing then Accumulate(p, s.acc, i) else 0.0;
    if p.playing {
      AccumulateExtends(p, lo, i, s.acc);
    }
    if i == p.table[s.bar] {
      var h := Cap(acc, p.height);
      var peak := PeakUpdate(s.peaks[s.bar], h);
      assert Step(p, s, i) == Scan(s.bar + 1, 0.0, s.allZero && !(peak > PeakRestLevel),
        s.peaks[s.bar := peak], s.rects[s.bar := DrawnRect(p, s.bar, h, peak)], false);
      StepSettledEnds(p, peaks0, rects0, k, s, acc);
    } else {
      assert Step(p, s, i) == s.(acc := acc);
      StepSettledWithin(p, peaks0, rects0, k, s, acc);
    }
  }

  /** Every pass that has not aborted after k bins is Settled. */
  lemma {:induction false} PassInvariant(p: Pass, peaks0: seq<real>, rects0: seq<Rect>, k: nat)
    requires Fits(p, peaks0, rects0)
    ensures !Scanned(p, peaks0, rects0, k).aborted ==> Settled(p, peaks0, rects0, k, Scanned(p, peaks0, rects0, k))
  {
    if k > 0 {
      PassInvariant(p, peaks0, rects0, k - 1);
      StepKeepsSettled(p, peaks0, rects0, k - 1, Scanned(p, peaks0, rects0, k - 1), Scanned(p, peaks0, rects0, k));
    }
  }

  /** One step from a state that is aborted or Settled. */
  lemma StepKeepsSettled(p: Pass, peaks0: seq<real>, rects0: seq<Rect>, k: nat, s: Scan, t: Scan)
    requires Fits(p, peaks0, rects0) && Fits(p, s.peaks, s.rects)
    requires t == Step(p, s, p.minIdx + k)
    requires !s.aborted ==> Settled(p, peaks0, rects0, k, s)
    ensures !t.aborted ==> Settled(p, peaks0, rects0, k + 1, t)
  {
    if !t.aborted {
      StepSettled(p, peaks0, rects0, k, s);
    }
  }

  // ---------------------------------------------------------------------------
  // Properties of a whole pass

  /** The boundaries of the bars already drawn lie before bin minIdx + k. */
  lemma BoundariesBehind(p: Pass, k: nat, s: Scan)
    requires Bounds(p, k, s)
    ensures forall b :: 0 <= b < s.bar ==> p.table[b] < p.minIdx + k
  {
    forall b | 0 <= b < s.bar
      ensures p.table[b] < p.minIdx + k
    {
      assert BucketStart(p, b) <= p.table[b];
    }
  }

  /** Once a pass has aborted, the remaining bins change nothing. */
  lemma {:induction false} AbortedStays(p: Pass, peaks0: seq<real>, rects0: seq<Rect>, k: nat, j: nat)
    requires Fits(p, peaks0, rects0) && k <= j
    requires Scanned(p, peaks0, rects0, k).aborted
    ensures Scanned(p, peaks0, rects0, j) == Scanned(p, peaks0, rects0, k)
  {
    if j > k {
      AbortedStays(p, peaks0, rects0, k, j - 1);
    }
  }

  /** What a pass has done after k bins, aborted or not: the drawn bars are
      a prefix, each drawn from its bucket, their buckets end before bin
      minIdx + k, the other bars are untouched, and allZero says whether the
      drawn peaks are all at rest. */
  ghost predicate Shape(p: Pass, peaks0: seq<real>, rects0: seq<Rect>, k: nat, s: Scan)
    requires Fits(p, peaks0, rects0) && Fits(p, s.peaks, s.rects)
  {
    && s.bar <= |p.table|
    && (forall b :: 0 <= b < s.bar ==> p.table[b] < p.minIdx + k)
    && Drawn(p, peaks0, s)
    && Untouched(p, peaks0, rects0, s)
    && s.allZero == Quiet(s.peaks, s.bar)
  }

  /** Every pass has its Shape; an aborted pass keeps what it drew before the
      bad index. */
  lemma {:induction false} ScanShape(p: Pass, peaks0: seq<real>, rects0: seq<Rect>, k: nat)
    requires Fits(p, peaks0, rects0)
    ensures Shape(p, peaks0, rects0, k, Scanned(p, peaks0, rects0, k))
  {
    var s := Scanned(p, peaks0, rects0, k);
    if !s.aborted {
      PassInvariant(p, peaks0, rects0, k);
      SettledShape(p, peaks0, rects0, k, s);
    } else {
      ScanShape(p, peaks0, rects0, k - 1);
      var t := Scanned(p, peaks0, rects0, k - 1);
      assert s == Step(p, t, p.minIdx + (k - 1));
      AbortKeepsShape(p, peaks0, rects0, k - 1, t, s);
    }
  }

  lemma SettledShape(p: Pass, peaks0: seq<real>, rects0: seq<Rect>, k: nat, s: Scan)
    requires Fits(p, peaks0, rects0) && Settled(p, peaks0, rects0, k, s)
    ensures Shape(p, peaks0, rects0, k, s)
  {
    BoundariesBehind(p, k, s);
  }

  /** Aborting, or staying aborted, changes nothing but the flag. */
  lemma AbortKeepsShape(p: Pass, peaks0: seq<real>, rects0: seq<Rect>, k: nat, t: Scan, s: Scan)
    requires Fits(p, peaks0, rects0) && Fits(p, t.peaks, t.rects)
    requires Shape(p, peaks0, rects0, k, t)
    requires s == t || s == t.(aborted := true)
    ensures Shape(p, peaks0, rects0, k + 1, s)
  {
  }

  /** A pass over a table whose last boundary is the maximum index, with every
      bin present while playing, never indexes out of range. */
  lemma {:induction false} NoAbort(p: Pass, peaks0: seq<real>, rects0: seq<Rect>, k: nat)
    requires Fits(p, peaks0, rects0)
    requires |p.table| >= 1 && p.table[|p.table| - 1] == p.maxIdx
    requires p.playing ==> 0 <= p.minIdx && p.maxIdx < |p.bins|
    requires k <= BinCount(p)
    ensures !Scanned(p, peaks0, rects0, k).aborted
  {
    if k > 0 {
      NoAbort(p, peaks0, rects0, k - 1);
      PassInvariant(p, peaks0, rects0, k - 1);
      var s := Scanned(p, peaks0, rects0, k - 1);
      assert Scanned(p, peaks0, rects0, k) == Step(p, s, p.minIdx + (k - 1));
      if s.bar >= |p.table| {
        assert false;
      }
    }
  }

  /** With strictly increasing boundaries starting at or after the minimum
      index, the boundary of the bar being filled is never behind the bins. */
  lemma {:induction false} BarsAhead(p: Pass, peaks0: seq<real>, rects0: seq<Rect>, k: nat)
    requires Fits(p, peaks0, rects0)
    requires StrictlyIncreasing(p.table) && |p.table| >= 1 && p.minIdx <= p.table[0]
    requires !Scanned(p, peaks0, rects0, k).aborted
    ensures var s := Scanned(p, peaks0, rects0, k);
      s.bar < |p.table| ==> p.minIdx + k <= p.table[s.bar]
  {
    if k > 0 {
      var t := Scanned(p, peaks0, rects0, k - 1);
      assert Scanned(p, peaks0, rects0, k) == Step(p, t, p.minIdx + (k - 1));
      BarsAhead(p, peaks0, rects0, k - 1);
    }
  }

  /** The table UpdateBarLayout builds when the buckets fit: strictly
      increasing boundaries from the minimum index up to the maximum one. */
  predicate WellFormedTable(p: Pass) {
    && |p.table| >= 1
    && StrictlyIncreasing(p.table)
    && p.minIdx <= p.table[0]
    && p.table[|p.table| - 1] == p.maxIdx
  }

  /** Every bin the pass reads while playing is present. */
  predicate LevelsCover(p: Pass) {
    p.playing ==> 0 <= p.minIdx && p.maxIdx < |p.bins|
  }

  /** Over a well-formed table every bar is drawn and the pass runs to its end. */
  lemma AllBarsDrawn(p: Pass, peaks0: seq<real>, rects0: seq<Rect>)
    requires Fits(p, peaks0, rects0) && WellFormedTable(p) && LevelsCover(p)
    ensures !FullPass(p, peaks0, rects0).aborted
    ensures FullPass(p, peaks0, rects0).bar == |p.table|
  {
    NoAbort(p, peaks0, rects0, BinCount(p));
    BarsAhead(p, peaks0, rects0, BinCount(p));
    var s := FullPass(p, peaks0, rects0);
    ScanShape(p, peaks0, rects0, BinCount(p));
  }

  /** The result of a whole pass: a prefix of the bars is drawn, each from its
      bucket's height and its updated peak, every drawn bar's boundary is
      within the frequency range, the other bars are untouched, and allZero
      says whether every drawn peak is at or below the rest level. */
  lemma PassResult(p: Pass, peaks0: seq<real>, rects0: seq<Rect>)
    requires Fits(p, peaks0, rects0)
    ensures var s := FullPass(p, peaks0, rects0);
      && s.bar <= |p.table|
      && (forall b :: 0 <= b < s.bar ==> p.table[b] <= p.maxIdx)
      && (forall b :: 0 <= b < s.bar ==>
            s.peaks[b] == PeakUpdate(peaks0[b], RawHeight(p, b))
            && s.rects[b] == DrawnRect(p, b, RawHeight(p, b), s.peaks[b]))
      && (forall b :: s.bar <= b < |p.table| ==> s.peaks[b] == peaks0[b] && s.rects[b] == rects0[b])
      && (s.allZero <==> forall b :: 0 <= b < s.bar ==> s.peaks[b] <= PeakRestLevel)
  {
    ScanShape(p, peaks0, rects0, BinCount(p));
  }

  /** A bar whose boundary lies past the maximum index is never redrawn, and
      neither is any bar after it. */
  lemma UndrawnBeyondMax(p: Pass, peaks0: seq<real>, rects0: seq<Rect>, b: nat)
    requires Fits(p, peaks0, rects0) && b < |p.table| && p.table[b] > p.maxIdx
    ensures var s := FullPass(p, peaks0, rects0);
      s.bar <= b && forall c :: b <= c < |p.table| ==> s.peaks[c] == peaks0[c] && s.rects[c] == rects0[c]
  {
    PassResult(p, peaks0, rects0);
  }

  /** The overshooting layout of 159 bars over bins 1..929: bars 154 to 158
      are never redrawn. */
  lemma OvershootLeavesBarsUndrawn(p: Pass, peaks0: seq<real>, rects0: seq<Rect>)
    requires p.minIdx == 1 && p.maxIdx == 929 && p.table == BoundaryTable(1, 929, 159)
    requires Fits(p, peaks0, rects0)
    ensures forall c :: 154 <= c < 159 ==>
      FullPass(p, peaks0, rects0).peaks[c] == peaks0[c] && FullPass(p, peaks0, rects0).rects[c] == rects0[c]
  {
    BoundaryOvershoot();
    UndrawnBeyondMax(p, peaks0, rects0, 154);
  }

  /** Over a well-formed table, the pass stops the timer exactly when the
      player is not playing and every bar's new peak is at or below the rest
      level. */
  lemma PassStopsTimer(p: Pass, peaks0: seq<real>, rects0: seq<Rect>)
    requires Fits(p, peaks0, rects0) && WellFormedTable(p) && LevelsCover(p)
    ensures StopsTimer(p, FullPass(p, peaks0, rects0)) <==>
      !p.playing && forall b :: 0 <= b < |p.table| ==> FullPass(p, peaks0, rects0).peaks[b] <= PeakRestLevel
  {
    AllBarsDrawn(p, peaks0, rects0);
    PassResult(p, peaks0, rects0);
  }

  /** The height a bar is drawn from lies within the canvas. */
  lemma RawHeightInCanvas(p: Pass, b: nat)
    requires b < |p.table| && p.height >= 0.0
    ensures 0.0 <= RawHeight(p, b) <= p.height
  {
  }

  /** A pass keeps every peak non-negative and every rectangle at the bar
      width; a drawn bar stands on the line y = height - 1, and a bar whose
      peak started within the canvas keeps its peak and rectangle within it. */
  lemma PassStaysInCanvas(p: Pass, peaks0: seq<real>, rects0: seq<Rect>)
    requires Fits(p, peaks0, rects0) && p.height >= 0.0
    requires forall b :: 0 <= b < |peaks0| ==> 0.0 <= peaks0[b]
    requires forall b :: 0 <= b < |rects0| ==> rects0[b].width == p.barWidth
    ensures var s := FullPass(p, peaks0, rects0);
      && (forall b :: 0 <= b < |p.table| ==> 0.0 <= s.peaks[b] && s.rects[b].width == p.barWidth)
      && s.bar <= |p.table|
      && (forall b :: 0 <= b < s.bar ==>
            && (peaks0[b] <= p.height ==> s.peaks[b] <= p.height && s.rects[b].height <= p.height)
            && 0.0 <= s.rects[b].height
            && s.rects[b].y + s.rects[b].height == p.height - 1.0)
  {
    PassResult(p, peaks0, rects0);
    var s := FullPass(p, peaks0, rects0);
    forall b | 0 <= b < s.bar
      ensures 0.0 <= s.peaks[b] && (peaks0[b] <= p.height ==> s.peaks[b] <= p.height)
      ensures 0.0 <= s.rects[b].height && (peaks0[b] <= p.height ==> s.rects[b].height <= p.height)
    {
      RawHeightInCanvas(p, b);
    }
  }

  /** While the player is paused every bar falls to zero height and every
      non-negative peak decays to ten elevenths of itself. */
  lemma PausedPassDecays(p: Pass, peaks0: seq<real>, rects0: seq<Rect>)
    requires Fits(p, peaks0, rects0) && WellFormedTable(p)
    requires !p.playing && p.height >= 0.0
    requires forall b :: 0 <= b < |peaks0| ==> 0.0 <= peaks0[b]
    ensures var s := FullPass(p, peaks0, rects0);
      forall b :: 0 <= b < |p.table| ==>
        && s.peaks[b] == 10.0 * peaks0[b] / 11.0
        && (peaks0[b] > 0.0 ==> s.peaks[b] < peaks0[b])
        && (p.style == Nervous ==> s.rects[b].height == 0.0)
  {
    AllBarsDrawn(p, peaks0, rects0);
    PassResult(p, peaks0, rects0);
  }

  /** While the player is paused no bin is read: the first k bins of a pass
      do the same whatever the bin heights are. */
  lemma {:induction false} PausedScanIgnoresBins(p: Pass, bins: seq<real>, peaks0: seq<real>, rects0: seq<Rect>, k: nat)
    requires Fits(p, peaks0, rects0) && !p.playing
    ensures Scanned(p.(bins := bins), peaks0, rects0, k) == Scanned(p, peaks0, rects0, k)
  {
    if k > 0 {
      PausedScanIgnoresBins(p, bins, peaks0, rects0, k - 1);
      PausedStepIgnoresBins(p, bins, Scanned(p, peaks0, rects0, k - 1), p.minIdx + (k - 1));
    }
  }

  /** A paused step does not read the bin heights. */
  lemma PausedStepIgnoresBins(p: Pass, bins: seq<real>, s: Scan, i: int)
    requires Fits(p, s.peaks, s.rects) && !p.playing
    ensures Step(p.(bins := bins), s, i) == Step(p, s, i)
  {
  }

  /** So a paused pass needs no FFT data: its result is the same for any. */
  lemma PausedPassIgnoresBins(p: Pass, bins: seq<real>, peaks0: seq<real>, rects0: seq<Rect>)
    requires Fits(p, peaks0, rects0) && !p.playing
    ensures FullPass(p.(bins := bins), peaks0, rects0) == FullPass(p, peaks0, rects0)
  {
    PausedScanIgnoresBins(p, bins, peaks0, rects0, BinCount(p));
  }
}
