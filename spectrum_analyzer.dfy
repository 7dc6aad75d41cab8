/** The SpectrumAnalyzer control: its settings (with their coercions), the
    per-bar arrays it rebuilds on layout and redraws on every timer tick, and
    the handlers that start and stop its animation timer. */
module SpectrumAnalyzerControl {
  import opened Optional
  import opened SpectrumCoercion
  import opened SpectrumLayout
  import opened SpectrumScan
  import TimerGating

  /** What the layout reads from the registered ISpectrumPlayer: the FFT bin
      index of a frequency. Whether it is playing and its FFT data are read
      at the moment of each call and are parameters of the methods below. */
  datatype SpectrumPlayer = SpectrumPlayer(frequencyIndex: int -> int)

  /** The settings and surroundings a pass or a layout reads. */
  datatype Config = Config(
    style: AnimationStyle,
    barWidth: real,
    barCount: int,
    barSpacing: real,
    refreshInterval: int,
    timerInterval: int,
    player: Option<SpectrumPlayer>,
    hasCanvas: bool,
    canvasWidth: real,
    canvasHeight: real)

  /** Peaks of a fresh layout. */
  function Zeros(n: nat): (r: seq<real>)
    ensures |r| == n && forall b :: 0 <= b < n ==> r[b] == 0.0
  {
    seq(n, _ => 0.0)
  }

  /** The rectangles after a width change: positions and heights kept. */
  function WithWidth(rects: seq<Rect>, w: real): (r: seq<Rect>)
    ensures |r| == |rects|
    ensures forall b :: 0 <= b < |r| ==> r[b].width == w
    ensures forall b :: 0 <= b < |r| ==>
      r[b].x == rects[b].x && r[b].y == rects[b].y && r[b].height == rects[b].height
  {
    seq(|rects|, b requires 0 <= b < |rects| => rects[b].(width := w))
  }

  ghost predicate WidthsAre(shapes: array<Rect>, w: real)
    reads shapes
  {
    forall b :: 0 <= b < shapes.Length ==> shapes[b].width == w
  }

  ghost predicate PeaksNonNegative(peaks: array<real>)
    reads peaks
  {
    forall b :: 0 <= b < peaks.Length ==> peaks[b] >= 0.0
  }

  /** The FFT data of a call, empty when there is none (it is then not read). */
  function LevelsOf(fft: Option<seq<real>>): seq<real> {
    if fft.Some? then fft.value else []
  }

  /** The three per-bar arrays UpdateBarLayout builds for n bars. */
  method BuildLayout(minIdx: int, maxIdx: int, n: int, barSpacing: real, barWidth: real, height: real)
    returns (peaks: array<real>, table: array<int>, shapes: array<Rect>)
    requires n >= 1
    ensures fresh(peaks) && fresh(table) && fresh(shapes)
    ensures peaks[..] == Zeros(n)
    ensures table[..] == BoundaryTable(minIdx, maxIdx, n)
    ensures shapes[..] == InitialRects(n, barSpacing, barWidth, height)
  {
    peaks := BuildPeaks(n);
    table := BuildBoundaryTable(minIdx, maxIdx, n);
    shapes := BuildBarShapes(n, barSpacing, barWidth, height);
  }

  /** The peaks UpdateBarLayout builds: one zero per bar. */
  method BuildPeaks(n: nat) returns (peaks: array<real>)
    ensures fresh(peaks)
    ensures peaks[..] == Zeros(n)
  {
    peaks := new real[n](_ => 0.0);
    assert peaks[..] == Zeros(n);
  }

  /** The boundary list UpdateBarLayout builds: minIdx + i * size for the
      first n - 1 bars, then maxIdx. */
  method BuildBoundaryTable(minIdx: int, maxIdx: int, n: int) returns (table: array<int>)
    requires n >= 1
    ensures fresh(table)
    ensures table[..] == BoundaryTable(minIdx, maxIdx, n)
  {
    var size := BucketSize(maxIdx - minIdx, n);
    table := new int[n];
    var i := 1;
    while i < n
      invariant 1 <= i <= n
      invariant forall k :: 0 <= k < i - 1 ==> table[k] == minIdx + (k + 1) * size
    {
      table[i - 1] := minIdx + i * size;
      i := i + 1;
    }
    table[n - 1] := maxIdx;
    assert table[..] == BoundaryTable(minIdx, maxIdx, n);
  }

  /** The bar rectangles UpdateBarLayout builds: bar i at x = BarX(i),
      resting at y = height with zero height. */
  method BuildBarShapes(n: nat, barSpacing: real, barWidth: real, height: real) returns (shapes: array<Rect>)
    ensures fresh(shapes)
    ensures shapes[..] == InitialRects(n, barSpacing, barWidth, height)
  {
    shapes := new Rect[n];
    var i := 0;
    while i < n
      invariant 0 <= i <= n
      invariant forall k :: 0 <= k < i ==> shapes[k] == Rect(BarX(barSpacing, barWidth, k), height, barWidth, 0.0)
    {
      shapes[i] := Rect(BarX(barSpacing, barWidth, i), height, barWidth, 0.0);
      i := i + 1;
    }
    assert shapes[..] == InitialRects(n, barSpacing, barWidth, height);
  }

  class SpectrumAnalyzer {
    var animationStyle: AnimationStyle
    var barWidth: real
    var barCount: int
    var barSpacing: real
    var refreshInterval: int
    /** The DispatcherTimer: whether it is enabled and its interval in ms. */
    var timerEnabled: bool
    var timerInterval: int
    var isWindowActive: bool
    /** Whether a top-level window is attached (topLevelWindow != null). */
    var hasWindow: bool
    var soundPlayer: Option<SpectrumPlayer>
    /** Whether the template's canvas exists, and its render size. */
    var hasCanvas: bool
    var canvasWidth: real
    var canvasHeight: real
    var minimumFrequencyIndex: int
    var maximumFrequencyIndex: int
    /** Per bar: the last FFT bin of its bucket, its peak, its rectangle. */
    var barIndexMax: array<int>
    var channelPeakData: array<real>
    var barShapes: array<Rect>

    ghost function Settings(): Config
      reads this
    {
      Config(animationStyle, barWidth, barCount, barSpacing, refreshInterval, timerInterval,
             soundPlayer, hasCanvas, canvasWidth, canvasHeight)
    }

    ghost function Layout(): (int, int, array<int>, array<real>, array<Rect>)
      reads this
    {
      (minimumFrequencyIndex, maximumFrequencyIndex, barIndexMax, channelPeakData, barShapes)
    }

    function Gating(): TimerGating.Gate
      reads this
    {
      TimerGating.Gate(isWindowActive, timerEnabled, hasWindow, soundPlayer.Some?)
    }

    /** Everything but the promise that a layout has been made. */
    ghost predicate Coherent()
      reads this, barIndexMax, channelPeakData, barShapes
    {
      && barCount >= 1 && barSpacing >= 0.0
      && MinRefreshInterval <= refreshInterval <= MaxRefreshInterval
      && timerInterval == refreshInterval
      && canvasWidth >= 0.0 && canvasHeight >= 0.0
      && barIndexMax.Length == channelPeakData.Length == barShapes.Length
      && WidthsAre(barShapes, barWidth)
      && PeaksNonNegative(channelPeakData)
      && TimerGating.Consistent(Gating())
    }

    /** Coherent, and laid out whenever both a player and a canvas exist. */
    ghost predicate Valid()
      reads this, barIndexMax, channelPeakData, barShapes
    {
      && Coherent()
      && (soundPlayer.Some? && hasCanvas ==>
            barIndexMax.Length >= 1 && barIndexMax[barIndexMax.Length - 1] == maximumFrequencyIndex)
    }

    /** The actual bar count is defined (no division by zero). */
    predicate LayoutDefined()
      reads this
    {
      CountDefined(barWidth, barSpacing)
    }

    /** The arrays are the fresh layout for the current settings and player. */
    ghost predicate LaidOut()
      reads this, barIndexMax, channelPeakData, barShapes
      requires barCount >= 1 && LayoutDefined()
    {
      var n := ActualBarCount(barCount, barWidth, barSpacing, canvasWidth);
      && soundPlayer.Some?
      && maximumFrequencyIndex == MaximumFrequencyIndex(soundPlayer.value.frequencyIndex)
      && minimumFrequencyIndex == MinimumFrequencyIndex(soundPlayer.value.frequencyIndex)
      && barIndexMax[..] == BoundaryTable(minimumFrequencyIndex, maximumFrequencyIndex, n)
      && channelPeakData[..] == Zeros(n)
      && barShapes[..] == InitialRects(n, barSpacing, barWidth, canvasHeight)
    }

    /** The pass a tick would run now. */
    function CurrentPass(playing: bool, levels: seq<real>): Pass
      reads this, barIndexMax
    {
      Pass(playing, BinHeights(levels, canvasHeight), canvasHeight, animationStyle, barWidth, barSpacing,
           minimumFrequencyIndex, maximumFrequencyIndex, barIndexMax[..])
    }

    /** UpdateSpectrum draws: a player and a canvas of at least 1 x 1 exist,
        and FFT data was obtained when the player is playing. */
    predicate Draws(playing: bool, fft: Option<seq<real>>)
      reads this
    {
      soundPlayer.Some? && hasCanvas && canvasWidth >= 1.0 && canvasHeight >= 1.0
      && (playing ==> fft.Some?)
    }

    constructor ()
      ensures Valid()
      ensures Settings() == Config(Nervous, 1.0, 32, 5.0, DefaultRefreshInterval, DefaultRefreshInterval,
                                   None, false, 0.0, 0.0)
      ensures Gating() == TimerGating.Initial
      ensures minimumFrequencyIndex == 0 && maximumFrequencyIndex == FrequencyIndexCap
      ensures barIndexMax.Length == 0 && channelPeakData.Length == 0 && barShapes.Length == 0
    {
      animationStyle := Nervous;
      barWidth := 1.0;
      barCount := 32;
      barSpacing := 5.0;
      refreshInterval := DefaultRefreshInterval;
      timerEnabled := false;
      timerInterval := DefaultRefreshInterval;
      isWindowActive := false;
      hasWindow := false;
      soundPlayer := None;
      hasCanvas := false;
      canvasWidth := 0.0;
      canvasHeight := 0.0;
      minimumFrequencyIndex := 0;
      maximumFrequencyIndex := FrequencyIndexCap;
      barIndexMax := new int[0];
      channelPeakData := new real[0];
      barShapes := new Rect[0];
    }

    /** UpdateBarLayout: with a player and a canvas, recompute the frequency
        range and rebuild the boundary table, zeroed peaks and flat
        rectangles for the actual bar count; otherwise do nothing. */
    method UpdateBarLayout()
      requires Coherent() && LayoutDefined()
      modifies this
      ensures Valid()
      ensures Settings() == old(Settings()) && Gating() == old(Gating())
      ensures soundPlayer.None? || !hasCanvas ==> Layout() == old(Layout())
      ensures soundPlayer.Some? && hasCanvas ==>
        LaidOut() && fresh(barIndexMax) && fresh(channelPeakData) && fresh(barShapes)
    {
      if soundPlayer.None? || !hasCanvas {
        return;
      }
      var binOf := soundPlayer.value.frequencyIndex;
      var maxIdx := MaximumFrequencyIndex(binOf);
      var minIdx := MinimumFrequencyIndex(binOf);
      var n := ActualBarCount(barCount, barWidth, barSpacing, canvasWidth);
      var peaks, table, shapes := BuildLayout(minIdx, maxIdx, n, barSpacing, barWidth, canvasHeight);
      maximumFrequencyIndex, minimumFrequencyIndex := maxIdx, minIdx;
      channelPeakData, barIndexMax, barShapes := peaks, table, shapes;
    }

    /** One drawing pass (UpdateSpectrumShapes): the peaks and rectangles
        become those of the pass specified by FullPass, and the timer stops
        exactly when that pass says so. */
    method UpdateSpectrumShapes(playing: bool, levels: seq<real>)
      requires Valid() && soundPlayer.Some? && hasCanvas
      modifies channelPeakData, barShapes, this
      ensures Valid()
      ensures Settings() == old(Settings()) && Layout() == old(Layout())
      ensures var p := old(CurrentPass(playing, levels));
              var s := FullPass(p, old(channelPeakData[..]), old(barShapes[..]));
              && channelPeakData[..] == s.peaks && barShapes[..] == s.rects
              && Gating() == TimerGating.PassEnded(old(Gating()), StopsTimer(p, s))
    {
      ghost var p := CurrentPass(playing, levels);
      ghost var peaks0 := channelPeakData[..];
      ghost var rects0 := barShapes[..];
      var aborted, allZero := Sweep(p, peaks0, rects0, playing, levels);
      if !aborted && allZero && !playing {
        timerEnabled := false;
      }
      PassStaysInCanvas(p, peaks0, rects0);
    }

    /** The loop of UpdateSpectrumShapes over the bins minIdx..maxIdx; an index
        out of range ends it (the exception is swallowed) and reports
        `aborted`. */
    method Sweep(ghost p: Pass, ghost peaks0: seq<real>, ghost rects0: seq<Rect>, playing: bool, levels: seq<real>)
      returns (aborted: bool, allZero: bool)
      requires p == CurrentPass(playing, levels)
      requires barIndexMax.Length == channelPeakData.Length == barShapes.Length
      requires channelPeakData[..] == peaks0 && barShapes[..] == rects0
      modifies channelPeakData, barShapes
      ensures Fits(p, peaks0, rects0)
      ensures var s := FullPass(p, peaks0, rects0);
        && channelPeakData[..] == s.peaks && barShapes[..] == s.rects
        && aborted == s.aborted && (!aborted ==> allZero == s.allZero)
    {
      allZero := true;
      var barHeight := 0.0;
      var barIndex := 0;
      aborted := false;
      var i := minimumFrequencyIndex;
      var last := maximumFrequencyIndex;
      ghost var k: nat := 0;
      ghost var n := BinCount(p);
      while i <= last
        invariant i == p.minIdx + k && k <= n
        invariant Scanned(p, peaks0, rects0, k) == Scan(barIndex, barHeight, allZero, channelPeakData[..], barShapes[..], false)
      {
        ghost var before := Scanned(p, peaks0, rects0, k);
        assert Scanned(p, peaks0, rects0, k + 1) == Step(p, before, i);
        aborted, barIndex, barHeight, allZero := ScanBin(p, before, playing, levels, i, barIndex, barHeight, allZero);
        if aborted {
          AbortedStays(p, peaks0, rects0, k + 1, n);
          StepAborts(p, before, i);
          assert FullPass(p, peaks0, rects0) == before.(aborted := true);
          return;
        }
        i := i + 1;
        k := k + 1;
      }
      assert k == n;
    }

    /** The body of the loop for bin i: the bin's height joins the running
        height (while playing), and when i is the current bar's last bin the
        bar is drawn and the next bar begins. A bin or bar index out of range
        ends the pass with `aborted`, changing nothing. */
    method ScanBin(ghost p: Pass, ghost s: Scan, playing: bool, levels: seq<real>, i: int, barIndex: nat, barHeight: real, allZero: bool)
      returns (aborted: bool, nextIndex: nat, nextHeight: real, nextAllZero: bool)
      requires p == CurrentPass(playing, levels)
      requires barIndexMax.Length == channelPeakData.Length == barShapes.Length
      requires s == Scan(barIndex, barHeight, allZero, channelPeakData[..], barShapes[..], false)
      modifies channelPeakData, barShapes
      ensures aborted == Step(p, s, i).aborted
      ensures aborted ==> channelPeakData[..] == s.peaks && barShapes[..] == s.rects
      ensures !aborted ==> Step(p, s, i) == Scan(nextIndex, nextHeight, nextAllZero, channelPeakData[..], barShapes[..], false)
    {
      var height := canvasHeight;
      nextIndex, nextHeight, nextAllZero := barIndex, barHeight, allZero;
      if playing {
        if !(0 <= i < |levels|) {
          return true, nextIndex, nextHeight, nextAllZero;
        }
        var v := BinHeight(levels[i], height);
        if nextHeight < v {
          nextHeight := v;
        }
        if nextHeight < 0.0 {
          nextHeight := 0.0;
        }
      } else {
        nextHeight := 0.0;
      }
      if !(barIndex < barIndexMax.Length) {
        return true, nextIndex, nextHeight, nextAllZero;
      }
      aborted := false;
      if i == barIndexMax[barIndex] {
        if nextHeight > height {
          nextHeight := height;
        }
        var peak := DrawBar(p, barIndex, nextHeight);
        if peak > PeakRestLevel {
          nextAllZero := false;
        }
        nextHeight := 0.0;
        nextIndex := barIndex + 1;
      }
    }

    /** Drawing bar b from height h: its peak is lifted or decays, and its
        rectangle shows the height (Nervous) or the peak (Gentle). */
    method DrawBar(ghost p: Pass, b: int, h: real) returns (peak: real)
      requires p.style == animationStyle && p.height == canvasHeight
      requires p.barWidth == barWidth && p.barSpacing == barSpacing
      requires 0 <= b < channelPeakData.Length == barShapes.Length
      modifies channelPeakData, barShapes
      ensures peak == PeakUpdate(old(channelPeakData[b]), h)
      ensures channelPeakData[..] == old(channelPeakData[..])[b := peak]
      ensures barShapes[..] == old(barShapes[..])[b := DrawnRect(p, b, h, peak)]
    {
      var height := canvasHeight;
      if channelPeakData[b] < h {
        channelPeakData[b] := h;
      } else {
        channelPeakData[b] := (h + PeakFallDelay as real * channelPeakData[b]) / (PeakFallDelay + 1) as real;
      }
      var x := BarX(barSpacing, barWidth, b);
      match animationStyle {
        case Nervous =>
          barShapes[b] := Rect(x, (height - 1.0) - h, barWidth, h);
        case Gentle =>
          barShapes[b] := Rect(x, (height - 1.0) - channelPeakData[b], barWidth, channelPeakData[b]);
      }
      peak := channelPeakData[b];
    }

    /** UpdateSpectrum: draw one pass when Draws holds, otherwise change
        nothing. `fft` is the decibel level of every FFT bin, None when the
        player reported no data; it is only asked for while playing. */
    method UpdateSpectrum(playing: bool, fft: Option<seq<real>>)
      requires Valid()
      modifies channelPeakData, barShapes, this
      ensures Valid()
      ensures Settings() == old(Settings()) && Layout() == old(Layout())
      ensures var p := old(CurrentPass(playing, LevelsOf(fft)));
              var s := FullPass(p, old(channelPeakData[..]), old(barShapes[..]));
              if old(Draws(playing, fft)) then
                && channelPeakData[..] == s.peaks && barShapes[..] == s.rects
                && Gating() == TimerGating.PassEnded(old(Gating()), StopsTimer(p, s))
              else
                channelPeakData[..] == old(channelPeakData[..]) && barShapes[..] == old(barShapes[..])
                && Gating() == old(Gating())
    {
      if soundPlayer.None? || !hasCanvas || canvasWidth < 1.0 || canvasHeight < 1.0 {
        return;
      }
      if playing && fft.None? {
        return;
      }
      UpdateSpectrumShapes(playing, LevelsOf(fft));
    }

    /** OnRender and OnRenderSizeChanged: lay out, then draw one pass over the
        fresh layout. */
    method Render(playing: bool, fft: Option<seq<real>>)
      requires Valid() && LayoutDefined()
      modifies channelPeakData, barShapes, this
      ensures Valid()
      ensures Settings() == old(Settings())
      ensures timerEnabled ==> old(timerEnabled)
      ensures isWindowActive == old(isWindowActive) && hasWindow == old(hasWindow)
      ensures soundPlayer.Some? && hasCanvas ==>
        var n := ActualBarCount(barCount, barWidth, barSpacing, canvasWidth);
        var zeros := Zeros(n);
        var flat := InitialRects(n, barSpacing, barWidth, canvasHeight);
        var p := CurrentPass(playing, LevelsOf(fft));
        && minimumFrequencyIndex == MinimumFrequencyIndex(soundPlayer.value.frequencyIndex)
        && maximumFrequencyIndex == MaximumFrequencyIndex(soundPlayer.value.frequencyIndex)
        && barIndexMax[..] == BoundaryTable(minimumFrequencyIndex, maximumFrequencyIndex, n)
        && (Draws(playing, fft) ==>
              var s := FullPass(p, zeros, flat);
              channelPeakData[..] == s.peaks && barShapes[..] == s.rects
              && Gating() == TimerGating.PassEnded(old(Gating()), StopsTimer(p, s)))
        && (!Draws(playing, fft) ==> Gating() == old(Gating()))
        && (!Draws(playing, fft) ==> channelPeakData[..] == zeros && barShapes[..] == flat)
      ensures soundPlayer.None? || !hasCanvas ==>
        Layout() == old(Layout()) && Gating() == old(Gating())
        && channelPeakData[..] == old(channelPeakData[..]) && barShapes[..] == old(barShapes[..])
    {
      UpdateBarLayout();
      UpdateSpectrum(playing, fft);
    }

    /** UnregisterSoundPlayer: stop the timer and drop the player. */
    method UnregisterSoundPlayer()
      requires Valid()
      modifies this
      ensures Valid()
      ensures Settings() == old(Settings()).(player := None) && Layout() == old(Layout())
      ensures Gating() == TimerGating.Unregister(old(Gating()))
    {
      timerEnabled := false;
      if soundPlayer.Some? {
        soundPlayer := None;
      }
    }

    /** RegisterSoundPlayer: replace the player, lay out, and start the timer
        when the window is active. */
    method RegisterSoundPlayer(player: SpectrumPlayer)
      requires Valid() && LayoutDefined()
      modifies this
      ensures Valid()
      ensures Settings() == old(Settings()).(player := Some(player))
      ensures Gating() == TimerGating.Register(old(Gating()))
      ensures hasCanvas ==> LaidOut() && fresh(barIndexMax) && fresh(channelPeakData) && fresh(barShapes)
      ensures !hasCanvas ==> Layout() == old(Layout())
    {
      UnregisterSoundPlayer();
      soundPlayer := Some(player);
      UpdateBarLayout();
      if isWindowActive {
        timerEnabled := true;
      }
    }

    /** The player's PropertyChanged handler. */
    method SoundPlayerPropertyChanged(name: string, playing: bool)
      requires Valid()
      modifies this
      ensures Valid()
      ensures Settings() == old(Settings()) && Layout() == old(Layout())
      ensures Gating() == TimerGating.PlayerPropertyChanged(old(Gating()), name, playing)
    {
      if soundPlayer.Some? && name == "IsPlaying" && playing && !timerEnabled && isWindowActive {
        timerEnabled := true;
      }
    }

    /** The Loaded handler. `window` is the top-level window's minimized
        state, None when the control has no top-level window. */
    method Loaded(window: Option<bool>, playing: bool)
      requires Valid()
      modifies this
      ensures Valid()
      ensures Settings() == old(Settings()) && Layout() == old(Layout())
      ensures Gating() == TimerGating.Loaded(old(Gating()), window, playing)
    {
      var active := isWindowActive;
      if hasWindow {
        active := false;
      }
      match window {
        case None =>
          hasWindow := false;
        case Some(minimized) =>
          hasWindow := true;
          active := !minimized;
      }
      isWindowActive := active;
      if active && soundPlayer.Some? && playing {
        timerEnabled := true;
      }
    }

    /** The Unloaded handler. */
    method Unloaded()
      requires Valid()
      modifies this
      ensures Valid()
      ensures Settings() == old(Settings()) && Layout() == old(Layout())
      ensures Gating() == TimerGating.Unloaded(old(Gating()))
    {
      timerEnabled := false;
      if hasWindow {
        isWindowActive := false;
      }
      hasWindow := false;
    }

    /** The top-level window's StateChanged handler. */
    method WindowStateChanged(minimized: bool, playing: bool)
      requires Valid()
      modifies this
      ensures Valid()
      ensures Settings() == old(Settings()) && Layout() == old(Layout())
      ensures Gating() == TimerGating.WindowStateChanged(old(Gating()), minimized, playing)
    {
      if !hasWindow {
        return;
      }
      isWindowActive := !minimized;
      if !isWindowActive {
        timerEnabled := false;
      } else if soundPlayer.Some? && playing {
        timerEnabled := true;
      }
    }

    /** OnApplyTemplate: take the template's canvas (of the given render
        size) and lay out. */
    method OnApplyTemplate(width: real, height: real)
      requires Valid() && LayoutDefined() && width >= 0.0 && height >= 0.0
      modifies this
      ensures Valid()
      ensures Settings() == old(Settings()).(hasCanvas := true, canvasWidth := width, canvasHeight := height)
      ensures Gating() == old(Gating())
      ensures soundPlayer.Some? ==> LaidOut() && fresh(barIndexMax) && fresh(channelPeakData) && fresh(barShapes)
      ensures soundPlayer.None? ==> Layout() == old(Layout())
    {
      hasCanvas := true;
      canvasWidth := width;
      canvasHeight := height;
      UpdateBarLayout();
    }

    /** The canvas's SizeChanged handler: record the new render size and lay
        out again. */
    method CanvasSizeChanged(width: real, height: real)
      requires Valid() && LayoutDefined() && hasCanvas && width >= 0.0 && height >= 0.0
      modifies this
      ensures Valid()
      ensures Settings() == old(Settings()).(canvasWidth := width, canvasHeight := height)
      ensures Gating() == old(Gating())
      ensures soundPlayer.Some? ==> LaidOut() && fresh(barIndexMax) && fresh(channelPeakData) && fresh(barShapes)
      ensures soundPlayer.None? ==> Layout() == old(Layout())
    {
      canvasWidth := width;
      canvasHeight := height;
      UpdateBarLayout();
    }

    /** Setting BarCount: coerced to at least 1; a changed value lays out again. */
    method SetBarCount(value: int)
      requires Valid() && LayoutDefined()
      modifies this
      ensures Valid()
      ensures Settings() == old(Settings()).(barCount := CoerceBarCount(value))
      ensures Gating() == old(Gating())
      ensures barCount == old(barCount) ==> Layout() == old(Layout())
      ensures barCount != old(barCount) && soundPlayer.Some? && hasCanvas ==>
        LaidOut() && fresh(barIndexMax) && fresh(channelPeakData) && fresh(barShapes)
      ensures barCount != old(barCount) && !(soundPlayer.Some? && hasCanvas) ==> Layout() == old(Layout())
    {
      var coerced := CoerceBarCount(value);
      if coerced != barCount {
        barCount := coerced;
        UpdateBarLayout();
      }
    }

    /** Setting BarSpacing: coerced to at least 0; a changed value lays out
        again (the new spacing must leave the bar count defined). */
    method SetBarSpacing(value: real)
      requires Valid() && CountDefined(barWidth, CoerceBarSpacing(value))
      modifies this
      ensures Valid()
      ensures Settings() == old(Settings()).(barSpacing := CoerceBarSpacing(value))
      ensures Gating() == old(Gating())
      ensures barSpacing == old(barSpacing) ==> Layout() == old(Layout())
      ensures barSpacing != old(barSpacing) && soundPlayer.Some? && hasCanvas ==>
        LaidOut() && fresh(barIndexMax) && fresh(channelPeakData) && fresh(barShapes)
      ensures barSpacing != old(barSpacing) && !(soundPlayer.Some? && hasCanvas) ==> Layout() == old(Layout())
    {
      var coerced := CoerceBarSpacing(value);
      if coerced != barSpacing {
        barSpacing := coerced;
        UpdateBarLayout();
      }
    }

    /** Setting BarWidth: kept as given; a changed value gives every existing
        rectangle the new width, keeping its position and height, without a
        new layout. */
    method SetBarWidth(value: real)
      requires Valid()
      modifies this, barShapes
      ensures Valid()
      ensures Settings() == old(Settings()).(barWidth := CoerceBarWidth(value))
      ensures Gating() == old(Gating()) && Layout() == old(Layout())
      ensures barShapes[..] == WithWidth(old(barShapes[..]), value)
    {
      var coerced := CoerceBarWidth(value);
      if coerced == barWidth {
        assert barShapes[..] == WithWidth(barShapes[..], value);
        return;
      }
      barWidth := coerced;
      ghost var rects0 := barShapes[..];
      var i := 0;
      while i < barShapes.Length
        modifies barShapes
        invariant 0 <= i <= barShapes.Length
        invariant forall b :: 0 <= b < i ==> barShapes[b] == rects0[b].(width := value)
        invariant forall b :: i <= b < barShapes.Length ==> barShapes[b] == rects0[b]
      {
        var r := barShapes[i];
        barShapes[i] := Rect(r.x, r.y, barWidth, r.height);
        i := i + 1;
      }
      assert barShapes[..] == WithWidth(rects0, value);
    }

    /** Setting RefreshInterval: clamped to 10..1000 ms, and the timer takes
        the new interval. */
    method SetRefreshInterval(value: int)
      requires Valid()
      modifies this
      ensures Valid()
      ensures Settings() == old(Settings()).(refreshInterval := CoerceRefreshInterval(value),
                                             timerInterval := CoerceRefreshInterval(value))
      ensures Gating() == old(Gating()) && Layout() == old(Layout())
    {
      var coerced := CoerceRefreshInterval(value);
      if coerced != refreshInterval {
        refreshInterval := coerced;
        timerInterval := coerced;
      }
    }

    /** Setting AnimationStyle: no callback, the next pass draws in the new style. */
    method SetAnimationStyle(style: AnimationStyle)
      requires Valid()
      modifies this
      ensures Valid()
      ensures Settings() == old(Settings()).(style := style)
      ensures Gating() == old(Gating()) && Layout() == old(Layout())
    {
      animationStyle := style;
    }
  }
}
