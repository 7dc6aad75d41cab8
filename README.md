# Dopamine spectrum analyzer and lyrics time stamps, in Dafny

This project models two parts of the Dopamine music player for Windows and
proves properties of the model.

**The spectrum analyzer control** (`Dopamine/Controls/SpectrumAnalyzer.cs`)
turns a player's FFT bins into a row of animated bars. The model covers:

- the coercion of its bindable properties (`BarCount`, `BarSpacing`,
  `RefreshInterval`, `BarWidth`);
- the bar layout built by `UpdateBarLayout`:
  - the effective bar count;
  - the linear boundary table `barIndexMax`, where each entry is the last
    FFT bin of a bar;
  - the zeroed peaks and the flat bar rectangles;
- the drawing pass of `UpdateSpectrumShapes`. It walks the bins from the
  minimum to the maximum frequency index. Each bar is drawn from the largest
  bin height of its bucket, and the bar's peak is held or decays. The
  Nervous style draws the bar's height and the Gentle style draws its peak;
- the handlers that start and stop the animation timer: player
  registration, the player's `IsPlaying` change, Loaded, Unloaded, the
  window's state change, and the end of a pass.

`SpectrumAnalyzerControl.SpectrumAnalyzer` is a class with the control's
fields. The per-bar data are arrays: `barIndexMax`, `channelPeakData` and
`barShapes`. Its methods change them in place, as the control does. A
drawing pass is specified by a pure fold, `SpectrumScan.FullPass`, with one
`Step` per bin. The imperative loop (`Sweep`, with `ScanBin` and `DrawBar`
as its body) is proved to compute exactly that fold. What a pass draws is
then proved about the fold, in `SpectrumScan`. The timer handlers follow
the pure transitions of `TimerGating`, and the properties of the timer are
proved there.

**The lyrics editor's Ctrl+T command** (`AddTimeStampToSelectedLyricsLine`
in `Dopamine/Views/Common/LyricsControl.xaml.cs`) works on the caret's line
of the lyrics TextBox:

- a blank line only moves the caret one place on;
- otherwise the line's leading `[...]` tag is removed and a
  `[mm:ss.fff]` stamp of the playback position is put in front of what is
  left;
- the caret goes to the end of the new line and then skips the blank lines
  after it.

The TextBox is a class with its text and caret. The line APIs are
functions over the text (`LyricsText.LineStart`, `LineEnd`, `LineAt`). The
command's method is proved equal to the pure `LyricsEditing.AddTimeStamp`,
and the properties of the command are lemmas about that function.

Real numbers stand for the control's doubles and floats. The bin heights
come from decibel levels that are inputs (see "Left out").

## Model

| member | source | states |
|---|---|---|
| SpectrumCoercion.CoerceBarCount | Dopamine/Controls/SpectrumAnalyzer.cs:152-156 | BarCount becomes at least 1, values already at least 1 are kept, and the result is the nearest valid value |
| SpectrumCoercion.CoerceBarSpacing | Dopamine/Controls/SpectrumAnalyzer.cs:191-195 | BarSpacing becomes at least 0, non-negative values are kept, and the result is the nearest valid value |
| SpectrumCoercion.CoerceRefreshInterval | Dopamine/Controls/SpectrumAnalyzer.cs:229-233 | RefreshInterval lands in [10, 1000], values in range are kept, and the result is the nearest value in range |
| SpectrumCoercion.CoerceBarWidth | Dopamine/Controls/SpectrumAnalyzer.cs:106-109 | BarWidth coercion is the identity |
| SpectrumLayout.MaximumFrequencyIndex | Dopamine/Controls/SpectrumAnalyzer.cs:446 | the last bin is the player's bin for 20 kHz plus one, capped at 2047 |
| SpectrumLayout.MinimumFrequencyIndex | Dopamine/Controls/SpectrumAnalyzer.cs:447 | the first bin is the player's bin for 20 Hz, capped at 2047 |
| SpectrumLayout.ActualBarCount | Dopamine/Controls/SpectrumAnalyzer.cs:450-459 | the effective bar count is at least 1, and it is BarCount when BarWidth is at least 1 |
| SpectrumLayout.ActualBarCountFits | Dopamine/Controls/SpectrumAnalyzer.cs:456-459 | with BarWidth below 1, the count is the number of whole bar-plus-spacing slots that fit after the left spacing, or 1 when fewer than two fit |
| SpectrumLayout.ActualBarCountMonotone | Dopamine/Controls/SpectrumAnalyzer.cs:456-459 | with BarWidth below 1, a wider canvas never holds fewer bars |
| Rounding.RoundHalfEven | Dopamine/Controls/SpectrumAnalyzer.cs:464 | Math.Round of the quotient of two integers is the nearest integer, ties going to the even one |
| Rounding.RoundHalfEvenUnique | Dopamine/Controls/SpectrumAnalyzer.cs:464 | any integer nearest to the quotient, ties to even, is RoundHalfEven's result |
| Rounding.TwoRoundingsAgree | Dopamine/Controls/SpectrumAnalyzer.cs:464 | rounding half to even has only one answer |
| Rounding.Truncate | Dopamine/Controls/SpectrumAnalyzer.cs:458 | the (int) cast drops the fraction toward zero |
| SpectrumLayout.BoundaryTable | Dopamine/Controls/SpectrumAnalyzer.cs:463-478 | the table has one entry per bar; entry k below the last is minIdx + (k + 1) times the rounded bucket size; the last entry is the maximum index |
| SpectrumLayout.BoundariesIncreasing | Dopamine/Controls/SpectrumAnalyzer.cs:463-478 | when the rounded buckets do not reach past the range, the boundaries strictly increase and all lie in (minIdx, maxIdx] |
| SpectrumLayout.EvenSplit | Dopamine/Controls/SpectrumAnalyzer.cs:463-478 | a range of n times w bins gets buckets of exactly w bins each |
| SpectrumLayout.BoundaryOvershoot | Dopamine/Controls/SpectrumAnalyzer.cs:463-478 | rounding up can push boundaries past the maximum index: for 159 bars over bins 1..929, entry 154 is 931 and the table is not increasing |
| SpectrumLayout.InitialRects | Dopamine/Controls/SpectrumAnalyzer.cs:491-498 | a fresh layout has one rectangle per bar, of the bar width and zero height, on the canvas's bottom edge |
| SpectrumScan.BinHeight | Dopamine/Controls/SpectrumAnalyzer.cs:369-371 | a bin's height maps -90 dB to 0 and 0 dB to the canvas height, and stays within the canvas in between |
| SpectrumScan.BinHeights | Dopamine/Controls/SpectrumAnalyzer.cs:369-371 | one height per FFT bin, each the BinHeight of its level |
| SpectrumScan.PeakUpdate | Dopamine/Controls/SpectrumAnalyzer.cs:395-402 | the new peak lies between the bar's height and the larger of the old peak and the height, and it falls below an old peak that is above the height |
| SpectrumScan.Step | Dopamine/Controls/SpectrumAnalyzer.cs:351-426 | one iteration of the bin loop: while playing, the bin's height joins the running height (floored at 0); at the bar's last bin the height is capped, the peak updated, the rectangle redrawn and the next bar begun; an index out of range aborts; what this computes is stated by PassInvariant and PassResult |
| SpectrumScan.FullPass | Dopamine/Controls/SpectrumAnalyzer.cs:348-427 | the pass over every bin from minIdx to maxIdx, from the peaks and rectangles before it; what it yields is stated by PassResult, AllBarsDrawn and PassStopsTimer |
| SpectrumScan.StopsTimer | Dopamine/Controls/SpectrumAnalyzer.cs:429-434 | the timer stops after a pass that did not abort, while not playing, with allZero; PassStopsTimer states when that is |
| SpectrumScan.RawHeight | Dopamine/Controls/SpectrumAnalyzer.cs:373-391 | the height bar b is drawn from: its bucket's maximum capped at the canvas height while playing, 0 while paused; RawHeightInCanvas and BucketMaxIsMax state its bounds |
| SpectrumScan.StepAborts | Dopamine/Controls/SpectrumAnalyzer.cs:436-439 | an index out of range ends the pass and changes nothing else |
| SpectrumScan.BucketMaxIsMax | Dopamine/Controls/SpectrumAnalyzer.cs:373-381 | the running bar height is the largest bin height of the bucket, or 0 when all of them are negative |
| SpectrumScan.PassInvariant | Dopamine/Controls/SpectrumAnalyzer.cs:348-427 | after any number of bins without an abort, bars before the current one are drawn from their buckets, later bars are untouched, the running height is the maximum so far, and allZero says whether every drawn peak is at rest |
| SpectrumScan.StepKeepsSettled | Dopamine/Controls/SpectrumAnalyzer.cs:348-427 | one more bin keeps that invariant |
| SpectrumScan.ScanShape | Dopamine/Controls/SpectrumAnalyzer.cs:348-439 | an aborted pass keeps the bars it drew before the bad index, and it leaves every other bar as it was |
| SpectrumScan.AbortedStays | Dopamine/Controls/SpectrumAnalyzer.cs:436-439 | once an index falls out of range, the rest of the bins change nothing |
| SpectrumScan.NoAbort | Dopamine/Controls/SpectrumAnalyzer.cs:385 | over a table whose last entry is the maximum index, with every bin present while playing, no index falls out of range |
| SpectrumScan.BarsAhead | Dopamine/Controls/SpectrumAnalyzer.cs:385 | with increasing boundaries, the current bar's boundary is never behind the bin being read |
| SpectrumScan.AllBarsDrawn | Dopamine/Controls/SpectrumAnalyzer.cs:348-427 | over a well-formed table every bar is redrawn and the pass runs to its end |
| SpectrumScan.PassResult | Dopamine/Controls/SpectrumAnalyzer.cs:348-427 | after a pass, a prefix of the bars is drawn, each from its bucket's capped maximum and its updated peak; the other bars are untouched; allZero holds exactly when every drawn peak is at most 0.05 |
| SpectrumScan.UndrawnBeyondMax | Dopamine/Controls/SpectrumAnalyzer.cs:385 | a bar whose boundary is past the maximum index is never redrawn, and neither is any bar after it |
| SpectrumScan.OvershootLeavesBarsUndrawn | Dopamine/Controls/SpectrumAnalyzer.cs:463-476 | with the overshooting table for 159 bars over bins 1..929, bars 154 to 158 are never redrawn |
| SpectrumScan.PassStopsTimer | Dopamine/Controls/SpectrumAnalyzer.cs:418-434 | over a well-formed table, a pass stops the timer exactly when the player is not playing and every new peak is at most 0.05 |
| SpectrumScan.RawHeightInCanvas | Dopamine/Controls/SpectrumAnalyzer.cs:373-391 | the height a bar is drawn from is floored at 0 and capped at the canvas height |
| SpectrumScan.PassStaysInCanvas | Dopamine/Controls/SpectrumAnalyzer.cs:387-416 | peaks stay non-negative and rectangles keep the bar width; a drawn bar hangs from y = height - 1 - drawn; a peak that started within the canvas stays within it |
| SpectrumScan.PausedPassDecays | Dopamine/Controls/SpectrumAnalyzer.cs:350-402 | while paused every bar is drawn from height 0, so each peak becomes 10/11 of itself and Nervous bars are flat |
| SpectrumScan.PausedScanIgnoresBins | Dopamine/Controls/SpectrumAnalyzer.cs:351-354 | while paused, no bin height is read at any step of the pass |
| SpectrumScan.PausedPassIgnoresBins | Dopamine/Controls/SpectrumAnalyzer.cs:351-354 | a paused pass gives the same result whatever the FFT data |
| TimerGating.Unregister | Dopamine/Controls/SpectrumAnalyzer.cs:309-318 | unregistering stops the timer and drops the player |
| TimerGating.Register | Dopamine/Controls/SpectrumAnalyzer.cs:297-307 | registering keeps a player, and the timer runs afterwards exactly when the window is active |
| TimerGating.PlayerPropertyChanged | Dopamine/Controls/SpectrumAnalyzer.cs:510-521 | only an IsPlaying change to playing starts the timer, and only while the window is active |
| TimerGating.Loaded | Dopamine/Controls/SpectrumAnalyzer.cs:533-553 | Loaded attaches the new window (active unless minimized, inactive when there is none after an old one), and starts the timer when the window is active and the player is playing |
| TimerGating.Unloaded | Dopamine/Controls/SpectrumAnalyzer.cs:555-565 | Unloaded stops the timer, detaches the window and clears isWindowActive when a window was attached |
| TimerGating.WindowStateChanged | Dopamine/Controls/SpectrumAnalyzer.cs:567-579 | minimizing stops the timer; restoring starts it while the player is playing |
| TimerGating.PassEnded | Dopamine/Controls/SpectrumAnalyzer.cs:429-434 | a pass can stop the timer but never start it |
| TimerGating.ApplyKeepsConsistent | Dopamine/Controls/SpectrumAnalyzer.cs:297-579 | every event keeps "timer running implies player registered" and "window active implies window attached" |
| TimerGating.RunKeepsConsistent | Dopamine/Controls/SpectrumAnalyzer.cs:297-579 | any sequence of events from a consistent state ends consistent |
| TimerGating.StartsOnlyWhenActive | Dopamine/Controls/SpectrumAnalyzer.cs:297-579 | every event that starts the timer leaves the window active and a player registered |
| TimerGating.StoppedUntilLoaded | Dopamine/Controls/SpectrumAnalyzer.cs:555-565 | after Unloaded the timer stays stopped until the next Loaded, whatever else happens |
| SpectrumAnalyzerControl.BuildLayout | Dopamine/Controls/SpectrumAnalyzer.cs:461-498 | the layout allocates zeroed peaks, the boundary table and the initial rectangles, all fresh |
| SpectrumAnalyzerControl.BuildPeaks | Dopamine/Controls/SpectrumAnalyzer.cs:461 | the peaks array holds one zero per bar |
| SpectrumAnalyzerControl.BuildBoundaryTable | Dopamine/Controls/SpectrumAnalyzer.cs:463-478 | the loop fills the array with exactly BoundaryTable |
| SpectrumAnalyzerControl.BuildBarShapes | Dopamine/Controls/SpectrumAnalyzer.cs:491-498 | the loop fills the array with exactly InitialRects |
| SpectrumAnalyzerControl.WithWidth | Dopamine/Controls/SpectrumAnalyzer.cs:115-122 | a width change gives every rectangle the new width and keeps its x, y and height |
| SpectrumAnalyzerControl.SpectrumAnalyzer.constructor | Dopamine/Controls/SpectrumAnalyzer.cs:257-268 | a new control has the default settings (Nervous, width 1, 32 bars, spacing 5, 16 ms), no player, no window, no canvas and a stopped timer |
| SpectrumAnalyzerControl.SpectrumAnalyzer.UpdateBarLayout | Dopamine/Controls/SpectrumAnalyzer.cs:442-508 | with a player and a canvas, the frequency range and the three arrays become the fresh layout for the current settings; otherwise nothing changes |
| SpectrumAnalyzerControl.SpectrumAnalyzer.UpdateSpectrumShapes | Dopamine/Controls/SpectrumAnalyzer.cs:335-440 | the peaks and rectangles become those of FullPass, and the timer stops exactly when StopsTimer says so |
| SpectrumAnalyzerControl.SpectrumAnalyzer.Sweep | Dopamine/Controls/SpectrumAnalyzer.cs:348-427 | the loop over the bins computes FullPass in place, and reports whether it aborted and, if not, whether every peak is at rest |
| SpectrumAnalyzerControl.SpectrumAnalyzer.ScanBin | Dopamine/Controls/SpectrumAnalyzer.cs:351-426 | one iteration of the loop is one Step of the fold |
| SpectrumAnalyzerControl.SpectrumAnalyzer.DrawBar | Dopamine/Controls/SpectrumAnalyzer.cs:393-416 | drawing a bar updates only its own peak, by PeakUpdate, and only its own rectangle |
| SpectrumAnalyzerControl.SpectrumAnalyzer.UpdateSpectrum | Dopamine/Controls/SpectrumAnalyzer.cs:320-333 | a tick draws only with a player, a canvas of at least 1 by 1, and FFT data while playing; otherwise nothing changes |
| SpectrumAnalyzerControl.SpectrumAnalyzer.Render | Dopamine/Controls/SpectrumAnalyzer.cs:283-295 | rendering lays out, then draws one pass over the fresh layout when UpdateSpectrum would; the timer then stops exactly when that pass says so, and otherwise keeps its state |
| SpectrumAnalyzerControl.SpectrumAnalyzer.UnregisterSoundPlayer | Dopamine/Controls/SpectrumAnalyzer.cs:309-318 | the control follows TimerGating.Unregister and drops the player |
| SpectrumAnalyzerControl.SpectrumAnalyzer.RegisterSoundPlayer | Dopamine/Controls/SpectrumAnalyzer.cs:297-307 | the control follows TimerGating.Register, keeps the new player and is laid out when it has a canvas |
| SpectrumAnalyzerControl.SpectrumAnalyzer.SoundPlayerPropertyChanged | Dopamine/Controls/SpectrumAnalyzer.cs:510-521 | the control follows TimerGating.PlayerPropertyChanged |
| SpectrumAnalyzerControl.SpectrumAnalyzer.Loaded | Dopamine/Controls/SpectrumAnalyzer.cs:533-553 | the control follows TimerGating.Loaded |
| SpectrumAnalyzerControl.SpectrumAnalyzer.Unloaded | Dopamine/Controls/SpectrumAnalyzer.cs:555-565 | the control follows TimerGating.Unloaded |
| SpectrumAnalyzerControl.SpectrumAnalyzer.WindowStateChanged | Dopamine/Controls/SpectrumAnalyzer.cs:567-579 | the control follows TimerGating.WindowStateChanged |
| SpectrumAnalyzerControl.SpectrumAnalyzer.OnApplyTemplate | Dopamine/Controls/SpectrumAnalyzer.cs:270-275 | the control takes the template's canvas and is laid out when it has a player |
| SpectrumAnalyzerControl.SpectrumAnalyzer.CanvasSizeChanged | Dopamine/Controls/SpectrumAnalyzer.cs:528-531 | a new canvas size is recorded and the control is laid out again when it has a player |
| SpectrumAnalyzerControl.SpectrumAnalyzer.SetBarCount | Dopamine/Controls/SpectrumAnalyzer.cs:139-161 | BarCount takes the coerced value, and only a changed value lays out again |
| SpectrumAnalyzerControl.SpectrumAnalyzer.SetBarSpacing | Dopamine/Controls/SpectrumAnalyzer.cs:177-200 | BarSpacing takes the coerced value, and only a changed value lays out again |
| SpectrumAnalyzerControl.SpectrumAnalyzer.SetBarWidth | Dopamine/Controls/SpectrumAnalyzer.cs:104-123 | BarWidth takes the value; only each rectangle's width changes, and the layout is not rebuilt |
| SpectrumAnalyzerControl.SpectrumAnalyzer.SetRefreshInterval | Dopamine/Controls/SpectrumAnalyzer.cs:216-238 | RefreshInterval takes the clamped value and the timer takes the same interval |
| SpectrumAnalyzerControl.SpectrumAnalyzer.SetAnimationStyle | Dopamine/Controls/SpectrumAnalyzer.cs:66-78 | the style changes with no other effect; the next pass draws in it |
| LyricsText.TrimStartDropsBlank | Dopamine/Views/Common/LyricsControl.xaml.cs:120 | TrimStart removes a leading run of white space and stops at the first other character |
| LyricsText.TrimEndDropsBlank | Dopamine/Views/Common/LyricsControl.xaml.cs:120 | TrimEnd removes a trailing run of white space and stops at the last other character |
| LyricsText.TrimStart | Dopamine/Views/Common/LyricsControl.xaml.cs:120 | String.TrimStart never lengthens the line; TrimStartDropsBlank states what it removes |
| LyricsText.TrimEnd | Dopamine/Views/Common/LyricsControl.xaml.cs:120 | String.TrimEnd never lengthens the line; TrimEndDropsBlank states what it removes |
| LyricsText.Trim | Dopamine/Views/Common/LyricsControl.xaml.cs:120 | String.Trim as TrimStart then TrimEnd; TrimEmptyIffBlank states when it leaves nothing |
| LyricsText.TrimEmptyIffBlank | Dopamine/Views/Common/LyricsControl.xaml.cs:120 | Trim leaves nothing exactly when every character of the line is white space, line break included |
| LyricsText.LineStart | Dopamine/Views/Common/LyricsControl.xaml.cs:116-117 | the caret's line starts at the text's start or just after a line break, at or before the caret |
| LyricsText.LineStartNoBreak | Dopamine/Views/Common/LyricsControl.xaml.cs:116-117 | there is no line break between the line's start and the caret |
| LyricsText.LineEnd | Dopamine/Views/Common/LyricsControl.xaml.cs:118 | the caret's line ends just past a line break, or at the end of the text |
| LyricsText.LineEndNoBreak | Dopamine/Views/Common/LyricsControl.xaml.cs:118 | there is no line break between the caret and the line's last character |
| LyricsText.LineAt | Dopamine/Views/Common/LyricsControl.xaml.cs:118 | GetLineText is the text from the line's start to its end, terminator included |
| LyricsText.LineBreakOnlyAtEnd | Dopamine/Views/Common/LyricsControl.xaml.cs:118 | a line holds a line break only as its last character |
| LyricsText.IndexOf | Dopamine/Views/Common/LyricsControl.xaml.cs:130 | IndexOf gives the first occurrence of the character, or -1 when it is absent |
| LyricsText.TagLength | Dopamine/Views/Common/LyricsControl.xaml.cs:126-140 | the length of the leading tag lies within the line: up to the first ']' of a line opening with '[', the whole line when there is none, 0 otherwise |
| LyricsText.StripTag | Dopamine/Views/Common/LyricsControl.xaml.cs:126-140 | the line with its leading tag removed; StripTagCases states its three cases |
| LyricsText.StripTagCases | Dopamine/Views/Common/LyricsControl.xaml.cs:126-140 | a line not starting with '[' is kept whole; one starting with '[' loses everything up to its first ']', or everything when there is no ']' |
| LyricsTimeStamp.StampMinutesWithinDay | Dopamine/Views/Common/LyricsControl.xaml.cs:144 | Minutes + 60 * Hours counts the position's whole minutes modulo one day, so it is below 1440 |
| LyricsTimeStamp.ParseZeroPad | Dopamine/Views/Common/LyricsControl.xaml.cs:148 | zero padding does not change the value of a number |
| LyricsTimeStamp.TimeStampRoundTrip | Dopamine/Views/Common/LyricsControl.xaml.cs:144-149 | reading the stamp back gives the minutes, seconds and milliseconds it was made from |
| LyricsTimeStamp.TimeStampShape | Dopamine/Views/Common/LyricsControl.xaml.cs:148-149 | a stamp opens with '[', closes with its only ']', holds no line break and is not blank |
| LyricsTimeStamp.StripTagAfterStamp | Dopamine/Views/Common/LyricsControl.xaml.cs:126-149 | the tag strip removes exactly an earlier stamp |
| LyricsTimeStamp.StampMinutes | Dopamine/Views/Common/LyricsControl.xaml.cs:144 | the minutes field, Minutes + 60 * Hours; StampMinutesWithinDay states its value |
| LyricsTimeStamp.FormatTimeStamp | Dopamine/Views/Common/LyricsControl.xaml.cs:144-149 | "[" minutes ":" seconds "." milliseconds "]", padded to 2, 2 and 3 digits; TimeStampRoundTrip and TimeStampShape state what it yields |
| LyricsEditing.NextNonBlank | Dopamine/Views/Common/LyricsControl.xaml.cs:155-164 | the skip stops at or after its start, on a line that is not blank, or at the end of the text |
| LyricsEditing.SkippedLinesBlank | Dopamine/Views/Common/LyricsControl.xaml.cs:155-164 | every position the skip passes over is on a blank line |
| LyricsEditing.RemoveThenInsert | Dopamine/Views/Common/LyricsControl.xaml.cs:151-152 | Remove then Insert at the same index replaces the removed span by the inserted string and keeps the rest |
| LyricsEditing.StampedLine | Dopamine/Views/Common/LyricsControl.xaml.cs:126-149 | the new line is the stamp followed by the line without its leading tag; StampedLineCases states the cases |
| LyricsEditing.Restamp | Dopamine/Views/Common/LyricsControl.xaml.cs:151-164 | the caret's line replaced by its stamped form, and the caret placed past it and over the following blank lines, within the text; RestampSplice and RestampCaret state the result |
| LyricsEditing.AddTimeStamp | Dopamine/Views/Common/LyricsControl.xaml.cs:110-171 | the whole command on a text and caret, keeping the caret within the text; BlankLineAdvances, OutOfRangeUnchanged and StampsWhenInRange state its three cases |
| LyricsEditing.BlankLineAdvances | Dopamine/Views/Common/LyricsControl.xaml.cs:120-124 | on a blank line the text is unchanged and the caret moves exactly one place on, unless it is at the end |
| LyricsEditing.OutOfRangeUnchanged | Dopamine/Views/Common/LyricsControl.xaml.cs:149 | a position DateTime cannot represent leaves text and caret unchanged |
| LyricsEditing.StampsWhenInRange | Dopamine/Views/Common/LyricsControl.xaml.cs:126-164 | a line that is not blank, at a representable position, is restamped with the position's stamp |
| LyricsEditing.RestampSplice | Dopamine/Views/Common/LyricsControl.xaml.cs:151-152 | only the span [lineStart, lineStart + line.Length) is replaced, by the new line; the text before and after it is kept |
| LyricsEditing.RestampCaret | Dopamine/Views/Common/LyricsControl.xaml.cs:153-164 | the caret ends at or after lineStart + newLine.Length, on a line that is not blank or at the end, having passed only blank lines |
| LyricsEditing.StampAtLineStart | Dopamine/Views/Common/LyricsControl.xaml.cs:149-152 | the restamped line starts with the stamp |
| LyricsEditing.StampReadsBack | Dopamine/Views/Common/LyricsControl.xaml.cs:144-152 | the stamp at the line's start reads back as the position's minutes, seconds and milliseconds |
| LyricsEditing.StampedLineCases | Dopamine/Views/Common/LyricsControl.xaml.cs:126-149 | the new line is the stamp followed by the whole line, by what follows its first ']', or by nothing for an unclosed '[' |
| LyricsEditing.UnclosedTagJoinsNextLine | Dopamine/Views/Common/LyricsControl.xaml.cs:126-152 | a line opening a '[' it never closes loses its line break, so the stamp runs into the next line |
| LyricsEditing.RestampReplacesStamp | Dopamine/Views/Common/LyricsControl.xaml.cs:126-149 | stamping an already stamped line swaps the stamp and keeps the rest |
| LyricsEditing.TextBox.SetText | Dopamine/Views/Common/LyricsControl.xaml.cs:151-152 | assigning Text replaces the whole content and keeps the caret within it |
| LyricsEditing.TextBox.SetCaretIndex | Dopamine/Views/Common/LyricsControl.xaml.cs:153 | assigning a non-negative CaretIndex puts the caret there, or at the end of the text when the value is past it, and leaves the text alone |
| LyricsEditing.LyricsControl.AddTimeStampToSelectedLyricsLine | Dopamine/Views/Common/LyricsControl.xaml.cs:110-171 | with a TextBox, the text and caret become AddTimeStamp of the old ones; without one nothing happens |
| LyricsEditing.LyricsControl.SkipBlankLines | Dopamine/Views/Common/LyricsControl.xaml.cs:155-164 | the loop leaves the text alone and moves the caret to NextNonBlank |
| LyricsEditing.LyricsControl.TextBoxKeyDown | Dopamine/Views/Common/LyricsControl.xaml.cs:58-64 | only Ctrl+T alone, while playback is not stopped, runs the command; every other key leaves the TextBox unchanged |

## Left out

- Decibel conversion: the `20 * log10` of each FFT magnitude is not modelled. Each bin's decibel level is an input, and only the linear map of -90..0 dB onto the canvas height is modelled.
- The Gentle style's `-= 0.003f` on each FFT value is not modelled, because it only changes the float magnitudes before the logarithm.
- The `(float)` truncation of stored peaks is not modelled. Peaks are exact reals, and floating-point rounding, NaN and infinities are out of scope.
- The logarithmic table `barLogScaleIndexMax` is not modelled, because it needs `Math.Log` and nothing reads it.
- `bandWidth` and `barHeights` are not modelled, because they are computed but never read.
- The player (`ISpectrumPlayer`) is not modelled. `GetFFTFrequencyIndex` is a function carried by `SpectrumPlayer`. `IsPlaying` and the result of `GetFFTData` are parameters of the methods that read them.
- `SpectrumAnalyzerControl.SpectrumAnalyzer.UpdateBarLayout`: the division by `BarWidth + BarSpacing` when both add up to zero (with BarWidth below 1) is excluded by a precondition (`LayoutDefined`) instead of modelling the resulting infinity.
- The fixed 1024-entry `channelData` buffer against bin indices up to 2047 is not modelled. An out-of-range index, in the FFT data or in the boundary table, ends the pass as the swallowed `IndexOutOfRangeException` does. The pass then keeps what it drew and leaves the timer alone.
- The timer is a flag and an interval. `DispatcherTimer` scheduling, ticks and the dispatcher are not modelled; a tick is a call of `UpdateSpectrum`.
- Templates, brushes, `GeometryGroup`, `DrawingImage` and the canvas's children are not modelled. `OnTemplateChanged`, which only unhooks the canvas's handler, is left out too.
- `SpectrumAnalyzerControl.SpectrumAnalyzer.OnApplyTemplate` and `CanvasSizeChanged` take the canvas's render size as parameters. WPF layout is not modelled.
- `SpectrumLayout.ActualBarCount`: integers are unbounded. A C# `(int)` cast of a quotient beyond the `int` range gives an unspecified value (the model truncates exactly), and allocating arrays of that many bars is not modelled. The frequency indices are at most 2047 and cannot overflow.
- `SpectrumAnalyzerControl.SpectrumAnalyzer.SetBarWidth`: a negative BarWidth makes WPF's `Rect` constructor throw, on the width change, on every layout and on every tick. The model treats negative widths as ordinary widths.
- Concurrency is left out, because the control and the lyrics editor run on the UI thread.
- Lyrics: the focus, dispatcher and scroll code and the lookup of the TextBox in the data template are not modelled.
- Lyrics: the TextBox's line APIs are functions over the text. `'\n'` is the only line break, and soft wrapping and `"\r\n"` are not modelled.
- Lyrics: `String.StartsWith("[")` uses the current culture. It is modelled as an ordinal comparison of the first character.
- Lyrics: `DateTime.ToString(format)` turns `:` into the culture's time separator and copies the other characters. The stamp is modelled with `:`, the separator of the invariant and English cultures.
- Lyrics: the playback position comes from the playback service and is a parameter (ticks). Negative positions and positions beyond `DateTime.MaxValue` leave the text unchanged, as the swallowed exception does.
- `LyricsEditing.TextBox.SetCaretIndex`: a negative value throws in WPF. It is excluded by a precondition, because the command only assigns non-negative values.
- `LyricsEditing.TextBox.SetText`: where WPF puts the caret after `Text` is assigned is not modelled. The command always sets the caret next.
