/** The lyrics editor's Ctrl+T command: the current line of the lyrics
    TextBox gets the playback position as a "[mm:ss.fff]" stamp in place of
    its leading tag, and the caret moves on to the next line that is not
    blank. */
module LyricsEditing {
  import opened Optional
  import opened LyricsText
  import opened LyricsTimeStamp

  /** The TextBox's text and caret after a command. */
  datatype Edit = Edit(text: string, caret: int)

  /** Where the blank-line skip stops when it starts at c: the first index
      from c on whose line is not blank, or the end of the text. */
  function NextNonBlank(text: string, c: int): (r: int)
    requires 0 <= c <= |text|
    ensures c <= r <= |text|
    ensures r == |text| || !IsBlank(LineAt(text, r))
    decreases |text| - c
  {
    if !IsBlank(LineAt(text, c)) || c == |text| then c else NextNonBlank(text, c + 1)
  }

  /** Every line the skip passes over is blank. */
  lemma {:induction false} SkippedLinesBlank(text: string, c: int)
    requires 0 <= c <= |text|
    ensures forall j :: c <= j < NextNonBlank(text, c) ==> IsBlank(LineAt(text, j))
    decreases |text| - c
  {
    if !(!IsBlank(LineAt(text, c)) || c == |text|) {
      SkippedLinesBlank(text, c + 1);
    }
  }

  /** String.Remove(start, count): the text without the span
      [start, start + count). */
  function Remove(s: string, start: int, count: int): (r: string)
    requires 0 <= start && 0 <= count && start + count <= |s|
    ensures |r| == |s| - count
  {
    s[..start] + s[start + count..]
  }

  /** String.Insert(start, value): value placed before index start. */
  function Insert(s: string, start: int, value: string): (r: string)
    requires 0 <= start <= |s|
    ensures |r| == |s| + |value|
  {
    s[..start] + value + s[start..]
  }

  /** Removing the span [start, end) and inserting s at start replaces the
      span by s, and nothing else. */
  lemma RemoveThenInsert(text: string, start: int, count: int, s: string)
    requires 0 <= start && 0 <= count && start + count <= |text|
    ensures var r := Insert(Remove(text, start, count), start, s);
      var end := start + count;
      && |r| == |text| - (end - start) + |s|
      && r[..start] == text[..start]
      && r[start..start + |s|] == s
      && r[start + |s|..] == text[end..]
      && r == text[..start] + s + text[end..]
  {
    var removed := Remove(text, start, count);
    assert removed[..start] == text[..start] && removed[start..] == text[start + count..];
  }

  /** The line as it is written back: the stamp, then what is left of the
      line once its leading tag is removed. */
  function StampedLine(line: string, stamp: string): string {
    stamp + StripTag(line)
  }

  /** A playback position DateTime can represent; any other makes the
      command throw before it changes anything. */
  predicate InDateTimeRange(ticks: int) {
    0 <= ticks <= MaxDateTimeTicks
  }

  /** The text with the caret's line replaced by its stamped form. */
  function RestampedText(text: string, caret: int, stamp: string): (r: string)
    requires 0 <= caret <= |text|
    ensures |r| == |text| - |LineAt(text, caret)| + |StampedLine(LineAt(text, caret), stamp)|
  {
    var line := LineAt(text, caret);
    Insert(Remove(text, LineStart(text, caret), |line|), LineStart(text, caret), StampedLine(line, stamp))
  }

  /** Where the stamped line ends in the restamped text. */
  function StampedLineEnd(text: string, caret: int, stamp: string): (r: int)
    requires 0 <= caret <= |text|
    ensures 0 <= r <= |RestampedText(text, caret, stamp)|
  {
    LineStart(text, caret) + |StampedLine(LineAt(text, caret), stamp)|
  }

  /** The caret's line restamped, the caret put past it and then over the
      blank lines that follow. */
  function Restamp(text: string, caret: int, stamp: string): (r: Edit)
    requires 0 <= caret <= |text|
    ensures 0 <= r.caret <= |r.text|
  {
    var edited := RestampedText(text, caret, stamp);
    Edit(edited, NextNonBlank(edited, StampedLineEnd(text, caret, stamp)))
  }

  /** The whole command on a text and caret:
      - a blank line (Trim leaves nothing) only moves the caret one place on,
        as far as the end of the text;
      - a position DateTime cannot represent changes nothing;
      - otherwise the line is restamped with the position's stamp. */
  function AddTimeStamp(text: string, caret: int, ticks: int): (r: Edit)
    requires 0 <= caret <= |text|
    ensures 0 <= r.caret <= |r.text|
  {
    if IsBlank(LineAt(text, caret)) then Edit(text, if caret < |text| then caret + 1 else caret)
    else if !InDateTimeRange(ticks) then Edit(text, caret)
    else Restamp(text, caret, FormatTimeStamp(ticks))
  }

  /** On a blank line the text stays as it is and the caret moves exactly
      one place forward, unless it is already at the end. */
  lemma BlankLineAdvances(text: string, caret: int, ticks: int)
    requires 0 <= caret <= |text|
    requires |Trim(LineAt(text, caret))| == 0
    ensures AddTimeStamp(text, caret, ticks).text == text
    ensures AddTimeStamp(text, caret, ticks).caret == if caret < |text| then caret + 1 else |text|
  {
    TrimEmptyIffBlank(LineAt(text, caret));
  }

  /** A position outside DateTime's range leaves a line that is not blank
      as it was, caret included. */
  lemma OutOfRangeUnchanged(text: string, caret: int, ticks: int)
    requires 0 <= caret <= |text|
    requires |Trim(LineAt(text, caret))| != 0 && !InDateTimeRange(ticks)
    ensures AddTimeStamp(text, caret, ticks) == Edit(text, caret)
  {
    TrimEmptyIffBlank(LineAt(text, caret));
  }

  /** Restamping replaces exactly the span [start, end) of the caret's line
      by the stamped line: the text before it and after it is kept. */
  lemma RestampSplice(text: string, caret: int, stamp: string)
    requires 0 <= caret <= |text|
    ensures var r := RestampedText(text, caret, stamp);
      var start := LineStart(text, caret);
      var end := LineEnd(text, caret);
      var newLine := StampedLine(LineAt(text, caret), stamp);
      && |r| == |text| - (end - start) + |newLine|
      && r[..start] == text[..start]
      && r[start..start + |newLine|] == newLine
      && r[start + |newLine|..] == text[end..]
  {
    var start := LineStart(text, caret);
    var line := LineAt(text, caret);
    assert start + |line| == LineEnd(text, caret);
    RemoveThenInsert(text, start, |line|, StampedLine(line, stamp));
  }

  /** After restamping, the caret is at or after the end of the new line,
      on the first line from there that is not blank, or at the end of the
      text; every line it passed over is blank. */
  lemma RestampCaret(text: string, caret: int, stamp: string)
    requires 0 <= caret <= |text|
    ensures var r := Restamp(text, caret, stamp);
      var from := StampedLineEnd(text, caret, stamp);
      && r.text == RestampedText(text, caret, stamp)
      && from <= r.caret
      && (r.caret == |r.text| || !IsBlank(LineAt(r.text, r.caret)))
      && forall j :: from <= j < r.caret ==> IsBlank(LineAt(r.text, j))
  {
    SkippedLinesBlank(RestampedText(text, caret, stamp), StampedLineEnd(text, caret, stamp));
  }

  /** A line that is not blank, at a position DateTime can represent, is
      restamped with the position's stamp. */
  lemma StampsWhenInRange(text: string, caret: int, ticks: int)
    requires 0 <= caret <= |text|
    requires |Trim(LineAt(text, caret))| != 0 && InDateTimeRange(ticks)
    ensures AddTimeStamp(text, caret, ticks) == Restamp(text, caret, FormatTimeStamp(ticks))
  {
    TrimEmptyIffBlank(LineAt(text, caret));
  }

  /** The restamped line starts with the stamp. */
  lemma StampAtLineStart(text: string, caret: int, stamp: string)
    requires 0 <= caret <= |text|
    ensures var start := LineStart(text, caret);
      var r := RestampedText(text, caret, stamp);
      start + |stamp| <= |r| && r[start..start + |stamp|] == stamp
  {
    RestampSplice(text, caret, stamp);
    SpanPrefix(RestampedText(text, caret, stamp), LineStart(text, caret), stamp,
      StripTag(LineAt(text, caret)));
  }

  /** The stamp at the start of the restamped line reads back as the
      position's minutes, seconds and milliseconds. */
  lemma StampReadsBack(text: string, caret: int, ticks: nat)
    requires 0 <= caret <= |text|
    ensures var start := LineStart(text, caret);
      var stamp := FormatTimeStamp(ticks);
      var r := RestampedText(text, caret, stamp);
      && start + |stamp| <= |r|
      && ParseTimeStamp(r[start..start + |stamp|])
        == Some(Fields(StampMinutes(ticks), Seconds(ticks), Milliseconds(ticks)))
  {
    StampAtLineStart(text, caret, FormatTimeStamp(ticks));
    TimeStampRoundTrip(ticks);
  }

  /** The part of a span of t that the span starts with. */
  lemma SpanPrefix(t: string, start: int, prefix: string, rest: string)
    requires 0 <= start && start + |prefix + rest| <= |t|
    requires t[start..start + |prefix + rest|] == prefix + rest
    ensures t[start..start + |prefix|] == prefix
  {
    assert t[start..start + |prefix|] == t[start..start + |prefix + rest|][..|prefix|];
  }

  /** The three ways the old line survives after the stamp: whole when it
      does not open with '[', after its first ']' when it does, and not at
      all (its line break included) when the '[' is never closed. */
  lemma StampedLineCases(line: string, stamp: string)
    ensures |line| == 0 || line[0] != '[' ==> StampedLine(line, stamp) == stamp + line
    ensures |line| > 0 && line[0] == '[' && ']' !in line ==> StampedLine(line, stamp) == stamp
    ensures forall k :: 0 <= k < |line| && line[0] == '[' && line[k] == ']' && ']' !in line[..k] ==>
      StampedLine(line, stamp) == stamp + line[k + 1..]
  {
    StripTagCases(line);
  }

  /** A line that opens a tag it never closes loses its line break too: the
      stamp runs straight into the line that followed. */
  lemma UnclosedTagJoinsNextLine(text: string, caret: int, stamp: string)
    requires 0 <= caret <= |text|
    requires var line := LineAt(text, caret);
      |line| > 0 && line[0] == '[' && ']' !in line
    ensures var start := LineStart(text, caret);
      RestampedText(text, caret, stamp) == text[..start] + stamp + text[LineEnd(text, caret)..]
  {
    var line := LineAt(text, caret);
    assert LineStart(text, caret) + |line| == LineEnd(text, caret);
    StripTagCases(line);
    assert StampedLine(line, stamp) == stamp;
    RemoveThenInsert(text, LineStart(text, caret), |line|, stamp);
  }

  /** Stamping a line that already carries a stamp swaps the stamp and keeps
      the rest of the line. */
  lemma RestampReplacesStamp(line: string, old_ticks: nat, stamp: string)
    ensures StampedLine(FormatTimeStamp(old_ticks) + line, stamp) == stamp + line
  {
    StripTagAfterStamp(old_ticks, line);
  }

  /** The TextBox the lyrics are edited in: its text and caret. */
  class TextBox {
    var text: string
    var caretIndex: int

    ghost predicate Valid()
      reads this
    {
      0 <= caretIndex <= |text|
    }

    constructor (text: string)
      ensures Valid()
      ensures this.text == text && caretIndex == 0
    {
      this.text := text;
      caretIndex := 0;
    }

    /** Assigning Text replaces the whole content; where the caret then is
        is not part of this model (the command always sets it next). */
    method SetText(value: string)
      modifies this
      ensures Valid()
      ensures text == value
    {
      text := value;
      if caretIndex < 0 || caretIndex > |value| {
        caretIndex := 0;
      }
    }

    /** Assigning CaretIndex: a value past the end of the text puts the caret
        at the end (a negative value throws, and the command never gives one). */
    method SetCaretIndex(value: int)
      requires value >= 0
      modifies this
      ensures Valid()
      ensures text == old(text)
      ensures caretIndex == if value > |text| then |text| else value
    {
      caretIndex := if value > |text| then |text| else value;
    }
  }

  /** The keys of the KeyDown handler. */
  datatype Key = T | OtherKey
  datatype ModifierKey = Alt | Control | Shift | Windows

  /** The part of the lyrics control the command works on: the TextBox, when
      the template has supplied one. */
  class LyricsControl {
    var lyricsTextBox: TextBox?

    constructor (box: TextBox?)
      ensures lyricsTextBox == box
    {
      lyricsTextBox := box;
    }

    /** Stamps the caret's line with the playback position `ticks`, then
        skips the blank lines after it; without a TextBox it does nothing. */
    method AddTimeStampToSelectedLyricsLine(ticks: int)
      requires lyricsTextBox != null ==> lyricsTextBox.Valid()
      modifies lyricsTextBox
      ensures lyricsTextBox != null ==> lyricsTextBox.Valid()
      ensures lyricsTextBox != null ==>
        Edit(lyricsTextBox.text, lyricsTextBox.caretIndex)
          == AddTimeStamp(old(lyricsTextBox.text), old(lyricsTextBox.caretIndex), ticks)
    {
      if lyricsTextBox == null {
        return;
      }
      var box := lyricsTextBox;
      ghost var text0, caret0 := box.text, box.caretIndex;
      var start := LineStart(box.text, box.caretIndex);
      var line := LineAt(box.text, box.caretIndex);
      if |Trim(line)| == 0 {
        BlankLineAdvances(text0, caret0, ticks);
        box.SetCaretIndex(box.caretIndex + 1);
        return;
      }

      var strippedLine := "";
      if |line| > 0 && line[0] == '[' {
        var index := IndexOf(line, ']');
        if index > 0 {
          strippedLine := line[index + 1..];
        } else {
          assert line[|line|..] == strippedLine;
        }
      } else {
        strippedLine := line;
        assert line[0..] == line;
      }
      assert strippedLine == StripTag(line);

      if !InDateTimeRange(ticks) {
        // new DateTime(ticks) throws; the handler swallows it
        OutOfRangeUnchanged(text0, caret0, ticks);
        return;
      }
      var stamp := FormatTimeStamp(ticks);
      var newLine := stamp + strippedLine;
      assert newLine == StampedLine(line, stamp);
      StampsWhenInRange(text0, caret0, ticks);

      box.SetText(Remove(box.text, start, |line|));
      box.SetText(Insert(box.text, start, newLine));
      box.SetCaretIndex(start + |newLine|);
      assert box.text == RestampedText(text0, caret0, stamp);
      assert box.caretIndex == StampedLineEnd(text0, caret0, stamp);
      SkipBlankLines(box);
    }

    /** The "jump over empty lines" loop: while the caret's line is blank
        and the caret is not at the end of the text, move it one place on. */
    method SkipBlankLines(box: TextBox)
      requires box.Valid()
      modifies box
      ensures box.Valid() && box.text == old(box.text)
      ensures box.caretIndex == NextNonBlank(old(box.text), old(box.caretIndex))
    {
      ghost var from := box.caretIndex;
      var line := LineAt(box.text, box.caretIndex);
      TrimEmptyIffBlank(line);
      while |Trim(line)| == 0
        invariant box.Valid() && box.text == old(box.text)
        invariant from <= box.caretIndex
        invariant NextNonBlank(box.text, box.caretIndex) == NextNonBlank(box.text, from)
        invariant |Trim(line)| == 0 <==> IsBlank(LineAt(box.text, box.caretIndex))
        decreases |box.text| - box.caretIndex
      {
        if box.caretIndex == |box.text| {
          break;
        }
        box.SetCaretIndex(box.caretIndex + 1);
        line := LineAt(box.text, box.caretIndex);
        TrimEmptyIffBlank(line);
      }
    }

    /** Ctrl+T, with no other modifier held and playback not stopped, stamps
        the current line; every other key leaves the text and caret alone. */
    method TextBoxKeyDown(key: Key, modifiers: set<ModifierKey>, isStopped: bool, ticks: int)
      requires lyricsTextBox != null ==> lyricsTextBox.Valid()
      modifies lyricsTextBox
      ensures lyricsTextBox != null ==> lyricsTextBox.Valid()
      ensures lyricsTextBox != null && key == T && modifiers == {Control} && !isStopped ==>
        Edit(lyricsTextBox.text, lyricsTextBox.caretIndex)
          == AddTimeStamp(old(lyricsTextBox.text), old(lyricsTextBox.caretIndex), ticks)
      ensures !(key == T && modifiers == {Control} && !isStopped) ==>
        lyricsTextBox != null ==> unchanged(lyricsTextBox)
    {
      if key == T && modifiers == {Control} {
        if !isStopped {
          AddTimeStampToSelectedLyricsLine(ticks);
        }
      }
    }
  }
}
