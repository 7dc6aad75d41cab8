/** The plain-text view of the lyrics TextBox: white space and Trim, the line
    around a character index (lines end with '\n', which belongs to the line
    it ends), IndexOf, and the removal of a leading "[...]" tag. */
module LyricsText {

  /** Char.IsWhiteSpace: the Unicode space separators, the line and
      paragraph separators, U+0009..U+000D, U+0085 and U+00A0. */
  predicate IsWhiteSpace(c: char) {
    var u := c as int;
    || 0x09 <= u <= 0x0D || u == 0x20 || u == 0x85 || u == 0xA0 || u == 0x1680
    || 0x2000 <= u <= 0x200A || u == 0x2028 || u == 0x2029 || u == 0x202F
    || u == 0x205F || u == 0x3000
  }

  /** Every character is white space. */
  predicate IsBlank(s: string) {
    forall j :: 0 <= j < |s| ==> IsWhiteSpace(s[j])
  }

  /** String.TrimStart(): drop the leading white space. */
  function TrimStart(s: string): (r: string)
    ensures |r| <= |s|
  {
    if s != [] && IsWhiteSpace(s[0]) then TrimStart(s[1..]) else s
  }

  /** TrimStart keeps a suffix that does not start with white space, and
      what it drops is all white space. */
  lemma {:induction false} TrimStartDropsBlank(s: string)
    ensures var r := TrimStart(s);
      && r == s[|s| - |r|..]
      && (r == [] || !IsWhiteSpace(r[0]))
      && IsBlank(s[..|s| - |r|])
  {
    if s != [] && IsWhiteSpace(s[0]) {
      TrimStartDropsBlank(s[1..]);
      var r := TrimStart(s[1..]);
      assert s[1..][..|s[1..]| - |r|] == s[1..|s| - |r|];
    } else {
      assert s[0..] == s;
    }
  }

  /** String.TrimEnd(): drop the trailing white space. */
  function TrimEnd(s: string): (r: string)
    ensures |r| <= |s|
  {
    if s != [] && IsWhiteSpace(s[|s| - 1]) then TrimEnd(s[..|s| - 1]) else s
  }

  /** TrimEnd keeps a prefix that does not end with white space, and what it
      drops is all white space. */
  lemma {:induction false} TrimEndDropsBlank(s: string)
    ensures var r := TrimEnd(s);
      && r == s[..|r|]
      && (r == [] || !IsWhiteSpace(r[|r| - 1]))
      && IsBlank(s[|r|..])
  {
    if s != [] && IsWhiteSpace(s[|s| - 1]) {
      TrimEndDropsBlank(s[..|s| - 1]);
      var r := TrimEnd(s[..|s| - 1]);
      assert s[..|s| - 1][|r|..] == s[|r|..|s| - 1];
    } else {
      assert s[..|s|] == s;
    }
  }

  /** String.Trim(): drop white space at both ends. */
  function Trim(s: string): string {
    TrimEnd(TrimStart(s))
  }

  /** Trim leaves nothing exactly when the string is all white space, so
      `line.Trim().Length == 0` is IsBlank(line). */
  lemma TrimEmptyIffBlank(s: string)
    ensures |Trim(s)| == 0 <==> IsBlank(s)
  {
    var t := TrimStart(s);
    TrimStartDropsBlank(s);
    TrimEndDropsBlank(t);
    if |Trim(s)| == 0 {
      assert t[0..] == t;
      assert s[..|s|] == s;
    }
  }

  /** Index of the first character of the line holding index c (the
      TextBox's GetCharacterIndexFromLineIndex(GetLineIndexFromCharacterIndex(c))). */
  function LineStart(text: string, c: int): (r: int)
    requires 0 <= c <= |text|
    ensures 0 <= r <= c
    ensures r == 0 || text[r - 1] == '\n'
  {
    if c == 0 || text[c - 1] == '\n' then c else LineStart(text, c - 1)
  }

  /** No line break between a line's start and c. */
  lemma {:induction false} LineStartNoBreak(text: string, c: int)
    requires 0 <= c <= |text|
    ensures forall j :: LineStart(text, c) <= j < c ==> text[j] != '\n'
    decreases c
  {
    if !(c == 0 || text[c - 1] == '\n') {
      LineStartNoBreak(text, c - 1);
    }
  }

  /** Index just past the end of the line holding index c: past its '\n',
      or the end of the text for the last line. */
  function LineEnd(text: string, c: int): (r: int)
    requires 0 <= c <= |text|
    ensures c <= r <= |text|
    ensures r == |text| || (r > 0 && text[r - 1] == '\n')
    decreases |text| - c
  {
    if c == |text| then c
    else if text[c] == '\n' then c + 1
    else LineEnd(text, c + 1)
  }

  /** No line break between c and the last character of its line. */
  lemma {:induction false} LineEndNoBreak(text: string, c: int)
    requires 0 <= c <= |text|
    ensures forall j :: c <= j < LineEnd(text, c) - 1 ==> text[j] != '\n'
    decreases |text| - c
  {
    if c < |text| && text[c] != '\n' {
      LineEndNoBreak(text, c + 1);
    }
  }

  /** The TextBox's GetLineText for the line holding index c: the line's
      characters including its terminating '\n'. */
  function LineAt(text: string, c: int): (line: string)
    requires 0 <= c <= |text|
    ensures line == text[LineStart(text, c)..LineEnd(text, c)]
    ensures LineStart(text, c) + |line| == LineEnd(text, c)
  {
    text[LineStart(text, c)..LineEnd(text, c)]
  }

  /** A line holds at most one '\n', as its last character. */
  lemma LineBreakOnlyAtEnd(text: string, c: int)
    requires 0 <= c <= |text|
    ensures var line := LineAt(text, c);
      forall j :: 0 <= j < |line| - 1 ==> line[j] != '\n'
  {
    var s := LineStart(text, c);
    var line := LineAt(text, c);
    LineStartNoBreak(text, c);
    LineEndNoBreak(text, c);
    forall j | 0 <= j < |line| - 1 ensures line[j] != '\n' {
      assert line[j] == text[s + j];
    }
  }

  /** String.IndexOf(char): the first index of ch, -1 when absent. */
  function IndexOf(s: string, ch: char): (r: int)
    ensures -1 <= r < |s|
    ensures r >= 0 ==> s[r] == ch
    ensures forall j :: 0 <= j < |s| && (r < 0 || j < r) ==> s[j] != ch
  {
    if s == [] then -1
    else if s[0] == ch then 0
    else
      var r := IndexOf(s[1..], ch);
      if r < 0 then -1 else r + 1
  }

  /** How many characters of the line a leading "[...]" tag takes: up to
      and including the first ']' of a line starting with '[' (the whole
      line, when it has no ']'), none for any other line. */
  function TagLength(line: string): (k: int)
    ensures 0 <= k <= |line|
  {
    if |line| > 0 && line[0] == '[' then
      var index := IndexOf(line, ']');
      if index > 0 then index + 1 else |line|
    else 0
  }

  /** The line with its leading tag removed. */
  function StripTag(line: string): string {
    line[TagLength(line)..]
  }

  /** The three cases of StripTag. */
  lemma StripTagCases(line: string)
    ensures |line| == 0 || line[0] != '[' ==> StripTag(line) == line
    ensures |line| > 0 && line[0] == '[' && ']' !in line ==> StripTag(line) == ""
    ensures forall k :: 0 <= k < |line| && line[0] == '[' && line[k] == ']' && ']' !in line[..k] ==>
      StripTag(line) == line[k + 1..]
  {
    forall k | 0 <= k < |line| && line[0] == '[' && line[k] == ']' && ']' !in line[..k]
      ensures StripTag(line) == line[k + 1..]
    {
      var index := IndexOf(line, ']');
      if 0 <= index < k {
        assert false;
      }
    }
    if |line| > 0 && line[0] == '[' && ']' !in line {
      assert IndexOf(line, ']') < 0;
    }
  }
}
