/**
 * The lyrics panel (src/components/LyricsPanel.tsx): `parseLrc`, which turns
 * synced lyrics in LRC format into timed lines, and the choice between
 * synced lyrics, plain lyrics and an error message.
 */
module Lyrics {
  import opened Wrappers
  import opened Strings

  /** A lyric line; `time` is in hundredths of a second so that it stays exact. */
  datatype LyricLine = LyricLine(time: nat, text: string)

  /** The characters at which a regular expression's `.` stops. */
  predicate IsLineTerminator(c: char) {
    c == '\n' || c == '\r' || c == '\U{2028}' || c == '\U{2029}'
  }

  /** What `(.*)` captures: the text up to the first line terminator. */
  function UpToTerminator(s: string): (r: string)
    ensures |r| <= |s| && r == s[..|r|]
    ensures forall i :: 0 <= i < |r| ==> !IsLineTerminator(r[i])
    ensures |r| < |s| ==> IsLineTerminator(s[|r|])
    decreases |s|
  {
    if s == [] || IsLineTerminator(s[0]) then [] else [s[0]] + UpToTerminator(s[1..])
  }

  /** `[mm:ss.ff` with two-digit minutes, seconds and the first two fraction digits. */
  predicate HasStampPrefix(line: string) {
    && |line| >= 10
    && line[0] == '[' && IsDigit(line[1]) && IsDigit(line[2]) && line[3] == ':'
    && IsDigit(line[4]) && IsDigit(line[5]) && line[6] == '.'
    && IsDigit(line[7]) && IsDigit(line[8])
  }

  /**
   * One line against /^\[(\d{2}):(\d{2})\.(\d{2,3})\](.*)/: a lyric line
   * when it starts with a time stamp with a two- or three-digit fraction.
   * Minutes and seconds are not range-checked; the fraction is divided by
   * 100 whatever its number of digits.
   */
  function MatchLine(line: string): Option<LyricLine> {
    if !HasStampPrefix(line) then None
    else
      var minutes := DigitsValue(line[1..3]);
      var seconds := DigitsValue(line[4..6]);
      if line[9] == ']' then
        Some(LyricLine(minutes * 6000 + seconds * 100 + DigitsValue(line[7..9]), Trim(UpToTerminator(line[10..]))))
      else if |line| >= 11 && IsDigit(line[9]) && line[10] == ']' then
        Some(LyricLine(minutes * 6000 + seconds * 100 + DigitsValue(line[7..10]), Trim(UpToTerminator(line[11..]))))
      else None
  }

  /** What one line adds to the result: its entry, or nothing. */
  function Contribution(line: string): (r: seq<LyricLine>)
    ensures |r| <= 1
  {
    match MatchLine(line)
    case Some(entry) => [entry]
    case None => []
  }

  /** The entries the lines give, in line order. */
  function ParsedLines(lines: seq<string>): seq<LyricLine>
    decreases |lines|
  {
    if lines == [] then [] else ParsedLines(lines[..|lines| - 1]) + Contribution(lines[|lines| - 1])
  }

  /** parseLrc: split on "\n" and keep an entry for every matching line. */
  method ParseLrc(lrc: string) returns (result: seq<LyricLine>)
    ensures result == ParsedLines(Split(lrc, '\n'))
  {
    var lines := Split(lrc, '\n');
    result := [];
    var i := 0;
    while i < |lines|
      invariant 0 <= i <= |lines|
      invariant result == ParsedLines(lines[..i])
    {
      assert lines[..i + 1][..i] == lines[..i];
      var m := MatchLine(lines[i]);
      if m != None {
        result := result + [m.value];
      }
      i := i + 1;
    }
    assert lines[..|lines|] == lines;
  }

  /** There are never more entries than lines. */
  lemma {:induction false} ParsedAtMostLines(lines: seq<string>)
    ensures |ParsedLines(lines)| <= |lines|
    decreases |lines|
  {
    if lines != [] {
      ParsedAtMostLines(lines[..|lines| - 1]);
    }
  }

  /** One more line adds its own contribution at the end. */
  lemma ParsedSnoc(init: seq<string>, last: string)
    ensures ParsedLines(init + [last]) == ParsedLines(init) + Contribution(last)
  {
    var lines := init + [last];
    assert lines[..|lines| - 1] == init;
    assert lines[|lines| - 1] == last;
  }

  /** Splitting off the last line of the second block. */
  lemma SplitLast(a: seq<string>, b: seq<string>)
    requires b != []
    ensures b == b[..|b| - 1] + [b[|b| - 1]]
    ensures a + b == (a + b[..|b| - 1]) + [b[|b| - 1]]
  {
  }

  /** Entries follow line order: the entries of two blocks of lines are the first block's, then the second's. */
  lemma {:induction false} ParsedAppend(a: seq<string>, b: seq<string>)
    ensures ParsedLines(a + b) == ParsedLines(a) + ParsedLines(b)
    decreases |b|
  {
    if b == [] {
      assert a + b == a;
    } else {
      var init, last := b[..|b| - 1], b[|b| - 1];
      SplitLast(a, b);
      ParsedAppend(a, init);
      ParsedSnoc(a + init, last);
      ParsedSnoc(init, last);
      assert (ParsedLines(a) + ParsedLines(init)) + Contribution(last)
          == ParsedLines(a) + (ParsedLines(init) + Contribution(last));
    }
  }

  /** A single line yields its match, or nothing when it does not match. */
  lemma ParsedSingle(line: string)
    ensures MatchLine(line) != None ==> ParsedLines([line]) == [MatchLine(line).value]
    ensures MatchLine(line) == None ==> ParsedLines([line]) == []
  {
    assert [line][..0] == [];
  }

  /** A line that does not start with '[' is skipped. */
  lemma UnstampedLineSkipped(line: string)
    requires line == [] || line[0] != '['
    ensures MatchLine(line) == None
  {
  }

  /** The value of two digits. */
  lemma PairValue(x: char, y: char)
    requires IsDigit(x) && IsDigit(y)
    ensures DigitsValue([x, y]) == 10 * DigitValue(x) + DigitValue(y)
  {
    DigitsValueSnoc([], x);
    DigitsValueSnoc([x], y);
    assert [] + [x] == [x] && [x] + [y] == [x, y];
  }

  /** The value of three digits. */
  lemma TripleValue(x: char, y: char, z: char)
    requires IsDigit(x) && IsDigit(y) && IsDigit(z)
    ensures DigitsValue([x, y, z]) == 100 * DigitValue(x) + 10 * DigitValue(y) + DigitValue(z)
  {
    PairValue(x, y);
    DigitsValueSnoc([x, y], z);
    assert [x, y] + [z] == [x, y, z];
  }

  /** "[mm:ss.cc]" for numbers below 100. */
  function Stamp(mm: nat, ss: nat, cc: nat): (s: string)
    requires mm < 100 && ss < 100 && cc < 100
    ensures |s| == 10
  {
    ['[', DigitChar(mm / 10), DigitChar(mm % 10), ':', DigitChar(ss / 10), DigitChar(ss % 10),
     '.', DigitChar(cc / 10), DigitChar(cc % 10), ']']
  }

  /** Two digits rendered from a number below 100 read back as that number. */
  lemma TwoDigitsRead(n: nat)
    requires n < 100
    ensures DigitsValue([DigitChar(n / 10), DigitChar(n % 10)]) == n
  {
    PairValue(DigitChar(n / 10), DigitChar(n % 10));
  }

  /** A line with a two-digit fraction matches with the fraction's value and the text after the ']'. */
  lemma ShortMatch(line: string)
    requires HasStampPrefix(line) && line[9] == ']'
    ensures MatchLine(line) == Some(LyricLine(DigitsValue(line[1..3]) * 6000 + DigitsValue(line[4..6]) * 100
                                              + DigitsValue(line[7..9]), Trim(UpToTerminator(line[10..]))))
  {
  }

  /** A line with a three-digit fraction matches with the fraction's value and the text after the ']'. */
  lemma LongMatch(line: string)
    requires HasStampPrefix(line) && |line| >= 11 && IsDigit(line[9]) && line[10] == ']'
    ensures MatchLine(line) == Some(LyricLine(DigitsValue(line[1..3]) * 6000 + DigitsValue(line[4..6]) * 100
                                              + DigitsValue(line[7..10]), Trim(UpToTerminator(line[11..]))))
  {
  }

  /** The fields of "[m1m2:s1s2.c1c2]text": a stamp prefix with a two-digit fraction, then the text. */
  lemma ShortStampShape(m1: char, m2: char, s1: char, s2: char, c1: char, c2: char, text: string)
    requires IsDigit(m1) && IsDigit(m2) && IsDigit(s1) && IsDigit(s2) && IsDigit(c1) && IsDigit(c2)
    ensures var line := ['[', m1, m2, ':', s1, s2, '.', c1, c2, ']'] + text;
      && HasStampPrefix(line) && line[9] == ']'
      && line[1..3] == [m1, m2] && line[4..6] == [s1, s2] && line[7..9] == [c1, c2] && line[10..] == text
  {
    var line := ['[', m1, m2, ':', s1, s2, '.', c1, c2, ']'] + text;
    assert line[1..3] == [m1, m2] && line[4..6] == [s1, s2] && line[7..9] == [c1, c2];
    assert line[10..] == text;
  }

  /** The fields of "[m1m2:s1s2.f1f2f3]text": a stamp prefix with a three-digit fraction, then the text. */
  lemma LongStampShape(m1: char, m2: char, s1: char, s2: char, f1: char, f2: char, f3: char, text: string)
    requires IsDigit(m1) && IsDigit(m2) && IsDigit(s1) && IsDigit(s2)
    requires IsDigit(f1) && IsDigit(f2) && IsDigit(f3)
    ensures var line := ['[', m1, m2, ':', s1, s2, '.', f1, f2, f3, ']'] + text;
      && HasStampPrefix(line) && |line| >= 11 && IsDigit(line[9]) && line[10] == ']'
      && line[1..3] == [m1, m2] && line[4..6] == [s1, s2] && line[7..10] == [f1, f2, f3] && line[11..] == text
  {
    var line := ['[', m1, m2, ':', s1, s2, '.', f1, f2, f3, ']'] + text;
    assert line[1..3] == [m1, m2] && line[4..6] == [s1, s2] && line[7..10] == [f1, f2, f3];
    assert line[11..] == text;
  }

  /** A two-digit-fraction line whose text has no line terminator keeps the whole text, trimmed. */
  lemma ShortMatchText(line: string, text: string)
    requires HasStampPrefix(line) && line[9] == ']' && line[10..] == text
    requires forall i :: 0 <= i < |text| ==> !IsLineTerminator(text[i])
    ensures MatchLine(line) == Some(LyricLine(DigitsValue(line[1..3]) * 6000 + DigitsValue(line[4..6]) * 100
                                              + DigitsValue(line[7..9]), Trim(text)))
  {
    NoTerminator(text);
    ShortMatch(line);
  }

  /** A three-digit-fraction line whose text has no line terminator keeps the whole text, trimmed. */
  lemma LongMatchText(line: string, text: string)
    requires HasStampPrefix(line) && |line| >= 11 && IsDigit(line[9]) && line[10] == ']' && line[11..] == text
    requires forall i :: 0 <= i < |text| ==> !IsLineTerminator(text[i])
    ensures MatchLine(line) == Some(LyricLine(DigitsValue(line[1..3]) * 6000 + DigitsValue(line[4..6]) * 100
                                              + DigitsValue(line[7..10]), Trim(text)))
  {
    NoTerminator(text);
    LongMatch(line);
  }

  /**
   * A stamped line "[mm:ss.cc]text" parses to time mm*6000 + ss*100 + cc
   * hundredths and the trimmed text; seconds up to 99 are accepted.
   */
  lemma StampedLineParses(mm: nat, ss: nat, cc: nat, text: string)
    requires mm < 100 && ss < 100 && cc < 100
    requires forall i :: 0 <= i < |text| ==> !IsLineTerminator(text[i])
    ensures MatchLine(Stamp(mm, ss, cc) + text) == Some(LyricLine(mm * 6000 + ss * 100 + cc, Trim(text)))
  {
    var line := Stamp(mm, ss, cc) + text;
    var m1, m2 := DigitChar(mm / 10), DigitChar(mm % 10);
    var s1, s2 := DigitChar(ss / 10), DigitChar(ss % 10);
    var c1, c2 := DigitChar(cc / 10), DigitChar(cc % 10);
    assert line == ['[', m1, m2, ':', s1, s2, '.', c1, c2, ']'] + text;
    ShortStampShape(m1, m2, s1, s2, c1, c2, text);
    TwoDigitsRead(mm);
    TwoDigitsRead(ss);
    TwoDigitsRead(cc);
    ShortMatchText(line, text);
  }

  /**
   * A three-digit fraction "[mm:ss.fff]" is divided by 100 like a two-digit
   * one: the fraction's digits count as that many hundredths, so ".500" adds
   * five seconds.
   */
  lemma ThreeDigitFraction(m1: char, m2: char, s1: char, s2: char, f1: char, f2: char, f3: char, text: string)
    requires IsDigit(m1) && IsDigit(m2) && IsDigit(s1) && IsDigit(s2)
    requires IsDigit(f1) && IsDigit(f2) && IsDigit(f3)
    requires forall i :: 0 <= i < |text| ==> !IsLineTerminator(text[i])
    ensures MatchLine(['[', m1, m2, ':', s1, s2, '.', f1, f2, f3, ']'] + text)
         == Some(LyricLine(DigitsValue([m1, m2]) * 6000 + DigitsValue([s1, s2]) * 100 + DigitsValue([f1, f2, f3]), Trim(text)))
    ensures DigitsValue([f1, f2, f3]) == 100 * DigitValue(f1) + 10 * DigitValue(f2) + DigitValue(f3)
  {
    var line := ['[', m1, m2, ':', s1, s2, '.', f1, f2, f3, ']'] + text;
    LongStampShape(m1, m2, s1, s2, f1, f2, f3, text);
    LongMatchText(line, text);
    TripleValue(f1, f2, f3);
  }

  lemma {:induction false} NoTerminator(text: string)
    requires forall i :: 0 <= i < |text| ==> !IsLineTerminator(text[i])
    ensures UpToTerminator(text) == text
    decreases |text|
  {
    if text != [] {
      NoTerminator(text[1..]);
    }
  }

  /** What the panel shows: timed lines, or a message. */
  datatype LyricsView = Lines(lines: seq<LyricLine>) | Message(error: string)

  /**
   * The response's synced lyrics are parsed when present; otherwise the plain
   * lyrics become one line at time 0; otherwise the panel shows
   * "Lyrics not available.".
   */
  method ChooseLyrics(syncedLyrics: Option<string>, plainLyrics: Option<string>) returns (view: LyricsView)
    ensures Present(syncedLyrics) ==> view == Lines(ParsedLines(Split(syncedLyrics.value, '\n')))
    ensures !Present(syncedLyrics) && Present(plainLyrics) ==> view == Lines([LyricLine(0, plainLyrics.value)])
    ensures !Present(syncedLyrics) && !Present(plainLyrics) ==> view == Message("Lyrics not available.")
  {
    if Present(syncedLyrics) {
      var lines := ParseLrc(syncedLyrics.value);
      view := Lines(lines);
    } else if Present(plainLyrics) {
      view := Lines([LyricLine(0, plainLyrics.value)]);
    } else {
      view := Message("Lyrics not available.");
    }
  }
}
