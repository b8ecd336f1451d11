/**
 * The timestamp codec of internal/parse/srt.go (parseSRTTime) and internal/parse/webvttt.go
 * (parseWebVTTTime), also copied into main.go. Both read `HH:MM:SS<sep>mmm`; SRT uses ',' and
 * WebVTT '.' as the separator before the milliseconds.
 */
module Timestamp {
  import opened Results
  import opened Text
  import opened Captions

  /** The three ways a conversion fails, in the order the codec checks for them. */
  datatype TimeError =
    | InvalidTimeFormat(input: string)    // the ':'-split does not give three parts
    | InvalidSecondsFormat(part: string)  // the third part does not split in two at the separator
    | InvalidSyntax(num: string)          // strconv.Atoi rejected this component

  function Milliseconds(hours: int, minutes: int, seconds: int, millis: int): int {
    hours * 3600000 + minutes * 60000 + seconds * 1000 + millis
  }

  /**
   * Split at ':', convert hours, then minutes, split the rest at `sep`, convert seconds, then
   * milliseconds; the first failure is the result.
   */
  function ParseTime(s: string, sep: char): (r: Result<Duration, TimeError>)
    ensures r == Err(InvalidTimeFormat(s)) <==> Count(s, ':') != 2
    ensures r.Ok? ==> Count(s, ':') == 2
  {
    var parts := Split(s, ':');
    if |parts| != 3 then Err(InvalidTimeFormat(s))
    else match Atoi(parts[0])
      case None => Err(InvalidSyntax(parts[0]))
      case Some(hours) =>
        match Atoi(parts[1])
        case None => Err(InvalidSyntax(parts[1]))
        case Some(minutes) =>
          var secParts := Split(parts[2], sep);
          if |secParts| != 2 then Err(InvalidSecondsFormat(parts[2]))
          else match Atoi(secParts[0])
            case None => Err(InvalidSyntax(secParts[0]))
            case Some(seconds) =>
              match Atoi(secParts[1])
              case None => Err(InvalidSyntax(secParts[1]))
              case Some(millis) => Ok(Milliseconds(hours, minutes, seconds, millis) * Millisecond)
  }

  /** parseSRTTime: `HH:MM:SS,mmm`. */
  function ParseSRTTime(s: string): Result<Duration, TimeError> {
    ParseTime(s, ',')
  }

  /** parseWebVTTTime: `HH:MM:SS.mmm`. */
  function ParseWebVTTTime(s: string): Result<Duration, TimeError> {
    ParseTime(s, '.')
  }

  // ---------------------------------------------------------------- the codec on structured input

  lemma {:induction false} ThreeParts(a: string, b: string, c: string)
    requires ':' !in a && ':' !in b && ':' !in c
    ensures Split(a + ":" + b + ":" + c, ':') == [a, b, c]
  {
    assert a + ":" + b + ":" + c == a + [':'] + (b + [':'] + c);
    SplitAt(a, ':', b + [':'] + c);
    SplitAt(b, ':', c);
    SplitNoSeparator(c, ':');
  }

  lemma {:induction false} TwoParts(c: string, sep: char, d: string)
    requires sep !in c && sep !in d
    ensures Split(c + [sep] + d, sep) == [c, d]
  {
    SplitAt(c, sep, d);
    SplitNoSeparator(d, sep);
  }

  /** A non-numeric hours field is reported before anything after it is looked at. */
  lemma {:induction false} HoursChecked(a: string, b: string, c: string, sep: char)
    requires ':' !in a && ':' !in b && ':' !in c
    requires Atoi(a).None?
    ensures ParseTime(a + ":" + b + ":" + c, sep) == Err(InvalidSyntax(a))
  {
    ThreeParts(a, b, c);
  }

  /** With numeric hours, a non-numeric minutes field is reported next. */
  lemma {:induction false} MinutesChecked(a: string, b: string, c: string, sep: char)
    requires ':' !in a && ':' !in b && ':' !in c
    requires Atoi(a).Some? && Atoi(b).None?
    ensures ParseTime(a + ":" + b + ":" + c, sep) == Err(InvalidSyntax(b))
  {
    ThreeParts(a, b, c);
  }

  /** With numeric hours and minutes, a third part without exactly one separator is reported. */
  lemma {:induction false} SecondsFormatChecked(a: string, b: string, c: string, sep: char)
    requires ':' !in a && ':' !in b && ':' !in c
    requires Atoi(a).Some? && Atoi(b).Some?
    requires Count(c, sep) != 1
    ensures ParseTime(a + ":" + b + ":" + c, sep) == Err(InvalidSecondsFormat(c))
  {
    ThreeParts(a, b, c);
  }

  /** Seconds are converted before milliseconds. */
  lemma {:induction false} SubSecondsChecked(a: string, b: string, c: string, sep: char, d: string)
    requires ':' !in a && ':' !in b && ':' !in c && ':' !in d && sep != ':'
    requires sep !in c && sep !in d
    requires Atoi(a).Some? && Atoi(b).Some?
    ensures Atoi(c).None? ==> ParseTime(a + ":" + b + ":" + c + [sep] + d, sep) == Err(InvalidSyntax(c))
    ensures Atoi(c).Some? && Atoi(d).None? ==>
      ParseTime(a + ":" + b + ":" + c + [sep] + d, sep) == Err(InvalidSyntax(d))
  {
    assert ':' !in c + [sep] + d;
    assert a + ":" + b + ":" + c + [sep] + d == a + ":" + b + ":" + (c + [sep] + d);
    ThreeParts(a, b, c + [sep] + d);
    TwoParts(c, sep, d);
  }

  /** Four numeric fields in the expected layout give exactly their weighted sum in milliseconds. */
  lemma {:induction false} ParseTimeValue(a: string, b: string, c: string, sep: char, d: string, h: int, m: int, sec: int, ms: int)
    requires ':' !in a && ':' !in b && ':' !in c && ':' !in d && sep != ':'
    requires sep !in c && sep !in d
    requires Atoi(a) == Some(h) && Atoi(b) == Some(m) && Atoi(c) == Some(sec) && Atoi(d) == Some(ms)
    ensures ParseTime(a + ":" + b + ":" + c + [sep] + d, sep) == Ok(Milliseconds(h, m, sec, ms) * Millisecond)
  {
    assert ':' !in c + [sep] + d;
    assert a + ":" + b + ":" + c + [sep] + d == a + ":" + b + ":" + (c + [sep] + d);
    ThreeParts(a, b, c + [sep] + d);
    TwoParts(c, sep, d);
  }

  // ---------------------------------------------------------------- well-formed timestamps

  /** `t` is two digits, ':', two digits, ':', two digits, `sep`, three digits. */
  predicate IsStamp(t: string, sep: char) {
    && |t| == 12
    && IsDigit(t[0]) && IsDigit(t[1]) && t[2] == ':'
    && IsDigit(t[3]) && IsDigit(t[4]) && t[5] == ':'
    && IsDigit(t[6]) && IsDigit(t[7]) && t[8] == sep
    && IsDigit(t[9]) && IsDigit(t[10]) && IsDigit(t[11])
  }

  /** The value the digits of a well-formed timestamp spell, in milliseconds. */
  function StampMillis(t: string, sep: char): nat
    requires IsStamp(t, sep)
  {
    Milliseconds(DigitsValue(t[0..2]), DigitsValue(t[3..5]), DigitsValue(t[6..8]), DigitsValue(t[9..12]))
  }

  /**
   * Every well-formed timestamp converts, to HH*3600000 + MM*60000 + SS*1000 + mmm
   * milliseconds, for SRT and WebVTT alike.
   */
  lemma {:induction false} StampParses(t: string, sep: char)
    requires sep == ',' || sep == '.'
    requires IsStamp(t, sep)
    ensures ParseTime(t, sep) == Ok(StampMillis(t, sep) * Millisecond)
  {
    StampDigits(t, sep);
    StampLayout(t, sep);
    FieldsParseAt(t, t[0..2], t[3..5], t[6..8], t[9..12], sep);
  }

  lemma {:induction false} StampDigits(t: string, sep: char)
    requires IsStamp(t, sep)
    ensures AllDigits(t[0..2]) && AllDigits(t[3..5]) && AllDigits(t[6..8]) && AllDigits(t[9..12])
  {
  }

  /** A stamp laid out from four numerals converts to their weighted sum. */
  lemma {:induction false} FieldsParse(a: string, b: string, c: string, d: string, sep: char)
    requires sep == ',' || sep == '.'
    requires |a| > 0 && |b| > 0 && |c| > 0 && |d| > 0
    requires AllDigits(a) && AllDigits(b) && AllDigits(c) && AllDigits(d)
    ensures ParseTime(a + ":" + b + ":" + c + [sep] + d, sep)
         == Ok(Milliseconds(DigitsValue(a), DigitsValue(b), DigitsValue(c), DigitsValue(d)) * Millisecond)
  {
    DigitFields(a, b, c, d, sep);
    ParseTimeValue(a, b, c, sep, d, DigitsValue(a), DigitsValue(b), DigitsValue(c), DigitsValue(d));
  }

  lemma {:induction false} FieldsParseAt(t: string, a: string, b: string, c: string, d: string, sep: char)
    requires sep == ',' || sep == '.'
    requires t == a + ":" + b + ":" + c + [sep] + d
    requires |a| > 0 && |b| > 0 && |c| > 0 && |d| > 0
    requires AllDigits(a) && AllDigits(b) && AllDigits(c) && AllDigits(d)
    ensures ParseTime(t, sep) == Ok(Milliseconds(DigitsValue(a), DigitsValue(b), DigitsValue(c), DigitsValue(d)) * Millisecond)
  {
    FieldsParse(a, b, c, d, sep);
  }

  /** A well-formed timestamp is its four numerals with ':', ':' and `sep` between them. */
  lemma {:induction false} StampLayout(t: string, sep: char)
    requires IsStamp(t, sep)
    ensures t == t[0..2] + ":" + t[3..5] + ":" + t[6..8] + [sep] + t[9..12]
  {
  }

  /** Digit strings hold no ':' and no separator, and Atoi reads them as numerals. */
  lemma {:induction false} DigitFields(a: string, b: string, c: string, d: string, sep: char)
    requires sep == ',' || sep == '.'
    requires |a| > 0 && |b| > 0 && |c| > 0 && |d| > 0
    requires AllDigits(a) && AllDigits(b) && AllDigits(c) && AllDigits(d)
    ensures ':' !in a && ':' !in b && ':' !in c && ':' !in d && sep != ':' && sep !in c && sep !in d
    ensures Atoi(a) == Some(DigitsValue(a)) && Atoi(b) == Some(DigitsValue(b))
    ensures Atoi(c) == Some(DigitsValue(c)) && Atoi(d) == Some(DigitsValue(d))
  {
    assert !IsDigit(':') && !IsDigit(sep);
  }

  // ---------------------------------------------------------------- writing timestamps

  function DigitChar(n: nat): char
    requires n < 10
  {
    ('0' as int + n) as char
  }

  /** `n` as a zero-padded numeral of `width` digits. */
  function Pad(n: nat, width: nat): (r: string)
    requires n < Pow10(width)
    ensures |r| == width && AllDigits(r) && DigitsValue(r) == n
  {
    if width == 0 then ""
    else
      var r := Pad(n / 10, width - 1) + [DigitChar(n % 10)];
      assert r[..|r| - 1] == Pad(n / 10, width - 1);
      r
  }

  function Pow10(n: nat): nat {
    if n == 0 then 1 else 10 * Pow10(n - 1)
  }

  /** The largest duration `HH:MM:SS<sep>mmm` can write, plus one: 100 hours. */
  const StampLimit: nat := 100 * 3600000

  /** Hours, minutes, seconds and milliseconds of `ms` recombine to `ms`, each within its width. */
  lemma {:induction false} MillisFields(ms: nat)
    requires ms < StampLimit
    ensures ms / 3600000 < 100 && ms / 60000 % 60 < 100 && ms / 1000 % 60 < 100 && ms % 1000 < 1000
    ensures Milliseconds(ms / 3600000, ms / 60000 % 60, ms / 1000 % 60, ms % 1000) == ms
  {
    var secs := ms / 1000;
    var mins := secs / 60;
    assert ms == 1000 * secs + ms % 1000;
    assert secs == 60 * mins + secs % 60;
    assert mins == ms / 60000;
    assert mins == 60 * (mins / 60) + mins % 60;
    assert mins / 60 == ms / 3600000;
  }

  /** Four numerals of widths 2, 2, 2 and 3, laid out with ':', ':' and `sep`, form a timestamp. */
  lemma {:induction false} StampOfFields(h: string, m: string, s: string, f: string, sep: char)
    requires |h| == 2 && |m| == 2 && |s| == 2 && |f| == 3
    requires AllDigits(h) && AllDigits(m) && AllDigits(s) && AllDigits(f)
    ensures var t := h + ":" + m + ":" + s + [sep] + f;
      IsStamp(t, sep) && t[0..2] == h && t[3..5] == m && t[6..8] == s && t[9..12] == f
  {
  }

  /** The timestamp text for `ms` milliseconds, as caption files write it. */
  function FormatTime(ms: nat, sep: char): (t: string)
    requires ms < StampLimit
    ensures IsStamp(t, sep) && StampMillis(t, sep) == ms
  {
    MillisFields(ms);
    assert Pow10(2) == 100 && Pow10(3) == 1000;
    var h, m, s, f := Pad(ms / 3600000, 2), Pad(ms / 60000 % 60, 2), Pad(ms / 1000 % 60, 2), Pad(ms % 1000, 3);
    StampOfFields(h, m, s, f, sep);
    h + ":" + m + ":" + s + [sep] + f
  }

  /** Reading back a written timestamp gives the duration it was written for. */
  lemma {:induction false} ParseFormatTime(ms: nat, sep: char)
    requires sep == ',' || sep == '.'
    requires ms < StampLimit
    ensures ParseTime(FormatTime(ms, sep), sep) == Ok(ms * Millisecond)
  {
    StampParses(FormatTime(ms, sep), sep);
  }

  // ---------------------------------------------------------------- the table of examples

  lemma DigitsOfNumeral(s: string)
    requires 1 <= |s| <= 3 && AllDigits(s)
    ensures DigitsValue(s) == if |s| == 1 then s[0] as int - '0' as int
      else if |s| == 2 then (s[0] as int - '0' as int) * 10 + (s[1] as int - '0' as int)
      else (s[0] as int - '0' as int) * 100 + (s[1] as int - '0' as int) * 10 + (s[2] as int - '0' as int)
  {
    var p := s[..|s| - 1];
    if |s| > 1 {
      assert p[..|p| - 1] == s[..|s| - 2];
      if |s| > 2 {
        assert s[..|s| - 2][..1] == s[..1];
      }
    }
  }

  /*
   * Each example below is proved in two steps: a lemma about a string spelled out as its
   * fields, and the example on the literal, which only passes the literal to it.
   */

  lemma {:induction false} LargestTwoDigitFields(s: string)
    requires s == "99" + ":" + "59" + ":" + "59" + [','] + "999"
    ensures ParseSRTTime(s) == Ok(359999999 * Millisecond)
  {
    DigitsOfNumeral("99");
    DigitsOfNumeral("59");
    DigitsOfNumeral("999");
    FieldsParse("99", "59", "59", "999", ',');
  }

  /** `99:59:59,999` is accepted and gives 99h59m59.999s. */
  lemma {:induction false} LargestTwoDigitStamp()
    ensures ParseSRTTime("99:59:59,999") == Ok(359999999 * Millisecond)
  {
    LargestTwoDigitFields("99:59:59,999");
  }

  lemma {:induction false} ExtraPartFields(s: string)
    requires s == "00" + ":" + "00" + ":" + "01" + ":" + "000"
    ensures ParseSRTTime(s) == Err(InvalidTimeFormat(s))
  {
    CountColons("00", "00", "01", "000");
  }

  lemma {:induction false} CountColons(a: string, b: string, c: string, d: string)
    requires ':' !in a && ':' !in b && ':' !in c && ':' !in d
    ensures Count(a + ":" + b + ":" + c + ":" + d, ':') == 3
  {
    assert a + ":" + b + ":" + c + ":" + d == a + [':'] + (b + [':'] + (c + [':'] + d));
    SplitAt(a, ':', b + [':'] + (c + [':'] + d));
    SplitAt(b, ':', c + [':'] + d);
    SplitAt(c, ':', d);
    SplitNoSeparator(d, ':');
  }

  /** An empty string and a stamp with a fourth ':' part are format errors. */
  lemma {:induction false} SRTPartCountErrors()
    ensures ParseSRTTime("") == Err(InvalidTimeFormat(""))
    ensures ParseSRTTime("00:00:01:000") == Err(InvalidTimeFormat("00:00:01:000"))
  {
    assert Count("", ':') == 0;
    ExtraPartFields("00:00:01:000");
  }

  lemma {:induction false} WrongSeparatorFields(s: string)
    requires s == "00" + ":" + "00" + ":" + "01.000"
    ensures ParseSRTTime(s) == Err(InvalidSecondsFormat("01.000"))
  {
    assert Count("01.000", ',') == 0;
    SecondsFormatChecked("00", "00", "01.000", ',');
  }

  /** A '.' before the milliseconds of an SRT stamp is a seconds-format error. */
  lemma {:induction false} SRTWrongSeparator()
    ensures ParseSRTTime("00:00:01.000") == Err(InvalidSecondsFormat("01.000"))
  {
    WrongSeparatorFields("00:00:01.000");
  }

  lemma {:induction false} LetterInHoursFields(s: string)
    requires s == "ab" + ":" + "00" + ":" + "01,000"
    ensures ParseSRTTime(s) == Err(InvalidSyntax("ab"))
  {
    assert Atoi("ab").None?;
    HoursChecked("ab", "00", "01,000", ',');
  }

  lemma {:induction false} LetterInMinutesFields(s: string)
    requires s == "00" + ":" + "ab" + ":" + "01,000"
    ensures ParseSRTTime(s) == Err(InvalidSyntax("ab"))
  {
    assert Atoi("00").Some? && Atoi("ab").None?;
    MinutesChecked("00", "ab", "01,000", ',');
  }

  /** A letter in the hours is the conversion's syntax error, naming that field. */
  lemma {:induction false} SRTLetterInHours()
    ensures ParseSRTTime("ab:00:01,000") == Err(InvalidSyntax("ab"))
  {
    LetterInHoursFields("ab:00:01,000");
  }

  /** So is a letter in the minutes, once the hours are numeric. */
  lemma {:induction false} SRTLetterInMinutes()
    ensures ParseSRTTime("00:ab:01,000") == Err(InvalidSyntax("ab"))
  {
    LetterInMinutesFields("00:ab:01,000");
  }

  lemma {:induction false} LetterInSecondsFields(s: string)
    requires s == "00" + ":" + "00" + ":" + "ab" + [','] + "000"
    ensures ParseSRTTime(s) == Err(InvalidSyntax("ab"))
  {
    assert Atoi("00").Some? && Atoi("ab").None?;
    SubSecondsChecked("00", "00", "ab", ',', "000");
  }

  /** A letter in the seconds is a syntax error too, although the milliseconds are fine. */
  lemma {:induction false} SRTLetterInSeconds()
    ensures ParseSRTTime("00:00:ab,000") == Err(InvalidSyntax("ab"))
  {
    LetterInSecondsFields("00:00:ab,000");
  }

  lemma {:induction false} LetterInMillisFields(s: string)
    requires s == "00" + ":" + "00" + ":" + "01" + [','] + "abc"
    ensures ParseSRTTime(s) == Err(InvalidSyntax("abc"))
  {
    assert Atoi("00").Some? && Atoi("01").Some? && Atoi("abc").None?;
    SubSecondsChecked("00", "00", "01", ',', "abc");
  }

  /** A letter in the milliseconds is the last syntax error the codec can report. */
  lemma {:induction false} SRTLetterInMillis()
    ensures ParseSRTTime("00:00:01,abc") == Err(InvalidSyntax("abc"))
  {
    LetterInMillisFields("00:00:01,abc");
  }
}
