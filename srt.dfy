/**
 * The SubRip scanner ParseSRT of internal/parse/srt.go:15-68 (copied as parseSRT in
 * main.go:218-271), over the lines a line splitter hands it.
 */
module Srt {
  import opened Results
  import opened Text
  import opened Captions
  import opened Timestamp
  import opened Timing
  import opened Blocks

  /** The scanner's locals between two lines. */
  datatype SRTState = SRTState(block: Block, expectingSequence: bool)

  const SRTStart := SRTState(StartBlock, true)

  /** What one input line does to the scanner. */
  function SRTStep(st: SRTState, raw: string): Result<SRTState, ParseError> {
    var line := TrimSpace(raw);
    if line == "" then Ok(SRTState(Flush(st.block), true))
    else if st.expectingSequence then Ok(st.(expectingSequence := false))
    else
      match Classify(st.block, line, ',')
      case Err(e) => Err(e)
      case Ok(b) => Ok(SRTState(b, false))
  }

  /** The scanner over the remaining `lines`, stopping at the first error. */
  function SRTRun(st: SRTState, lines: seq<string>): Result<SRTState, ParseError>
    decreases |lines|
  {
    if lines == [] then Ok(st)
    else
      match SRTStep(st, lines[0])
      case Err(e) => Err(e)
      case Ok(next) => SRTRun(next, lines[1..])
  }

  /** The entries ParseSRT returns for `lines`, including the block still pending at the end. */
  function SRTCaptions(lines: seq<string>): Result<seq<CaptionEntry>, ParseError> {
    match SRTRun(SRTStart, lines)
    case Err(e) => Err(e)
    case Ok(st) => Ok(Flush(st.block).captions)
  }

  /** ParseSRT, loop for loop. */
  method ParseSRT(lines: seq<string>) returns (r: Result<seq<CaptionEntry>, ParseError>)
    ensures r == SRTCaptions(lines)
  {
    var captions: seq<CaptionEntry> := [];
    var currentEntry := EmptyEntry;
    var textLines: seq<string> := [];
    var expectingSequence := true;
    var i := 0;
    while i < |lines|
      invariant 0 <= i <= |lines|
      invariant SRTRun(SRTState(Block(captions, currentEntry, textLines), expectingSequence), lines[i..])
             == SRTRun(SRTStart, lines)
    {
      assert lines[i..][0] == lines[i] && lines[i..][1..] == lines[i + 1..];
      var line := TrimSpace(lines[i]);
      i := i + 1;

      // a blank line ends the block
      if line == "" {
        if |textLines| > 0 {
          currentEntry := currentEntry.(text := Join(textLines, " "));
          captions := captions + [currentEntry];
          textLines := [];
        }
        expectingSequence := true;
        continue;
      }

      // the sequence number is skipped unread
      if expectingSequence {
        expectingSequence := false;
        continue;
      }

      var matches := FindTiming(line, ',');
      if matches.Some? {
        var startTime := ParseSRTTime(matches.value.0);
        if startTime.Err? {
          return Err(StartTimeError(startTime.error));
        }
        currentEntry := currentEntry.(startTime := startTime.value);
        var endTime := ParseSRTTime(matches.value.1);
        if endTime.Err? {
          return Err(EndTimeError(endTime.error));
        }
        currentEntry := currentEntry.(endTime := endTime.value);
      } else {
        textLines := textLines + [line];
      }
    }
    if |textLines| > 0 {
      currentEntry := currentEntry.(text := Join(textLines, " "));
      captions := captions + [currentEntry];
    }
    return Ok(captions);
  }

  // ---------------------------------------------------------------- properties of the scanner

  lemma {:induction false} SRTRunAppend(st: SRTState, xs: seq<string>, ys: seq<string>)
    ensures SRTRun(st, xs).Err? ==> SRTRun(st, xs + ys) == SRTRun(st, xs)
    ensures SRTRun(st, xs).Ok? ==> SRTRun(st, xs + ys) == SRTRun(SRTRun(st, xs).value, ys)
    decreases |xs|
  {
    if xs == [] {
      assert xs + ys == ys;
    } else {
      assert (xs + ys)[0] == xs[0] && (xs + ys)[1..] == xs[1..] + ys;
      match SRTStep(st, xs[0])
      case Err(e) =>
      case Ok(next) => SRTRunAppend(next, xs[1..], ys);
    }
  }

  lemma {:induction false} SRTRunNeverFails(st: SRTState, lines: seq<string>)
    ensures SRTRun(st, lines).Ok?
    decreases |lines|
  {
    if lines != [] {
      ClassifyNeverFails(st.block, TrimSpace(lines[0]), ',');
      SRTRunNeverFails(SRTStep(st, lines[0]).value, lines[1..]);
    }
  }

  /** ParseSRT never returns an error: a line that matches the timing pattern always converts. */
  lemma {:induction false} SRTNeverFails(lines: seq<string>)
    ensures SRTCaptions(lines).Ok?
  {
    SRTRunNeverFails(SRTStart, lines);
  }

  lemma {:induction false} SRTRunClean(st: SRTState, lines: seq<string>)
    requires CleanBlock(st.block)
    ensures SRTRun(st, lines).Ok? ==> CleanBlock(SRTRun(st, lines).value.block)
    decreases |lines|
  {
    if lines != [] {
      var line := TrimSpace(lines[0]);
      if line == "" {
        FlushClean(st.block);
      } else if !st.expectingSequence {
        ClassifyClean(st.block, line, ',');
      }
      if SRTStep(st, lines[0]).Ok? {
        SRTRunClean(SRTStep(st, lines[0]).value, lines[1..]);
      }
    }
  }

  /** Every entry's text is non-empty and trimmed: its lines joined by single spaces. */
  lemma {:induction false} SRTEntriesClean(lines: seq<string>)
    ensures SRTCaptions(lines).Ok? ==> CleanEntries(SRTCaptions(lines).value)
  {
    SRTRunClean(SRTStart, lines);
    if SRTRun(SRTStart, lines).Ok? {
      FlushClean(SRTRun(SRTStart, lines).value.block);
    }
  }

  /**
   * A trailing blank line changes nothing: the block pending at the end of the input is
   * emitted just as a blank line would emit it.
   */
  lemma {:induction false} SRTTrailingBlank(lines: seq<string>, blank: string)
    requires TrimSpace(blank) == ""
    ensures SRTCaptions(lines + [blank]) == SRTCaptions(lines)
  {
    SRTRunAppend(SRTStart, lines, [blank]);
    if SRTRun(SRTStart, lines).Ok? {
      FlushIdempotent(SRTRun(SRTStart, lines).value.block);
    }
  }

  /** One line in front of the rest. */
  lemma {:induction false} SRTRunCons(st: SRTState, x: string, rest: seq<string>)
    ensures SRTStep(st, x).Err? ==> SRTRun(st, [x] + rest) == Err(SRTStep(st, x).error)
    ensures SRTStep(st, x).Ok? ==> SRTRun(st, [x] + rest) == SRTRun(SRTStep(st, x).value, rest)
  {
    assert ([x] + rest)[0] == x && ([x] + rest)[1..] == rest;
  }

  /** After a blank line the scanner expects a sequence number again. */
  lemma {:induction false} SRTRunEndsBlank(pre: seq<string>)
    requires pre != [] && TrimSpace(pre[|pre| - 1]) == ""
    ensures SRTRun(SRTStart, pre).Ok? ==> SRTRun(SRTStart, pre).value.expectingSequence
  {
    var init, last := pre[..|pre| - 1], pre[|pre| - 1];
    LastSplit(pre);
    SRTRunAppend(SRTStart, init, [last]);
    if SRTRun(SRTStart, init).Ok? {
      SRTRunCons(SRTRun(SRTStart, init).value, last, []);
    }
  }

  lemma {:induction false} SRTRunSequenceIgnored(pre: seq<string>, x: string, y: string, rest: seq<string>)
    requires pre == [] || TrimSpace(pre[|pre| - 1]) == ""
    requires TrimSpace(x) != "" && TrimSpace(y) != ""
    ensures SRTRun(SRTStart, pre + ([x] + rest)) == SRTRun(SRTStart, pre + ([y] + rest))
  {
    SRTRunAppend(SRTStart, pre, [x] + rest);
    SRTRunAppend(SRTStart, pre, [y] + rest);
    if pre != [] {
      SRTRunEndsBlank(pre);
    }
    var r := SRTRun(SRTStart, pre);
    if r.Ok? {
      var mid := r.value;
      assert mid.expectingSequence;
      assert SRTStep(mid, x) == SRTStep(mid, y) == Ok(mid.(expectingSequence := false));
      SRTRunCons(mid, x, rest);
      SRTRunCons(mid, y, rest);
    }
  }

  /**
   * The first non-blank line of the input, and the first after any blank line, is thrown
   * away unread: replacing it by any other non-blank line gives the same result.
   */
  lemma {:induction false} SRTSequenceLineIgnored(pre: seq<string>, x: string, y: string, rest: seq<string>)
    requires pre == [] || TrimSpace(pre[|pre| - 1]) == ""
    requires TrimSpace(x) != "" && TrimSpace(y) != ""
    ensures SRTCaptions(pre + [x] + rest) == SRTCaptions(pre + [y] + rest)
  {
    assert pre + [x] + rest == pre + ([x] + rest);
    assert pre + [y] + rest == pre + ([y] + rest);
    SRTRunSequenceIgnored(pre, x, y, rest);
  }

  /** A blank line right after another changes nothing: repeated blank lines emit no extra entry. */
  lemma {:induction false} SRTRepeatedBlank(pre: seq<string>, blank: string, blank': string, rest: seq<string>)
    requires TrimSpace(blank) == "" && TrimSpace(blank') == ""
    ensures SRTCaptions(pre + [blank, blank'] + rest) == SRTCaptions(pre + [blank] + rest)
  {
    assert pre + [blank, blank'] + rest == pre + ([blank] + ([blank'] + rest));
    assert pre + [blank] + rest == pre + ([blank] + rest);
    SRTRunAppend(SRTStart, pre, [blank] + ([blank'] + rest));
    SRTRunAppend(SRTStart, pre, [blank] + rest);
    if SRTRun(SRTStart, pre).Ok? {
      var st := SRTRun(SRTStart, pre).value;
      SRTRunCons(st, blank, [blank'] + rest);
      SRTRunCons(st, blank, rest);
      var st' := SRTStep(st, blank).value;
      SRTRunCons(st', blank', rest);
      FlushIdempotent(st.block);
      assert SRTStep(st', blank') == Ok(st');
    }
  }

  lemma {:induction false} SRTRunTrimInvariant(st: SRTState, lines: seq<string>, lines': seq<string>)
    requires |lines| == |lines'|
    requires forall k :: 0 <= k < |lines| ==> TrimSpace(lines[k]) == TrimSpace(lines'[k])
    ensures SRTRun(st, lines) == SRTRun(st, lines')
    decreases |lines|
  {
    if lines != [] {
      assert TrimSpace(lines[0]) == TrimSpace(lines'[0]);
      match SRTStep(st, lines[0])
      case Err(e) =>
      case Ok(next) =>
        SRTRunTrimInvariant(next, lines[1..], lines'[1..]);
    }
  }

  /**
   * Only the trimmed lines matter: any extra whitespace around a line gives the same
   * entries.
   */
  lemma {:induction false} SRTTrimInvariant(lines: seq<string>, lines': seq<string>)
    requires |lines| == |lines'|
    requires forall k :: 0 <= k < |lines| ==> TrimSpace(lines[k]) == TrimSpace(lines'[k])
    ensures SRTCaptions(lines) == SRTCaptions(lines')
  {
    SRTRunTrimInvariant(SRTStart, lines, lines');
  }

  /**
   * Lines that each keep a trailing '\r' scan like the lines without it. The Go line reader
   * already drops the '\r' of a CRLF ending; this shows that a reader keeping it would not
   * change the result, because the trimming removes it anyway.
   */
  lemma {:induction false} SRTCarriageReturns(lines: seq<string>, crlf: seq<string>)
    requires |crlf| == |lines|
    requires forall k :: 0 <= k < |lines| ==> crlf[k] == lines[k] + "\r"
    ensures SRTCaptions(crlf) == SRTCaptions(lines)
  {
    forall k | 0 <= k < |lines| ensures TrimSpace(lines[k]) == TrimSpace(crlf[k]) {
      TrimSpaceCarriageReturn(lines[k]);
    }
    SRTTrimInvariant(lines, crlf);
  }

  // ---------------------------------------------------------------- well-formed files

  /** A plain line after the sequence number is appended to the pending text. */
  lemma {:induction false} SRTPlainStep(b: Block, line: string)
    requires PlainLine(line, ',')
    ensures SRTStep(SRTState(b, false), line) == Ok(SRTState(b.(textLines := b.textLines + [line]), false))
  {
    TrimSpaceOfTrimmed(line);
  }

  /** Plain text lines after the sequence number are appended to the pending text, in order. */
  lemma {:induction false} SRTTextLines(b: Block, text: seq<string>, rest: seq<string>)
    requires forall k :: 0 <= k < |text| ==> PlainLine(text[k], ',')
    ensures SRTRun(SRTState(b, false), text + rest)
         == SRTRun(SRTState(b.(textLines := b.textLines + text), false), rest)
    decreases |text|
  {
    if text == [] {
      assert text + rest == rest;
      assert b.textLines + text == b.textLines;
    } else {
      var b' := b.(textLines := b.textLines + [text[0]]);
      HeadSplit(text, rest);
      SRTRunCons(SRTState(b, false), text[0], text[1..] + rest);
      SRTPlainStep(b, text[0]);
      SRTTextLines(b', text[1..], rest);
      HeadMoved(b.textLines, text);
    }
  }

  /**
   * A block with no timing line of its own: its text becomes an entry that keeps the timing
   * of the block before, since the current entry is never reset.
   */
  lemma {:induction false} SRTUntimedBlock(b: Block, index: string, text: seq<string>, blank: string, rest: seq<string>)
    requires b.textLines == [] && TrimSpace(index) != "" && TrimSpace(blank) == ""
    requires |text| > 0 && forall k :: 0 <= k < |text| ==> PlainLine(text[k], ',')
    ensures var e := CaptionEntry(b.current.startTime, b.current.endTime, Join(text, " "));
      SRTRun(SRTState(b, true), [index] + text + [blank] + rest)
        == SRTRun(SRTState(Block(b.captions + [e], e, []), true), rest)
  {
    assert [index] + text + [blank] + rest == [index] + (text + ([blank] + rest));
    SRTRunCons(SRTState(b, true), index, text + ([blank] + rest));
    assert SRTStep(SRTState(b, true), index) == Ok(SRTState(b, false));
    SRTTextLines(b, text, [blank] + rest);
    assert b.textLines + text == text;
    var pending := b.(textLines := text);
    SRTRunCons(SRTState(pending, false), blank, rest);
    assert SRTStep(SRTState(pending, false), blank) == Ok(SRTState(Flush(pending), true));
  }

  /**
   * A timing line with four-digit seconds is not recognised: it becomes the first text line
   * of its block, and the entry keeps the timing of the block before.
   */
  lemma {:induction false} SRTOverlongTimingIsText(b: Block, index: string, text: seq<string>, rest: seq<string>)
    requires b.textLines == [] && TrimSpace(index) != ""
    requires forall k :: 0 <= k < |text| ==> PlainLine(text[k], ',')
    ensures var e := CaptionEntry(b.current.startTime, b.current.endTime, Join([OverlongLine] + text, " "));
      SRTRun(SRTState(b, true), [index, OverlongLine] + text + [""] + rest)
        == SRTRun(SRTState(Block(b.captions + [e], e, []), true), rest)
  {
    OverlongLinePlain();
    PlainLinesCons(OverlongLine, text, ',');
    TrimSpaceOfTrimmed("");
    assert [index, OverlongLine] + text + [""] + rest == [index] + ([OverlongLine] + text) + [""] + rest;
    SRTUntimedBlock(b, index, [OverlongLine] + text, "", rest);
  }

  /** A timing line with any white space around the arrow, after the sequence number, sets the times its timestamps spell. */
  lemma {:induction false} SRTSpacedTimingStep(b: Block, a: string, w1: string, w2: string, z: string)
    requires IsStamp(a, ',') && IsStamp(z, ',')
    requires |w1| > 0 && |w2| > 0 && AllRegexSpace(w1) && AllRegexSpace(w2)
    ensures SRTStep(SRTState(b, false), a + w1 + "-->" + w2 + z)
         == Ok(SRTState(b.(current := b.current.(startTime := StampMillis(a, ',') * Millisecond,
                                                 endTime := StampMillis(z, ',') * Millisecond)), false))
  {
    var t := a + w1 + "-->" + w2 + z;
    assert t[0] == a[0] && t[|t| - 1] == z[11];
    TrimSpaceOfTrimmed(t);
    assert t + "" == t;
    SpacedTimingClassifies(b, a, w1, w2, z, "", ',');
  }

  /** A sequence number at the start of a file only moves the scanner on to the timing line. */
  lemma {:induction false} SRTIndexLine(index: string, rest: seq<string>)
    requires TrimSpace(index) != ""
    ensures SRTRun(SRTStart, [index] + rest) == SRTRun(SRTState(StartBlock, false), rest)
  {
    assert SRTStep(SRTStart, index) == Ok(SRTState(StartBlock, false));
    SRTRunCons(SRTStart, index, rest);
  }

  /** The sequence number and a timing line padded with spaces leave the block timed and empty of text. */
  lemma {:induction false} SRTSpacedTimingHead(index: string, a: string, w1: string, w2: string, z: string, text: seq<string>)
    requires TrimSpace(index) != ""
    requires IsStamp(a, ',') && IsStamp(z, ',')
    requires |w1| > 0 && |w2| > 0 && AllRegexSpace(w1) && AllRegexSpace(w2)
    ensures SRTRun(SRTStart, [index, a + w1 + "-->" + w2 + z] + text)
         == SRTRun(SRTState(Block([], EmptyEntry.(startTime := StampMillis(a, ',') * Millisecond, endTime := StampMillis(z, ',') * Millisecond), []), false), text)
  {
    var t := a + w1 + "-->" + w2 + z;
    var timed := SRTState(Block([], EmptyEntry.(startTime := StampMillis(a, ',') * Millisecond, endTime := StampMillis(z, ',') * Millisecond), []), false);
    SRTSpacedTimingStep(StartBlock, a, w1, w2, z);
    assert SRTStep(SRTState(StartBlock, false), t) == Ok(timed);
    SRTRunCons(SRTState(StartBlock, false), t, text);
    assert SRTRun(SRTState(StartBlock, false), [t] + text) == SRTRun(timed, text);
    assert [index, t] + text == [index] + ([t] + text);
    SRTIndexLine(index, [t] + text);
  }

  /**
   * A file of a sequence number, a timing line with any white space around the arrow, and
   * text lines, with no trailing blank line, scans to one entry: the times the two
   * timestamps spell and the text lines joined by single spaces.
   */
  lemma {:induction false} SRTSpacedTimingBlock(index: string, a: string, w1: string, w2: string, z: string, text: seq<string>)
    requires TrimSpace(index) != ""
    requires IsStamp(a, ',') && IsStamp(z, ',')
    requires |w1| > 0 && |w2| > 0 && AllRegexSpace(w1) && AllRegexSpace(w2)
    requires |text| > 0 && forall k :: 0 <= k < |text| ==> PlainLine(text[k], ',')
    ensures SRTCaptions([index, a + w1 + "-->" + w2 + z] + text)
         == Ok([CaptionEntry(StampMillis(a, ',') * Millisecond, StampMillis(z, ',') * Millisecond, Join(text, " "))])
  {
    var e := EmptyEntry.(startTime := StampMillis(a, ',') * Millisecond, endTime := StampMillis(z, ',') * Millisecond);
    var timed := Block([], e, []);
    SRTSpacedTimingHead(index, a, w1, w2, z, text);
    assert text + [] == text;
    SRTTextLines(timed, text, []);
    var last := Block([], e, text);
    assert timed.(textLines := timed.textLines + text) == last;
    assert Flush(last).captions == [e.(text := Join(text, " "))];
  }

  /** A stamp `00:00:ss,000` is `ss` seconds. */
  lemma {:induction false} ShortStampValue(t: string, s: string)
    requires t == "00" + ":" + "00" + ":" + s + [','] + "000"
    requires |s| == 2 && AllDigits(s)
    ensures IsStamp(t, ',') && StampMillis(t, ',') == DigitsValue(s) * 1000
  {
    StampOfFields("00", "00", s, "000", ',');
    DigitsOfNumeral("00");
    DigitsOfNumeral("000");
    assert t[0..2] == "00" && t[3..5] == "00" && t[6..8] == s && t[9..12] == "000";
    assert StampMillis(t, ',') == Milliseconds(0, 0, DigitsValue(s), 0);
  }

  lemma {:induction false} HelloWorldPlain(hello: string)
    requires hello == "Hello" + " " + "world"
    ensures PlainLine(hello, ',')
  {
    assert !IsSpace(hello[0]) && !IsSpace(hello[|hello| - 1]);
    NoSeparatorNoTiming(hello, ',');
  }

  lemma {:induction false} ExtraSpacesFields(lines: seq<string>, a: string, w: string, z: string, hello: string)
    requires a == "00" + ":" + "00" + ":" + "01" + [','] + "000"
    requires z == "00" + ":" + "00" + ":" + "04" + [','] + "000"
    requires w == [' ', ' ', ' ', ' '] && hello == "Hello" + " " + "world"
    requires lines == ["1", a + w + "-->" + w + z, hello]
    ensures SRTCaptions(lines) == Ok([CaptionEntry(Second, 4 * Second, hello)])
  {
    DigitsOfNumeral("01");
    DigitsOfNumeral("04");
    ShortStampValue(a, "01");
    ShortStampValue(z, "04");
    HelloWorldPlain(hello);
    assert AllRegexSpace(w);
    assert !IsSpace('1');
    SRTSpacedTimingBlock("1", a, w, w, z, [hello]);
    assert ["1", a + w + "-->" + w + z] + [hello] == lines;
    assert Join([hello], " ") == hello;
    assert StampMillis(a, ',') == 1000 && StampMillis(z, ',') == 4000;
  }

  /** `00:00:01,000    -->    00:00:04,000` sets the times to 1s and 4s. */
  lemma {:induction false} SRTExtraSpacesInTimingLine()
    ensures SRTCaptions(["1", "00:00:01,000    -->    00:00:04,000", "Hello world"])
         == Ok([CaptionEntry(Second, 4 * Second, "Hello world")])
  {
    var a, w, z, hello := "00:00:01,000", "    ", "00:00:04,000", "Hello world";
    assert a == "00" + ":" + "00" + ":" + "01" + [','] + "000";
    assert z == "00" + ":" + "00" + ":" + "04" + [','] + "000";
    assert hello == "Hello" + " " + "world";
    assert a + w + "-->" + w + z == "00:00:01,000    -->    00:00:04,000";
    ExtraSpacesFields(["1", "00:00:01,000    -->    00:00:04,000", "Hello world"], a, w, z, hello);
  }

  /** The sequence number a SubRip file writes before its k-th cue (counting from 1). */
  function Decimal(n: nat): (r: string)
    ensures r != [] && AllDigits(r)
  {
    if n < 10 then [DigitChar(n)] else Decimal(n / 10) + [DigitChar(n % 10)]
  }

  /** The lines of one cue: sequence number, timing line, text lines and a blank line. */
  function SRTBlock(k: nat, c: Cue): seq<string>
    requires c.startMs < StampLimit && c.endMs < StampLimit
  {
    [Decimal(k), TimingText(c, ',')] + c.lines + [""]
  }

  /** A well-formed SubRip file, its cues numbered from `k`. */
  function SRTFile(cues: seq<Cue>, k: nat): seq<string>
    requires forall i :: 0 <= i < |cues| ==> ValidCue(cues[i], ',')
  {
    if cues == [] then []
    else
      assert ValidCue(cues[0], ',');
      SRTBlock(k, cues[0]) + SRTFile(cues[1..], k + 1)
  }

  /**
   * A block of sequence number, timing line, text lines and blank line emits one entry:
   * the timing line's times with the text lines joined by single spaces.
   */
  lemma {:induction false} SRTTimedBlock(b: Block, index: string, timing: string, timed: Block, text: seq<string>, blank: string, rest: seq<string>)
    requires TrimSpace(index) != "" && TrimSpace(blank) == ""
    requires SRTStep(SRTState(b, false), timing) == Ok(SRTState(timed, false)) && timed.textLines == []
    requires forall k :: 0 <= k < |text| ==> PlainLine(text[k], ',')
    ensures SRTRun(SRTState(b, true), [index] + ([timing] + (text + ([blank] + rest))))
         == SRTRun(SRTState(Flush(timed.(textLines := text)), true), rest)
  {
    var l2 := text + ([blank] + rest);
    SRTRunCons(SRTState(b, true), index, [timing] + l2);
    assert SRTStep(SRTState(b, true), index) == Ok(SRTState(b, false));
    SRTRunCons(SRTState(b, false), timing, l2);
    SRTTextLines(timed, text, [blank] + rest);
    assert timed.textLines + text == text;
    var pending := timed.(textLines := text);
    SRTRunCons(SRTState(pending, false), blank, rest);
    assert SRTStep(SRTState(pending, false), blank) == Ok(SRTState(Flush(pending), true));
  }

  lemma {:induction false} SRTBlockLines(k: nat, c: Cue, rest: seq<string>)
    requires c.startMs < StampLimit && c.endMs < StampLimit
    ensures SRTBlock(k, c) + rest == [Decimal(k)] + ([TimingText(c, ',')] + (c.lines + ([""] + rest)))
  {
  }

  /** A cue's timing line, after the sequence number, sets the current entry's times. */
  lemma {:induction false} SRTTimingStep(b: Block, c: Cue)
    requires c.startMs < StampLimit && c.endMs < StampLimit
    ensures SRTStep(SRTState(b, false), TimingText(c, ',')) == Ok(SRTState(Timed(b, c), false))
  {
    TimingTextClassifies(b, c, ',');
  }

  lemma {:induction false} DecimalNotBlank(k: nat)
    ensures TrimSpace(Decimal(k)) != ""
  {
    var n := Decimal(k);
    assert IsDigit(n[0]) && IsDigit(n[|n| - 1]);
    TrimSpaceOfTrimmed(n);
  }

  lemma {:induction false} SRTBlockScans(b: Block, k: nat, c: Cue, rest: seq<string>)
    requires b.textLines == []
    requires ValidCue(c, ',')
    ensures SRTRun(SRTState(b, true), SRTBlock(k, c) + rest)
         == SRTRun(SRTState(Block(b.captions + [EntryOf(c)], EntryOf(c), []), true), rest)
  {
    SRTBlockLines(k, c, rest);
    DecimalNotBlank(k);
    TrimSpaceOfTrimmed("");
    SRTTimingStep(b, c);
    SRTTimedBlock(b, Decimal(k), TimingText(c, ','), Timed(b, c), c.lines, "", rest);
    TimedFlush(b, c, c.lines);
  }

  lemma {:induction false} SRTFileScans(b: Block, cues: seq<Cue>, k: nat)
    requires b.textLines == []
    requires forall i :: 0 <= i < |cues| ==> ValidCue(cues[i], ',')
    ensures SRTRun(SRTState(b, true), SRTFile(cues, k)) == Ok(SRTState(AfterCues(b, cues), true))
    decreases |cues|
  {
    if cues != [] {
      ValidCuesTail(cues, ',');
      var c, tail := cues[0], cues[1..];
      var rest := SRTFile(tail, k + 1);
      var b' := Block(b.captions + [EntryOf(c)], EntryOf(c), []);
      SRTBlockScans(b, k, c, rest);
      SRTFileScans(b', tail, k + 1);
    }
  }

  /**
   * Round trip: a SubRip file written from well-formed cues scans back to exactly their
   * entries, each text being the cue's lines joined by single spaces.
   */
  lemma {:induction false} SRTRoundTrip(cues: seq<Cue>)
    requires forall i :: 0 <= i < |cues| ==> ValidCue(cues[i], ',')
    ensures SRTCaptions(SRTFile(cues, 1)) == Ok(EntriesOf(cues))
  {
    SRTFileScans(StartBlock, cues, 1);
    var after := AfterCues(StartBlock, cues);
    assert Flush(after) == after;
    assert after.captions == EntriesOf(cues);
  }
}
