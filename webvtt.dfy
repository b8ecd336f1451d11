/**
 * The WebVTT scanner ParseWebVTT of internal/parse/webvttt.go:15-69 (copied as parseWebVTT
 * in main.go), over the lines a line splitter hands it.
 */
module WebVtt {
  import opened Results
  import opened Text
  import opened Captions
  import opened Timestamp
  import opened Timing
  import opened Blocks

  /** The scanner's locals between two lines. */
  datatype VTTState = VTTState(block: Block, inHeader: bool)

  const VTTStart := VTTState(StartBlock, true)

  /** A trimmed line the header phase skips: blank, or starting with "WEBVTT" or "NOTE". */
  predicate HeaderLine(line: string) {
    line == "" || HasPrefix(line, "WEBVTT") || HasPrefix(line, "NOTE")
  }

  /**
   * What one input line does to the scanner. The header phase ends at the first line it
   * does not skip, and is never entered again.
   */
  function VTTStep(st: VTTState, raw: string): Result<VTTState, ParseError> {
    var line := TrimSpace(raw);
    if st.inHeader && HeaderLine(line) then Ok(st)
    else if line == "" then Ok(VTTState(Flush(st.block), false))
    else
      match Classify(st.block, line, '.')
      case Err(e) => Err(e)
      case Ok(b) => Ok(VTTState(b, false))
  }

  /** The scanner over the remaining `lines`, stopping at the first error. */
  function VTTRun(st: VTTState, lines: seq<string>): Result<VTTState, ParseError>
    decreases |lines|
  {
    if lines == [] then Ok(st)
    else
      match VTTStep(st, lines[0])
      case Err(e) => Err(e)
      case Ok(next) => VTTRun(next, lines[1..])
  }

  /** The entries ParseWebVTT returns for `lines`, including the block pending at the end. */
  function VTTCaptions(lines: seq<string>): Result<seq<CaptionEntry>, ParseError> {
    match VTTRun(VTTStart, lines)
    case Err(e) => Err(e)
    case Ok(st) => Ok(Flush(st.block).captions)
  }

  /** ParseWebVTT, loop for loop. */
  method ParseWebVTT(lines: seq<string>) returns (r: Result<seq<CaptionEntry>, ParseError>)
    ensures r == VTTCaptions(lines)
  {
    var captions: seq<CaptionEntry> := [];
    var currentEntry := EmptyEntry;
    var textLines: seq<string> := [];
    var inHeader := true;
    var i := 0;
    while i < |lines|
      invariant 0 <= i <= |lines|
      invariant VTTRun(VTTState(Block(captions, currentEntry, textLines), inHeader), lines[i..])
             == VTTRun(VTTStart, lines)
    {
      assert lines[i..][0] == lines[i] && lines[i..][1..] == lines[i + 1..];
      var line := TrimSpace(lines[i]);
      i := i + 1;

      // the header is skipped
      if inHeader {
        if line == "" || HasPrefix(line, "WEBVTT") || HasPrefix(line, "NOTE") {
          continue;
        }
        inHeader := false;
      }

      // a blank line ends the block
      if line == "" {
        if |textLines| > 0 {
          currentEntry := currentEntry.(text := Join(textLines, " "));
          captions := captions + [currentEntry];
          textLines := [];
        }
        continue;
      }

      var matches := FindTiming(line, '.');
      if matches.Some? {
        var startTime := ParseWebVTTTime(matches.value.0);
        if startTime.Err? {
          return Err(StartTimeError(startTime.error));
        }
        currentEntry := currentEntry.(startTime := startTime.value);
        var endTime := ParseWebVTTTime(matches.value.1);
        if endTime.Err? {
          return Err(EndTimeError(endTime.error));
        }
        currentEntry := currentEntry.(endTime := endTime.value);
      } else {
        textLines := textLines + [line];
      }
    }
    if |textLines| > 0 {
      currentEntry := currentEntry.(text := Join(textLines, " "));
      captions := captions + [currentEntry];
    }
    return Ok(captions);
  }

  // ---------------------------------------------------------------- properties of the scanner

  lemma {:induction false} VTTRunAppend(st: VTTState, xs: seq<string>, ys: seq<string>)
    ensures VTTRun(st, xs).Err? ==> VTTRun(st, xs + ys) == VTTRun(st, xs)
    ensures VTTRun(st, xs).Ok? ==> VTTRun(st, xs + ys) == VTTRun(VTTRun(st, xs).value, ys)
    decreases |xs|
  {
    if xs == [] {
      assert xs + ys == ys;
    } else {
      assert (xs + ys)[0] == xs[0] && (xs + ys)[1..] == xs[1..] + ys;
      match VTTStep(st, xs[0])
      case Err(e) =>
      case Ok(next) => VTTRunAppend(next, xs[1..], ys);
    }
  }

  /** One line in front of the rest. */
  lemma {:induction false} VTTRunCons(st: VTTState, x: string, rest: seq<string>)
    ensures VTTStep(st, x).Err? ==> VTTRun(st, [x] + rest) == Err(VTTStep(st, x).error)
    ensures VTTStep(st, x).Ok? ==> VTTRun(st, [x] + rest) == VTTRun(VTTStep(st, x).value, rest)
  {
    assert ([x] + rest)[0] == x && ([x] + rest)[1..] == rest;
  }

  lemma {:induction false} VTTRunNeverFails(st: VTTState, lines: seq<string>)
    ensures VTTRun(st, lines).Ok?
    decreases |lines|
  {
    if lines != [] {
      ClassifyNeverFails(st.block, TrimSpace(lines[0]), '.');
      VTTRunNeverFails(VTTStep(st, lines[0]).value, lines[1..]);
    }
  }

  /** ParseWebVTT never returns an error: a line that matches the timing pattern always converts. */
  lemma {:induction false} VTTNeverFails(lines: seq<string>)
    ensures VTTCaptions(lines).Ok?
  {
    VTTRunNeverFails(VTTStart, lines);
  }

  lemma {:induction false} VTTRunClean(st: VTTState, lines: seq<string>)
    requires CleanBlock(st.block)
    ensures VTTRun(st, lines).Ok? ==> CleanBlock(VTTRun(st, lines).value.block)
    decreases |lines|
  {
    if lines != [] {
      var line := TrimSpace(lines[0]);
      if st.inHeader && HeaderLine(line) {
      } else if line == "" {
        FlushClean(st.block);
      } else {
        ClassifyClean(st.block, line, '.');
      }
      if VTTStep(st, lines[0]).Ok? {
        VTTRunClean(VTTStep(st, lines[0]).value, lines[1..]);
      }
    }
  }

  /** Every entry's text is non-empty and trimmed: its lines joined by single spaces. */
  lemma {:induction false} VTTEntriesClean(lines: seq<string>)
    ensures VTTCaptions(lines).Ok? ==> CleanEntries(VTTCaptions(lines).value)
  {
    VTTRunClean(VTTStart, lines);
    if VTTRun(VTTStart, lines).Ok? {
      FlushClean(VTTRun(VTTStart, lines).value.block);
    }
  }

  /** A trailing blank line changes nothing, inside the header or after it. */
  lemma {:induction false} VTTTrailingBlank(lines: seq<string>, blank: string)
    requires TrimSpace(blank) == ""
    ensures VTTCaptions(lines + [blank]) == VTTCaptions(lines)
  {
    VTTRunAppend(VTTStart, lines, [blank]);
    if VTTRun(VTTStart, lines).Ok? {
      var st := VTTRun(VTTStart, lines).value;
      VTTRunCons(st, blank, []);
      FlushIdempotent(st.block);
    }
  }

  /** A blank line right after another changes nothing: repeated blank lines emit no extra entry. */
  lemma {:induction false} VTTRepeatedBlank(pre: seq<string>, blank: string, blank': string, rest: seq<string>)
    requires TrimSpace(blank) == "" && TrimSpace(blank') == ""
    ensures VTTCaptions(pre + [blank, blank'] + rest) == VTTCaptions(pre + [blank] + rest)
  {
    assert pre + [blank, blank'] + rest == pre + ([blank] + ([blank'] + rest));
    assert pre + [blank] + rest == pre + ([blank] + rest);
    VTTRunAppend(VTTStart, pre, [blank] + ([blank'] + rest));
    VTTRunAppend(VTTStart, pre, [blank] + rest);
    if VTTRun(VTTStart, pre).Ok? {
      var st := VTTRun(VTTStart, pre).value;
      VTTRunCons(st, blank, [blank'] + rest);
      VTTRunCons(st, blank, rest);
      var st' := VTTStep(st, blank).value;
      VTTRunCons(st', blank', rest);
      FlushIdempotent(st.block);
      assert VTTStep(st', blank') == Ok(st');
    }
  }

  lemma {:induction false} VTTRunHeader(st: VTTState, header: seq<string>, rest: seq<string>)
    requires st.inHeader
    requires forall k :: 0 <= k < |header| ==> HeaderLine(TrimSpace(header[k]))
    ensures VTTRun(st, header + rest) == VTTRun(st, rest)
    decreases |header|
  {
    if header == [] {
      assert header + rest == rest;
    } else {
      assert header + rest == [header[0]] + (header[1..] + rest);
      VTTRunCons(st, header[0], header[1..] + rest);
      VTTRunHeader(st, header[1..], rest);
    }
  }

  /**
   * Leading blank, "WEBVTT…" and "NOTE…" lines are skipped: any such header in front of the
   * input leaves the result unchanged.
   */
  lemma {:induction false} VTTHeaderSkipped(header: seq<string>, rest: seq<string>)
    requires forall k :: 0 <= k < |header| ==> HeaderLine(TrimSpace(header[k]))
    ensures VTTCaptions(header + rest) == VTTCaptions(rest)
  {
    VTTRunHeader(VTTStart, header, rest);
  }

  /** Inside the header a "NOTE" line is dropped. */
  lemma {:induction false} VTTNoteInHeader(b: Block, note: string, rest: seq<string>)
    requires HasPrefix(TrimSpace(note), "NOTE")
    ensures VTTRun(VTTState(b, true), [note] + rest) == VTTRun(VTTState(b, true), rest)
  {
    VTTRunCons(VTTState(b, true), note, rest);
  }

  /**
   * Once the header has ended, a "NOTE" line (like any non-timing line) is caption text:
   * comment blocks after the first cue are not recognised.
   */
  lemma {:induction false} VTTNoteAfterHeader(b: Block, note: string, rest: seq<string>)
    requires HasPrefix(note, "NOTE") && PlainLine(note, '.')
    ensures VTTRun(VTTState(b, false), [note] + rest)
         == VTTRun(VTTState(b.(textLines := b.textLines + [note]), false), rest)
  {
    TrimSpaceOfTrimmed(note);
    VTTRunCons(VTTState(b, false), note, rest);
  }

  lemma {:induction false} VTTRunTrimInvariant(st: VTTState, lines: seq<string>, lines': seq<string>)
    requires |lines| == |lines'|
    requires forall k :: 0 <= k < |lines| ==> TrimSpace(lines[k]) == TrimSpace(lines'[k])
    ensures VTTRun(st, lines) == VTTRun(st, lines')
    decreases |lines|
  {
    if lines != [] {
      assert TrimSpace(lines[0]) == TrimSpace(lines'[0]);
      match VTTStep(st, lines[0])
      case Err(e) =>
      case Ok(next) =>
        VTTRunTrimInvariant(next, lines[1..], lines'[1..]);
    }
  }

  /** Only the trimmed lines matter: whitespace around any line gives the same entries. */
  lemma {:induction false} VTTTrimInvariant(lines: seq<string>, lines': seq<string>)
    requires |lines| == |lines'|
    requires forall k :: 0 <= k < |lines| ==> TrimSpace(lines[k]) == TrimSpace(lines'[k])
    ensures VTTCaptions(lines) == VTTCaptions(lines')
  {
    VTTRunTrimInvariant(VTTStart, lines, lines');
  }

  /**
   * Lines that each keep a trailing '\r' scan like the lines without it. The Go line reader
   * already drops the '\r' of a CRLF ending; this shows that a reader keeping it would not
   * change the result, because the trimming removes it anyway.
   */
  lemma {:induction false} VTTCarriageReturns(lines: seq<string>, crlf: seq<string>)
    requires |crlf| == |lines|
    requires forall k :: 0 <= k < |lines| ==> crlf[k] == lines[k] + "\r"
    ensures VTTCaptions(crlf) == VTTCaptions(lines)
  {
    forall k | 0 <= k < |lines| ensures TrimSpace(lines[k]) == TrimSpace(crlf[k]) {
      TrimSpaceCarriageReturn(lines[k]);
    }
    VTTTrimInvariant(lines, crlf);
  }

  // ---------------------------------------------------------------- well-formed files

  lemma {:induction false} VTTPlainStep(b: Block, line: string)
    requires PlainLine(line, '.')
    ensures VTTStep(VTTState(b, false), line) == Ok(VTTState(b.(textLines := b.textLines + [line]), false))
  {
    TrimSpaceOfTrimmed(line);
  }

  /** Plain text lines after the header are appended to the pending text, in order. */
  lemma {:induction false} VTTTextLines(b: Block, text: seq<string>, rest: seq<string>)
    requires forall k :: 0 <= k < |text| ==> PlainLine(text[k], '.')
    ensures VTTRun(VTTState(b, false), text + rest)
         == VTTRun(VTTState(b.(textLines := b.textLines + text), false), rest)
    decreases |text|
  {
    if text == [] {
      assert text + rest == rest;
      assert b.textLines + text == b.textLines;
    } else {
      var b' := b.(textLines := b.textLines + [text[0]]);
      HeadSplit(text, rest);
      VTTRunCons(VTTState(b, false), text[0], text[1..] + rest);
      VTTPlainStep(b, text[0]);
      VTTTextLines(b', text[1..], rest);
      HeadMoved(b.textLines, text);
    }
  }

  /**
   * A cue: timing line, text lines and a blank line emit one entry with the timing line's
   * times and the pending lines (those before the timing line included) joined by spaces.
   */
  lemma {:induction false} VTTTimedBlock(st: VTTState, timing: string, timed: Block, text: seq<string>, blank: string, rest: seq<string>)
    requires TrimSpace(blank) == ""
    requires VTTStep(st, timing) == Ok(VTTState(timed, false))
    requires forall k :: 0 <= k < |text| ==> PlainLine(text[k], '.')
    ensures VTTRun(st, [timing] + (text + ([blank] + rest)))
         == VTTRun(VTTState(Flush(timed.(textLines := timed.textLines + text)), false), rest)
  {
    VTTRunCons(st, timing, text + ([blank] + rest));
    VTTTextLines(timed, text, [blank] + rest);
    var pending := timed.(textLines := timed.textLines + text);
    VTTRunCons(VTTState(pending, false), blank, rest);
    assert VTTStep(VTTState(pending, false), blank) == Ok(VTTState(Flush(pending), false));
  }

  /** A line starting with a digit is never part of the header. */
  lemma {:induction false} DigitFirstNotHeader(t: string)
    requires |t| > 0 && IsDigit(t[0])
    ensures !HeaderLine(t)
  {
    if |t| >= 6 {
      assert t[..6][0] == t[0] != 'W';
    }
    if |t| >= 4 {
      assert t[..4][0] == t[0] != 'N';
    }
  }

  lemma {:induction false} StampFirstNotHeader(a: string, r: string)
    requires IsStamp(a, '.')
    ensures !HeaderLine(a + r)
  {
    assert (a + r)[0] == a[0];
    DigitFirstNotHeader(a + r);
  }

  /** A written timing line is never part of the header: it starts with a digit. */
  lemma {:induction false} TimingTextNotHeader(c: Cue)
    requires c.startMs < StampLimit && c.endMs < StampLimit
    ensures !HeaderLine(TimingText(c, '.'))
  {
    StampFirstNotHeader(FormatTime(c.startMs, '.'), " --> " + FormatTime(c.endMs, '.'));
    assert TimingText(c, '.') == FormatTime(c.startMs, '.') + (" --> " + FormatTime(c.endMs, '.'));
  }

  /** A written timing line, in or after the header, sets the current entry's times. */
  lemma {:induction false} VTTTimingStep(st: VTTState, c: Cue)
    requires c.startMs < StampLimit && c.endMs < StampLimit
    ensures VTTStep(st, TimingText(c, '.')) == Ok(VTTState(Timed(st.block, c), false))
  {
    TimingTextNotHeader(c);
    TimingTextClassifies(st.block, c, '.');
  }

  /** A written cue after lines already pending: they and the cue's lines form one entry. */
  lemma {:induction false} VTTCuePending(st: VTTState, c: Cue, rest: seq<string>)
    requires ValidCue(c, '.')
    ensures VTTRun(st, [TimingText(c, '.')] + c.lines + [""] + rest)
         == VTTRun(VTTState(Flush(Timed(st.block, c).(textLines := st.block.textLines + c.lines)), false), rest)
  {
    var t := TimingText(c, '.');
    assert [t] + c.lines + [""] + rest == [t] + (c.lines + ([""] + rest));
    VTTTimingStep(st, c);
    TrimSpaceOfTrimmed("");
    VTTTimedBlock(st, t, Timed(st.block, c), c.lines, "", rest);
  }

  lemma {:induction false} VTTCueScans(st: VTTState, c: Cue, rest: seq<string>)
    requires st.block.textLines == []
    requires ValidCue(c, '.')
    ensures VTTRun(st, [TimingText(c, '.')] + c.lines + [""] + rest)
         == VTTRun(VTTState(Block(st.block.captions + [EntryOf(c)], EntryOf(c), []), false), rest)
  {
    VTTCuePending(st, c, rest);
    assert st.block.textLines + c.lines == c.lines;
    TimedFlush(st.block, c, c.lines);
  }

  /**
   * A cue preceded by an identifier line: the identifier is not recognised as such, and
   * becomes the first line of the cue's text.
   */
  lemma {:induction false} VTTCueIdentifierIsText(b: Block, id: string, c: Cue, rest: seq<string>)
    requires b.textLines == []
    requires PlainLine(id, '.') && ValidCue(c, '.')
    ensures var e := EntryOf(c).(text := Join([id] + c.lines, " "));
      VTTRun(VTTState(b, false), [id, TimingText(c, '.')] + c.lines + [""] + rest)
        == VTTRun(VTTState(Block(b.captions + [e], e, []), false), rest)
  {
    var tail := [TimingText(c, '.')] + c.lines + [""] + rest;
    assert [id, TimingText(c, '.')] + c.lines + [""] + rest == [id] + tail;
    VTTRunCons(VTTState(b, false), id, tail);
    VTTPlainStep(b, id);
    var b1 := b.(textLines := [id]);
    assert b.textLines + [id] == [id];
    VTTCuePending(VTTState(b1, false), c, rest);
    TimedFlush(b1, c, [id] + c.lines);
  }

  /** The lines of one cue: timing line, text lines and a blank line. */
  function VTTBlock(c: Cue): seq<string>
    requires c.startMs < StampLimit && c.endMs < StampLimit
  {
    [TimingText(c, '.')] + c.lines + [""]
  }

  /** The cue blocks of a WebVTT file, one after the other. */
  function VTTBody(cues: seq<Cue>): seq<string>
    requires forall i :: 0 <= i < |cues| ==> ValidCue(cues[i], '.')
  {
    if cues == [] then []
    else
      assert ValidCue(cues[0], '.');
      VTTBlock(cues[0]) + VTTBody(cues[1..])
  }

  /** A well-formed WebVTT file: the signature line, a blank line, then the cues. */
  function VTTFile(cues: seq<Cue>): seq<string>
    requires forall i :: 0 <= i < |cues| ==> ValidCue(cues[i], '.')
  {
    ["WEBVTT", ""] + VTTBody(cues)
  }

  lemma {:induction false} VTTBodyScans(st: VTTState, cues: seq<Cue>)
    requires st.block.textLines == []
    requires forall i :: 0 <= i < |cues| ==> ValidCue(cues[i], '.')
    ensures cues != [] ==> VTTRun(st, VTTBody(cues)) == Ok(VTTState(AfterCues(st.block, cues), false))
    decreases |cues|
  {
    if cues != [] {
      ValidCuesTail(cues, '.');
      var c, tail := cues[0], cues[1..];
      var rest := VTTBody(tail);
      assert VTTBlock(c) + rest == [TimingText(c, '.')] + c.lines + [""] + rest;
      VTTCueScans(st, c, rest);
      var st' := VTTState(Block(st.block.captions + [EntryOf(c)], EntryOf(c), []), false);
      VTTBodyScans(st', tail);
      if tail == [] {
        assert rest == [];
        assert VTTRun(st', rest) == Ok(st');
      }
    }
  }

  /** The signature line and the blank line after it are skipped. */
  lemma {:induction false} VTTSignatureSkipped(rest: seq<string>)
    ensures VTTRun(VTTStart, ["WEBVTT", ""] + rest) == VTTRun(VTTStart, rest)
  {
    var w := "WEBVTT";
    TrimSpaceOfTrimmed(w);
    assert HasPrefix(w, "WEBVTT");
    TrimSpaceOfTrimmed("");
    assert ["WEBVTT", ""] + rest == [w] + ([""] + rest);
    VTTRunCons(VTTStart, w, [""] + rest);
    VTTRunCons(VTTStart, "", rest);
  }

  lemma {:induction false} VTTFileScans(cues: seq<Cue>)
    requires forall i :: 0 <= i < |cues| ==> ValidCue(cues[i], '.')
    ensures VTTRun(VTTStart, VTTFile(cues)) == Ok(VTTState(AfterCues(StartBlock, cues), cues == []))
  {
    VTTSignatureSkipped(VTTBody(cues));
    VTTBodyScans(VTTStart, cues);
    if cues == [] {
      assert VTTBody(cues) == [];
    }
  }

  /**
   * Round trip: a WebVTT file written from well-formed cues scans back to exactly their
   * entries, each text being the cue's lines joined by single spaces.
   */
  lemma {:induction false} VTTRoundTrip(cues: seq<Cue>)
    requires forall i :: 0 <= i < |cues| ==> ValidCue(cues[i], '.')
    ensures VTTCaptions(VTTFile(cues)) == Ok(EntriesOf(cues))
  {
    VTTFileScans(cues);
    var after := AfterCues(StartBlock, cues);
    assert Flush(after) == after;
    assert after.captions == EntriesOf(cues);
  }
}
