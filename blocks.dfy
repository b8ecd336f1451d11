/**
 * The block-assembly policy the SRT and WebVTT scanners share (internal/parse/srt.go:27-66,
 * internal/parse/webvttt.go:35-66): text lines accumulate until a blank line or the end of the
 * input flushes them, joined by " ", into one entry that takes the most recently parsed timing.
 */
module Blocks {
  import opened Results
  import opened Text
  import opened Captions
  import opened Timestamp
  import opened Timing

  /** The caption error a scanner returns: which side of the arrow failed, and why. */
  datatype ParseError =
    | StartTimeError(cause: TimeError)  // "error parsing start time: %v"
    | EndTimeError(cause: TimeError)    // "error parsing end time: %v"

  /** A scanner's locals: the entries so far, the entry being built, the pending text lines. */
  datatype Block = Block(captions: seq<CaptionEntry>, current: CaptionEntry, textLines: seq<string>)

  /** The zero CaptionEntry a Go `var currentEntry models.CaptionEntry` starts as. */
  const EmptyEntry := CaptionEntry(0, 0, "")

  const StartBlock := Block([], EmptyEntry, [])

  /**
   * A blank line (or the end of input): if text is pending, the current entry takes it,
   * joined by " ", and is appended; the entry itself is kept, so its timing carries over.
   */
  function Flush(b: Block): Block {
    if |b.textLines| > 0 then
      var e := b.current.(text := Join(b.textLines, " "));
      Block(b.captions + [e], e, [])
    else b
  }

  /**
   * A trimmed non-blank line that is not discarded: a timing line sets the current entry's
   * start and end, anything else is pending text.
   */
  function Classify(b: Block, line: string, sep: char): (r: Result<Block, ParseError>)
    ensures r.Ok? ==> r.value.captions == b.captions
    ensures FindTiming(line, sep).None? ==> r == Ok(b.(textLines := b.textLines + [line]))
    ensures FindTiming(line, sep).Some? && r.Ok? ==> r.value.textLines == b.textLines
  {
    match FindTiming(line, sep)
    case Some(groups) =>
      (match ParseTime(groups.0, sep)
       case Err(e) => Err(StartTimeError(e))
       case Ok(startTime) =>
         match ParseTime(groups.1, sep)
         case Err(e) => Err(EndTimeError(e))
         case Ok(endTime) => Ok(b.(current := b.current.(startTime := startTime, endTime := endTime))))
    case None => Ok(b.(textLines := b.textLines + [line]))
  }

  /** A non-blank line never makes a scanner fail: a matched timing line always converts. */
  lemma {:induction false} ClassifyNeverFails(b: Block, line: string, sep: char)
    requires sep == ',' || sep == '.'
    ensures Classify(b, line, sep).Ok?
  {
    if FindTiming(line, sep).Some? {
      MatchedStampsParse(line, sep);
    }
  }

  /**
   * A timing line sets the current entry's start and end to the values its two captured
   * timestamps spell, and changes nothing else.
   */
  lemma {:induction false} ClassifyTiming(b: Block, line: string, sep: char)
    requires sep == ',' || sep == '.'
    requires FindTiming(line, sep).Some?
    ensures Classify(b, line, sep)
         == Ok(b.(current := b.current.(startTime := StampMillis(FindTiming(line, sep).value.0, sep) * Millisecond,
                                        endTime := StampMillis(FindTiming(line, sep).value.1, sep) * Millisecond)))
  {
    var groups := FindTiming(line, sep).value;
    StampParses(groups.0, sep);
    StampParses(groups.1, sep);
  }

  /**
   * However much white space stands around the arrow, and whatever follows the second
   * timestamp, a timing line sets the times its timestamps spell, as the one-space line does.
   */
  lemma {:induction false} SpacedTimingClassifies(b: Block, a: string, w1: string, w2: string, z: string, rest: string, sep: char)
    requires sep == ',' || sep == '.'
    requires IsStamp(a, sep) && IsStamp(z, sep)
    requires |w1| > 0 && |w2| > 0 && AllRegexSpace(w1) && AllRegexSpace(w2)
    ensures Classify(b, a + w1 + "-->" + w2 + z + rest, sep)
         == Ok(b.(current := b.current.(startTime := StampMillis(a, sep) * Millisecond, endTime := StampMillis(z, sep) * Millisecond)))
    ensures Classify(b, a + w1 + "-->" + w2 + z + rest, sep) == Classify(b, a + " --> " + z, sep)
  {
    TimingLineMatches(a, w1, w2, z, rest, sep);
    ClassifyTiming(b, a + w1 + "-->" + w2 + z + rest, sep);
    ArrowLineMatches(a, z, sep);
    ClassifyTiming(b, a + " --> " + z, sep);
  }

  /** A second flush emits nothing: repeated blank lines add no entries. */
  lemma {:induction false} FlushIdempotent(b: Block)
    ensures Flush(Flush(b)) == Flush(b)
    ensures Flush(b).textLines == []
    ensures |b.textLines| == 0 <==> Flush(b).captions == b.captions
  {
  }

  // ---------------------------------------------------------------- sequences of lines

  lemma {:induction false} LastSplit(s: seq<string>)
    requires s != []
    ensures s == s[..|s| - 1] + [s[|s| - 1]]
  {
  }

  lemma {:induction false} HeadSplit(text: seq<string>, rest: seq<string>)
    requires text != []
    ensures text + rest == [text[0]] + (text[1..] + rest)
  {
  }

  lemma {:induction false} HeadMoved(pre: seq<string>, text: seq<string>)
    requires text != []
    ensures pre + [text[0]] + text[1..] == pre + text
  {
    assert [text[0]] + text[1..] == text;
  }

  // ---------------------------------------------------------------- what the scanners emit

  /** Every emitted entry's text is non-empty and has no whitespace at either end. */
  predicate CleanText(s: string) {
    s != [] && IsTrimmed(s)
  }

  predicate CleanEntries(cs: seq<CaptionEntry>) {
    forall k :: 0 <= k < |cs| ==> CleanText(cs[k].text)
  }

  /** The invariant both scanners keep: pending lines and emitted texts are clean. */
  predicate CleanBlock(b: Block) {
    CleanEntries(b.captions) && forall k :: 0 <= k < |b.textLines| ==> CleanText(b.textLines[k])
  }

  lemma {:induction false} JoinEnds(parts: seq<string>, sep: string)
    requires |parts| > 0 && forall k :: 0 <= k < |parts| ==> parts[k] != []
    ensures |Join(parts, sep)| > 0
    ensures Join(parts, sep)[0] == parts[0][0]
    ensures Join(parts, sep)[|Join(parts, sep)| - 1] == parts[|parts| - 1][|parts[|parts| - 1]| - 1]
  {
    if |parts| > 1 {
      var tail := parts[1..];
      assert forall k :: 0 <= k < |tail| ==> tail[k] == parts[k + 1];
      JoinEnds(tail, sep);
      var j := Join(tail, sep);
      assert Join(parts, sep) == parts[0] + sep + j;
      assert tail[|tail| - 1] == parts[|parts| - 1];
    }
  }

  lemma {:induction false} JoinClean(parts: seq<string>, sep: string)
    requires |parts| > 0
    requires forall k :: 0 <= k < |parts| ==> CleanText(parts[k])
    ensures CleanText(Join(parts, sep))
  {
    assert CleanText(parts[0]) && CleanText(parts[|parts| - 1]);
    JoinEnds(parts, sep);
  }

  lemma {:induction false} FlushClean(b: Block)
    requires CleanBlock(b)
    ensures CleanBlock(Flush(b))
  {
    if |b.textLines| > 0 {
      JoinClean(b.textLines, " ");
    }
  }

  lemma {:induction false} ClassifyClean(b: Block, line: string, sep: char)
    requires CleanBlock(b) && CleanText(line)
    ensures Classify(b, line, sep).Ok? ==> CleanBlock(Classify(b, line, sep).value)
  {
  }

  // ---------------------------------------------------------------- well-formed caption files

  /** One cue of a well-formed caption file: times in milliseconds and its text lines. */
  datatype Cue = Cue(startMs: nat, endMs: nat, lines: seq<string>)

  /** A text line the scanners keep verbatim: non-blank, already trimmed, not a timing line. */
  predicate PlainLine(line: string, sep: char) {
    CleanText(line) && FindTiming(line, sep).None?
  }

  predicate ValidCue(c: Cue, sep: char) {
    && c.startMs < StampLimit && c.endMs < StampLimit
    && |c.lines| > 0
    && forall k :: 0 <= k < |c.lines| ==> PlainLine(c.lines[k], sep)
  }

  /** The timing line a caption file writes for `c`. */
  function TimingText(c: Cue, sep: char): string
    requires c.startMs < StampLimit && c.endMs < StampLimit
  {
    FormatTime(c.startMs, sep) + " --> " + FormatTime(c.endMs, sep)
  }

  /** The entry a scanner should produce for `c`. */
  function EntryOf(c: Cue): CaptionEntry {
    CaptionEntry(c.startMs * Millisecond, c.endMs * Millisecond, Join(c.lines, " "))
  }

  function EntriesOf(cues: seq<Cue>): (es: seq<CaptionEntry>)
    ensures |es| == |cues|
  {
    if cues == [] then [] else [EntryOf(cues[0])] + EntriesOf(cues[1..])
  }

  lemma {:induction false} TimingTextTrimmed(c: Cue, sep: char)
    requires c.startMs < StampLimit && c.endMs < StampLimit
    ensures TrimSpace(TimingText(c, sep)) == TimingText(c, sep) != ""
  {
    var a, z := FormatTime(c.startMs, sep), FormatTime(c.endMs, sep);
    var t := TimingText(c, sep);
    assert t[0] == a[0] && t[|t| - 1] == z[11];
    TrimSpaceOfTrimmed(t);
  }

  lemma {:induction false} TimingTextMatches(c: Cue, sep: char)
    requires c.startMs < StampLimit && c.endMs < StampLimit
    ensures FindTiming(TimingText(c, sep), sep) == Some((FormatTime(c.startMs, sep), FormatTime(c.endMs, sep)))
  {
    ArrowLineMatches(FormatTime(c.startMs, sep), FormatTime(c.endMs, sep), sep);
  }

  /** Block `b` once the timing line of `c` has set the current entry's times. */
  function Timed(b: Block, c: Cue): Block {
    b.(current := b.current.(startTime := c.startMs * Millisecond, endTime := c.endMs * Millisecond))
  }

  /** Emitting the text lines gathered under a cue's timing line gives an entry with the cue's times. */
  lemma {:induction false} TimedFlush(b: Block, c: Cue, text: seq<string>)
    requires |text| > 0
    ensures var e := CaptionEntry(c.startMs * Millisecond, c.endMs * Millisecond, Join(text, " "));
      Flush(Timed(b, c).(textLines := text)) == Block(b.captions + [e], e, [])
  {
  }

  /** A written timing line is its own trimmed form and classifies as the cue's timing. */
  lemma {:induction false} TimingTextClassifies(b: Block, c: Cue, sep: char)
    requires sep == ',' || sep == '.'
    requires c.startMs < StampLimit && c.endMs < StampLimit
    ensures TrimSpace(TimingText(c, sep)) == TimingText(c, sep) != ""
    ensures Classify(b, TimingText(c, sep), sep) == Ok(Timed(b, c))
  {
    TimingTextTrimmed(c, sep);
    TimingTextMatches(c, sep);
    ParseFormatTime(c.startMs, sep);
    ParseFormatTime(c.endMs, sep);
  }

  lemma {:induction false} ValidCuesTail(cues: seq<Cue>, sep: char)
    requires |cues| > 0 && forall i :: 0 <= i < |cues| ==> ValidCue(cues[i], sep)
    ensures ValidCue(cues[0], sep) && forall i :: 0 <= i < |cues[1..]| ==> ValidCue(cues[1..][i], sep)
  {
    assert ValidCue(cues[0], sep);
    forall i | 0 <= i < |cues[1..]| ensures ValidCue(cues[1..][i], sep) {
      assert cues[1..][i] == cues[i + 1];
    }
  }

  /** The block after scanning well-formed cues from `b`: one entry per cue, nothing pending. */
  function AfterCues(b: Block, cues: seq<Cue>): (r: Block)
    ensures b.textLines == [] ==> r.textLines == []
    ensures r.captions == b.captions + EntriesOf(cues)
    decreases |cues|
  {
    if cues == [] then b
    else
      var e := EntryOf(cues[0]);
      assert b.captions + [e] + EntriesOf(cues[1..]) == b.captions + EntriesOf(cues);
      AfterCues(Block(b.captions + [e], e, []), cues[1..])
  }

  lemma {:induction false} PlainLinesCons(line: string, text: seq<string>, sep: char)
    requires PlainLine(line, sep) && forall k :: 0 <= k < |text| ==> PlainLine(text[k], sep)
    ensures forall k :: 0 <= k < |[line] + text| ==> PlainLine(([line] + text)[k], sep)
  {
    forall k | 0 <= k < |[line] + text| ensures PlainLine(([line] + text)[k], sep) {
      if k > 0 {
        assert ([line] + text)[k] == text[k - 1];
      }
    }
  }

  /** A SubRip timing line with four-digit seconds, as a long file numbering seconds writes it. */
  const OverlongLine := "00:00:1000,000 --> 00:00:1001,500"

  /** That line is kept as plain text. */
  lemma {:induction false} OverlongLinePlain()
    ensures PlainLine(OverlongLine, ',')
  {
    OverlongSecondsNoTiming();
    var line := OverlongLine;
    assert line[0] == '0' && line[|line| - 1] == '0';
  }
}
