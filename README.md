# Caption-file core of srt-test

srt-test is a command-line validator for caption files. It takes a SubRip (`.srt`) or
WebVTT (`.vtt`) file and scans it into timed caption entries. It then checks two things:

- that the captions cover a required share of a time window;
- that their text is in English.

It reports JSON validation errors for the checks that fail.

This project models the part of the program that decides those verdicts. It proves, in
Dafny, properties of each piece:

- **Timestamp codec** (`Timestamp`). `parseSRTTime` and `parseWebVTTTime` turn
  `HH:MM:SS,mmm` and `HH:MM:SS.mmm` into a duration.
  - The model has their three failure kinds and their order of checks.
  - It also has a writer, `FormatTime`, that the codec inverts.
- **Timing-line pattern** (`Timing`). The regular expression
  `(\d{2}:\d{2}:\d{2}<sep>\d{3})\s+-->\s+(\d{2}:\d{2}:\d{2}<sep>\d{3})` is written out as an
  unanchored, leftmost match. Each stamp it captures is a well-formed timestamp, so it always
  converts.
- **Block assembly** (`Blocks`). This is shared by both scanners:
  - text lines collect until a blank line or the end of input;
  - they are joined by one space into the current entry, which keeps the most recently parsed
    timing because it is never reset.
- **Scanners** (`Srt`, `WebVtt`). `ParseSRT` has its sequence-number skip. `ParseWebVTT` has
  its one-shot header phase. Each scanner is:
  - a step function;
  - a fold over the lines;
  - an imperative method, loop for loop like the Go code, proved equal to the fold.
- **Coverage** (`Validate`, `Calc`). `ValidateCoverage` sums each caption's clipped overlap
  with the window. The sum is naive, so overlaps count twice. A degenerate window fails. The
  threshold is `>=`.
- **File type** (`Validate`). `IsValidFileType` checks the lower-cased last extension.
- **Text extraction** (`Extract`). `ExtractAllText` filters out blank texts and joins the rest.
- **Verdict sequencing** (`App`). This is `main` from the file-type check to the printed
  reports. The language detector is a parameter.

`main.go` holds textual copies of the internal functions, and one set of definitions serves
both:

| main.go copy | lines | internal original |
|---|---|---|
| `parseWebVTT` | main.go:162-216 | internal/parse/webvttt.go:15-69 |
| `parseSRT` | main.go:218-271 | internal/parse/srt.go:15-68 |
| `parseWebVTTTime` | main.go:273-307 | internal/parse/webvttt.go:71-105 |
| `parseSRTTime` | main.go:309-343 | internal/parse/srt.go:70-104 |
| `isValidFileType` | main.go:139-142 | internal/utils/validate.go:15-18 |
| `validateCoverage` | main.go:345-364 | internal/utils/validate.go:20-39 |
| `extractAllText` | main.go:395-403 | internal/parse/extract.go:9-17 |
| `maxDuration` | main.go:414-419 | internal/utils/calc.go:5-10 |
| `minDuration` | main.go:421-426 | internal/utils/calc.go:12-17 |

How Go's types are represented:

- Durations are unbounded integers of nanoseconds, as in Go's `time.Duration`.
- A converted timestamp is its millisecond count times `Millisecond` (1,000,000).
- The scanners read a `seq<string>` of input lines, already split at line breaks.

## Model

| member | source | states |
|---|---|---|
| Text.TrimSpace | internal/parse/srt.go:25 | The trimmed line has no leading or trailing white space, and it is empty exactly when the line is all white space. |
| Text.TrimShape | internal/parse/srt.go:25 | The trimmed line is a contiguous slice of the original, and only white space lies outside that slice. |
| Text.TrimSpacePadding | internal/parse/srt.go:25 | Surrounding a line with white space does not change its trimmed form. |
| Text.TrimSpaceCarriageReturn | internal/parse/srt.go:25 | A trailing carriage return is trimmed away, so a line keeps its trimmed form whether or not one follows it. |
| Text.HasPrefix | internal/parse/webvttt.go:29 | Defines `strings.HasPrefix`: the string is at least as long as the prefix and begins with it. |
| Text.Split | internal/parse/srt.go:72 | The parts are one more than the separators, none of them contains the separator, and joining them with it gives back the input. |
| Text.SplitAt | internal/parse/srt.go:87 | Splitting at the first separator splits off the part before it. |
| Text.JoinLength | internal/parse/extract.go:16 | The joined string is as long as the parts together plus one separator between each pair of neighbours. |
| Text.Join | internal/parse/extract.go:16 | Defines `strings.Join`: the parts with the separator between each pair of neighbours, and `""` for no parts. |
| Text.ToLower | internal/utils/validate.go:16 | Lower-casing keeps the length and lowers each character in place. |
| Text.Atoi | internal/parse/srt.go:77-100 | A conversion succeeds only on input that starts with a digit or a sign, and it gives the decimal value of any non-empty digit string. |
| Text.ExtBefore | internal/utils/validate.go:16 | A non-empty extension is a suffix that starts at a '.' and runs to the end, with no '.' or '/' after that dot. |
| Text.Ext | internal/utils/validate.go:16 | Defines `filepath.Ext`: the suffix from the last '.' of the last path element, or `""` when that element has none. `Text.ExtBefore` states its contract. |
| Timestamp.ParseTime | internal/parse/srt.go:72-75 | The result is the "invalid time format" error exactly when the input does not have exactly two ':' characters. |
| Timestamp.HoursChecked | internal/parse/srt.go:77-80 | With three ':'-parts, non-numeric hours give the Atoi error for the hours text, whatever follows. |
| Timestamp.MinutesChecked | internal/parse/srt.go:82-85 | With numeric hours, non-numeric minutes give the Atoi error for the minutes text. |
| Timestamp.SecondsFormatChecked | internal/parse/srt.go:87-90 | With numeric hours and minutes, a third part without exactly one separator gives "invalid seconds format" for that part. |
| Timestamp.SubSecondsChecked | internal/parse/srt.go:92-100 | Non-numeric seconds, and then non-numeric milliseconds, give the Atoi error for that component, in that order. |
| Timestamp.ParseTimeValue | internal/parse/srt.go:102-103 | Four numeric components convert to HH*3600000 + MM*60000 + SS*1000 + mmm milliseconds. |
| Timestamp.ParseSRTTime | internal/parse/srt.go:70-104 | Defines `parseSRTTime` as the shared codec with ',' before the milliseconds. Its properties are those stated for `Timestamp.ParseTime` with that separator. |
| Timestamp.ParseWebVTTTime | internal/parse/webvttt.go:71-105 | Defines `parseWebVTTTime` as the shared codec with '.' before the milliseconds. Its properties are those stated for `Timestamp.ParseTime` with that separator. |
| Timestamp.StampParses | internal/parse/webvttt.go:71-105 | Every two-digit/two-digit/two-digit/three-digit timestamp converts, for either separator, to the value its digits spell. |
| Timestamp.Pad | internal/parse/srt.go:71 | The zero-padded numeral has the requested width, only digits, and the value written. |
| Timestamp.FormatTime | internal/parse/srt.go:71 | The written timestamp has the `HH:MM:SS<sep>mmm` shape and spells the given milliseconds. |
| Timestamp.ParseFormatTime | internal/parse/webvttt.go:72-104 | Reading back a written timestamp gives the duration it was written for, for SRT and WebVTT alike. |
| Timestamp.LargestTwoDigitStamp | internal/parse/srt.go:102-103 | `99:59:59,999` is accepted as 359999999 ms. |
| Timestamp.SRTPartCountErrors | internal/parse/srt.go:72-75 | `""` and `00:00:01:000` fail with "invalid time format". |
| Timestamp.SRTWrongSeparator | internal/parse/srt.go:87-90 | `00:00:01.000` fails with "invalid seconds format" for `01.000`. |
| Timestamp.SRTLetterInHours | internal/parse/srt.go:77-80 | Letters in the hours give the Atoi error for the hours. |
| Timestamp.SRTLetterInMinutes | internal/parse/srt.go:82-85 | Letters in the minutes, after numeric hours, give the Atoi error for the minutes. |
| Timestamp.SRTLetterInSeconds | internal/parse/srt.go:92-95 | Letters in the seconds give the Atoi error for the seconds. |
| Timestamp.SRTLetterInMillis | internal/parse/srt.go:97-100 | Letters in the milliseconds give the Atoi error for the milliseconds. |
| Timing.SpaceRunEnd | internal/parse/srt.go:22 | The white-space run found is maximal: white space up to it and a non-white-space character or the end after it. |
| Timing.MatchAt | internal/parse/srt.go:22 | A match at a position captures two well-formed timestamps, the first being the text at that position. |
| Timing.FindFrom | internal/parse/srt.go:22 | What the search captures is two well-formed timestamps. |
| Timing.FindFromNone | internal/parse/srt.go:45 | The search finds nothing exactly when no position from its start on begins a match. |
| Timing.FindTiming | internal/parse/srt.go:45 | Defines `FindStringSubmatch` on the timing pattern: the two capture groups of a match, or None. `Timing.FindTimingLeftmost` and `Timing.FindFromNone` state which match and when there is none. |
| Timing.FindTimingLeftmost | internal/parse/srt.go:45 | The pattern reports the match at the leftmost position where one starts. |
| Timing.TimingLineMatches | internal/parse/srt.go:22 | Two timestamps around an arrow with white space on both sides match and are captured, whatever text follows. |
| Timing.MatchedStampsParse | internal/parse/srt.go:45-54 | Whatever the pattern captures converts without error, so the scanners' error returns cannot be reached. |
| Timing.NoTimingWithoutStamp | internal/parse/srt.go:22 | A line with no separator six characters after a ':' contains no timing match. |
| Timing.OverlongSecondsNoTiming | internal/parse/srt.go:22 | `00:00:1000,000 --> 00:00:1001,500` is not a timing line. |
| Blocks.Classify | internal/parse/srt.go:45-58 | A non-timing line is appended to the pending text, a timing line leaves the text alone, and neither touches the emitted entries. The times a timing line sets are stated by `Blocks.ClassifyTiming`. |
| Blocks.ClassifyTiming | internal/parse/srt.go:45-54 | A line holding a timing match sets the current entry's start and end to the two captured stamps' values, HH*3600000 + MM*60000 + SS*1000 + mmm milliseconds in nanoseconds, and changes nothing else. |
| Blocks.SpacedTimingClassifies | internal/parse/srt.go:45-54 | Runs of white space of any length around the arrow, and any text after the second stamp, set the same times as the one-space layout. |
| Blocks.ClassifyNeverFails | internal/parse/webvttt.go:46-55 | Classifying a trimmed line with either separator never fails. |
| Blocks.Flush | internal/parse/srt.go:28-33 | Defines the end of a block, here and at lines 61-65: pending text lines, if any, are joined by one space into the current entry, which is appended and keeps its timing; the pending list is cleared. `Blocks.FlushIdempotent` states its properties. |
| Blocks.FlushIdempotent | internal/parse/srt.go:28-33 | A flush leaves no pending text, a second flush changes nothing, and an entry is emitted exactly when text was pending. |
| Blocks.JoinClean | internal/parse/srt.go:30 | Joining trimmed non-empty lines gives trimmed non-empty text. |
| Blocks.FlushClean | internal/parse/srt.go:28-33 | Flushing keeps every emitted and pending text trimmed and non-empty. |
| Blocks.ClassifyClean | internal/parse/srt.go:55-58 | Classifying a trimmed non-empty line keeps every emitted and pending text trimmed and non-empty. |
| Blocks.TimingTextMatches | internal/parse/srt.go:22 | The timing line written for a cue matches, capturing the two written timestamps. |
| Blocks.TimingTextClassifies | internal/parse/srt.go:45-54 | The timing line written for a cue sets the current entry's times to the cue's. |
| Blocks.AfterCues | internal/parse/srt.go:31 | The reference block after well-formed cues has one more entry per cue and nothing pending. `Srt.SRTFileScans` and `WebVtt.VTTFileScans` tie it to scanning. |
| Blocks.OverlongLinePlain | internal/parse/srt.go:55-58 | `00:00:1000,000 --> 00:00:1001,500` is a plain text line. |
| Srt.ParseSRT | internal/parse/srt.go:15-68 | The loop returns what the line fold returns: the same entries, or the same error. |
| Srt.SRTStep | internal/parse/srt.go:25-58 | Defines one loop iteration: trim; a blank line flushes the block and expects a sequence number; an expected sequence number is discarded; any other line is classified. |
| Srt.SRTRun | internal/parse/srt.go:24-59 | Defines the loop: the steps over the lines in order, stopping at the first error. |
| Srt.SRTCaptions | internal/parse/srt.go:15-68 | Defines ParseSRT's result: the loop's error, or its entries with the block still pending flushed as at lines 61-65. |
| Srt.SRTRunAppend | internal/parse/srt.go:24-59 | Scanning two line lists one after the other is scanning the first, then continuing with the second. An error stops the scan. |
| Srt.SRTNeverFails | internal/parse/srt.go:45-54 | ParseSRT never returns a time error on any input. |
| Srt.SRTEntriesClean | internal/parse/srt.go:28-33 | Every emitted entry's text is trimmed and non-empty. |
| Srt.SRTTrailingBlank | internal/parse/srt.go:61-66 | A final block without a trailing blank line is emitted just as with one. |
| Srt.SRTRunEndsBlank | internal/parse/srt.go:34 | After a blank line the scanner expects a sequence number. |
| Srt.SRTSequenceLineIgnored | internal/parse/srt.go:20-42 | At the start of input, and after a blank line, any non-blank line can stand in for another: the first one is discarded unread. |
| Srt.SRTRepeatedBlank | internal/parse/srt.go:28-35 | A second blank line in a row emits nothing extra. |
| Srt.SRTTrimInvariant | internal/parse/srt.go:25 | Lines with the same trimmed forms give the same result. |
| Srt.SRTCarriageReturns | internal/parse/srt.go:25 | Lines that each keep a trailing carriage return scan exactly like the same lines without it. The line reader already drops it; trimming would remove it anyway. |
| Srt.SRTTextLines | internal/parse/srt.go:55-58 | Non-timing lines inside a block are appended to the pending text in order. |
| Srt.SRTUntimedBlock | internal/parse/srt.go:18-58 | A block with no timing line emits its text under the previous entry's timing. |
| Srt.SRTOverlongTimingIsText | internal/parse/srt.go:55-58 | An overlong timing line becomes the first part of the entry's text, and the entry keeps the previous timing. |
| Srt.Decimal | internal/parse/srt.go:39-42 | The sequence number written is a non-empty digit string. |
| Srt.SRTTimedBlock | internal/parse/srt.go:27-58 | A sequence number, a timing line, text lines and a blank line emit one entry with that timing and the text joined by spaces. |
| Srt.SRTSpacedTimingStep | internal/parse/srt.go:45-54 | A timing line with runs of white space around its arrow sets the current entry's times to its two stamps' values. |
| Srt.SRTIndexLine | internal/parse/srt.go:38-42 | At the start of input any non-blank line is discarded as the sequence number. |
| Srt.SRTSpacedTimingHead | internal/parse/srt.go:24-54 | A sequence number and a spaced timing line leave an empty block whose current entry has the timing's two times. |
| Srt.SRTSpacedTimingBlock | internal/parse/srt.go:15-68 | A sequence number, a timing line with runs of white space around its arrow and text lines give exactly one entry: the two stamps' times and the text lines joined by spaces. |
| Srt.SRTExtraSpacesInTimingLine | internal/parse/srt.go:22 | `1`, `00:00:01,000    -->    00:00:04,000`, `Hello world` scan to one entry from 1s to 4s with the text `Hello world`. |
| Srt.SRTBlockScans | internal/parse/srt.go:27-58 | A written block emits exactly the entry of its cue. |
| Srt.SRTFileScans | internal/parse/srt.go:24-59 | A written file of well-formed cues appends exactly their entries, ending ready for a sequence number. |
| Srt.SRTRoundTrip | internal/parse/srt.go:15-68 | Scanning a written SubRip file gives back exactly its cues' entries: times, joined text and order. |
| WebVtt.ParseWebVTT | internal/parse/webvttt.go:15-69 | The loop returns what the line fold returns: the same entries, or the same error. |
| WebVtt.HeaderLine | internal/parse/webvttt.go:29 | Defines the lines the header phase skips: blank, or starting with `WEBVTT` or `NOTE`. |
| WebVtt.VTTStep | internal/parse/webvttt.go:25-59 | Defines one loop iteration: trim; in the header phase a header line is skipped; otherwise the header phase ends, a blank line flushes the block and any other line is classified. |
| WebVtt.VTTRun | internal/parse/webvttt.go:24-60 | Defines the loop: the steps over the lines in order, stopping at the first error. |
| WebVtt.VTTCaptions | internal/parse/webvttt.go:15-69 | Defines ParseWebVTT's result: the loop's error, or its entries with the block still pending flushed as at lines 62-66. |
| WebVtt.VTTRunAppend | internal/parse/webvttt.go:24-60 | Scanning two line lists one after the other is scanning the first, then continuing with the second. An error stops the scan. |
| WebVtt.VTTNeverFails | internal/parse/webvttt.go:46-55 | ParseWebVTT never returns a time error on any input. |
| WebVtt.VTTEntriesClean | internal/parse/webvttt.go:36-43 | Every emitted entry's text is trimmed and non-empty. |
| WebVtt.VTTTrailingBlank | internal/parse/webvttt.go:62-66 | Text still pending at the end of input is emitted just as if a blank line followed. |
| WebVtt.VTTRepeatedBlank | internal/parse/webvttt.go:36-43 | A second blank line in a row emits nothing extra. |
| WebVtt.VTTHeaderSkipped | internal/parse/webvttt.go:20-33 | Leading lines that are blank or start with `WEBVTT` or `NOTE` are skipped as if absent. |
| WebVtt.VTTNoteInHeader | internal/parse/webvttt.go:29-30 | A `NOTE` line in the header is skipped. |
| WebVtt.VTTNoteAfterHeader | internal/parse/webvttt.go:32-58 | Once the header is over, a `NOTE` line is caption text. |
| WebVtt.VTTTrimInvariant | internal/parse/webvttt.go:25 | Lines with the same trimmed forms give the same result. |
| WebVtt.VTTCarriageReturns | internal/parse/webvttt.go:25 | Lines that each keep a trailing carriage return scan exactly like the same lines without it. The line reader already drops it; trimming would remove it anyway. |
| WebVtt.VTTTextLines | internal/parse/webvttt.go:56-58 | Non-timing lines after the header are appended to the pending text in order. |
| WebVtt.VTTTimedBlock | internal/parse/webvttt.go:36-58 | A timing line, text lines and a blank line emit one entry with that timing and the text joined by spaces. |
| WebVtt.TimingTextNotHeader | internal/parse/webvttt.go:29-32 | A written timing line ends the header phase. |
| WebVtt.VTTCueScans | internal/parse/webvttt.go:36-58 | A written cue emits exactly its entry. |
| WebVtt.VTTCueIdentifierIsText | internal/parse/webvttt.go:45-59 | A cue identifier is not skipped: it becomes the first part of the entry's text. |
| WebVtt.VTTSignatureSkipped | internal/parse/webvttt.go:28-31 | The `WEBVTT` signature and the blank line after it are skipped. |
| WebVtt.VTTFileScans | internal/parse/webvttt.go:24-60 | A written WebVTT file appends exactly its cues' entries, leaving the header phase once any cue is read. |
| WebVtt.VTTRoundTrip | internal/parse/webvttt.go:15-69 | Scanning a written WebVTT file gives back exactly its cues' entries: times, joined text and order. |
| Calc.MaxDuration | internal/utils/calc.go:5-10 | The result is one of the two arguments and at least both, for negative durations and equal arguments too. |
| Calc.MinDuration | internal/utils/calc.go:12-17 | The result is one of the two arguments and at most both, for negative durations and equal arguments too. |
| Validate.IsValidFileType | internal/utils/validate.go:15-18 | Defines the check: the lower-cased extension is `.vtt` or `.srt`. `Validate.IsValidFileTypeIff` states it on the path's characters. |
| Validate.IsValidFileTypeIff | internal/utils/validate.go:15-18 | A path is accepted exactly when it ends in '.' and three characters that lower-case to `vtt` or `srt`. |
| Validate.UpperCaseAccepted | internal/utils/validate.go:16 | `captions.VTT` is accepted. |
| Validate.DirectoriesAccepted | internal/utils/validate.go:16 | `/path/to/captions.srt` is accepted. |
| Validate.OnlyLastExtensionCounts | internal/utils/validate.go:16-17 | `captions.vtt.backup` is rejected. |
| Validate.NoExtensionRejected | internal/utils/validate.go:16-17 | `captions` and `""` are rejected. |
| Validate.Overlap | internal/utils/validate.go:29-34 | A caption's contribution is non-negative and positive exactly when it has positive length and meets the window. It never exceeds the window or the caption. |
| Validate.ValidateCoverage | internal/utils/validate.go:20-39 | The loop returns whether the summed overlaps divided by the window length reach the required share, and a non-positive window fails. |
| Validate.CoveredSum | internal/utils/validate.go:26-35 | The covered time, the captions' overlaps with the window added up and not unioned, is never negative. |
| Validate.CoverageOk | internal/utils/validate.go:21-38 | Defines ValidateCoverage's verdict: the share of the window the covered sum makes up reaches the required one. |
| Validate.ShareReached | internal/utils/validate.go:21-38 | Defines the final comparison: a positive window length, and covered time divided by it at least the required share. |
| Validate.CoveredSumAppend | internal/utils/validate.go:26-35 | The covered sum of two lists one after the other is the sum of their covered sums. |
| Validate.CoveredSumSwap | internal/utils/validate.go:26-35 | The order of the captions does not matter to the covered sum. |
| Validate.CoveredSumBound | internal/utils/validate.go:26-35 | Each caption adds at most the window's length. |
| Validate.CoverageMonotone | internal/utils/validate.go:27-35 | Appending captions never lowers the covered sum, so a passing list still passes. |
| Validate.OutsideCaptionIgnored | internal/utils/validate.go:32-34 | A caption outside the window, or one that does not end after it starts, adds nothing. |
| Validate.ShareReachedCross | internal/utils/validate.go:37-38 | The final comparison, covered time divided by a window length against the required share, holds exactly when the length is positive and the covered time is at least the required share times the length, equality passing. |
| Validate.NoCaptions | internal/utils/validate.go:21-38 | With no captions the verdict is whether a share of zero is enough on a non-degenerate window. |
| Validate.OverlapCountedTwice | internal/utils/validate.go:26-35 | `[0s,2s)` and `[1s,3s)` cover 4s of the window `[0s,3s)` and pass at 1.0. |
| Validate.ExactThreshold | internal/utils/validate.go:38 | One second of captions passes 0.5 on a two-second window and fails it on a three-second window. |
| Extract.KeptTexts | internal/parse/extract.go:11-15 | No more texts are kept than there are captions. |
| Extract.ExtractAllText | internal/parse/extract.go:9-17 | The loop returns the kept texts joined by single spaces. |
| Extract.KeptNonBlank | internal/parse/extract.go:12 | Every kept text has non-blank trimmed form. |
| Extract.KeptTextsAppend | internal/parse/extract.go:11-15 | Texts are kept in input order: the kept texts of two lists one after the other are the first's then the second's. |
| Extract.KeptTextsSingle | internal/parse/extract.go:12-13 | A single caption's text is kept exactly when it is not blank, and then untrimmed. |
| Extract.KeptNothingIff | internal/parse/extract.go:11-15 | Nothing is kept exactly when every caption's trimmed text is empty. |
| Extract.ExtractEmptyIff | internal/parse/extract.go:16 | The result is empty exactly when every caption's text is blank, including when there are no captions. |
| Extract.ExtractLength | internal/parse/extract.go:16 | The result is as long as the kept texts together plus one space between each pair of neighbours. |
| Extract.KeptCleanEntries | internal/parse/extract.go:11-15 | Entries as the scanners emit them are all kept: one kept text per entry, the k-th being the k-th entry's text. |
| Extract.KeepFirstAndLast | internal/parse/extract.go:11-16 | Two non-blank texts around two blank ones are joined by one space, untrimmed. |
| Extract.BlankTextsDropped | internal/parse/extract.go:11-16 | "First caption", "", "   ", "Last caption" gives "First caption Last caption". |
| App.RunValidation | main.go:46-90 | The sequence of checks gives the exit status and the reports of the verdict. |
| App.Verdict | main.go:46-90 | Defines main's outcome: exit status 1 and no report for an unsupported file type; a lone parse-failure report when the file cannot be read; otherwise exit status 0 with the coverage report, then the language report, each when its check fails. |
| App.ValidateLanguage | main.go:366-369 | Defines validateLanguage: empty text fails without asking the endpoint; otherwise the detector's answer decides. |
| App.VerdictShape | main.go:53-63 | Exit status 1 with no reports exactly for an unsupported file type; a parse failure gives one `file_parse_error` report alone; at most two reports. |
| App.ChecksIndependent | main.go:65-87 | Each of the two reports appears exactly when its own check fails, coverage before language. |
| App.BlankCaptionsFailLanguage | main.go:366-369 | Captions whose texts are all blank fail the language check, whatever the detector would answer. |

## Left out

- The language detector: an HTTP POST with a timeout, then JSON decoding with a comparison to
  `en-US`, at internal/utils/validate.go:41-68 and main.go:366-393. The model has its
  empty-text guard, and the rest is an opaque `detect` predicate given to `App`.
- `PrintValidationError` and the report descriptions it prints. They only marshal JSON to
  standard output. The model records which reports come out, in order.
- `ParseFlags` (internal/cmd/parse.go, main.go:92-137). It depends on the `flag` package and
  `time.ParseDuration`. The model starts from an already validated `Config`, and a flag error
  (exit status 1) is not modelled.
- `ParseCaptionFile` (internal/parse/caption.go, main.go:144-160). It is `os.Open` plus
  extension dispatch, and its result enters `App` as an optional entry list.
- `bufio.Scanner`: its 64 KiB line limit and `scanner.Err()`. The scanners take the lines already
  split, with the '\r' of a CRLF ending already removed, as `bufio.ScanLines` does.
- ValidateCoverage: does not model float64 rounding. The share is an exact `real` quotient,
  so the comparison is exact.
- Go's integer width: `int` and `time.Duration` overflow for huge hour values is not modelled,
  because durations are unbounded integers.
- Text.Atoi: does not return a range error for numerals too large for `int`. It accepts an
  optional sign and one or more ASCII digits.
- Text.TrimSpace: trims ASCII white space only. Unicode spaces are kept.
- Text.ToLower: folds ASCII letters only.
- Text.Ext: treats only '/' as a path separator, as `filepath.Ext` does on Unix.
- General regular-expression semantics: only the one timing pattern is modelled. Its `\s` is
  RE2's ASCII class.
- internal/models/config.go: plain type declarations. `CaptionEntry` is mirrored as a datatype.
- internal/utils/validate.go:29-30 calls lower-case `maxDuration` and `minDuration`, but
  internal/utils/calc.go:5,12 declares them capitalised. The model treats them as the same
  functions.
- The tests call `ParseSRTTime`, but internal/parse/srt.go:70 declares `parseSRTTime`. The
  model follows the declaration: there is one codec per format.
