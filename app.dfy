/**
 * The verdict sequencing of main in main.go: file-type check, then either a lone parse
 * failure report or the coverage and language reports, in that order.
 */
module App {
  import opened Results
  import opened Text
  import opened Captions
  import opened Validate
  import opened Extract

  /** The kinds of validation report main prints. */
  datatype Report = FileParseError | InsufficientCoverage | InvalidLanguage

  /** The already-validated flags main works from. */
  datatype Config = Config(filePath: string, tStart: Duration, tEnd: Duration, coverage: real)

  /** How main ends: its exit status and the reports it printed, in order. */
  datatype Outcome = Outcome(exitCode: nat, reports: seq<Report>)

  /**
   * validateLanguage: empty text fails without asking; otherwise `detect` stands for the
   * request to the endpoint and the "en-US" comparison of its answer.
   */
  predicate ValidateLanguage(text: string, detect: string -> bool) {
    text != "" && detect(text)
  }

  /**
   * What main does once the flags are validated. `parsed` is the caption file's entries, or
   * None when it could not be opened or scanned.
   */
  function Verdict(config: Config, parsed: Option<seq<CaptionEntry>>, detect: string -> bool): Outcome {
    if !IsValidFileType(config.filePath) then Outcome(1, [])
    else match parsed
      case None => Outcome(0, [FileParseError])
      case Some(captions) =>
        var coverage := if CoverageOk(captions, config.tStart, config.tEnd, config.coverage) then [] else [InsufficientCoverage];
        var language := if ValidateLanguage(Join(KeptTexts(captions), " "), detect) then [] else [InvalidLanguage];
        Outcome(0, coverage + language)
  }

  /** main, step for step, from the file-type check to the printed reports. */
  method RunValidation(config: Config, parsed: Option<seq<CaptionEntry>>, detect: string -> bool)
    returns (exitCode: nat, reports: seq<Report>)
    ensures Outcome(exitCode, reports) == Verdict(config, parsed, detect)
  {
    if !IsValidFileType(config.filePath) {
      return 1, [];
    }
    if parsed.None? {
      return 0, [FileParseError];
    }
    var captions := parsed.value;
    var validationErrors: seq<Report> := [];
    var covered := ValidateCoverage(captions, config.tStart, config.tEnd, config.coverage);
    if !covered {
      validationErrors := validationErrors + [InsufficientCoverage];
    }
    var allText := ExtractAllText(captions);
    if !ValidateLanguage(allText, detect) {
      validationErrors := validationErrors + [InvalidLanguage];
    }
    return 0, validationErrors;
  }

  /**
   * An unsupported file type exits with status 1 and prints nothing; otherwise the status is
   * 0, a parse failure is reported alone, and at most two reports come out.
   */
  lemma {:induction false} VerdictShape(config: Config, parsed: Option<seq<CaptionEntry>>, detect: string -> bool)
    ensures var v := Verdict(config, parsed, detect);
      && (v.exitCode == 1 <==> !IsValidFileType(config.filePath))
      && (v.exitCode == 1 ==> v.reports == [])
      && |v.reports| <= 2
      && (FileParseError in v.reports <==> IsValidFileType(config.filePath) && parsed.None?)
      && (FileParseError in v.reports ==> v.reports == [FileParseError])
  {
  }

  /**
   * Once the file is parsed, the two checks are independent: each report appears exactly
   * when its own check fails, coverage before language.
   */
  lemma {:induction false} ChecksIndependent(config: Config, captions: seq<CaptionEntry>, detect: string -> bool)
    requires IsValidFileType(config.filePath)
    ensures var v := Verdict(config, Some(captions), detect);
      && (InsufficientCoverage in v.reports <==> !CoverageOk(captions, config.tStart, config.tEnd, config.coverage))
      && (InvalidLanguage in v.reports <==> !ValidateLanguage(Join(KeptTexts(captions), " "), detect))
      && (|v.reports| == 2 ==> v.reports == [InsufficientCoverage, InvalidLanguage])
  {
  }

  /** Captions that are all blank fail the language check whatever the endpoint would say. */
  lemma {:induction false} BlankCaptionsFailLanguage(config: Config, captions: seq<CaptionEntry>, detect: string -> bool)
    requires IsValidFileType(config.filePath)
    requires forall i :: 0 <= i < |captions| ==> TrimSpace(captions[i].text) == ""
    ensures InvalidLanguage in Verdict(config, Some(captions), detect).reports
  {
    ExtractEmptyIff(captions);
  }
}
