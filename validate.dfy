/**
 * IsValidFileType and ValidateCoverage of internal/utils/validate.go (copied as
 * isValidFileType and validateCoverage in main.go).
 */
module Validate {
  import opened Text
  import opened Captions
  import opened Calc

  // ---------------------------------------------------------------- file type

  /** The lower-cased extension is ".vtt" or ".srt". */
  predicate IsValidFileType(path: string) {
    var ext := ToLower(Ext(path));
    ext == ".vtt" || ext == ".srt"
  }

  /** The last three characters of `path`, lower-cased, name a caption format. */
  predicate CaptionSuffix(path: string) {
    |path| >= 4 && path[|path| - 4] == '.' && ToLower(path[|path| - 3..]) in {"vtt", "srt"}
  }

  /** The extension search stops at the last '.' when none of the characters after it is '.' or '/'. */
  lemma {:induction false} ExtBeforeDot(path: string, n: nat, j: nat)
    requires j < n <= |path| && path[j] == '.'
    requires forall k :: j < k < n ==> path[k] != '.' && path[k] != '/'
    ensures ExtBefore(path, n) == path[j..]
    decreases n
  {
    if n - 1 != j {
      ExtBeforeDot(path, n - 1, j);
    }
  }

  /** An accepted path ends in a caption suffix. */
  lemma {:induction false} AcceptedHasSuffix(path: string)
    requires IsValidFileType(path)
    ensures CaptionSuffix(path)
  {
    var ext := Ext(path);
    assert |ext| == 4;
    assert ext == path[|path| - 4..];
    assert ToLower(path[|path| - 3..]) == ToLower(ext)[1..];
  }

  /** None of the three characters of a caption suffix is '.' or '/'. */
  lemma {:induction false} SuffixLetters(path: string)
    requires CaptionSuffix(path)
    ensures forall k :: |path| - 4 < k < |path| ==> path[k] != '.' && path[k] != '/'
  {
    var j := |path| - 4;
    var tail := ToLower(path[j + 1..]);
    forall k | j < k < |path| ensures path[k] != '.' && path[k] != '/' {
      assert tail[k - j - 1] == LowerChar(path[k]);
    }
  }

  lemma {:induction false} ToLowerDot(x: string)
    ensures ToLower(['.'] + x) == ['.'] + ToLower(x)
  {
    var l := ToLower(['.'] + x);
    assert l[0] == '.';
    assert forall k :: 0 < k < |l| ==> l[k] == LowerChar(x[k - 1]);
  }

  /** A path with a caption suffix has that suffix as its extension. */
  lemma {:induction false} SuffixAccepted(path: string)
    requires CaptionSuffix(path)
    ensures IsValidFileType(path)
  {
    var j := |path| - 4;
    SuffixLetters(path);
    ExtBeforeDot(path, |path|, j);
    assert path[j..] == ['.'] + path[j + 1..];
    ToLowerDot(path[j + 1..]);
  }

  /**
   * A path is accepted exactly when it ends in '.' and three characters that lower-case to
   * "vtt" or "srt": the final element's last extension, in any letter case.
   */
  lemma {:induction false} IsValidFileTypeIff(path: string)
    ensures IsValidFileType(path) <==> CaptionSuffix(path)
  {
    if IsValidFileType(path) {
      AcceptedHasSuffix(path);
    }
    if CaptionSuffix(path) {
      SuffixAccepted(path);
    }
  }

  lemma {:induction false} UpperCaseAccepted()
    ensures IsValidFileType("captions.VTT")
  {
    var p := "captions.VTT";
    assert p[|p| - 4] == '.' && p[|p| - 3..] == "VTT";
    assert ToLower("VTT") == [LowerChar('V'), LowerChar('T'), LowerChar('T')] == "vtt";
    IsValidFileTypeIff(p);
  }

  lemma {:induction false} DirectoriesAccepted()
    ensures IsValidFileType("/path/to/captions.srt")
  {
    var p := "/path/to/captions.srt";
    assert p[|p| - 4] == '.' && p[|p| - 3..] == "srt";
    assert ToLower("srt") == [LowerChar('s'), LowerChar('r'), LowerChar('t')] == "srt";
    IsValidFileTypeIff(p);
  }

  lemma {:induction false} OnlyLastExtensionCounts()
    ensures !IsValidFileType("captions.vtt.backup")
  {
    IsValidFileTypeIff("captions.vtt.backup");
  }

  lemma {:induction false} NoExtensionRejected()
    ensures !IsValidFileType("captions") && !IsValidFileType("")
  {
    IsValidFileTypeIff("captions");
    IsValidFileTypeIff("");
  }

  // ---------------------------------------------------------------- coverage

  /** The part of caption `c` inside the window [tStart, tEnd), zero when they do not meet. */
  function Overlap(c: CaptionEntry, tStart: Duration, tEnd: Duration): (r: Duration)
    ensures r >= 0
    ensures r > 0 <==> c.startTime < c.endTime && tStart < tEnd && c.startTime < tEnd && tStart < c.endTime
    ensures r <= tEnd - tStart || r == 0
    ensures r <= c.endTime - c.startTime || r == 0
  {
    var overlapStart := MaxDuration(c.startTime, tStart);
    var overlapEnd := MinDuration(c.endTime, tEnd);
    if overlapStart < overlapEnd then overlapEnd - overlapStart else 0
  }

  /** The covered duration over `captions`: their overlaps added up, not unioned. */
  function CoveredSum(captions: seq<CaptionEntry>, tStart: Duration, tEnd: Duration): (r: Duration)
    ensures r >= 0
    decreases |captions|
  {
    if captions == [] then 0
    else CoveredSum(captions[..|captions| - 1], tStart, tEnd) + Overlap(captions[|captions| - 1], tStart, tEnd)
  }

  /** ValidateCoverage's verdict. */
  predicate CoverageOk(captions: seq<CaptionEntry>, tStart: Duration, tEnd: Duration, required: real) {
    ShareReached(CoveredSum(captions, tStart, tEnd), tEnd - tStart, required)
  }

  /** The covered share of a window of length `totalRange` reaches `required`; an empty window fails. */
  predicate ShareReached(covered: Duration, totalRange: Duration, required: real) {
    totalRange > 0 && (covered as real) / (totalRange as real) >= required
  }

  /** ValidateCoverage, loop for loop. */
  method ValidateCoverage(captions: seq<CaptionEntry>, tStart: Duration, tEnd: Duration, requiredCoverage: real)
    returns (ok: bool)
    ensures ok == CoverageOk(captions, tStart, tEnd, requiredCoverage)
    ensures tEnd - tStart <= 0 ==> !ok
  {
    var totalRange := tEnd - tStart;
    if totalRange <= 0 {
      return false;
    }
    var coveredDuration: Duration := 0;
    for i := 0 to |captions|
      invariant coveredDuration == CoveredSum(captions[..i], tStart, tEnd)
    {
      assert captions[..i + 1][..i] == captions[..i];
      var caption := captions[i];
      var overlapStart := MaxDuration(caption.startTime, tStart);
      var overlapEnd := MinDuration(caption.endTime, tEnd);
      if overlapStart < overlapEnd {
        coveredDuration := coveredDuration + (overlapEnd - overlapStart);
      }
    }
    assert captions[..|captions|] == captions;
    var actualCoverage := (coveredDuration as real) / (totalRange as real);
    return actualCoverage >= requiredCoverage;
  }

  /** The covered sum of two lists one after the other is the sum of their covered sums. */
  lemma {:induction false} CoveredSumAppend(xs: seq<CaptionEntry>, ys: seq<CaptionEntry>, tStart: Duration, tEnd: Duration)
    ensures CoveredSum(xs + ys, tStart, tEnd) == CoveredSum(xs, tStart, tEnd) + CoveredSum(ys, tStart, tEnd)
    decreases |ys|
  {
    if ys == [] {
      assert xs + ys == xs;
    } else {
      var init := ys[..|ys| - 1];
      assert (xs + ys)[..|xs + ys| - 1] == xs + init;
      assert (xs + ys)[|xs + ys| - 1] == ys[|ys| - 1];
      CoveredSumAppend(xs, init, tStart, tEnd);
    }
  }

  /** The order of the captions does not matter to the covered sum. */
  lemma {:induction false} CoveredSumSwap(xs: seq<CaptionEntry>, ys: seq<CaptionEntry>, tStart: Duration, tEnd: Duration)
    ensures CoveredSum(xs + ys, tStart, tEnd) == CoveredSum(ys + xs, tStart, tEnd)
  {
    CoveredSumAppend(xs, ys, tStart, tEnd);
    CoveredSumAppend(ys, xs, tStart, tEnd);
  }

  /** Each caption adds at most the window's length. */
  lemma {:induction false} CoveredSumBound(captions: seq<CaptionEntry>, tStart: Duration, tEnd: Duration)
    requires tStart < tEnd
    ensures CoveredSum(captions, tStart, tEnd) <= |captions| * (tEnd - tStart)
    decreases |captions|
  {
    if captions != [] {
      var n, w := |captions| - 1, tEnd - tStart;
      CoveredSumBound(captions[..n], tStart, tEnd);
      assert CoveredSum(captions, tStart, tEnd) <= CoveredSum(captions[..n], tStart, tEnd) + w;
      MultiplySucc(n, w);
    }
  }

  lemma {:induction false} MultiplySucc(n: int, w: int)
    ensures n * w + w == (n + 1) * w
  {
  }

  /** Appending captions never lowers the covered sum, so a passing list still passes. */
  lemma {:induction false} CoverageMonotone(captions: seq<CaptionEntry>, more: seq<CaptionEntry>, tStart: Duration, tEnd: Duration, required: real)
    ensures CoveredSum(captions, tStart, tEnd) <= CoveredSum(captions + more, tStart, tEnd)
    ensures CoverageOk(captions, tStart, tEnd, required) ==> CoverageOk(captions + more, tStart, tEnd, required)
  {
    CoveredSumAppend(captions, more, tStart, tEnd);
    if tEnd - tStart > 0 {
      DivideMonotone(CoveredSum(captions, tStart, tEnd) as real, CoveredSum(captions + more, tStart, tEnd) as real, (tEnd - tStart) as real);
    }
  }

  lemma {:induction false} DivideMonotone(x: real, y: real, d: real)
    requires x <= y && d > 0.0
    ensures x / d <= y / d
  {
    assert y / d - x / d == (y - x) / d;
  }

  lemma {:induction false} MultiplyMonotone(x: real, y: real, d: real)
    requires x < y && d > 0.0
    ensures x * d < y * d
  {
    assert y * d - x * d == (y - x) * d;
  }

  /** A caption outside the window, or one that does not end after it starts, adds nothing. */
  lemma {:induction false} OutsideCaptionIgnored(captions: seq<CaptionEntry>, c: CaptionEntry, tStart: Duration, tEnd: Duration)
    requires c.endTime <= tStart || c.startTime >= tEnd || c.startTime >= c.endTime
    ensures CoveredSum(captions + [c], tStart, tEnd) == CoveredSum(captions, tStart, tEnd)
  {
    assert (captions + [c])[..|captions|] == captions;
  }

  /** The share is reached exactly when the covered time is at least the required share of a positive window length, equality passing. */
  lemma {:induction false} ShareReachedCross(covered: Duration, totalRange: Duration, required: real)
    ensures ShareReached(covered, totalRange, required) <==> totalRange > 0 && covered as real >= required * totalRange as real
  {
    if totalRange > 0 {
      CrossMultiply(covered as real, totalRange as real, required);
    }
  }

  lemma {:induction false} CrossMultiply(c: real, t: real, r: real)
    requires t > 0.0
    ensures c / t >= r <==> c >= r * t
  {
    var q := c / t;
    assert q * t == c;
    if q >= r {
      MultiplyAtLeast(r, q, t);
    } else {
      MultiplyMonotone(q, r, t);
    }
  }

  lemma {:induction false} MultiplyAtLeast(x: real, y: real, d: real)
    requires x <= y && d > 0.0
    ensures x * d <= y * d
  {
    assert y * d - x * d == (y - x) * d;
  }

  /** With no captions the verdict is whether a share of zero is enough. */
  lemma {:induction false} NoCaptions(tStart: Duration, tEnd: Duration, required: real)
    ensures CoverageOk([], tStart, tEnd, required) <==> tStart < tEnd && required <= 0.0
  {
  }

  /** Overlapping captions count twice: [0s, 2s) and [1s, 3s) cover 4s of the 3s window [0s, 3s). */
  lemma {:induction false} OverlapCountedTwice()
    ensures var cs := [CaptionEntry(0, 2 * Second, ""), CaptionEntry(Second, 3 * Second, "")];
      CoveredSum(cs, 0, 3 * Second) == 4 * Second && CoverageOk(cs, 0, 3 * Second, 1.0)
  {
    var cs := [CaptionEntry(0, 2 * Second, ""), CaptionEntry(Second, 3 * Second, "")];
    assert cs[..1] == [cs[0]] && cs[..1][..0] == [];
    assert CoveredSum(cs[..1], 0, 3 * Second) == 2 * Second;
    assert Overlap(cs[1], 0, 3 * Second) == 2 * Second;
    ShareReachedCross(CoveredSum(cs, 0, 3 * Second), 3 * Second, 1.0);
  }

  /** Exactly the required share passes: [0s, 1s) covers half of [0s, 2s). */
  lemma {:induction false} ExactThreshold()
    ensures CoverageOk([CaptionEntry(0, Second, "")], 0, 2 * Second, 0.5)
    ensures !CoverageOk([CaptionEntry(0, Second, "")], 0, 3 * Second, 0.5)
  {
    var cs := [CaptionEntry(0, Second, "")];
    assert cs[..0] == [];
    assert CoveredSum(cs, 0, 2 * Second) == Second && CoveredSum(cs, 0, 3 * Second) == Second;
    ShareReachedCross(CoveredSum(cs, 0, 2 * Second), 2 * Second, 0.5);
    ShareReachedCross(CoveredSum(cs, 0, 3 * Second), 3 * Second, 0.5);
  }
}
