/**
 * The timing-line pattern of both scanners,
 *   (\d{2}:\d{2}:\d{2}<sep>\d{3})\s+-->\s+(\d{2}:\d{2}:\d{2}<sep>\d{3})
 * searched for anywhere in a line (the pattern is not anchored), as Go's
 * Regexp.FindStringSubmatch does: the leftmost position where a match starts wins.
 */
module Timing {
  import opened Results
  import opened Text
  import opened Timestamp

  /** The regular expression's `\s`: '\t', '\n', '\f', '\r' and ' ' (not '\v'). */
  predicate IsRegexSpace(c: char) {
    c == ' ' || c == '\t' || c == '\n' || c == '\U{0C}' || c == '\r'
  }

  predicate AllRegexSpace(w: string) {
    forall k :: 0 <= k < |w| ==> IsRegexSpace(w[k])
  }

  /** The end of the run of `\s` characters that starts at `j`. */
  function SpaceRunEnd(s: string, j: nat): (k: nat)
    requires j <= |s|
    ensures j <= k <= |s|
    ensures forall m :: j <= m < k ==> IsRegexSpace(s[m])
    ensures k == |s| || !IsRegexSpace(s[k])
    decreases |s| - j
  {
    if j < |s| && IsRegexSpace(s[j]) then SpaceRunEnd(s, j + 1) else j
  }

  predicate StampAt(s: string, i: nat, sep: char) {
    i + 12 <= |s| && IsStamp(s[i..i + 12], sep)
  }

  /**
   * The match starting at position `i`, if there is one. Since neither '-' nor a digit is
   * `\s`, each `\s+` must take the whole run of whitespace, so a match at `i` is unique.
   */
  function MatchAt(s: string, i: nat, sep: char): (r: Option<(string, string)>)
    ensures r.Some? ==> IsStamp(r.value.0, sep) && IsStamp(r.value.1, sep)
    ensures r.Some? ==> StampAt(s, i, sep) && r.value.0 == s[i..i + 12]
  {
    if !StampAt(s, i, sep) then None
    else
      var j := SpaceRunEnd(s, i + 12);
      if j == i + 12 || j + 3 > |s| || s[j..j + 3] != "-->" then None
      else
        var k := SpaceRunEnd(s, j + 3);
        if k == j + 3 || !StampAt(s, k, sep) then None
        else Some((s[i..i + 12], s[k..k + 12]))
  }

  /** The leftmost match at or after position `i`. */
  function FindFrom(s: string, i: nat, sep: char): (r: Option<(string, string)>)
    ensures r.Some? ==> IsStamp(r.value.0, sep) && IsStamp(r.value.1, sep)
    decreases |s| - i
  {
    if i > |s| then None
    else if MatchAt(s, i, sep).Some? then MatchAt(s, i, sep)
    else FindFrom(s, i + 1, sep)
  }

  /** FindStringSubmatch's two capture groups, or None when the line holds no timing. */
  function FindTiming(line: string, sep: char): Option<(string, string)> {
    FindFrom(line, 0, sep)
  }

  /** The search finds nothing exactly when no position from `i` on starts a match. */
  lemma {:induction false} FindFromNone(s: string, i: nat, sep: char)
    ensures FindFrom(s, i, sep).None? <==> forall m :: i <= m <= |s| ==> MatchAt(s, m, sep).None?
    decreases |s| - i
  {
    if i <= |s| {
      var here := MatchAt(s, i, sep);
      if here.None? {
        assert FindFrom(s, i, sep) == FindFrom(s, i + 1, sep);
        FindFromNone(s, i + 1, sep);
        if FindFrom(s, i + 1, sep).None? {
          forall m | i <= m <= |s| ensures MatchAt(s, m, sep).None? {
            if m == i {
              assert MatchAt(s, m, sep) == here;
            }
          }
        }
      } else {
        assert FindFrom(s, i, sep) == here;
      }
    }
  }

  lemma {:induction false} FindFromLeftmost(s: string, i: nat, p: nat, sep: char)
    requires i <= p
    requires MatchAt(s, p, sep).Some?
    requires forall m :: i <= m < p ==> MatchAt(s, m, sep).None?
    ensures FindFrom(s, i, sep) == MatchAt(s, p, sep)
    decreases p - i
  {
    if i < p {
      FindFromLeftmost(s, i + 1, p, sep);
    }
  }

  /** The groups found are those of the leftmost position where the pattern matches. */
  lemma {:induction false} FindTimingLeftmost(s: string, p: nat, sep: char)
    requires MatchAt(s, p, sep).Some?
    requires forall m :: 0 <= m < p ==> MatchAt(s, m, sep).None?
    ensures FindTiming(s, sep) == MatchAt(s, p, sep)
  {
    FindFromLeftmost(s, 0, p, sep);
  }

  lemma {:induction false} SpaceRunOver(s: string, j: nat, w: string)
    requires j + |w| <= |s| && s[j..j + |w|] == w
    requires AllRegexSpace(w)
    requires j + |w| == |s| || !IsRegexSpace(s[j + |w|])
    ensures SpaceRunEnd(s, j) == j + |w|
    decreases |w|
  {
    if w != [] {
      assert s[j] == w[0];
      assert s[j + 1..j + 1 + |w[1..]|] == w[1..];
      SpaceRunOver(s, j + 1, w[1..]);
    }
  }

  /**
   * A line that starts with `a`, a run of whitespace, "-->", a run of whitespace and `b`,
   * where `a` and `b` are timestamps, matches at its first character with groups `a` and `b`,
   * however long the whitespace runs are.
   */
  lemma {:induction false} TimingLineMatches(a: string, w1: string, w2: string, b: string, rest: string, sep: char)
    requires IsStamp(a, sep) && IsStamp(b, sep)
    requires |w1| > 0 && |w2| > 0 && AllRegexSpace(w1) && AllRegexSpace(w2)
    ensures FindTiming(a + w1 + "-->" + w2 + b + rest, sep) == Some((a, b))
  {
    var s := a + w1 + "-->" + w2 + b + rest;
    var j := 12 + |w1|;
    var k := j + 3 + |w2|;
    assert s[..12] == a;
    assert s[12..j] == w1;
    assert s[j..j + 3] == "-->";
    assert s[j + 3..k] == w2;
    assert s[k..k + 12] == b;
    SpaceRunOver(s, 12, w1);
    SpaceRunOver(s, j + 3, w2);
    assert MatchAt(s, 0, sep) == Some((a, b));
  }

  /** The timing line a caption file writes: one space on each side of the arrow. */
  lemma {:induction false} ArrowLineMatches(a: string, b: string, sep: char)
    requires IsStamp(a, sep) && IsStamp(b, sep)
    ensures FindTiming(a + " --> " + b, sep) == Some((a, b))
  {
    assert a + " --> " + b == a + " " + "-->" + " " + b + "";
    TimingLineMatches(a, " ", " ", b, "", sep);
  }

  /** Whenever a line matches, both captured timestamps convert: the scanners' error returns are unreachable. */
  lemma {:induction false} MatchedStampsParse(line: string, sep: char)
    requires sep == ',' || sep == '.'
    requires FindTiming(line, sep).Some?
    ensures ParseTime(FindTiming(line, sep).value.0, sep).Ok?
    ensures ParseTime(FindTiming(line, sep).value.1, sep).Ok?
  {
    StampParses(FindTiming(line, sep).value.0, sep);
    StampParses(FindTiming(line, sep).value.1, sep);
  }

  /**
   * From position `j` on, no separator stands six characters after a ':', as the
   * separator of a timestamp must.
   */
  predicate NoStampSeparator(s: string, sep: char, j: nat)
    decreases |s| - j
  {
    j >= |s| || ((j >= 6 && s[j] == sep ==> s[j - 6] != ':') && NoStampSeparator(s, sep, j + 1))
  }

  lemma {:induction false} NoStampSeparatorAt(s: string, sep: char, j: nat, k: nat)
    requires NoStampSeparator(s, sep, j)
    requires j <= k < |s| && k >= 6 && s[k] == sep
    ensures s[k - 6] != ':'
    decreases k - j
  {
    if j < k {
      NoStampSeparatorAt(s, sep, j + 1, k);
    }
  }

  /** A line in which no separator stands six characters after a ':' holds no timing. */
  lemma {:induction false} NoTimingWithoutStamp(s: string, sep: char)
    requires NoStampSeparator(s, sep, 0)
    ensures FindTiming(s, sep).None?
  {
    forall m | 0 <= m <= |s| ensures MatchAt(s, m, sep).None? {
      if MatchAt(s, m, sep).Some? {
        var t := s[m..m + 12];
        assert t[8] == s[m + 8] == sep && t[2] == s[m + 2] == ':';
        NoStampSeparatorAt(s, sep, 0, m + 8);
      }
    }
    FindFromNone(s, 0, sep);
  }

  lemma {:induction false} NoSeparatorFrom(s: string, sep: char, j: nat)
    requires sep !in s
    ensures NoStampSeparator(s, sep, j)
    decreases |s| - j
  {
    if j < |s| {
      NoSeparatorFrom(s, sep, j + 1);
    }
  }

  /** A line without the millisecond separator holds no timing. */
  lemma {:induction false} NoSeparatorNoTiming(s: string, sep: char)
    requires sep !in s
    ensures FindTiming(s, sep).None?
  {
    NoSeparatorFrom(s, sep, 0);
    NoTimingWithoutStamp(s, sep);
  }

  lemma {:induction false} OverlongSecondsTail()
    ensures NoStampSeparator("00:00:1000,000 --> 00:00:1001,500", ',', 14)
  {
    var line := "00:00:1000,000 --> 00:00:1001,500";
    assert NoStampSeparator(line, ',', 30);
    assert NoStampSeparator(line, ',', 26);
    assert NoStampSeparator(line, ',', 22);
    assert NoStampSeparator(line, ',', 18);
  }

  /** Four-digit seconds are no timestamp: this line is not a timing line. */
  lemma {:induction false} OverlongSecondsNoTiming()
    ensures FindTiming("00:00:1000,000 --> 00:00:1001,500", ',').None?
  {
    var line := "00:00:1000,000 --> 00:00:1001,500";
    OverlongSecondsTail();
    assert NoStampSeparator(line, ',', 10);
    assert NoStampSeparator(line, ',', 6);
    assert NoStampSeparator(line, ',', 2);
    assert NoStampSeparator(line, ',', 0);
    NoTimingWithoutStamp(line, ',');
  }
}
