/**
 * The pieces of Go's standard library that the caption core relies on, as they behave on
 * ASCII input: strings.TrimSpace, strings.Split, strings.Join, strings.HasPrefix,
 * strings.ToLower, strconv.Atoi and path/filepath.Ext (with '/' as the only separator).
 */
module Text {
  import opened Results

  // ---------------------------------------------------------------- whitespace and trimming

  /** The ASCII characters strings.TrimSpace removes: '\t', '\n', '\v', '\f', '\r' and ' '. */
  predicate IsSpace(c: char) {
    c == ' ' || c == '\t' || c == '\n' || c == '\U{0B}' || c == '\U{0C}' || c == '\r'
  }

  predicate AllSpace(s: string) {
    forall k :: 0 <= k < |s| ==> IsSpace(s[k])
  }

  /** Neither end of `s` is whitespace. */
  predicate IsTrimmed(s: string) {
    s == [] || (!IsSpace(s[0]) && !IsSpace(s[|s| - 1]))
  }

  /** The first index at or after `i` whose character is not whitespace, or |s|. */
  function FirstNonSpace(s: string, i: nat): (n: nat)
    requires i <= |s|
    ensures i <= n <= |s|
    ensures forall k :: i <= k < n ==> IsSpace(s[k])
    ensures n == |s| || !IsSpace(s[n])
    decreases |s| - i
  {
    if i < |s| && IsSpace(s[i]) then FirstNonSpace(s, i + 1) else i
  }

  /** The end of `s[lo..j]` once its trailing whitespace is dropped. */
  function EndNonSpace(s: string, lo: nat, j: nat): (n: nat)
    requires lo <= j <= |s|
    ensures lo <= n <= j
    ensures forall k :: n <= k < j ==> IsSpace(s[k])
    ensures n == lo || !IsSpace(s[n - 1])
    decreases j
  {
    if j > lo && IsSpace(s[j - 1]) then EndNonSpace(s, lo, j - 1) else j
  }

  /** An index with only whitespace before it (from `i`) and none at it is FirstNonSpace's. */
  lemma {:induction false} FirstNonSpaceUnique(s: string, i: nat, n: nat)
    requires i <= n <= |s|
    requires forall k :: i <= k < n ==> IsSpace(s[k])
    requires n == |s| || !IsSpace(s[n])
    ensures FirstNonSpace(s, i) == n
    decreases n - i
  {
    if i < n {
      FirstNonSpaceUnique(s, i + 1, n);
    }
  }

  /** An end with only whitespace after it (up to `j`) and none just before it is EndNonSpace's. */
  lemma {:induction false} EndNonSpaceUnique(s: string, lo: nat, j: nat, n: nat)
    requires lo <= n <= j <= |s|
    requires forall k :: n <= k < j ==> IsSpace(s[k])
    requires n == lo || !IsSpace(s[n - 1])
    ensures EndNonSpace(s, lo, j) == n
    decreases j - n
  {
    if n < j {
      EndNonSpaceUnique(s, lo, j - 1, n);
    }
  }

  /** strings.TrimSpace: `s` without its leading and trailing whitespace. */
  function TrimSpace(s: string): (r: string)
    ensures IsTrimmed(r)
    ensures r == [] <==> AllSpace(s)
  {
    var i := FirstNonSpace(s, 0);
    var j := EndNonSpace(s, i, |s|);
    assert i < j ==> s[i..j][0] == s[i] && s[i..j][j - i - 1] == s[j - 1];
    s[i..j]
  }

  /** The trimmed line is `s` with a whitespace prefix and a whitespace suffix taken off. */
  lemma {:induction false} TrimShape(s: string)
    ensures exists i :: (0 <= i <= |s| - |TrimSpace(s)| && TrimSpace(s) == s[i..i + |TrimSpace(s)|]
      && AllSpace(s[..i]) && AllSpace(s[i + |TrimSpace(s)|..]))
  {
    var i := FirstNonSpace(s, 0);
    var j := EndNonSpace(s, i, |s|);
    assert TrimSpace(s) == s[i..j];
    assert AllSpace(s[..i]) by {
      forall k | 0 <= k < i ensures IsSpace(s[..i][k]) { assert s[..i][k] == s[k]; }
    }
    assert AllSpace(s[j..]) by {
      forall k | 0 <= k < |s| - j ensures IsSpace(s[j..][k]) { assert s[j..][k] == s[j + k]; }
    }
  }

  /** Trimming a string that has no whitespace at either end changes nothing. */
  lemma {:induction false} TrimSpaceOfTrimmed(s: string)
    requires IsTrimmed(s)
    ensures TrimSpace(s) == s
  {
    FirstNonSpaceUnique(s, 0, 0);
    EndNonSpaceUnique(s, 0, |s|, |s|);
    assert s[0..|s|] == s;
  }

  /** Whitespace around whitespace is whitespace. */
  lemma {:induction false} SpacePaddingAllSpace(w1: string, s: string, w2: string)
    requires AllSpace(w1) && AllSpace(s) && AllSpace(w2)
    ensures AllSpace(w1 + s + w2)
  {
    var t := w1 + s + w2;
    forall k | 0 <= k < |t| ensures IsSpace(t[k]) {
      if k < |w1| { assert t[k] == w1[k]; }
      else if k < |w1| + |s| { assert t[k] == s[k - |w1|]; }
      else { assert t[k] == w2[k - |w1| - |s|]; }
    }
  }

  /** Padding on the left moves the first non-whitespace character by the padding. */
  lemma {:induction false} SpacePaddingFirst(w1: string, s: string, w2: string, i: nat)
    requires AllSpace(w1) && i < |s| && i == FirstNonSpace(s, 0)
    ensures FirstNonSpace(w1 + s + w2, 0) == |w1| + i
  {
    var t := w1 + s + w2;
    var d := |w1|;
    assert t[d + i] == s[i];
    forall k | 0 <= k < d + i ensures IsSpace(t[k]) {
      if k < d { assert t[k] == w1[k]; } else { assert t[k] == s[k - d]; }
    }
    FirstNonSpaceUnique(t, 0, d + i);
  }

  /** Padding on the right leaves the end of the non-whitespace part where it was, shifted by the left padding. */
  lemma {:induction false} SpacePaddingEnd(w1: string, s: string, w2: string, i: nat, j: nat)
    requires AllSpace(w2) && i < j <= |s| && j == EndNonSpace(s, i, |s|)
    ensures EndNonSpace(w1 + s + w2, |w1| + i, |w1 + s + w2|) == |w1| + j
  {
    var t := w1 + s + w2;
    var d := |w1|;
    assert t[d + j - 1] == s[j - 1];
    forall k | d + j <= k < |t| ensures IsSpace(t[k]) {
      if k < d + |s| { assert t[k] == s[k - d]; } else { assert t[k] == w2[k - d - |s|]; }
    }
    EndNonSpaceUnique(t, d + i, |t|, d + j);
  }

  lemma {:induction false} ConcatMiddle(w1: string, s: string, w2: string)
    ensures (w1 + s + w2)[|w1|..|w1| + |s|] == s
  {
    assert w1 + s + w2 == w1 + (s + w2);
    assert (s + w2)[..|s|] == s;
  }

  /** A slice of `s` is the same slice, shifted, of any `t` that holds `s` at offset `d`. */
  lemma {:induction false} SliceShift(t: string, s: string, d: nat, i: nat, j: nat)
    requires d + |s| <= |t| && t[d..d + |s|] == s && i <= j <= |s|
    ensures t[d + i..d + j] == s[i..j]
  {
    forall k | 0 <= k < j - i ensures t[d + i..d + j][k] == s[i..j][k] {
      assert t[d + i + k] == t[d..d + |s|][i + k];
    }
  }

  /** A string holding `s` at offset `d`, with its non-whitespace part at the same place, trims to what `s` trims to. */
  lemma {:induction false} TrimSpaceShifted(t: string, s: string, d: nat, i: nat, j: nat)
    requires d + |s| <= |t| && t[d..d + |s|] == s
    requires i == FirstNonSpace(s, 0) && i < j && j == EndNonSpace(s, i, |s|)
    requires FirstNonSpace(t, 0) == d + i && EndNonSpace(t, d + i, |t|) == d + j
    ensures TrimSpace(t) == TrimSpace(s)
  {
    assert TrimSpace(t) == t[d + i..d + j];
    assert TrimSpace(s) == s[i..j];
    SliceShift(t, s, d, i, j);
  }

  /** Padding a line that is not all whitespace leaves its trimmed form alone. */
  lemma {:induction false} TrimSpacePaddedText(w1: string, s: string, w2: string, i: nat, j: nat)
    requires AllSpace(w1) && AllSpace(w2)
    requires i == FirstNonSpace(s, 0) && i < |s| && j == EndNonSpace(s, i, |s|)
    ensures TrimSpace(w1 + s + w2) == TrimSpace(s)
  {
    assert i < j by {
      assert !IsSpace(s[i]);
    }
    SpacePaddingFirst(w1, s, w2, i);
    SpacePaddingEnd(w1, s, w2, i, j);
    ConcatMiddle(w1, s, w2);
    TrimSpaceShifted(w1 + s + w2, s, |w1|, i, j);
  }

  /** Trimming is unaffected by extra whitespace at either end (a trailing '\r', say). */
  lemma {:induction false} TrimSpacePadding(w1: string, s: string, w2: string)
    requires AllSpace(w1) && AllSpace(w2)
    ensures TrimSpace(w1 + s + w2) == TrimSpace(s)
  {
    var i := FirstNonSpace(s, 0);
    if i == |s| {
      assert AllSpace(s);
      SpacePaddingAllSpace(w1, s, w2);
    } else {
      TrimSpacePaddedText(w1, s, w2, i, EndNonSpace(s, i, |s|));
    }
  }

  /** A trailing '\r' on a line does not change its trimmed form. */
  lemma {:induction false} TrimSpaceCarriageReturn(s: string)
    ensures TrimSpace(s + "\r") == TrimSpace(s)
  {
    TrimSpacePadding("", s, "\r");
    assert "" + s + "\r" == s + "\r";
  }

  // ---------------------------------------------------------------- split and join

  function Count(s: string, c: char): nat {
    if s == [] then 0 else (if s[0] == c then 1 else 0) + Count(s[1..], c)
  }

  /** strings.Join. */
  function Join(parts: seq<string>, sep: string): string {
    if |parts| == 0 then ""
    else if |parts| == 1 then parts[0]
    else parts[0] + sep + Join(parts[1..], sep)
  }

  lemma {:induction false} JoinPrepend(x: string, y: string, tail: seq<string>, sep: string)
    ensures Join([x + y] + tail, sep) == x + Join([y] + tail, sep)
  {
    if |tail| == 0 {
    } else {
      assert ([x + y] + tail)[1..] == tail;
      assert ([y] + tail)[1..] == tail;
    }
  }

  /** The summed lengths of `parts`. */
  function TotalLength(parts: seq<string>): nat {
    if parts == [] then 0 else |parts[0]| + TotalLength(parts[1..])
  }

  /** Joining adds one separator between each two parts and nothing else. */
  lemma {:induction false} JoinLength(parts: seq<string>, sep: string)
    requires |parts| > 0
    ensures |Join(parts, sep)| == TotalLength(parts) + (|parts| - 1) * |sep|
  {
    if |parts| > 1 {
      JoinLength(parts[1..], sep);
      assert TotalLength(parts[1..][1..]) == TotalLength(parts[2..]);
      assert (|parts| - 2) * |sep| + |sep| == (|parts| - 1) * |sep|;
    } else {
      assert parts[1..] == [];
    }
  }

  /** strings.Split with a one-character separator: the pieces between occurrences of `c`. */
  function Split(s: string, c: char): (parts: seq<string>)
    ensures |parts| == Count(s, c) + 1
    ensures forall k :: 0 <= k < |parts| ==> c !in parts[k]
    ensures Join(parts, [c]) == s
    decreases |s|
  {
    if s == [] then [""]
    else
      var rest := Split(s[1..], c);
      if s[0] == c then
        assert Join([""] + rest, [c]) == [c] + Join(rest, [c]) by {
          if |rest| == 1 { } else { assert ([""] + rest)[1..] == rest; }
        }
        assert s == [c] + s[1..];
        [""] + rest
      else
        JoinPrepend([s[0]], rest[0], rest[1..], [c]);
        assert [rest[0]] + rest[1..] == rest;
        assert s == [s[0]] + s[1..];
        [[s[0]] + rest[0]] + rest[1..]
  }

  lemma {:induction false} SplitNoSeparator(a: string, c: char)
    requires c !in a
    ensures Split(a, c) == [a]
  {
    if a != [] {
      SplitNoSeparator(a[1..], c);
    }
  }

  /** Splitting `a c b`, where `a` holds no `c`, gives `a` followed by the pieces of `b`. */
  lemma {:induction false} SplitAt(a: string, c: char, b: string)
    requires c !in a
    ensures Split(a + [c] + b, c) == [a] + Split(b, c)
  {
    if a == [] {
      assert a + [c] + b == [c] + b;
      assert ([c] + b)[1..] == b;
    } else {
      assert (a + [c] + b)[1..] == a[1..] + [c] + b;
      SplitAt(a[1..], c, b);
      assert a == [a[0]] + a[1..];
    }
  }

  /** strings.HasPrefix. */
  predicate HasPrefix(s: string, prefix: string) {
    |prefix| <= |s| && s[..|prefix|] == prefix
  }

  // ---------------------------------------------------------------- case

  function LowerChar(c: char): char {
    if 'A' <= c <= 'Z' then (c as int + 32) as char else c
  }

  /** strings.ToLower on ASCII letters. */
  function ToLower(s: string): (r: string)
    ensures |r| == |s|
    ensures forall k :: 0 <= k < |s| ==> r[k] == LowerChar(s[k])
  {
    if s == [] then [] else [LowerChar(s[0])] + ToLower(s[1..])
  }

  // ---------------------------------------------------------------- numbers

  predicate IsDigit(c: char) {
    '0' <= c <= '9'
  }

  predicate AllDigits(s: string) {
    forall k :: 0 <= k < |s| ==> IsDigit(s[k])
  }

  function DigitsValue(s: string): nat
    requires AllDigits(s)
  {
    if s == [] then 0 else DigitsValue(s[..|s| - 1]) * 10 + (s[|s| - 1] as int - '0' as int)
  }

  /**
   * strconv.Atoi: an optional '+' or '-' followed by one or more ASCII digits; anything
   * else is a syntax error, here None.
   */
  function Atoi(s: string): (r: Option<int>)
    ensures r.Some? ==> |s| > 0 && (IsDigit(s[0]) || s[0] == '+' || s[0] == '-')
    ensures |s| > 0 && AllDigits(s) ==> r == Some(DigitsValue(s))
  {
    if |s| > 0 && (s[0] == '+' || s[0] == '-') then
      var digits := s[1..];
      if |digits| > 0 && AllDigits(digits) then
        Some(if s[0] == '-' then -(DigitsValue(digits) as int) else DigitsValue(digits))
      else None
    else if |s| > 0 && AllDigits(s) then Some(DigitsValue(s))
    else None
  }

  // ---------------------------------------------------------------- paths

  /** The extension search of filepath.Ext among the first `n` characters of `path`. */
  function ExtBefore(path: string, n: nat): (r: string)
    requires n <= |path|
    ensures r != [] ==> |r| <= |path| && |path| - |r| < n && r == path[|path| - |r|..] && r[0] == '.'
    ensures r != [] ==> forall k :: |path| - |r| < k < n ==> path[k] != '.' && path[k] != '/'
  {
    if n == 0 then ""
    else if path[n - 1] == '/' then ""
    else if path[n - 1] == '.' then path[n - 1..]
    else ExtBefore(path, n - 1)
  }

  /**
   * filepath.Ext: the suffix from the final '.' of the final path element, or "" when that
   * element has no '.'.
   */
  function Ext(path: string): string {
    ExtBefore(path, |path|)
  }
}
