/** ExtractAllText of internal/parse/extract.go (copied as extractAllText in main.go). */
module Extract {
  import opened Text
  import opened Captions
  import opened Blocks

  /**
   * The texts ExtractAllText keeps, untrimmed and in input order: those with a character
   * strings.TrimSpace would not remove.
   */
  function KeptTexts(captions: seq<CaptionEntry>): (kept: seq<string>)
    ensures |kept| <= |captions|
    decreases |captions|
  {
    if captions == [] then []
    else
      var last := captions[|captions| - 1];
      KeptTexts(captions[..|captions| - 1]) + (if !AllSpace(last.text) then [last.text] else [])
  }

  /** ExtractAllText, loop for loop. */
  method ExtractAllText(captions: seq<CaptionEntry>) returns (s: string)
    ensures s == Join(KeptTexts(captions), " ")
  {
    var textParts: seq<string> := [];
    for i := 0 to |captions|
      invariant textParts == KeptTexts(captions[..i])
    {
      assert captions[..i + 1][..i] == captions[..i];
      var caption := captions[i];
      if TrimSpace(caption.text) != "" {
        textParts := textParts + [caption.text];
      }
    }
    assert captions[..|captions|] == captions;
    return Join(textParts, " ");
  }

  /** Every kept text has a non-whitespace character. */
  lemma {:induction false} KeptNonBlank(captions: seq<CaptionEntry>)
    ensures forall k :: 0 <= k < |KeptTexts(captions)| ==> TrimSpace(KeptTexts(captions)[k]) != ""
    decreases |captions|
  {
    if captions != [] {
      KeptNonBlank(captions[..|captions| - 1]);
    }
  }

  /** Filtering a concatenation filters each part. */
  lemma {:induction false} KeptTextsAppend(xs: seq<CaptionEntry>, ys: seq<CaptionEntry>)
    ensures KeptTexts(xs + ys) == KeptTexts(xs) + KeptTexts(ys)
    decreases |ys|
  {
    if ys == [] {
      assert xs + ys == xs;
    } else {
      var init, last := ys[..|ys| - 1], ys[|ys| - 1];
      var keep := if !AllSpace(last.text) then [last.text] else [];
      var zs := xs + ys;
      assert zs[..|zs| - 1] == xs + init && zs[|zs| - 1] == last;
      assert KeptTexts(zs) == KeptTexts(xs + init) + keep;
      assert KeptTexts(ys) == KeptTexts(init) + keep;
      KeptTextsAppend(xs, init);
      assert KeptTexts(xs) + KeptTexts(init) + keep == KeptTexts(xs) + (KeptTexts(init) + keep);
    }
  }

  /** One entry: its text is kept as it is, surrounding whitespace included, unless it is blank. */
  lemma {:induction false} KeptTextsSingle(c: CaptionEntry)
    ensures KeptTexts([c]) == if !AllSpace(c.text) then [c.text] else []
  {
    assert [c][..0] == [];
  }

  /** Nothing is kept exactly when every text is blank. */
  lemma {:induction false} KeptNothingIff(captions: seq<CaptionEntry>)
    ensures KeptTexts(captions) == [] <==> forall i :: 0 <= i < |captions| ==> TrimSpace(captions[i].text) == ""
    decreases |captions|
  {
    if captions != [] {
      var init := captions[..|captions| - 1];
      KeptNothingIff(init);
      assert forall i :: 0 <= i < |init| ==> init[i] == captions[i];
    }
  }

  lemma {:induction false} JoinNonEmpty(parts: seq<string>, sep: string)
    requires forall k :: 0 <= k < |parts| ==> TrimSpace(parts[k]) != ""
    ensures Join(parts, sep) == "" <==> parts == []
  {
    if parts != [] {
      forall k | 0 <= k < |parts| ensures parts[k] != [] {
        if parts[k] == [] {
          assert AllSpace(parts[k]);
        }
      }
      JoinEnds(parts, sep);
    }
  }

  /** The text is empty exactly when no entry has a non-blank text. */
  lemma {:induction false} ExtractEmptyIff(captions: seq<CaptionEntry>)
    ensures Join(KeptTexts(captions), " ") == "" <==> forall i :: 0 <= i < |captions| ==> TrimSpace(captions[i].text) == ""
  {
    KeptNonBlank(captions);
    JoinNonEmpty(KeptTexts(captions), " ");
    KeptNothingIff(captions);
  }

  /** The text is one space longer than the kept texts together, per kept text after the first. */
  lemma {:induction false} ExtractLength(captions: seq<CaptionEntry>)
    requires KeptTexts(captions) != []
    ensures |Join(KeptTexts(captions), " ")| == TotalLength(KeptTexts(captions)) + |KeptTexts(captions)| - 1
  {
    JoinLength(KeptTexts(captions), " ");
  }

  /** Entries a scanner produced (non-empty trimmed texts) are all kept. */
  lemma {:induction false} KeptCleanEntries(captions: seq<CaptionEntry>)
    requires CleanEntries(captions)
    ensures |KeptTexts(captions)| == |captions|
    ensures forall k :: 0 <= k < |captions| ==> KeptTexts(captions)[k] == captions[k].text
    decreases |captions|
  {
    if captions != [] {
      var n := |captions| - 1;
      var init := captions[..n];
      assert CleanEntries(init) by {
        forall i | 0 <= i < |init| ensures CleanText(init[i].text) {
          assert init[i] == captions[i];
        }
      }
      KeptCleanEntries(init);
      var last := captions[n].text;
      assert CleanText(last);
      TrimSpaceOfTrimmed(last);
      var kept := KeptTexts(captions);
      assert kept == KeptTexts(init) + [last];
      forall k | 0 <= k < |captions| ensures kept[k] == captions[k].text {
        if k < n {
          assert kept[k] == KeptTexts(init)[k] && init[k] == captions[k];
        }
      }
    }
  }

  lemma {:induction false} KeptTextsCons(c: CaptionEntry, rest: seq<CaptionEntry>)
    ensures KeptTexts([c] + rest) == KeptTexts([c]) + KeptTexts(rest)
  {
    KeptTextsAppend([c], rest);
  }

  lemma {:induction false} KeepFirstAndLast(a: CaptionEntry, b: CaptionEntry, c: CaptionEntry, d: CaptionEntry)
    requires !AllSpace(a.text) && AllSpace(b.text) && AllSpace(c.text) && !AllSpace(d.text)
    ensures Join(KeptTexts([a, b, c, d]), " ") == a.text + " " + d.text
  {
    assert [a, b, c, d][..3] == [a, b, c] && [a, b, c][..2] == [a, b] && [a, b][..1] == [a] && [a][..0] == [];
    assert KeptTexts([a]) == [a.text];
    assert KeptTexts([a, b]) == [a.text];
    assert KeptTexts([a, b, c]) == [a.text];
    assert KeptTexts([a, b, c, d]) == [a.text, d.text];
    assert [a.text, d.text][1..] == [d.text];
  }

  /** Empty and whitespace-only texts are dropped, the others joined by one space. */
  lemma {:induction false} BlankTextsDropped()
    ensures Join(KeptTexts([CaptionEntry(Second, 3 * Second, "First caption"), CaptionEntry(4 * Second, 6 * Second, ""),
                            CaptionEntry(7 * Second, 9 * Second, "   "), CaptionEntry(10 * Second, 12 * Second, "Last caption")]), " ")
         == "First caption Last caption"
  {
    var first, last := "First caption", "Last caption";
    assert !AllSpace(first) by { assert !IsSpace(first[0]); }
    assert !AllSpace(last) by { assert !IsSpace(last[0]); }
    KeepFirstAndLast(CaptionEntry(Second, 3 * Second, first), CaptionEntry(4 * Second, 6 * Second, ""),
                     CaptionEntry(7 * Second, 9 * Second, "   "), CaptionEntry(10 * Second, 12 * Second, last));
    assert first + " " + last == "First caption Last caption";
  }
}
