/**
 * What the Google Vision text parser guarantees: where the shop name, the
 * total, the date and each item come from.
 */
module GoogleVisionProperties {
  import opened Wrappers
  import opened Text
  import opened JsNumbers
  import opened ReceiptPatterns
  import opened Scans
  import opened GoogleVision

  // ---------------------------------------------------------------------------
  // Shop name

  /**
   * `r` is the shop read from the line-feed pieces: the first piece that is
   * not blank, trimmed, and the placeholder only when every piece is blank.
   */
  predicate IsShopOf(pieces: seq<string>, r: string) {
    ((forall k :: 0 <= k < |pieces| ==> Trim(pieces[k]) == []) ==> r == UNKNOWN_SHOP)
    && (forall k :: (0 <= k < |pieces| && Trim(pieces[k]) != []
         && (forall j :: 0 <= j < k ==> Trim(pieces[j]) == [])) ==> r == Trim(pieces[k]))
  }

  /** The shop is the first line of the text that is not blank. */
  lemma ShopNameSource(text: string)
    ensures IsShopOf(Split(text, '\n'), ShopName(NormalizeLines(text)))
  {
    ShopNameOfPieces(Split(text, '\n'));
  }

  lemma ShopNameOfPieces(pieces: seq<string>)
    ensures IsShopOf(pieces, ShopName(NonEmptyTrimmed(pieces)))
  {
    if forall k :: 0 <= k < |pieces| ==> Trim(pieces[k]) == [] {
      NonEmptyTrimmedNone(pieces);
    }
    forall k | 0 <= k < |pieces| && Trim(pieces[k]) != [] && (forall j :: 0 <= j < k ==> Trim(pieces[j]) == [])
      ensures ShopName(NonEmptyTrimmed(pieces)) == Trim(pieces[k])
    {
      NonEmptyTrimmedFirst(pieces, k);
    }
  }

  // ---------------------------------------------------------------------------
  // Total

  /** The `[\d.,]+` run after the word `w` at `i` and the `[:\s]*` that follows it. */
  function AmountAfter(text: string, i: nat, w: string): string {
    var m := GapRunEnd(ColonsOrSpaces, text, i + |w|);
    var e := NumberCharRunEnd(text, m);
    if m <= e <= |text| then text[m..e] else ""
  }

  /** The expression `w[:\s]*([\d.,]+)` matches at `i` exactly when an amount follows the word there. */
  lemma KeywordMatchAt(text: string, i: nat, w: string)
    ensures MatchAt(KeywordNumber(w), text, i).Some? <==> KeywordAmountAt(text, i, w)
    ensures MatchAt(KeywordNumber(w), text, i).Some? ==>
      Captured(text, MatchAt(KeywordNumber(w), text, i).value) == AmountAfter(text, i, w)
  {
    var p := KeywordNumber(w);
    if i <= |text| {
      var r := KeywordNumberAt(p, text, i);
      assert MatchAt(p, text, i) == r;
      if WordAtCI(text, i, w) {
        var m := GapRunEnd(ColonsOrSpaces, text, i + |w|);
        var e := NumberCharRunEnd(text, m);
        assert m < e <==> m < |text| && IsNumberChar(text[m]);
        if m < e {
          assert r == Some(Match(i, e, m, e));
          assert AmountAfter(text, i, w) == text[m..e];
        }
      }
    }
  }

  /**
   * The total is read from the first "общо" (any case) followed by an amount;
   * only when there is none, from the first such "total"; otherwise it is 0.
   */
  lemma TotalSource(text: string)
    ensures (forall i: nat :: !KeywordAmountAt(text, i, TOTAL_WORD_BG) && !KeywordAmountAt(text, i, TOTAL_WORD_EN))
      ==> TotalAmount(text) == Finite(0.0)
    ensures forall i: nat :: (KeywordAmountAt(text, i, TOTAL_WORD_BG)
                              && (forall j: nat :: j < i ==> !KeywordAmountAt(text, j, TOTAL_WORD_BG)))
                             ==> TotalAmount(text) == ParseFloat(ReplaceFirst(AmountAfter(text, i, TOTAL_WORD_BG), ",", "."))
    ensures forall i: nat :: ((forall j: nat :: !KeywordAmountAt(text, j, TOTAL_WORD_BG))
                              && KeywordAmountAt(text, i, TOTAL_WORD_EN)
                              && (forall j: nat :: j < i ==> !KeywordAmountAt(text, j, TOTAL_WORD_EN)))
                             ==> TotalAmount(text) == ParseFloat(ReplaceFirst(AmountAfter(text, i, TOTAL_WORD_EN), ",", "."))
  {
    forall j: nat
      ensures MatchAt(KeywordNumber(TOTAL_WORD_BG), text, j).Some? <==> KeywordAmountAt(text, j, TOTAL_WORD_BG)
      ensures MatchAt(KeywordNumber(TOTAL_WORD_EN), text, j).Some? <==> KeywordAmountAt(text, j, TOTAL_WORD_EN)
    {
      KeywordMatchAt(text, j, TOTAL_WORD_BG);
      KeywordMatchAt(text, j, TOTAL_WORD_EN);
    }
    forall i: nat | KeywordAmountAt(text, i, TOTAL_WORD_BG) && (forall j: nat :: j < i ==> !KeywordAmountAt(text, j, TOTAL_WORD_BG))
      ensures TotalAmount(text) == ParseFloat(ReplaceFirst(AmountAfter(text, i, TOTAL_WORD_BG), ",", "."))
    {
      KeywordMatchAt(text, i, TOTAL_WORD_BG);
      LeftmostMatch(KeywordNumber(TOTAL_WORD_BG), text, i);
    }
    forall i: nat | (forall j: nat :: !KeywordAmountAt(text, j, TOTAL_WORD_BG))
      && KeywordAmountAt(text, i, TOTAL_WORD_EN) && (forall j: nat :: j < i ==> !KeywordAmountAt(text, j, TOTAL_WORD_EN))
      ensures TotalAmount(text) == ParseFloat(ReplaceFirst(AmountAfter(text, i, TOTAL_WORD_EN), ",", "."))
    {
      KeywordMatchAt(text, i, TOTAL_WORD_EN);
      LeftmostMatch(KeywordNumber(TOTAL_WORD_EN), text, i);
    }
  }

  /** A match at `i` with none before it is what `Exec` finds. */
  lemma LeftmostMatch(p: Pattern, s: string, i: nat)
    requires MatchAt(p, s, i).Some?
    requires forall j :: 0 <= j < i ==> MatchAt(p, s, j).None?
    ensures Exec(p, s) == MatchAt(p, s, i)
  {
    var r := SearchFrom(p, s, 0);
    assert r.Some? && r.value.start == i;
  }

  /** Replacing the first comma of a `[\d.,]` run by a dot keeps it a `[\d.,]` run. */
  lemma ReplaceCommaKeepsNumberChars(c: string)
    requires forall k :: 0 <= k < |c| ==> IsNumberChar(c[k])
    ensures var u := ReplaceFirst(c, ",", "."); |u| == |c| && forall k :: 0 <= k < |u| ==> IsNumberChar(u[k])
  {
    match IndexOf(c, ",", 0)
    case None =>
    case Some(i) =>
      var u := c[..i] + "." + c[i + 1..];
      assert forall k :: 0 <= k < |u| ==> u[k] == (if k == i then '.' else c[k]);
  }

  /** `parseFloat` of a non-empty `[\d.,]` run is NaN or a number that is not negative. */
  lemma ParseNumberChars(u: string)
    requires |u| > 0 && forall k :: 0 <= k < |u| ==> IsNumberChar(u[k])
    ensures ParseFloat(u) == NaN || (ParseFloat(u).Finite? && ParseFloat(u).value >= 0.0)
  {
    assert !IsSpace(u[0]);
    assert TrimStart(u) == u;
    if |u| >= 8 { assert u[..8][0] == u[0]; }
    var a := DigitRunEnd(u, 0);
    var hasDot := a < |u| && u[a] == '.';
    var b := if hasDot then DigitRunEnd(u, a + 1) else a;
    var frac := if hasDot then u[a + 1..b] else "";
    if !(a == 0 && frac == "") {
      DecimalValueNonNegative(u[..a], frac);
      assert !(b < |u| && (u[b] == 'e' || u[b] == 'E'));
    }
  }

  /**
   * The total is never negative or infinite: the amount holds only digits,
   * dots and commas, so `parseFloat` gives a non-negative number or NaN.
   */
  lemma TotalRange(text: string)
    ensures TotalAmount(text) == NaN || (TotalAmount(text).Finite? && TotalAmount(text).value >= 0.0)
  {
    var p := if Exec(KeywordNumber(TOTAL_WORD_BG), text).Some? then KeywordNumber(TOTAL_WORD_BG) else KeywordNumber(TOTAL_WORD_EN);
    if TotalMatch(text).Some? {
      var m := Exec(p, text).value;
      assert TotalMatch(text) == Some(m);
      var c := Captured(text, m);
      assert MatchAt(p, text, m.start) == Some(m);
      assert |c| > 0 && forall k :: 0 <= k < |c| ==> IsNumberChar(c[k]);
      ReplaceCommaKeepsNumberChars(c);
      ParseNumberChars(ReplaceFirst(c, ",", "."));
    }
  }

  // ---------------------------------------------------------------------------
  // Date

  /** Digits everywhere except for a separator `.`, `/` or `-` at `p` and at `q`. */
  predicate SeparatedAt(d: string, p: nat, q: nat) {
    p < q < |d| && d[p] in "./-" && d[q] in "./-"
    && forall k :: 0 <= k < |d| && k != p && k != q ==> IsDigit(d[k])
  }

  lemma DigitsStep(es: seq<DateElem>, s: string, i: nat, n: nat)
    requires es != [] && es[0] == Digits(n, n) && MatchElems(es, s, i).Some?
    ensures i + n <= |s| && AllDigits(s[i..i + n]) && MatchElems(es[1..], s, i + n) == MatchElems(es, s, i)
  {
    assert MatchElems(es, s, i) == TryCounts(es, s, i, n);
    if n > 0 {
      assert TryCounts(es, s, i, n - 1) == None;
    }
  }

  lemma SepStep(es: seq<DateElem>, s: string, i: nat, cs: string)
    requires es != [] && es[0] == Sep(cs) && MatchElems(es, s, i).Some?
    ensures i < |s| && s[i] in cs && MatchElems(es[1..], s, i + 1) == MatchElems(es, s, i)
  {
  }

  /** `\d{a}[./-]\d{b}[./-]\d{c}` matches `a + b + c + 2` characters, separated after `a` and `a + b + 1`. */
  lemma {:induction false} DateElemsMatch(a: nat, b: nat, c: nat, s: string, i: nat)
    requires MatchElems([Digits(a, a), Sep("./-"), Digits(b, b), Sep("./-"), Digits(c, c)], s, i).Some?
    ensures var e := MatchElems([Digits(a, a), Sep("./-"), Digits(b, b), Sep("./-"), Digits(c, c)], s, i).value;
      e == i + a + b + c + 2 && SeparatedAt(s[i..e], a, a + b + 1)
  {
    var es := [Digits(a, a), Sep("./-"), Digits(b, b), Sep("./-"), Digits(c, c)];
    var e := MatchElems(es, s, i).value;
    DigitsStep(es, s, i, a);
    var es1 := es[1..];
    assert es1 == [Sep("./-"), Digits(b, b), Sep("./-"), Digits(c, c)];
    SepStep(es1, s, i + a, "./-");
    var es2 := es1[1..];
    assert es2 == [Digits(b, b), Sep("./-"), Digits(c, c)];
    DigitsStep(es2, s, i + a + 1, b);
    var es3 := es2[1..];
    assert es3 == [Sep("./-"), Digits(c, c)];
    SepStep(es3, s, i + a + b + 1, "./-");
    var es4 := es3[1..];
    assert es4 == [Digits(c, c)];
    DigitsStep(es4, s, i + a + b + 2, c);
    assert es4[1..] == [];
    assert e == i + a + b + c + 2;
    var d := s[i..e];
    forall k | 0 <= k < |d| && k != a && k != a + b + 1 ensures IsDigit(d[k]) {
      assert d[k] == s[i + k];
      if k < a {
        assert s[i + k] == s[i..i + a][k];
      } else if k < a + b + 1 {
        assert s[i + k] == s[i + a + 1..i + a + 1 + b][k - a - 1];
      } else {
        assert s[i + k] == s[i + a + b + 2..i + a + b + 2 + c][k - a - b - 2];
      }
    }
  }

  /**
   * The matched date is ten characters of the text: `dd?dd?dddd` when the
   * day-first expression matches anywhere, `dddd?dd?dd` otherwise.
   */
  lemma DateMatchShape(text: string)
    ensures DateMatch(text).Some? ==> |DateMatch(text).value| == 10 && Includes(text, DateMatch(text).value)
    ensures Exec(DAY_FIRST, text).Some? ==> SeparatedAt(DateMatch(text).value, 2, 5)
    ensures Exec(DAY_FIRST, text).None? && DateMatch(text).Some? ==> SeparatedAt(DateMatch(text).value, 4, 7)
  {
    match Exec(DAY_FIRST, text)
    case Some(m) =>
      assert MatchAt(DAY_FIRST, text, m.start) == Some(m);
      DateElemsMatch(2, 2, 4, text, m.start);
      assert WordAt(text, m.start, DateMatch(text).value);
    case None =>
      match Exec(YEAR_FIRST, text)
      case Some(m) =>
        assert MatchAt(YEAR_FIRST, text, m.start) == Some(m);
        DateElemsMatch(4, 2, 2, text, m.start);
        assert WordAt(text, m.start, DateMatch(text).value);
      case None =>
  }

  /** `split` at the first separator. */
  lemma SplitAtFirst(s: string, c: char, k: nat)
    requires k < |s| && s[k] == c && c !in s[..k]
    ensures Split(s, c) == [s[..k]] + Split(s[k + 1..], c)
  {
    assert forall j :: 0 <= j < k ==> s[..k][j] == s[j];
    FirstIndexOfCharAt(s, c, k);
  }

  /** The digit runs of a separated date hold neither `/` nor `.`. */
  lemma NoSeparatorIn(d: string, p: nat, q: nat, c: char, a: nat, b: nat)
    requires SeparatedAt(d, p, q) && (c == '/' || c == '.')
    requires a <= b <= |d| && (b <= p || (p < a && b <= q) || q < a)
    ensures c !in d[a..b]
  {
    var v := d[a..b];
    assert forall k :: 0 <= k < |v| ==> v[k] == d[a + k];
  }

  /** The pieces of a separated date at a separator character that occurs twice. */
  lemma SplitSeparatedTwice(d: string, p: nat, q: nat, c: char)
    requires SeparatedAt(d, p, q) && (c == '/' || c == '.') && d[p] == c && d[q] == c
    ensures Split(d, c) == [d[..p], d[p + 1..q], d[q + 1..]]
  {
    NoSeparatorIn(d, p, q, c, 0, p);
    SplitAtFirst(d, c, p);
    SplitSeparatedTail(d, p, q, c);
  }

  /** After the first separator, the two remaining pieces. */
  lemma SplitSeparatedTail(d: string, p: nat, q: nat, c: char)
    requires SeparatedAt(d, p, q) && (c == '/' || c == '.') && d[q] == c
    ensures Split(d[p + 1..], c) == [d[p + 1..q], d[q + 1..]]
  {
    var u := d[p + 1..];
    assert u[..q - p - 1] == d[p + 1..q];
    assert u[q - p..] == d[q + 1..];
    NoSeparatorIn(d, p, q, c, p + 1, q);
    SplitAtFirst(u, c, q - p - 1);
    NoSeparatorIn(d, p, q, c, q + 1, |d|);
  }

  /** The pieces of a separated date at a separator character that occurs once, at `k`. */
  lemma SplitSeparatedOnce(d: string, p: nat, q: nat, c: char, k: nat)
    requires SeparatedAt(d, p, q) && (c == '/' || c == '.') && (k == p || k == q)
    requires d[k] == c && d[p + q - k] != c
    ensures Split(d, c) == [d[..k], d[k + 1..]]
  {
    if k == p {
      NoSeparatorIn(d, p, q, c, 0, p);
      SplitAtFirst(d, c, p);
      SeparatorOnlyAt(d, p, q, c, q, p + 1);
    } else {
      SeparatorOnlyAt(d, p, q, c, p, 0);
      SplitAtFirst(d, c, q);
      NoSeparatorIn(d, p, q, c, q + 1, |d|);
    }
  }

  /** With a different character at the one separator position `x`, a slice of the date starting at `a` has no `c`. */
  lemma SeparatorOnlyAt(d: string, p: nat, q: nat, c: char, x: nat, a: nat)
    requires SeparatedAt(d, p, q) && (c == '/' || c == '.')
    requires (x == p || x == q) && d[x] != c
    requires (a == 0 && x == p) || (a == p + 1 && x == q)
    ensures c !in d[a..if x == p then q else |d|]
  {
    var b := if x == p then q else |d|;
    var v := d[a..b];
    assert forall j :: 0 <= j < |v| ==> v[j] == d[a + j];
  }

  /**
   * A date with two equal separators `/` or `.` is re-ordered as third
   * piece, second piece, first piece; two dashes leave it as it is; two
   * different separators leave only two pieces, so the year prints as "undefined".
   */
  lemma RebuildSeparated(d: string, p: nat, q: nat)
    requires SeparatedAt(d, p, q)
    ensures d[p] == d[q] && d[p] != '-' ==>
      RebuildDate(d) == d[q + 1..] + "-" + PadStart(d[p + 1..q], 2, '0') + "-" + PadStart(d[..p], 2, '0')
    ensures d[p] == d[q] == '-' ==> RebuildDate(d) == d
    ensures d[p] != d[q] ==> |RebuildDate(d)| >= 10 && RebuildDate(d)[..10] == "undefined-"
  {
    assert d[p] in d && d[q] in d;
    if d[p] == d[q] && d[p] != '-' {
      var c := d[p];
      if c == '.' {
        assert forall k :: 0 <= k < |d| ==> d[k] != '/';
      }
      SplitSeparatedTwice(d, p, q, c);
    } else if d[p] == d[q] {
      assert forall k :: 0 <= k < |d| ==> d[k] != '/' && d[k] != '.';
    } else {
      MixedSeparators(d, p, q);
    }
  }

  lemma MixedSeparators(d: string, p: nat, q: nat)
    requires SeparatedAt(d, p, q) && d[p] != d[q]
    ensures |RebuildDate(d)| >= 10 && RebuildDate(d)[..10] == "undefined-"
  {
    assert d[p] in d && d[q] in d;
    var c := if d[p] == '/' || d[q] == '/' then '/' else '.';
    var k := if d[p] == c then p else q;
    if c == '.' {
      assert forall k :: 0 <= k < |d| ==> d[k] != '/';
    }
    SplitSeparatedOnce(d, p, q, c, k);
    assert RebuildDate(d) == Reorder(Split(d, c));
    TwoPiecesUndefined(Split(d, c));
  }

  /** Two pieces have no third one, so the re-ordered date starts with "undefined-". */
  lemma TwoPiecesUndefined(parts: seq<string>)
    requires |parts| == 2
    ensures |Reorder(parts)| >= 10 && Reorder(parts)[..10] == "undefined-"
  {
    assert PieceOr(parts, 2) == "undefined";
  }

  /**
   * The date of the receipt: the default without a match; `dd/mm/yyyy` and
   * `dd.mm.yyyy` become `yyyy-mm-dd`; `yyyy/mm/dd` and `yyyy.mm.dd` become
   * `dd-mm-yyyy`; a dash-only match is kept; mixed separators give "undefined-…".
   */
  lemma ReceiptDateCases(text: string)
    ensures DateMatch(text).None? ==> ReceiptDate(text) == DEFAULT_DATE
    ensures DateMatch(text).Some? ==> var d := DateMatch(text).value; var r := ReceiptDate(text);
      (SeparatedAt(d, 2, 5) && d[2] == d[5] && d[2] != '-' ==> r == d[6..] + "-" + d[3..5] + "-" + d[..2])
      && (SeparatedAt(d, 4, 7) && d[4] == d[7] && d[4] != '-' ==> r == d[8..] + "-" + d[5..7] + "-" + d[..4])
      && ((SeparatedAt(d, 2, 5) && d[2] == d[5] == '-') || (SeparatedAt(d, 4, 7) && d[4] == d[7] == '-') ==> r == d)
      && ((SeparatedAt(d, 2, 5) && d[2] != d[5]) || (SeparatedAt(d, 4, 7) && d[4] != d[7]) ==> |r| >= 10 && r[..10] == "undefined-")
  {
    if DateMatch(text).Some? {
      var d := DateMatch(text).value;
      DateMatchShape(text);
      DateRebuildCases(d);
    }
  }

  /** The cases of `RebuildDate` on the two ten-character shapes. */
  lemma DateRebuildCases(d: string)
    requires SeparatedAt(d, 2, 5) || SeparatedAt(d, 4, 7)
    requires |d| == 10
    ensures SeparatedAt(d, 2, 5) && d[2] == d[5] && d[2] != '-' ==> RebuildDate(d) == d[6..] + "-" + d[3..5] + "-" + d[..2]
    ensures SeparatedAt(d, 4, 7) && d[4] == d[7] && d[4] != '-' ==> RebuildDate(d) == d[8..] + "-" + d[5..7] + "-" + d[..4]
    ensures (SeparatedAt(d, 2, 5) && d[2] == d[5] == '-') || (SeparatedAt(d, 4, 7) && d[4] == d[7] == '-') ==> RebuildDate(d) == d
    ensures (SeparatedAt(d, 2, 5) && d[2] != d[5]) || (SeparatedAt(d, 4, 7) && d[4] != d[7]) ==>
      |RebuildDate(d)| >= 10 && RebuildDate(d)[..10] == "undefined-"
  {
    if SeparatedAt(d, 2, 5) {
      DayFirstRebuild(d);
    } else {
      YearFirstRebuild(d);
    }
  }

  lemma DayFirstRebuild(d: string)
    requires SeparatedAt(d, 2, 5) && |d| == 10
    ensures d[2] == d[5] && d[2] != '-' ==> RebuildDate(d) == d[6..] + "-" + d[3..5] + "-" + d[..2]
    ensures d[2] == d[5] == '-' ==> RebuildDate(d) == d
    ensures d[2] != d[5] ==> |RebuildDate(d)| >= 10 && RebuildDate(d)[..10] == "undefined-"
  {
    RebuildSeparated(d, 2, 5);
    if d[2] == d[5] && d[2] != '-' {
      assert PadStart(d[3..5], 2, '0') == d[3..5];
      assert PadStart(d[..2], 2, '0') == d[..2];
    }
  }

  lemma YearFirstRebuild(d: string)
    requires SeparatedAt(d, 4, 7) && |d| == 10
    ensures d[4] == d[7] && d[4] != '-' ==> RebuildDate(d) == d[8..] + "-" + d[5..7] + "-" + d[..4]
    ensures d[4] == d[7] == '-' ==> RebuildDate(d) == d
    ensures d[4] != d[7] ==> |RebuildDate(d)| >= 10 && RebuildDate(d)[..10] == "undefined-"
  {
    RebuildSeparated(d, 4, 7);
    if d[4] == d[7] && d[4] != '-' {
      assert PadStart(d[5..7], 2, '0') == d[5..7];
      assert PadStart(d[..4], 2, '0') == d[..4];
    }
  }

  // ---------------------------------------------------------------------------
  // Items

  /** The match of the price expression at `j`, from the end of the price token there. */
  lemma PriceMatchAt(s: string, j: nat)
    requires j <= |s|
    ensures MatchAt(Price, s, j) == (match PriceEnd(s, j) case Some(e) => Some(Match(j, e, j, e)) case None => None)
  {
  }

  /** The leftmost price of a line: the first index where a price token starts. */
  lemma LeftmostPrice(line: string)
    requires Exec(Price, line).Some?
    ensures var m := Exec(Price, line).value;
      m.lo == m.start && m.hi == m.end && PriceEnd(line, m.start) == Some(m.end)
      && IsPriceToken(line[m.start..m.end])
      && forall j :: 0 <= j < m.start ==> PriceEnd(line, j).None?
  {
    var m := Exec(Price, line).value;
    assert Exec(Price, line) == SearchFrom(Price, line, 0);
    PriceMatchAt(line, m.start);
    forall j | 0 <= j < m.start ensures PriceEnd(line, j).None? {
      PriceMatchAt(line, j);
    }
  }

  /**
   * The text of the leftmost price does not occur earlier in the line, so
   * removing the first occurrence of that text cuts out exactly the matched price.
   */
  lemma RemovesMatchedPrice(line: string)
    requires Exec(Price, line).Some?
    ensures var m := Exec(Price, line).value;
      ReplaceFirst(line, line[m.start..m.end], "") == line[..m.start] + line[m.end..]
  {
    var m := Exec(Price, line).value;
    LeftmostPrice(line);
    var t := line[m.start..m.end];
    forall j | 0 <= j < m.start ensures !WordAt(line, j, t) {
      PriceTokenAt(line, j, t);
    }
    IndexOfAt(line, t, 0, m.start);
  }

  /** A price token that occurs at `j` starts a price there. */
  lemma PriceTokenAt(s: string, j: nat, t: string)
    ensures WordAt(s, j, t) && IsPriceToken(t) ==> PriceEnd(s, j).Some?
  {
    if WordAt(s, j, t) && IsPriceToken(t) {
      PriceEndOfToken(s, j, |t|);
    }
  }

  /**
   * A line gives an item exactly when it holds a price and something other
   * than white space besides its leftmost price; the item has quantity 1,
   * that price, in hundredths, as unit and total price (`PriceTokenParse`
   * relates them to `parseFloat`), and the rest of the line as name.
   */
  lemma ItemOfLineSource(line: string)
    ensures ItemOfLine(line).Some? <==>
      Exec(Price, line).Some? && Trim(line[..Exec(Price, line).value.start] + line[Exec(Price, line).value.end..]) != []
    ensures ItemOfLine(line).Some? ==> var it := ItemOfLine(line).value; var m := Exec(Price, line).value;
      (forall j :: 0 <= j < m.start ==> PriceEnd(line, j).None?)
      && PriceEnd(line, m.start) == Some(m.end)
      && it.quantity == 1 && it.unitPrice == it.totalPrice
      && IsPriceToken(line[m.start..m.end]) && it.unitPrice == Cents(line[m.start..m.end])
      && it.productName == Trim(line[..m.start] + line[m.end..]) && it.productName != []
  {
    if Exec(Price, line).Some? {
      var m := Exec(Price, line).value;
      LeftmostPrice(line);
      RemovesMatchedPrice(line);
      ItemOfMatchSource(line, m);
    }
  }

  /** The item of a line whose leftmost price is `m`, once the price is known to be cut out exactly. */
  lemma ItemOfMatchSource(line: string, m: Match)
    requires WellFormed(m, line) && m.lo == m.start && m.hi == m.end && IsPriceToken(Captured(line, m))
    requires ReplaceFirst(line, line[m.start..m.end], "") == line[..m.start] + line[m.end..]
    ensures ItemOfMatch(line, m).Some? <==> Trim(line[..m.start] + line[m.end..]) != []
    ensures ItemOfMatch(line, m).Some? ==> var it := ItemOfMatch(line, m).value;
      it.quantity == 1 && it.unitPrice == it.totalPrice && it.unitPrice == Cents(line[m.start..m.end])
      && it.productName == Trim(line[..m.start] + line[m.end..])
  {
    assert Captured(line, m) == line[m.start..m.end];
  }

  /** Filtering the lines that hold a price first changes nothing: other lines give no item. */
  lemma {:induction false} ItemsOfAllLines(lines: seq<string>)
    ensures Items(lines) == Somes(LineItems(lines), 0, |lines|)
    decreases |lines|
  {
    if lines != [] {
      var n := |lines|;
      var init := lines[..n - 1];
      var l := lines[n - 1];
      var tail := if ItemOfLine(l).Some? then [ItemOfLine(l).value] else [];
      assert init + [l] == lines by { InitLast(lines); }
      calc {
        Items(lines);
        { ItemsSnoc(init, l); }
        Items(init) + tail;
        { ItemsOfAllLines(init); }
        Somes(LineItems(init), 0, |init|) + tail;
        { AllItemsSnoc(init, l); }
        Somes(LineItems(lines), 0, |lines|);
      }
    }
  }

  /** One more line adds its item, if any, to the items of the price lines. */
  lemma ItemsSnoc(init: seq<string>, l: string)
    ensures Items(init + [l]) == Items(init) + (if ItemOfLine(l).Some? then [ItemOfLine(l).value] else [])
  {
    if Exec(Price, l).Some? {
      ItemsSnocPriced(init, l);
    } else {
      ItemsSnocUnpriced(init, l);
    }
  }

  lemma ItemsSnocPriced(init: seq<string>, l: string)
    requires Exec(Price, l).Some?
    ensures Items(init + [l]) == Items(init) + (if ItemOfLine(l).Some? then [ItemOfLine(l).value] else [])
  {
    var pl := PriceLines(init);
    var x := ItemOfLine(l);
    assert PriceLines(init + [l]) == pl + [l] by { PriceLinesSnoc(init, l); }
    assert LineItems(pl + [l]) == LineItems(pl) + [x] by { LineItemsSnoc(pl, l); }
    SomesAppend(LineItems(pl), x);
  }

  lemma ItemsSnocUnpriced(init: seq<string>, l: string)
    requires Exec(Price, l).None?
    ensures Items(init + [l]) == Items(init) && ItemOfLine(l).None?
  {
    PriceLinesSnoc(init, l);
  }

  /** One more line adds its item, if any, to the items of all lines. */
  lemma AllItemsSnoc(init: seq<string>, l: string)
    ensures Somes(LineItems(init + [l]), 0, |init| + 1)
      == Somes(LineItems(init), 0, |init|) + (if ItemOfLine(l).Some? then [ItemOfLine(l).value] else [])
  {
    LineItemsSnoc(init, l);
    SomesOfSnoc(LineItems(init + [l]), LineItems(init), ItemOfLine(l));
  }

  lemma LineItemsSnoc(init: seq<string>, l: string)
    ensures LineItems(init + [l]) == LineItems(init) + [ItemOfLine(l)]
  {
    FrontOfSnoc(init, l);
  }

  lemma PriceLinesSnoc(init: seq<string>, l: string)
    ensures PriceLines(init + [l]) == PriceLines(init) + (if Exec(Price, l).Some? then [l] else [])
  {
    FrontOfSnoc(init, l);
  }

  /**
   * Each item comes from its own line, in line order, and every line that
   * gives an item contributes it: `SomeIndices` names the source line of each item.
   */
  lemma ItemsOrigin(lines: seq<string>)
    ensures var items := Items(lines); var ix := SomeIndices(LineItems(lines), 0, |lines|);
      |ix| == |items|
      && (forall k :: 0 <= k < |ix| ==> ix[k] < |lines| && ItemOfLine(lines[ix[k]]) == Some(items[k]))
      && (forall k, l :: 0 <= k < l < |ix| ==> ix[k] < ix[l])
      && (forall j :: 0 <= j < |lines| && ItemOfLine(lines[j]).Some? ==> j in ix)
  {
    ItemsOfAllLines(lines);
    SomesOrigin(LineItems(lines), 0, |lines|);
    forall j | 0 <= j < |lines| ensures LineItems(lines)[j] == ItemOfLine(lines[j]) {
      LineItemsAt(lines, j);
    }
  }
}
