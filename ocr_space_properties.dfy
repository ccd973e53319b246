/**
 * What the receipt-text extractor guarantees about the fields it returns:
 * where each one comes from, the bounds it obeys, and the shapes of product
 * line that can decide an item.
 */
module OcrSpaceProperties {
  import opened Wrappers
  import opened Text
  import opened Scans
  import opened ReceiptPatterns
  import opened OcrSpace

  // ---------------------------------------------------------------------------
  // Lines

  /** The result carries the text it was computed from. */
  lemma AnalysisKeepsText(text: string)
    ensures AnalyseReceipt(text).rawText == text
    ensures AnalyseReceipt(text).items == ZoneItems(NormalizeLines(text))
  {
  }

  // ---------------------------------------------------------------------------
  // Store name

  /** A candidate that JavaScript treats as false: no name, or the empty name. */
  predicate Falsy(c: Option<string>) {
    c.None? || c == Some([])
  }

  /**
   * The store-name scan returns the first non-empty candidate; when there is
   * none, it returns the empty name if some candidate was empty, else nothing.
   */
  lemma {:induction false} StoreNameScanResult(cs: seq<Option<string>>, i: nat, found: Option<string>)
    requires Falsy(found)
    ensures var r := StoreNameScan(cs, i, found);
      (!Falsy(r) ==> exists j :: i <= j < |cs| && cs[j] == r && forall k :: i <= k < j ==> Falsy(cs[k]))
      && (Falsy(r) ==> forall k :: i <= k < |cs| ==> Falsy(cs[k]))
      && (r.None? ==> found.None? && forall k :: i <= k < |cs| ==> cs[k].None?)
    decreases |cs| - i
  {
    if i < |cs| {
      match cs[i]
      case Some(x) =>
        if x == [] {
          StoreNameScanResult(cs, i + 1, Some(x));
        }
      case None =>
        StoreNameScanResult(cs, i + 1, found);
    }
  }

  /** The pattern, from `p` on, whose capture the cascade accepts. */
  function AcceptedStorePattern(line: string, p: nat): (q: nat)
    requires FirstStoreCapture(line, p).Some?
    ensures p <= q < STORE_PATTERN_COUNT
    decreases STORE_PATTERN_COUNT - p
  {
    match StoreCapture(p, line)
    case Some(c) => if 2 < |c| < 50 then p else AcceptedStorePattern(line, p + 1)
    case None => AcceptedStorePattern(line, p + 1)
  }

  /**
   * A line's name is the cleaned capture of a pattern, accepted because its
   * length lies strictly between 2 and 50.
   */
  lemma {:induction false} FirstStoreCaptureSource(line: string, p: nat)
    requires FirstStoreCapture(line, p).Some?
    ensures var q := AcceptedStorePattern(line, p); var c := StoreCapture(q, line);
      c.Some? && 2 < |c.value| < 50 && FirstStoreCapture(line, p).value == CleanStoreName(c.value)
    decreases STORE_PATTERN_COUNT - p
  {
    match StoreCapture(p, line)
    case Some(c) =>
      if !(2 < |c| < 50) {
        FirstStoreCaptureSource(line, p + 1);
      }
    case None =>
      FirstStoreCaptureSource(line, p + 1);
  }

  /**
   * The date-word pattern never gives a name: its capture must be followed
   * by a date word, and such a line is skipped.
   */
  lemma DateWordPatternIsDead(line: string)
    requires !SkipsStoreLine(line)
    ensures StoreCapture(4, line).None?
  {
    match LazyEnd(StoreRest(4), line, 0, 1)
    case Some(e) =>
      assert false;
    case None =>
  }

  /**
   * The store name comes from the first ten lines only: a non-empty name is
   * the candidate of the first of them whose candidate is non-empty, that
   * line is not skipped, and the name is a cleaned accepted capture.
   */
  lemma StoreNameSource(lines: seq<string>)
    ensures var r := StoreName(lines);
      !Falsy(r) ==> exists j :: (0 <= j < Min(10, |lines|) && StoreCandidate(lines[j]) == r
        && forall k :: 0 <= k < j ==> Falsy(StoreCandidate(lines[k])))
    ensures var r := StoreName(lines);
      Falsy(r) ==> forall k :: 0 <= k < Min(10, |lines|) ==> Falsy(StoreCandidate(lines[k]))
  {
    var head := lines[..Min(10, |lines|)];
    var cs := StoreCandidates(head);
    StoreNameScanResult(cs, 0, None);
    forall k | 0 <= k < |head|
      ensures cs[k] == StoreCandidate(lines[k])
    {
      StoreCandidatesAt(head, k);
    }
  }

  /**
   * A line's candidate comes from a line that is not skipped; it is trimmed,
   * and is the cleaned form of the first capture whose length lies strictly
   * between 2 and 50.
   */
  lemma StoreCandidateSource(line: string)
    requires StoreCandidate(line).Some?
    ensures !SkipsStoreLine(line)
    ensures Trim(StoreCandidate(line).value) == StoreCandidate(line).value
    ensures var c := StoreCapture(AcceptedStorePattern(line, 0), line);
      c.Some? && 2 < |c.value| < 50 && StoreCandidate(line).value == CleanStoreName(c.value)
  {
    FirstStoreCaptureSource(line, 0);
  }

  // ---------------------------------------------------------------------------
  // Date

  /**
   * The date is the date text of the earliest of the first fifteen lines
   * that has one, and it occurs in that line; no date means none of them has one.
   */
  lemma ReceiptDateSource(lines: seq<string>)
    ensures var d := ReceiptDate(lines);
      d.Some? ==> exists j :: (0 <= j < Min(15, |lines|) && LineDate(lines[j], 0) == d
        && Includes(lines[j], d.value) && forall k :: 0 <= k < j ==> LineDate(lines[k], 0).None?)
    ensures ReceiptDate(lines).None? ==> forall k :: 0 <= k < Min(15, |lines|) ==> LineDate(lines[k], 0).None?
  {
    var head := lines[..Min(15, |lines|)];
    var ds := LineDates(head);
    forall k | 0 <= k < |head|
      ensures ds[k] == LineDate(lines[k], 0)
    {
      LineDatesAt(head, k);
    }
  }

  // ---------------------------------------------------------------------------
  // Total

  /** Every total lies strictly between 0 and 10000 (in cents, 1000000). */
  lemma ReceiptTotalBound(lines: seq<string>)
    ensures ReceiptTotal(lines).Some? ==> 0 < ReceiptTotal(lines).value < TOTAL_LIMIT_CENTS
  {
    match FirstSome(PaymentLineTotals(lines), 0)
    case Some(c) =>
      var j :| 0 <= j < |lines| && PaymentLineTotals(lines)[j] == Some(c);
      PaymentLineTotalsAt(lines, j);
    case None =>
      var ts := LineTotals(lines);
      LastSomeSpec(ts, |lines|, BottomStart(lines));
      match LastSome(ts, |lines|, BottomStart(lines))
      case Some(c) =>
        var j :| BottomStart(lines) <= j < |lines| && ts[j] == Some(c);
        LineTotalsAt(lines, j);
      case None =>
  }

  /**
   * First pass: when some payment line gives a total, the total is that of
   * the first such line.
   */
  lemma ReceiptTotalFirstPass(lines: seq<string>, j: nat)
    requires j < |lines| && IsPaymentLine(lines[j]) && LineTotal(lines[j], 0).Some?
    requires forall k :: 0 <= k < j ==> PaymentLineTotal(lines[k]).None?
    ensures ReceiptTotal(lines) == LineTotal(lines[j], 0)
  {
    var ts := PaymentLineTotals(lines);
    PaymentLineTotalsAt(lines, j);
    forall k | 0 <= k < j
      ensures ts[k].None?
    {
      PaymentLineTotalsAt(lines, k);
    }
    FirstSomeAt(ts, 0, j);
  }

  /**
   * Second pass: when no payment line gives a total, the total is that of
   * the last of the last fifteen lines that gives one, and there is none
   * when none of them does.
   */
  lemma ReceiptTotalSecondPass(lines: seq<string>)
    requires forall k :: 0 <= k < |lines| ==> PaymentLineTotal(lines[k]).None?
    ensures var t := ReceiptTotal(lines);
      t.Some? ==> exists j :: (BottomStart(lines) <= j < |lines| && LineTotal(lines[j], 0) == t
        && forall k :: j < k < |lines| ==> LineTotal(lines[k], 0).None?)
    ensures ReceiptTotal(lines).None? ==> forall k :: BottomStart(lines) <= k < |lines| ==> LineTotal(lines[k], 0).None?
  {
    var ps := PaymentLineTotals(lines);
    forall k | 0 <= k < |lines|
      ensures ps[k].None?
    {
      PaymentLineTotalsAt(lines, k);
    }
    assert FirstSome(ps, 0).None?;
    var ts := LineTotals(lines);
    LastSomeSpec(ts, |lines|, BottomStart(lines));
    forall k | 0 <= k < |lines|
      ensures ts[k] == LineTotal(lines[k], 0)
    {
      LineTotalsAt(lines, k);
    }
  }

  /** The second pass starts at the first of the last fifteen lines. */
  lemma BottomStartBound(lines: seq<string>)
    ensures BottomStart(lines) <= |lines|
    ensures |lines| - BottomStart(lines) == Min(15, |lines|)
  {
  }

  // ---------------------------------------------------------------------------
  // Item zone

  /**
   * The zone starts among the first fifteen lines and ends at the first
   * footer line after its start, or at the end of the receipt.
   */
  lemma ZoneBounds(lines: seq<string>)
    ensures ZoneStart(lines) <= Min(15, |lines|)
    ensures ZoneStart(lines) <= ZoneEnd(lines) <= |lines|
    ensures ZoneEnd(lines) == |lines| || IsFooterLine(lines[ZoneEnd(lines)])
    ensures forall k :: ZoneStart(lines) <= k < ZoneEnd(lines) ==> !IsFooterLine(lines[k])
  {
    ZoneStartBound(lines);
  }

  /**
   * The start scan over line kinds: nothing before the start is product-like
   * unless a header follows it; the start is 0, follows a header or is
   * product-like; and when it is not product-like, the lines from it on are
   * neither headers nor product-like.
   */
  lemma {:induction false} ZoneStartScanSpec(kinds: seq<LineKind>, i: nat, start: nat)
    requires start <= i <= |kinds|
    requires start == 0 || kinds[start - 1] == Header
    requires forall k :: 0 <= k < i ==> kinds[k] != ProductLike
    requires forall k :: start <= k < i ==> kinds[k] != Header
    ensures var s := ZoneStartScan(kinds, i, start);
      start <= s <= |kinds|
      && (forall k :: 0 <= k < s ==> kinds[k] != ProductLike)
      && (s == 0 || kinds[s - 1] == Header || (s < |kinds| && kinds[s] == ProductLike))
      && ((s < |kinds| && kinds[s] == ProductLike) || forall k :: s <= k < |kinds| ==> kinds[k] == Other)
    decreases |kinds| - i
  {
    if i < |kinds| {
      match kinds[i]
      case Header => ZoneStartScanSpec(kinds, i + 1, i + 1);
      case ProductLike =>
      case Other => ZoneStartScanSpec(kinds, i + 1, start);
    }
  }

  /**
   * The zone start: no line before it could start the product list; it is
   * the first line, follows a header line or starts the list; and when it
   * does not start the list, no later line among the first fifteen is a
   * header or looks like a product.
   */
  lemma ZoneStartSpec(lines: seq<string>)
    ensures var s := ZoneStart(lines); var m := Min(15, |lines|);
      s <= m
      && (forall k :: 0 <= k < s ==> !IsProductStart(lines[k]))
      && (s == 0 || IsHeaderLine(lines[s - 1]) || (s < m && IsProductStart(lines[s])))
      && ((s < m && IsProductStart(lines[s]))
          || forall k :: s <= k < m ==> !IsHeaderLine(lines[k]) && !LooksLikeProductLine(lines[k]))
  {
    var kinds := LineKinds(lines[..Min(15, |lines|)]);
    ZoneStartScanSpec(kinds, 0, 0);
    ZoneKinds(lines);
  }

  /** The kinds the zone-start scan sees, in terms of the header and product tests. */
  lemma ZoneKinds(lines: seq<string>)
    ensures var kinds := LineKinds(lines[..Min(15, |lines|)]);
      forall k :: 0 <= k < |kinds| ==>
        (kinds[k] == ProductLike <==> IsProductStart(lines[k]))
        && (kinds[k] == Header <==> IsHeaderLine(lines[k]))
        && (kinds[k] == Other <==> !IsHeaderLine(lines[k]) && !LooksLikeProductLine(lines[k]))
  {
    var head := lines[..Min(15, |lines|)];
    forall k | 0 <= k < |head|
      ensures LineKinds(head)[k] == KindOf(lines[k])
    {
      LineKindsAt(head, k);
    }
    forall k | 0 <= k < |head|
      ensures (KindOf(lines[k]) == ProductLike <==> IsProductStart(lines[k]))
        && (KindOf(lines[k]) == Header <==> IsHeaderLine(lines[k]))
        && (KindOf(lines[k]) == Other <==> !IsHeaderLine(lines[k]) && !LooksLikeProductLine(lines[k]))
    {
      KindOfCases(lines[k]);
    }
  }

  /** The kind of a line in terms of the header and product tests. */
  lemma KindOfCases(line: string)
    ensures KindOf(line) == ProductLike <==> IsProductStart(line)
    ensures KindOf(line) == Header <==> IsHeaderLine(line)
    ensures KindOf(line) == Other <==> !IsHeaderLine(line) && !LooksLikeProductLine(line)
  {
  }

  /** The lines the items come from, in order. */
  function ItemLines(lines: seq<string>): seq<nat> {
    ZoneStartBound(lines);
    SomeIndices(LineItems(lines), ZoneStart(lines), ZoneEnd(lines))
  }

  /**
   * Each item comes from its own zone line, in input order; that line has at
   * least three characters, is not a header line and parses to the item; and
   * every such line of the zone gives its item.
   */
  lemma ZoneItemsOrigin(lines: seq<string>)
    ensures var items := ZoneItems(lines); var ix := ItemLines(lines);
      |ix| == |items|
      && (forall k :: 0 <= k < |ix| ==>
            (ZoneStart(lines) <= ix[k] < ZoneEnd(lines) && |lines[ix[k]]| >= 3
             && !IsHeaderLine(lines[ix[k]]) && ParseProductLine(lines[ix[k]]) == Some(items[k])))
      && (forall k, l :: 0 <= k < l < |ix| ==> ix[k] < ix[l])
      && (forall j :: (ZoneStart(lines) <= j < ZoneEnd(lines) && IsItemCandidate(lines[j])
            && ParseProductLine(lines[j]).Some?) ==> j in ix)
  {
    ZoneStartBound(lines);
    var xs := LineItems(lines);
    var s, e := ZoneStart(lines), ZoneEnd(lines);
    SomesOrigin(xs, s, e);
    forall j | s <= j < e
      ensures xs[j] == LineItem(lines[j])
    {
      LineItemsAt(lines, j);
    }
  }

  // ---------------------------------------------------------------------------
  // Product lines

  /** With all outcomes `NoMatch`, nothing is decided. */
  lemma {:induction false} FirstDecidedNone(outcomes: seq<ShapeOutcome>)
    requires forall k :: 0 <= k < |outcomes| ==> outcomes[k] == NoMatch
    ensures FirstDecided(outcomes) == None
    decreases |outcomes|
  {
    if outcomes != [] {
      FirstDecidedNone(outcomes[1..]);
    }
  }

  /** Outcomes after the first decided one do not matter. */
  lemma {:induction false} FirstDecidedPrefix(outcomes: seq<ShapeOutcome>, k: nat, n: nat)
    requires k < n <= |outcomes| && outcomes[k] != NoMatch
    ensures FirstDecided(outcomes) == FirstDecided(outcomes[..n])
    decreases k
  {
    if outcomes[0] == NoMatch {
      assert outcomes[..n][1..] == outcomes[1..][..n - 1];
      FirstDecidedPrefix(outcomes[1..], k - 1, n - 1);
    }
  }

  /** No item has a unit price without a quantity. */
  lemma UnitPriceHasQuantity(line: string)
    requires ParseProductLine(line).Some?
    ensures ParseProductLine(line).value.unitPrice.Some? ==> ParseProductLine(line).value.quantity.Some?
  {
  }

  /**
   * On a line without line terminators, whenever the leading-count
   * expression of shapes 3 and 4 matches, the name-and-price expression of
   * shape 2 matches too.
   */
  lemma CountMatchImpliesNamePrice(line: string)
    requires forall k :: 0 <= k < |line| ==> !IsLineTerminator(line[k])
    requires LeadingCountMatch(line).Some?
    ensures NamePriceShape(line) != NoMatch
  {
    var m := LeadingCountMatch(line).value;
    PriceEndTailIsPriceTail(line, m.nameHi, CURRENCY_WORDS);
    assert RestMatches(PriceTail(CURRENCY_WORDS), line, m.nameHi);
    LazyEndFinds(PriceTail(CURRENCY_WORDS), line, 0, m.nameHi);
  }

  /**
   * So shapes 3 and 4 never decide a line without line terminators: the
   * item is decided by shapes 1 and 2 alone.
   */
  lemma CountShapesNeverDecide(line: string)
    requires forall k :: 0 <= k < |line| ==> !IsLineTerminator(line[k])
    ensures ParseProductLine(line) == FirstDecided(LineShapes(line)[..2])
  {
    var o := LineShapes(line);
    if o[0] != NoMatch {
      FirstDecidedPrefix(o, 0, 2);
    } else if o[1] != NoMatch {
      FirstDecidedPrefix(o, 1, 2);
    } else {
      if LeadingCountMatch(line).Some? {
        CountMatchImpliesNamePrice(line);
      }
      assert o[2] == NoMatch && o[3] == NoMatch;
      FirstDecidedNone(o);
      FirstDecidedNone(o[..2]);
    }
  }

  /**
   * On a line without line terminators, an item without a quantity comes
   * from shape 2: its name has at least three characters and its price lies
   * in [0.10, 1000].
   */
  lemma ItemWithoutQuantityBounds(line: string)
    requires forall k :: 0 <= k < |line| ==> !IsLineTerminator(line[k])
    requires ParseProductLine(line).Some? && ParseProductLine(line).value.quantity.None?
    ensures |ParseProductLine(line).value.productName| >= 3
    ensures MIN_ITEM_CENTS <= ParseProductLine(line).value.totalPrice <= MAX_ITEM_CENTS
  {
    CountShapesNeverDecide(line);
    FirstTwoShapes(line);
    SecondDecidesWithoutQuantity(QuantityTimesPriceShape(line), NamePriceShape(line), ParseProductLine(line).value);
  }

  /** The first two outcomes are those of shapes 1 and 2. */
  lemma FirstTwoShapes(line: string)
    ensures LineShapes(line)[..2] == [QuantityTimesPriceShape(line), NamePriceShape(line)]
  {
  }

  /**
   * When the first of two outcomes always sets a quantity, an item without
   * one that the two decide is the second outcome's.
   */
  lemma SecondDecidesWithoutQuantity(first: ShapeOutcome, second: ShapeOutcome, it: ReceiptItem)
    requires first.Accepted? ==> first.item.quantity.Some?
    requires FirstDecided([first, second]) == Some(it) && it.quantity.None?
    ensures second == Accepted(it)
  {
    assert [first, second][1..] == [second];
  }
}
