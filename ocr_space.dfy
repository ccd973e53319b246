/**
 * The receipt-text extractor of the OCR service: from the text of a
 * scanned Bulgarian till receipt it picks a store name, a date, a total
 * and the purchased items.
 *
 * Each field is specified over the normalised lines (the
 * ordered cascades of regular expressions, first match wins); the methods
 * `ParseReceiptText` and `ExtractItems` perform the same scans with loops
 * and are proved to compute exactly those functions.
 *
 * Amounts are integer cents: every price expression has exactly two
 * decimals, and `PriceTokenParse` shows that this equals the parsed number.
 */
module OcrSpace {
  import opened Wrappers
  import opened Text
  import opened JsNumbers
  import opened ReceiptPatterns
  import opened Scans

  /** One purchased product. Prices in cents; the quantity may be fractional (a weight). */
  datatype ReceiptItem = ReceiptItem(
    productName: string,
    quantity: Option<real>,
    unitPrice: Option<nat>,
    totalPrice: nat)

  /** What the extractor finds in one receipt text. */
  datatype ReceiptAnalysisResult = ReceiptAnalysisResult(
    storeName: Option<string>,
    date: Option<string>,
    total: Option<nat>,
    items: seq<ReceiptItem>,
    rawText: string)

  function Min(a: nat, b: nat): nat {
    if a <= b then a else b
  }

  // ---------------------------------------------------------------------------
  // Store name

  /** A line with any of these (case-insensitively) never names the store. */
  const STORE_SKIP_WORDS: seq<string> :=
    ["ФИСКАЛЕН", "КАСА", "БОЛЕТ", "ЧЕК", "ДАТА", "ЧАС", "ВРЕМЕ", "ЕИК", "БУЛСТАТ"]
  const RECEIPT_WORDS: seq<string> := ["ФИСКАЛЕН", "КАСА", "БОЛЕТ", "ЧЕК", "ФИСК", "КВИТАНЦИЯ"]
  const TAX_ID_WORDS: seq<string> := ["ЕИК", "БУЛСТАТ", "ИНН"]
  const DATE_TIME_WORDS: seq<string> := ["ДАТА", "ЧАС", "ВРЕМЕ"]
  const LEADING_LEGAL_FORMS: seq<string> := ["ООД", "ЕООД", "АД", "ЕАД", "ООД-", "ЕООД-", "АД-", "ЕАД-"]
  const TRAILING_LEGAL_FORMS: seq<string> := ["ООД", "ЕООД", "АД", "ЕАД", "СДРУЖЕНИЕ", "КООПЕРАЦИЯ"]
  const STORE_PATTERN_COUNT: nat := 5

  /** The lines the store-name scan skips: they start with a digit or mention a receipt header word. */
  predicate SkipsStoreLine(line: string) {
    (|line| > 0 && IsDigit(line[0])) || MentionsCI(line, STORE_SKIP_WORDS)
  }

  /** `[A-Z\s&]` of a case-insensitive expression. */
  predicate IsNameChar(c: char) {
    ('A' <= Upper(c) <= 'Z') || IsSpace(c) || c == '&'
  }

  /** What a lazy store-name capture must be followed by, for patterns 1 to 4. */
  function StoreRest(p: nat): Rest
    requires 1 <= p < STORE_PATTERN_COUNT
  {
    if p == 1 then BeforeWords(RECEIPT_WORDS)
    else if p == 2 then BeforeWords(TAX_ID_WORDS)
    else if p == 3 then BeforeDigits(9)
    else BeforeWords(DATE_TIME_WORDS)
  }

  /**
   * Group 1 of store-name pattern `p` on `line`: pattern 0 is a whole line of
   * Latin letters, white space and '&'; the others are a lazy prefix that
   * stops before a receipt word, a tax-id word, nine digits or a date word.
   */
  function StoreCapture(p: nat, line: string): (r: Option<string>)
    requires p < STORE_PATTERN_COUNT
    ensures r.Some? ==> r.value != [] && Includes(line, r.value)
  {
    if p == 0 then
      if |line| > 0 && forall k :: 0 <= k < |line| ==> IsNameChar(line[k]) then
        assert WordAt(line, 0, line);
        Some(line)
      else None
    else
      match LazyEnd(StoreRest(p), line, 0, 1)
      case Some(e) =>
        assert WordAt(line, 0, line[..e]);
        Some(line[..e])
      case None => None
  }

  /** The accepted capture, trimmed, without one leading and one trailing legal form, trimmed. */
  function CleanStoreName(capture: string): (r: string)
    ensures Trim(r) == r
  {
    var u := StripLeadingWords(LEADING_LEGAL_FORMS, Trim(capture));
    var v := StripTrailingWords(TRAILING_LEGAL_FORMS, u);
    TrimIdempotent(v);
    Trim(v)
  }

  /**
   * Of the leading legal forms found at the start of a name, the first one
   * listed is cut off, together with the white space that follows it.
   */
  lemma LeadingFormStripped(t: string, j: nat)
    requires j < |LEADING_LEGAL_FORMS| && WordAtCI(t, 0, LEADING_LEGAL_FORMS[j])
    requires forall k :: 0 <= k < j ==> !WordAtCI(t, 0, LEADING_LEGAL_FORMS[k])
    ensures StripLeadingWords(LEADING_LEGAL_FORMS, t) == t[SpaceRunEnd(t, |LEADING_LEGAL_FORMS[j]|)..]
  {
    FirstWordAtIndex(t, 0, LEADING_LEGAL_FORMS, j);
  }

  /**
   * The forms with a hyphen are never the ones cut off: the same form
   * without the hyphen is listed earlier and occurs wherever they do, so the
   * hyphen stays in the name.
   */
  lemma HyphenatedFormsShadowed(t: string, j: nat)
    requires 4 <= j < |LEADING_LEGAL_FORMS| && WordAtCI(t, 0, LEADING_LEGAL_FORMS[j])
    ensures LEADING_LEGAL_FORMS[j] == LEADING_LEGAL_FORMS[j - 4] + "-"
    ensures WordAtCI(t, 0, LEADING_LEGAL_FORMS[j - 4])
  {
    var w := LEADING_LEGAL_FORMS[j];
    var v := LEADING_LEGAL_FORMS[j - 4];
    assert w == v + "-";
    assert forall i :: 0 <= i < |v| ==> w[i] == v[i];
  }

  /** A capture with no legal form at either end is only trimmed. */
  lemma PlainStoreName(capture: string)
    requires forall w | w in LEADING_LEGAL_FORMS :: !WordAtCI(Trim(capture), 0, w)
    requires forall k :: 0 <= k <= |Trim(capture)| ==> !WordsEndFrom(TRAILING_LEGAL_FORMS, Trim(capture), k)
    ensures CleanStoreName(capture) == Trim(capture)
  {
    var t := Trim(capture);
    assert FirstWordAt(t, 0, LEADING_LEGAL_FORMS).None?;
    assert StripLeadingWords(LEADING_LEGAL_FORMS, t) == t;
    assert StripTrailingWords(TRAILING_LEGAL_FORMS, t) == t;
    TrimIdempotent(capture);
  }

  /**
   * A capture that ends in white space and a trailing legal form loses that
   * suffix, from the leftmost place where such a suffix starts, when it has
   * no leading form; the rest is trimmed again.
   */
  lemma TrailingFormStoreName(capture: string, k: nat)
    requires forall w | w in LEADING_LEGAL_FORMS :: !WordAtCI(Trim(capture), 0, w)
    requires k <= |Trim(capture)| && WordsEndFrom(TRAILING_LEGAL_FORMS, Trim(capture), k)
    requires forall x :: 0 <= x < k ==> !WordsEndFrom(TRAILING_LEGAL_FORMS, Trim(capture), x)
    ensures CleanStoreName(capture) == Trim(Trim(capture)[..k])
  {
    var t := Trim(capture);
    var v := StripTrailingWords(TRAILING_LEGAL_FORMS, t);
    assert |v| == k;
  }

  /** The cleaned first capture, from pattern `p` on, whose length is strictly between 2 and 50. */
  function FirstStoreCapture(line: string, p: nat): (r: Option<string>)
    decreases STORE_PATTERN_COUNT - p
  {
    if p >= STORE_PATTERN_COUNT then None
    else match StoreCapture(p, line)
      case Some(c) =>
        if 2 < |c| < 50 then Some(CleanStoreName(c)) else FirstStoreCapture(line, p + 1)
      case None => FirstStoreCapture(line, p + 1)
  }

  /** The store name a single line proposes. */
  function StoreCandidate(line: string): Option<string> {
    if SkipsStoreLine(line) then None else FirstStoreCapture(line, 0)
  }

  /** The candidate of each line of `head`. */
  function StoreCandidates(head: seq<string>): (cs: seq<Option<string>>)
    ensures |cs| == |head|
  {
    if head == [] then [] else StoreCandidates(head[..|head| - 1]) + [StoreCandidate(head[|head| - 1])]
  }

  lemma {:induction false} StoreCandidatesAt(head: seq<string>, j: nat)
    requires j < |head|
    ensures StoreCandidates(head)[j] == StoreCandidate(head[j])
    decreases |head|
  {
    if j < |head| - 1 {
      StoreCandidatesAt(head[..|head| - 1], j);
    }
  }

  /**
   * The scan of the candidates from index `i` with the name found so far: it
   * stops at the first non-empty candidate; an empty one (a false value in
   * JavaScript) is kept but the scan goes on.
   */
  function StoreNameScan(cs: seq<Option<string>>, i: nat, found: Option<string>): Option<string>
    decreases |cs| - i
  {
    if i >= |cs| then found
    else match cs[i]
      case Some(x) => if x != [] then Some(x) else StoreNameScan(cs, i + 1, Some(x))
      case None => StoreNameScan(cs, i + 1, found)
  }

  /** One step of the scan: a non-empty candidate ends it, any other entry passes it on. */
  lemma StoreNameScanStep(cs: seq<Option<string>>, i: nat, found: Option<string>, c: Option<string>)
    requires i < |cs| && cs[i] == c
    ensures c.Some? && c.value != [] ==> StoreNameScan(cs, i, found) == c
    ensures !(c.Some? && c.value != []) ==>
      StoreNameScan(cs, i, found) == StoreNameScan(cs, i + 1, if c.Some? then c else found)
  {
  }

  /** The store name: the scan over the first ten lines. */
  function StoreName(lines: seq<string>): Option<string> {
    StoreNameScan(StoreCandidates(lines[..Min(10, |lines|)]), 0, None)
  }

  // ---------------------------------------------------------------------------
  // Date

  const DATE_PATTERN_COUNT: nat := 6
  const ANY_DATE_SEPARATOR: string := "/-."

  /** The six date expressions, in the order they are tried. */
  function DatePattern(k: nat): Pattern
    requires k < DATE_PATTERN_COUNT
  {
    if k == 0 then DateShape([Digits(1, 2), Sep(ANY_DATE_SEPARATOR), Digits(1, 2), Sep(ANY_DATE_SEPARATOR), Digits(4, 4)])
    else if k == 1 then DateShape([Digits(1, 2), Sep(ANY_DATE_SEPARATOR), Digits(1, 2), Sep(ANY_DATE_SEPARATOR), Digits(2, 2)])
    else if k == 2 then DateShape([Digits(4, 4), Sep(ANY_DATE_SEPARATOR), Digits(1, 2), Sep(ANY_DATE_SEPARATOR), Digits(1, 2)])
    else if k == 3 then DateShape([Digits(1, 2), Sep("."), Digits(1, 2), Sep("."), Digits(4, 4)])
    else if k == 4 then DateShape([Digits(1, 2), Sep("/"), Digits(1, 2), Sep("/"), Digits(4, 4)])
    else DateShape([Digits(1, 2), Sep("-"), Digits(1, 2), Sep("-"), Digits(4, 4)])
  }

  /** The date text of a line: the leftmost match of the first date pattern, from `k` on, that matches. */
  function LineDate(line: string, k: nat): (r: Option<string>)
    ensures r.Some? ==> Includes(line, r.value)
    decreases DATE_PATTERN_COUNT - k
  {
    if k >= DATE_PATTERN_COUNT then None
    else match Exec(DatePattern(k), line)
      case Some(m) =>
        assert WordAt(line, m.lo, Captured(line, m));
        Some(Captured(line, m))
      case None => LineDate(line, k + 1)
  }

  /** The date of each line of `head`. */
  function LineDates(head: seq<string>): (ds: seq<Option<string>>)
    ensures |ds| == |head|
  {
    if head == [] then [] else LineDates(head[..|head| - 1]) + [LineDate(head[|head| - 1], 0)]
  }

  lemma {:induction false} LineDatesAt(head: seq<string>, j: nat)
    requires j < |head|
    ensures LineDates(head)[j] == LineDate(head[j], 0)
    decreases |head|
  {
    if j < |head| - 1 {
      LineDatesAt(head[..|head| - 1], j);
    }
  }

  /** The receipt date: that of the first of the first fifteen lines that has one. */
  function ReceiptDate(lines: seq<string>): Option<string> {
    FirstSome(LineDates(lines[..Min(15, |lines|)]), 0)
  }

  // ---------------------------------------------------------------------------
  // Total

  const TOTAL_PATTERN_COUNT: nat := 6
  const TOTAL_WORDS_1: seq<string> := ["ОБЩО", "ТОТАЛ", "СУМА", "ВСИЧКО", "ЗА ПЛАЩАНЕ", "КРАЙНА СУМА", "ОБЩО ЗА ПЛАЩАНЕ"]
  const TOTAL_WORDS_2: seq<string> := ["ОБЩО", "ТОТАЛ", "СУМА", "ВСИЧКО", "ЗА ПЛАЩАНЕ", "КРАЙНА СУМА"]
  const TOTAL_WORDS_3: seq<string> := ["ОБЩО", "ТОТАЛ", "СУМА", "ВСИЧКО"]
  const CURRENCY_WORDS: seq<string> := ["ЛВ", "LV", "ЛЕВА"]
  /** The words that make a line a candidate of the first total pass. */
  const PAYMENT_WORDS: seq<string> := ["ЗА ПЛАЩАНЕ", "КРАЙНА СУМА", "ОБЩО ЗА ПЛАЩАНЕ", "ТОТАЛ", "ВСИЧКО"]
  /** A total is accepted when it lies strictly between 0 and 10000, i.e. 1000000 cents. */
  const TOTAL_LIMIT_CENTS: nat := 1000000

  /** The six total expressions, in the order they are tried; group 1 is always a price. */
  function TotalPattern(k: nat): (p: Pattern)
    requires k < TOTAL_PATTERN_COUNT
    ensures CapturesPrice(p)
  {
    if k == 0 then KeywordPrice(TOTAL_WORDS_1, [Spaces, Colons, Spaces])
    else if k == 1 then KeywordPrice(TOTAL_WORDS_2, [Spaces])
    else if k == 2 then KeywordPrice(TOTAL_WORDS_3, [Spaces, Equals, Spaces])
    else if k == 3 then KeywordPrice(["="], [Spaces])
    else if k == 4 then PriceUnit(CURRENCY_WORDS)
    else PriceAtEnd
  }

  /**
   * The total a line gives, in cents: the leftmost match of the first total
   * pattern, from `k` on, whose amount lies strictly between 0 and 10000; a
   * match out of bounds falls through to the next pattern.
   */
  function LineTotal(line: string, k: nat): (r: Option<nat>)
    ensures r.Some? ==> 0 < r.value < TOTAL_LIMIT_CENTS
    decreases TOTAL_PATTERN_COUNT - k
  {
    if k >= TOTAL_PATTERN_COUNT then None
    else match Exec(TotalPattern(k), line)
      case Some(m) =>
        var c := Cents(Captured(line, m));
        if 0 < c < TOTAL_LIMIT_CENTS then Some(c) else LineTotal(line, k + 1)
      case None => LineTotal(line, k + 1)
  }

  /** A line the first total pass looks at. */
  predicate IsPaymentLine(line: string) {
    MentionsCI(line, PAYMENT_WORDS)
  }

  /** The total each line gives. */
  function LineTotals(lines: seq<string>): (ts: seq<Option<nat>>)
    ensures |ts| == |lines|
  {
    if lines == [] then [] else LineTotals(lines[..|lines| - 1]) + [LineTotal(lines[|lines| - 1], 0)]
  }

  lemma {:induction false} LineTotalsAt(lines: seq<string>, j: nat)
    requires j < |lines|
    ensures LineTotals(lines)[j] == LineTotal(lines[j], 0)
    decreases |lines|
  {
    if j < |lines| - 1 {
      LineTotalsAt(lines[..|lines| - 1], j);
    }
  }

  /** The total a line gives to the first pass, which only looks at payment lines. */
  function PaymentLineTotal(line: string): Option<nat> {
    if IsPaymentLine(line) then LineTotal(line, 0) else None
  }

  function PaymentLineTotals(lines: seq<string>): (ts: seq<Option<nat>>)
    ensures |ts| == |lines|
  {
    if lines == [] then [] else PaymentLineTotals(lines[..|lines| - 1]) + [PaymentLineTotal(lines[|lines| - 1])]
  }

  lemma {:induction false} PaymentLineTotalsAt(lines: seq<string>, j: nat)
    requires j < |lines|
    ensures PaymentLineTotals(lines)[j] == PaymentLineTotal(lines[j])
    decreases |lines|
  {
    if j < |lines| - 1 {
      PaymentLineTotalsAt(lines[..|lines| - 1], j);
    }
  }

  /** Index of the first of the last fifteen lines. */
  function BottomStart(lines: seq<string>): nat {
    if |lines| >= 15 then |lines| - 15 else 0
  }

  /**
   * The receipt total in cents. First pass: the first payment line that
   * gives a total. Second pass, only when the first finds nothing: the last
   * of the last fifteen lines that gives one.
   */
  function ReceiptTotal(lines: seq<string>): Option<nat> {
    match FirstSome(PaymentLineTotals(lines), 0)
    case Some(c) => Some(c)
    case None => LastSome(LineTotals(lines), |lines|, BottomStart(lines))
  }

  // ---------------------------------------------------------------------------
  // Product lines

  /** `[A-Za-zА-Яа-я]`: ASCII and basic Cyrillic letters (not Ё/ё). */
  predicate IsBasicLetter(c: char) {
    ('A' <= c <= 'Z') || ('a' <= c <= 'z') || ('\U{410}' <= c <= '\U{44F}')
  }

  /** A line that has a price and a run of at least three letters. */
  predicate LooksLikeProductLine(line: string) {
    Exec(Price, line).Some?
    && exists i | 0 <= i && i + 3 <= |line| ::
         IsBasicLetter(line[i]) && IsBasicLetter(line[i + 1]) && IsBasicLetter(line[i + 2])
  }

  /**
   * A line looks like a product line exactly when some substring of it is a
   * price token `\d+[.,]\d{2}` and some three consecutive characters are letters.
   */
  lemma ProductLikeLine(line: string)
    ensures LooksLikeProductLine(line) <==>
      (exists lo, hi :: 0 <= lo <= hi <= |line| && IsPriceToken(line[lo..hi]))
      && (exists i | 0 <= i && i + 3 <= |line| ::
            IsBasicLetter(line[i]) && IsBasicLetter(line[i + 1]) && IsBasicLetter(line[i + 2]))
  {
    HasPriceToken(line);
  }

  /** The unanchored price search succeeds exactly when some substring is a price token. */
  lemma HasPriceToken(line: string)
    ensures Exec(Price, line).Some? <==> exists lo, hi :: 0 <= lo <= hi <= |line| && IsPriceToken(line[lo..hi])
  {
    var m := Exec(Price, line);
    if m.Some? {
      assert IsPriceToken(line[m.value.lo..m.value.hi]);
    }
    if exists lo, hi :: 0 <= lo <= hi <= |line| && IsPriceToken(line[lo..hi]) {
      var lo, hi :| 0 <= lo <= hi <= |line| && IsPriceToken(line[lo..hi]);
      PriceEndOfToken(line, lo, hi - lo);
      assert MatchAt(Price, line, lo).Some?;
    }
  }

  /** How one shape of product line applies: not at all, with a `null` result, or with an item. */
  datatype ShapeOutcome = NoMatch | Rejected | Accepted(item: ReceiptItem)

  /** Shape 1: name, quantity, `x`, unit price, `=`, total price. No bounds are checked. */
  function QuantityTimesPriceShape(line: string): (r: ShapeOutcome)
    ensures r != Rejected
    ensures r.Accepted? ==> r.item.quantity.Some? && r.item.unitPrice.Some?
    ensures r.Accepted? ==> Trim(r.item.productName) == r.item.productName
  {
    match LazyEnd(TimesTotalTail, line, 0, 1)
    case None => NoMatch
    case Some(e) =>
      var m := TimesTotalAt(line, e).value;
      TimesTotalTokens(line, e);
      TrimIdempotent(line[..e]);
      Accepted(ReceiptItem(
        Trim(line[..e]),
        Some(QuantityValue(line[m.qtyLo..m.qtyHi])),
        Some(Cents(line[m.unitLo..m.unitHi])),
        Cents(line[m.totalLo..m.totalHi])))
  }

  /** The lowest and highest price, in cents, that shape 2 accepts. */
  const MIN_ITEM_CENTS: nat := 10
  const MAX_ITEM_CENTS: nat := 100000

  /**
   * Shape 2: name and price ending the line, optionally followed by a currency
   * word. A name under three characters or a price outside [0.10, 1000]
   * rejects the line without trying the later shapes.
   */
  function NamePriceShape(line: string): (r: ShapeOutcome)
    ensures r.Accepted? ==> r.item.quantity.None? && r.item.unitPrice.None?
    ensures r.Accepted? ==> |r.item.productName| >= 3
    ensures r.Accepted? ==> MIN_ITEM_CENTS <= r.item.totalPrice <= MAX_ITEM_CENTS
    ensures r.Accepted? ==> Trim(r.item.productName) == r.item.productName
  {
    match LazyEnd(PriceTail(CURRENCY_WORDS), line, 0, 1)
    case None => NoMatch
    case Some(e) =>
      var span := PriceTailAt(line, e, CURRENCY_WORDS).value;
      var name := Trim(line[..e]);
      var c := Cents(line[span.lo..span.hi]);
      if |name| < 3 then Rejected
      else if c < MIN_ITEM_CENTS || c > MAX_ITEM_CENTS then Rejected
      else
        TrimIdempotent(line[..e]);
        Accepted(ReceiptItem(name, None, None, c))
  }

  /** The spans of `^(\d+)\s+(.+?)\s+(\d+[.,]\d{2})$`. */
  datatype CountLine = CountLine(countEnd: nat, nameLo: nat, nameHi: nat, priceLo: nat, priceHi: nat)

  /**
   * The lazy name of shapes 3 and 4, trying name starts `n`, `n-1`, ...,
   * `a+1`: when no name fits after the whole run of spaces, the `\s+` before
   * the name gives spaces back and the name starts earlier.
   */
  function CountNameFrom(line: string, a: nat, n: nat): (r: Option<CountLine>)
    requires n <= |line|
    ensures r.Some? ==> r.value.countEnd == a < r.value.nameLo < r.value.nameHi <= |line|
    ensures r.Some? ==> r.value.nameLo <= n
    ensures r.Some? ==> PriceEndTailAt(line, r.value.nameHi) == Some(Span(r.value.priceLo, r.value.priceHi))
    ensures r.Some? ==> DotsBetween(line, r.value.nameLo, r.value.nameHi)
    ensures r.Some? ==> forall x :: r.value.nameLo < x < r.value.nameHi ==> PriceEndTailAt(line, x).None?
    ensures r.Some? ==> forall m, x :: r.value.nameLo < m <= n && m < x && DotsBetween(line, m, x) ==>
      PriceEndTailAt(line, x).None?
    ensures r.None? ==> forall m, x :: a < m <= n && m < x && DotsBetween(line, m, x) ==>
      PriceEndTailAt(line, x).None?
    decreases n
  {
    if n <= a then None
    else
      var end := LazyEnd(PriceEndTail, line, n, n + 1);
      assert forall x: nat :: RestAt(PriceEndTail, line)(x) <==> PriceEndTailAt(line, x).Some?;
      if end.Some? then
        var span := PriceEndTailAt(line, end.value).value;
        Some(CountLine(a, n, end.value, span.lo, span.hi))
      else
        CountNameFrom(line, a, n - 1)
  }

  /** The first `n` characters of `line` exist and are all digits. */
  predicate DigitPrefix(line: string, n: nat) {
    n <= |line| && AllDigits(line[..n])
  }

  /** The match of `^(\d+)\s+(.+?)\s+(\d+[.,]\d{2})$`, shared by shapes 3 and 4. */
  function LeadingCountMatch(line: string): (r: Option<CountLine>)
    ensures r.Some? ==> 0 < r.value.countEnd < r.value.nameLo < r.value.nameHi <= |line|
    ensures r.Some? ==> DigitPrefix(line, r.value.countEnd)
    ensures r.Some? ==> PriceEndTailAt(line, r.value.nameHi) == Some(Span(r.value.priceLo, r.value.priceHi))
  {
    var a := DigitRunEnd(line, 0);
    if a == 0 then None
    else
      var b := SpaceRunEnd(line, a);
      assert forall k :: 0 <= k < a ==> line[..a][k] == line[k];
      if b == a then None else CountNameFrom(line, a, b)
  }

  /** Shape 3: leading count, name, price ending the line. */
  function CountNamePriceShape(line: string): (r: ShapeOutcome)
    ensures r != Rejected
    ensures r.Accepted? ==> r.item.quantity.Some? && r.item.unitPrice.None?
    ensures r.Accepted? ==> Trim(r.item.productName) == r.item.productName
  {
    match LeadingCountMatch(line)
    case None => NoMatch
    case Some(m) =>
      TrimIdempotent(line[m.nameLo..m.nameHi]);
      Accepted(ReceiptItem(
        Trim(line[m.nameLo..m.nameHi]),
        Some(DigitsValue(line[..m.countEnd]) as real),
        None,
        Cents(line[m.priceLo..m.priceHi])))
  }

  /** Shape 4: the same expression without capturing the leading number. */
  function CodeNamePriceShape(line: string): (r: ShapeOutcome)
    ensures r != Rejected
    ensures r.Accepted? ==> r.item.quantity.None? && r.item.unitPrice.None?
    ensures r.Accepted? ==> Trim(r.item.productName) == r.item.productName
  {
    match LeadingCountMatch(line)
    case None => NoMatch
    case Some(m) =>
      TrimIdempotent(line[m.nameLo..m.nameHi]);
      Accepted(ReceiptItem(Trim(line[m.nameLo..m.nameHi]), None, None, Cents(line[m.priceLo..m.priceHi])))
  }

  /** The first outcome that is not `NoMatch` decides. */
  function FirstDecided(outcomes: seq<ShapeOutcome>): (r: Option<ReceiptItem>)
    ensures r.Some? ==> exists k :: (0 <= k < |outcomes| && outcomes[k] == Accepted(r.value)
      && forall j :: 0 <= j < k ==> outcomes[j] == NoMatch)
  {
    if outcomes == [] then None
    else match outcomes[0]
      case NoMatch =>
        assert forall k :: 0 <= k < |outcomes| - 1 ==> outcomes[1..][k] == outcomes[k + 1];
        FirstDecided(outcomes[1..])
      case Rejected => None
      case Accepted(it) => Some(it)
  }

  /** The four shapes of a product line, in the order they are tried. */
  function LineShapes(line: string): seq<ShapeOutcome> {
    [QuantityTimesPriceShape(line), NamePriceShape(line), CountNamePriceShape(line), CodeNamePriceShape(line)]
  }

  /**
   * The item a product line describes, if any. Every shape trims the name,
   * and only the first shape reads a unit price, always with a quantity.
   */
  function ParseProductLine(line: string): (r: Option<ReceiptItem>)
    ensures r.Some? ==> Trim(r.value.productName) == r.value.productName
    ensures r.Some? && r.value.unitPrice.Some? ==> r.value.quantity.Some?
  {
    DecidedTidy(QuantityTimesPriceShape(line), NamePriceShape(line),
      CountNamePriceShape(line), CodeNamePriceShape(line));
    FirstDecided(LineShapes(line))
  }

  /** The item has a trimmed name, and a unit price only together with a quantity. */
  predicate TidyItem(it: ReceiptItem) {
    Trim(it.productName) == it.productName && (it.unitPrice.Some? ==> it.quantity.Some?)
  }

  /** When every shape gives only tidy items, so does the cascade of the four. */
  lemma DecidedTidy(a: ShapeOutcome, b: ShapeOutcome, c: ShapeOutcome, d: ShapeOutcome)
    requires a.Accepted? ==> TidyItem(a.item)
    requires b.Accepted? ==> TidyItem(b.item)
    requires c.Accepted? ==> TidyItem(c.item)
    requires d.Accepted? ==> TidyItem(d.item)
    ensures FirstDecided([a, b, c, d]).Some? ==> TidyItem(FirstDecided([a, b, c, d]).value)
  {
    var o := [a, b, c, d];
    var r := FirstDecided(o);
    if r.Some? {
      var k :| 0 <= k < |o| && o[k] == Accepted(r.value) && forall j :: 0 <= j < k ==> o[j] == NoMatch;
    }
  }

  // ---------------------------------------------------------------------------
  // Item zone

  /** Upper-cased, the line contains at least one of `words`. */
  predicate MentionsUpper(line: string, words: seq<string>) {
    exists w | w in words :: Includes(UpperString(line), w)
  }

  /** Words after which the product list is over. */
  const END_KEYWORDS: seq<string> := [
    "ОБЩО", "ТОТАЛ", "СУМА", "ВСИЧКО", "ЗА ПЛАЩАНЕ", "КРАЙНА СУМА",
    "МЕЖДИННА СУМА", "ПОДСУМА", "SUBTOTAL",
    "ДДС", "VAT", "ДАНЪК",
    "ПОЛУЧЕНА СУМА", "ПЛАТЕНО", "РЕСТО",
    "ФИСКАЛЕН", "КАСОВ", "БОЛЕТ"]

  /** Words of header lines, which are never products. */
  const SKIP_KEYWORDS: seq<string> := [
    "КАСА", "КАСИЕР", "ОПЕРАТОР",
    "ЕИК", "БУЛСТАТ", "ИНН", "ДДС", "МОЛ",
    "АДРЕС", "ТЕЛ", "ТЕЛЕФОН",
    "ДАТА", "ЧАС", "ВРЕМЕ",
    "ФИСКАЛНА ПАМЕТ", "ФИСКАЛНО УСТРОЙСТВО"]

  predicate IsHeaderLine(line: string) {
    MentionsUpper(line, SKIP_KEYWORDS)
  }

  predicate IsFooterLine(line: string) {
    MentionsUpper(line, END_KEYWORDS)
  }

  /** A line where the product list may begin. */
  predicate IsProductStart(line: string) {
    !IsHeaderLine(line) && LooksLikeProductLine(line)
  }

  /** How the zone-start scan sees a line: the header test comes first. */
  datatype LineKind = Header | ProductLike | Other

  function KindOf(line: string): LineKind {
    if IsHeaderLine(line) then Header
    else if LooksLikeProductLine(line) then ProductLike
    else Other
  }

  /** The kind of each line of `head`. */
  function LineKinds(head: seq<string>): (ks: seq<LineKind>)
    ensures |ks| == |head|
  {
    if head == [] then [] else LineKinds(head[..|head| - 1]) + [KindOf(head[|head| - 1])]
  }

  lemma {:induction false} LineKindsAt(head: seq<string>, j: nat)
    requires j < |head|
    ensures LineKinds(head)[j] == KindOf(head[j])
    decreases |head|
  {
    if j < |head| - 1 {
      LineKindsAt(head[..|head| - 1], j);
    }
  }

  /**
   * The scan for the first product line: a header line moves the start past
   * itself, a product-like line stops the scan there.
   */
  function ZoneStartScan(kinds: seq<LineKind>, i: nat, start: nat): nat
    decreases |kinds| - i
  {
    if i >= |kinds| then start
    else match kinds[i]
      case Header => ZoneStartScan(kinds, i + 1, i + 1)
      case ProductLike => i
      case Other => ZoneStartScan(kinds, i + 1, start)
  }

  /** Where the product list begins: the scan over the first fifteen lines. */
  function ZoneStart(lines: seq<string>): nat {
    ZoneStartScan(LineKinds(lines[..Min(15, |lines|)]), 0, 0)
  }

  /** The first footer line at or after `i`, or the number of lines. */
  function ZoneEndScan(lines: seq<string>, i: nat): (r: nat)
    ensures i <= |lines| ==> i <= r <= |lines|
    ensures forall k :: i <= k < r ==> k < |lines| && !IsFooterLine(lines[k])
    ensures r < |lines| ==> IsFooterLine(lines[r])
    ensures i > |lines| ==> r == i
    decreases |lines| - i
  {
    if i >= |lines| then i
    else if IsFooterLine(lines[i]) then i
    else ZoneEndScan(lines, i + 1)
  }

  function ZoneEnd(lines: seq<string>): nat {
    ZoneEndScan(lines, ZoneStart(lines))
  }

  /** A zone line the item parser is applied to: at least three characters and not a header. */
  predicate IsItemCandidate(line: string) {
    |line| >= 3 && !IsHeaderLine(line)
  }

  /** The item a zone line gives. */
  function LineItem(line: string): Option<ReceiptItem> {
    if IsItemCandidate(line) then ParseProductLine(line) else None
  }

  /** The item each line would give inside the zone. */
  function LineItems(lines: seq<string>): (xs: seq<Option<ReceiptItem>>)
    ensures |xs| == |lines|
  {
    if lines == [] then [] else LineItems(lines[..|lines| - 1]) + [LineItem(lines[|lines| - 1])]
  }

  lemma {:induction false} LineItemsAt(lines: seq<string>, j: nat)
    requires j < |lines|
    ensures LineItems(lines)[j] == LineItem(lines[j])
    decreases |lines|
  {
    if j < |lines| - 1 {
      LineItemsAt(lines[..|lines| - 1], j);
    }
  }

  /** The items of a receipt: those of the zone between the header and the footer, in order. */
  function ZoneItems(lines: seq<string>): seq<ReceiptItem> {
    ZoneStartBound(lines);
    Somes(LineItems(lines), ZoneStart(lines), ZoneEnd(lines))
  }

  lemma ZoneStartBound(lines: seq<string>)
    ensures ZoneStart(lines) <= Min(15, |lines|)
    ensures ZoneStart(lines) <= ZoneEnd(lines) <= |lines|
  {
    ZoneStartScanBound(LineKinds(lines[..Min(15, |lines|)]), 0, 0);
  }

  lemma {:induction false} ZoneStartScanBound(kinds: seq<LineKind>, i: nat, start: nat)
    requires start <= i <= |kinds|
    ensures start <= ZoneStartScan(kinds, i, start) <= |kinds|
    decreases |kinds| - i
  {
    if i < |kinds| {
      match kinds[i]
      case Header => ZoneStartScanBound(kinds, i + 1, i + 1);
      case ProductLike =>
      case Other => ZoneStartScanBound(kinds, i + 1, start);
    }
  }

  /** The whole analysis of a receipt text. */
  function AnalyseReceipt(text: string): ReceiptAnalysisResult {
    var lines := NormalizeLines(text);
    ReceiptAnalysisResult(StoreName(lines), ReceiptDate(lines), ReceiptTotal(lines), ZoneItems(lines), text)
  }

  // ---------------------------------------------------------------------------
  // The extractor, step by step

  /** One store-name pattern on one line: an accepted capture ends the cascade, anything else moves on. */
  method TryStorePattern(p: nat, line: string) returns (name: Option<string>)
    requires p < STORE_PATTERN_COUNT
    ensures name.Some? ==> FirstStoreCapture(line, p) == name
    ensures name.None? ==> FirstStoreCapture(line, p) == FirstStoreCapture(line, p + 1)
  {
    var capture := StoreCapture(p, line);
    if capture.Some? && 2 < |capture.value| < 50 {
      name := Some(CleanStoreName(capture.value));
    } else {
      name := None;
    }
  }

  /** The store-name pattern cascade on one line. */
  method StoreNameOfLine(line: string) returns (name: Option<string>)
    ensures name == FirstStoreCapture(line, 0)
  {
    name := None;
    var p := 0;
    while p < STORE_PATTERN_COUNT
      invariant 0 <= p <= STORE_PATTERN_COUNT
      invariant FirstStoreCapture(line, 0) == FirstStoreCapture(line, p)
      invariant name == None
    {
      var found := TryStorePattern(p, line);
      if found.Some? {
        name := found;
        break;
      }
      p := p + 1;
    }
  }

  /** The date pattern cascade on one line. */
  method DateOfLine(line: string) returns (date: Option<string>)
    ensures date == LineDate(line, 0)
  {
    date := None;
    var k := 0;
    while k < DATE_PATTERN_COUNT
      invariant 0 <= k <= DATE_PATTERN_COUNT
      invariant LineDate(line, 0) == LineDate(line, k)
      invariant date == None
    {
      var m := Exec(DatePattern(k), line);
      if m.Some? {
        date := Some(Captured(line, m.value));
        break;
      }
      k := k + 1;
    }
  }

  /** The total pattern cascade on one line, with the bound on the amount. */
  method TotalOfLine(line: string) returns (total: Option<nat>)
    ensures total == LineTotal(line, 0)
  {
    total := None;
    var k := 0;
    while k < TOTAL_PATTERN_COUNT
      invariant 0 <= k <= TOTAL_PATTERN_COUNT
      invariant LineTotal(line, 0) == LineTotal(line, k)
      invariant total == None
    {
      total := TryTotalPattern(k, line);
      if total.Some? {
        break;
      }
      k := k + 1;
    }
  }

  /** One total pattern on one line: its amount when in bounds, else nothing. */
  method TryTotalPattern(k: nat, line: string) returns (total: Option<nat>)
    requires k < TOTAL_PATTERN_COUNT
    ensures total.Some? ==> LineTotal(line, k) == total
    ensures total.None? ==> LineTotal(line, k) == LineTotal(line, k + 1)
  {
    var m := Exec(TotalPattern(k), line);
    total := None;
    if m.Some? {
      var price := Cents(Captured(line, m.value));
      if 0 < price < TOTAL_LIMIT_CENTS {
        total := Some(price);
      }
    }
  }

  /** The store-name scan over the first ten lines. */
  method StoreNameOfLines(lines: seq<string>) returns (storeName: Option<string>)
    ensures storeName == StoreName(lines)
  {
    storeName := None;
    var head := lines[..Min(10, |lines|)];
    ghost var cs := StoreCandidates(head);
    ghost var name := StoreNameScan(cs, 0, None);
    var i := 0;
    while i < |head|
      invariant 0 <= i <= |head|
      invariant storeName.Some? ==> storeName.value == []
      invariant name == StoreNameScan(cs, i, storeName)
    {
      var line := head[i];
      // a skipped line proposes nothing and cannot end the scan
      var candidate := None;
      if !SkipsStoreLine(line) {
        candidate := StoreNameOfLine(line);
      }
      StoreCandidatesAt(head, i);
      StoreNameScanStep(cs, i, storeName, candidate);
      if candidate.Some? {
        storeName := candidate;
      }
      if storeName.Some? && storeName.value != [] {
        break;
      }
      i := i + 1;
    }
  }

  /** The date scan over the first fifteen lines. */
  method DateOfLines(lines: seq<string>) returns (date: Option<string>)
    ensures date == ReceiptDate(lines)
  {
    date := None;
    var head := lines[..Min(15, |lines|)];
    ghost var ds := LineDates(head);
    var j := 0;
    while j < |head|
      invariant 0 <= j <= |head|
      invariant date == None
      invariant FirstSome(ds, 0) == FirstSome(ds, j)
    {
      date := DateOfLine(head[j]);
      LineDatesAt(head, j);
      if date.Some? {
        break;
      }
      j := j + 1;
    }
  }

  /** First pass of the total search: the payment lines, top down. */
  method PaymentTotalOf(lines: seq<string>) returns (total: Option<nat>)
    ensures total == FirstSome(PaymentLineTotals(lines), 0)
  {
    ghost var ts := PaymentLineTotals(lines);
    total := None;
    var k := 0;
    while k < |lines|
      invariant 0 <= k <= |lines|
      invariant total == None
      invariant FirstSome(ts, 0) == FirstSome(ts, k)
    {
      if IsPaymentLine(lines[k]) {
        total := TotalOfLine(lines[k]);
        PaymentLineTotalsAt(lines, k);
        if total.Some? {
          break;
        }
      } else {
        PaymentLineTotalsAt(lines, k);
      }
      k := k + 1;
    }
  }

  /** The total line `j` gives, read with the pattern cascade. */
  method TotalOfLineAt(lines: seq<string>, j: nat) returns (total: Option<nat>)
    requires j < |lines|
    ensures total == LineTotals(lines)[j]
  {
    total := TotalOfLine(lines[j]);
    LineTotalsAt(lines, j);
  }

  /** Second pass of the total search: the last fifteen lines, bottom up. */
  method BottomTotalOf(lines: seq<string>) returns (total: Option<nat>)
    ensures total == LastSome(LineTotals(lines), |lines|, BottomStart(lines))
  {
    ghost var ts := LineTotals(lines);
    var lo := BottomStart(lines);
    ghost var last := LastSome(ts, |ts|, lo);
    total := None;
    var hi := |lines|;
    while hi > lo && total.None?
      invariant lo <= hi <= |ts|
      invariant total.Some? ==> last == total
      invariant total.None? ==> last == LastSome(ts, hi, lo)
      decreases hi
    {
      var j := hi - 1;
      total := TotalOfLineAt(lines, j);
      LastSomeTop(ts, hi, lo, total);
      hi := j;
    }
  }

  /** The two passes of the total search; the second only when the first finds nothing. */
  method TotalOfLines(lines: seq<string>) returns (total: Option<nat>)
    ensures total == ReceiptTotal(lines)
  {
    total := PaymentTotalOf(lines);
    if total.None? {
      total := BottomTotalOf(lines);
    }
  }

  /** The extractor: store name, date, items and total of a receipt text. */
  method ParseReceiptText(text: string) returns (result: ReceiptAnalysisResult)
    ensures result == AnalyseReceipt(text)
  {
    var lines := NormalizeLines(text);
    var storeName := StoreNameOfLines(lines);
    var date := DateOfLines(lines);
    var items := ExtractItems(lines);
    var total := TotalOfLines(lines);
    result := ReceiptAnalysisResult(storeName, date, total, items, text);
  }

  /** Where the product list begins: after the header lines, at the first product-like line. */
  method FindZoneStart(lines: seq<string>) returns (startIndex: nat)
    ensures startIndex == ZoneStart(lines)
  {
    startIndex := 0;
    var head := lines[..Min(15, |lines|)];
    ghost var kinds := LineKinds(head);
    var i := 0;
    while i < |head|
      invariant 0 <= i <= |head|
      invariant ZoneStart(lines) == ZoneStartScan(kinds, i, startIndex)
    {
      var line := head[i];
      LineKindsAt(head, i);
      if IsHeaderLine(line) {
        startIndex := i + 1;
        i := i + 1;
        continue;
      }
      if LooksLikeProductLine(line) {
        startIndex := i;
        break;
      }
      i := i + 1;
    }
  }

  /** Where the product list ends: the first footer line from `startIndex` on. */
  method FindZoneEnd(lines: seq<string>, startIndex: nat) returns (endIndex: nat)
    requires startIndex <= |lines|
    ensures endIndex == ZoneEndScan(lines, startIndex)
  {
    endIndex := |lines|;
    var i := startIndex;
    while i < |lines|
      invariant startIndex <= i <= |lines|
      invariant ZoneEndScan(lines, startIndex) == ZoneEndScan(lines, i)
    {
      if IsFooterLine(lines[i]) {
        endIndex := i;
        break;
      }
      i := i + 1;
    }
  }

  /** The body of the item loop for line `i`: a short line or a header line gives no item. */
  method ItemOfLine(lines: seq<string>, i: nat) returns (item: Option<ReceiptItem>)
    requires i < |lines|
    ensures item == LineItems(lines)[i]
  {
    LineItemsAt(lines, i);
    var line := lines[i];
    if |line| < 3 {
      return None;
    }
    if IsHeaderLine(line) {
      return None;
    }
    item := ParseProductLine(line);
  }

  /** The item loop over `[startIndex, endIndex)`: the items of those lines, in order. */
  method CollectItems(lines: seq<string>, startIndex: nat, endIndex: nat) returns (items: seq<ReceiptItem>)
    requires startIndex <= endIndex <= |lines|
    ensures items == Somes(LineItems(lines), startIndex, endIndex)
  {
    ghost var xs := LineItems(lines);
    items := [];
    var i := startIndex;
    while i < endIndex
      invariant startIndex <= i <= endIndex
      invariant items == Somes(xs, startIndex, i)
    {
      SomesSnoc(xs, startIndex, i);
      var item := ItemOfLine(lines, i);
      if item.Some? {
        items := items + [item.value];
      }
      i := i + 1;
    }
  }

  /** The product lines between the header and the footer, parsed in order. */
  method ExtractItems(lines: seq<string>) returns (items: seq<ReceiptItem>)
    ensures items == ZoneItems(lines)
  {
    var startIndex := FindZoneStart(lines);
    ZoneStartBound(lines);
    var endIndex := FindZoneEnd(lines, startIndex);
    items := CollectItems(lines, startIndex, endIndex);
  }
}
