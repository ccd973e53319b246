/**
 * The fallback receipt-text parser of the Google Vision service: the shop is
 * the first line, the total follows the word "общо" or "total", the date is
 * the first `dd?dd?dddd` or `dddd?dd?dd` run, re-ordered, and every line with
 * a price gives one item named by what is left of the line.
 */
module GoogleVision {
  import opened Wrappers
  import opened Text
  import opened JsNumbers
  import opened ReceiptPatterns
  import opened Scans

  /** One purchased product; prices in hundredths. */
  datatype VisionItem = VisionItem(productName: string, quantity: nat, unitPrice: nat, totalPrice: nat)

  /** The parsed receipt; `None` stands for a field left `undefined`. */
  datatype VisionResult = VisionResult(
    shopName: string,
    date: string,
    time: Option<string>,
    items: seq<VisionItem>,
    totalAmount: JsNumber,
    vat: Option<real>,
    paymentMethod: Option<string>,
    suggestedCategory: string)

  const UNKNOWN_SHOP: string := "Неизвестен магазин"
  const DEFAULT_DATE: string := "2025-01-01"
  const DEFAULT_CATEGORY: string := "Храна"

  // ---------------------------------------------------------------------------
  // Shop name

  /** The first line, or the unknown-shop placeholder when there is no line or the first is empty. */
  function ShopName(lines: seq<string>): (r: string)
    ensures r != []
  {
    if |lines| > 0 && lines[0] != [] then lines[0] else UNKNOWN_SHOP
  }

  // ---------------------------------------------------------------------------
  // Total

  const TOTAL_WORD_BG: string := "общо"
  const TOTAL_WORD_EN: string := "total"

  /** The amount after the leftmost "общо" (any case), or else after the leftmost "total". */
  function TotalMatch(text: string): Option<Match> {
    match Exec(KeywordNumber(TOTAL_WORD_BG), text)
    case Some(m) => Some(m)
    case None => Exec(KeywordNumber(TOTAL_WORD_EN), text)
  }

  /** The captured amount, its first comma made a point, read by `parseFloat`; 0 without a match. */
  function TotalAmount(text: string): JsNumber {
    match TotalMatch(text)
    case None => Finite(0.0)
    case Some(m) => ParseFloat(ReplaceFirst(Captured(text, m), ",", "."))
  }

  /** The word `w`, case-insensitively, at `i`, then `[:\s]*`, then a `[\d.,]` character. */
  predicate KeywordAmountAt(text: string, i: nat, w: string) {
    WordAtCI(text, i, w)
    && var m := GapRunEnd(ColonsOrSpaces, text, i + |w|);
    m < |text| && IsNumberChar(text[m])
  }

  // ---------------------------------------------------------------------------
  // Date

  /** `(\d{2}[./-]\d{2}[./-]\d{4})` */
  const DAY_FIRST: Pattern := DateShape([Digits(2, 2), Sep("./-"), Digits(2, 2), Sep("./-"), Digits(4, 4)])
  /** `(\d{4}[./-]\d{2}[./-]\d{2})` */
  const YEAR_FIRST: Pattern := DateShape([Digits(4, 4), Sep("./-"), Digits(2, 2), Sep("./-"), Digits(2, 2)])

  /** The text of the first date expression that matches anywhere in the text. */
  function DateMatch(text: string): Option<string> {
    match Exec(DAY_FIRST, text)
    case Some(m) => Some(Captured(text, m))
    case None =>
      match Exec(YEAR_FIRST, text)
      case Some(m) => Some(Captured(text, m))
      case None => None
  }

  /** A destructured array element; a missing one prints as "undefined" in a template. */
  function PieceOr(parts: seq<string>, k: nat): string {
    if k < |parts| then parts[k] else "undefined"
  }

  /** The pieces `[day, month, year]` joined as year, month and day with '-', month and day padded to two digits. */
  function Reorder(parts: seq<string>): string
    requires |parts| >= 2
  {
    PieceOr(parts, 2) + "-" + PadStart(parts[1], 2, '0') + "-" + PadStart(parts[0], 2, '0')
  }

  /** What the date becomes for a matched date string. */
  function RebuildDate(d: string): string {
    if '/' in d then Reorder(Split(d, '/'))
    else if '.' in d then Reorder(Split(d, '.'))
    else d
  }

  function ReceiptDate(text: string): string {
    match DateMatch(text)
    case None => DEFAULT_DATE
    case Some(d) => RebuildDate(d)
  }

  // ---------------------------------------------------------------------------
  // Items

  /** The lines that hold a price token, in order. */
  function PriceLines(lines: seq<string>): (r: seq<string>)
    ensures |r| <= |lines|
    ensures forall l :: l in r ==> l in lines && Exec(Price, l).Some?
  {
    if lines == [] then []
    else
      var rest := PriceLines(lines[..|lines| - 1]);
      var l := lines[|lines| - 1];
      assert forall x :: x in lines[..|lines| - 1] ==> x in lines;
      if Exec(Price, l).Some? then rest + [l] else rest
  }

  /** The item of one line: the first price, and the line without it as the name. */
  function ItemOfLine(line: string): Option<VisionItem> {
    match Exec(Price, line)
    case None => None
    case Some(m) => ItemOfMatch(line, m)
  }

  /** The item of a line whose first price is `m`. */
  function ItemOfMatch(line: string, m: Match): Option<VisionItem>
    requires WellFormed(m, line) && IsPriceToken(Captured(line, m))
  {
    var price := Cents(Captured(line, m));
    var name := Trim(ReplaceFirst(line, line[m.start..m.end], ""));
    if name == [] then None else Some(VisionItem(name, 1, price, price))
  }

  /** The item of each line, in order. */
  function LineItems(lines: seq<string>): (r: seq<Option<VisionItem>>)
    ensures |r| == |lines|
  {
    if lines == [] then [] else LineItems(lines[..|lines| - 1]) + [ItemOfLine(lines[|lines| - 1])]
  }

  lemma LineItemsAt(lines: seq<string>, j: nat)
    requires j < |lines|
    ensures LineItems(lines)[j] == ItemOfLine(lines[j])
    decreases |lines|
  {
    var init := lines[..|lines| - 1];
    assert LineItems(lines) == LineItems(init) + [ItemOfLine(lines[|lines| - 1])];
    if j < |lines| - 1 {
      LineItemsAt(init, j);
      assert init[j] == lines[j];
    }
  }

  /** The items pushed by the `forEach` over the price lines. */
  function Items(lines: seq<string>): seq<VisionItem> {
    var itemLines := PriceLines(lines);
    Somes(LineItems(itemLines), 0, |itemLines|)
  }

  // ---------------------------------------------------------------------------
  // The whole result

  function ParseReceipt(text: string): (r: VisionResult)
    ensures r.shopName != []
    ensures r.time.None? && r.vat.None? && r.paymentMethod.None?
    ensures r.suggestedCategory == DEFAULT_CATEGORY
  {
    var lines := NormalizeLines(text);
    VisionResult(ShopName(lines), ReceiptDate(text), None, Items(lines), TotalAmount(text), None, None, DEFAULT_CATEGORY)
  }

  /** The `forEach` that pushes one item per price line with a non-empty name. */
  method ExtractItems(lines: seq<string>) returns (items: seq<VisionItem>)
    ensures items == Items(lines)
  {
    var itemLines := PriceLines(lines);
    ghost var xs := LineItems(itemLines);
    items := [];
    var i := 0;
    while i < |itemLines|
      invariant i <= |itemLines|
      invariant items == Somes(xs, 0, i)
    {
      SomesSnoc(xs, 0, i);
      LineItemsAt(itemLines, i);
      var line := itemLines[i];
      var priceMatch := Exec(Price, line);
      if priceMatch.Some? {
        var m := priceMatch.value;
        var price := Cents(Captured(line, m));
        var productName := Trim(ReplaceFirst(line, line[m.start..m.end], ""));
        if productName != [] {
          items := items + [VisionItem(productName, 1, price, price)];
        }
      }
      i := i + 1;
    }
  }

  /** `parseReceiptText`: the date is set by the default, then overwritten per separator. */
  method ParseReceiptText(text: string) returns (result: VisionResult)
    ensures result == ParseReceipt(text)
  {
    var lines := NormalizeLines(text);
    var shopName := ShopName(lines);
    var totalAmount := TotalAmount(text);
    var date := DEFAULT_DATE;
    var dateMatch := DateMatch(text);
    if dateMatch.Some? {
      var dateStr := dateMatch.value;
      if '/' in dateStr {
        date := Reorder(Split(dateStr, '/'));
      } else if '.' in dateStr {
        date := Reorder(Split(dateStr, '.'));
      } else {
        date := dateStr;
      }
    }
    var items := ExtractItems(lines);
    result := VisionResult(shopName, date, None, items, totalAmount, None, None, DEFAULT_CATEGORY);
  }
}
