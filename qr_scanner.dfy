/**
 * The QR-code reader of the scanner screen: a Bulgarian fiscal receipt code
 * is a `*`-separated payload `machine*number*date*time*total`; the reader
 * keeps the machine id as the store, the date verbatim and the parsed total,
 * and the screen stores the result only when the total is positive.
 */
module QrScanner {
  import opened Text
  import opened JsNumbers

  /** A purchased product as the receipt store takes it. */
  datatype LineItem = LineItem(productName: string, quantity: real, unitPrice: real, totalPrice: real)

  /** What `parseQRData` hands to the screen. */
  datatype QrReceipt = QrReceipt(storeName: string, date: string, total: JsNumber, items: seq<LineItem>)

  const FIELD_SEPARATOR: char := '*'
  const CASH_REGISTER: string := "Каса "
  const UNKNOWN_STORE: string := "Неизвестен магазин"

  /**
   * `parseQRData` on a string: five or more fields give a cash-register
   * receipt; anything else gives the empty fallback dated `today`, the
   * current UTC date the screen would read from the clock.
   */
  function ParseQrData(data: string, today: string): (r: QrReceipt)
    ensures r.items == []
    ensures r.storeName != []
  {
    var parts := Split(data, FIELD_SEPARATOR);
    if |parts| >= 5 then
      QrReceipt(CASH_REGISTER + parts[0], parts[2], ParseFloat(parts[4]), [])
    else
      QrReceipt(UNKNOWN_STORE, today, Finite(0.0), [])
  }

  /**
   * The save guard: a receipt is stored when its total compares greater than
   * zero as a JavaScript number, so NaN, minus infinity, zero (the fallback's
   * total) and negative totals are refused, and plus infinity passes.
   */
  function ShouldSave(r: QrReceipt): (b: bool)
    ensures r.total.NaN? || r.total.NegInfinity? ==> !b
    ensures r.total.PosInfinity? ==> b
    ensures r.total.Finite? ==> (b <==> r.total.value > 0.0)
  {
    match r.total
    case Finite(v) => v > 0.0
    case PosInfinity => true
    case _ => false
  }

  /**
   * A payload built from five or more separator-free fields is read field
   * by field: store from the first, date from the third, total from the fifth.
   */
  lemma QrOfFields(fields: seq<string>, today: string)
    requires |fields| >= 5
    requires forall f :: f in fields ==> FIELD_SEPARATOR !in f
    ensures ParseQrData(Join(fields, FIELD_SEPARATOR), today)
      == QrReceipt(CASH_REGISTER + fields[0], fields[2], ParseFloat(fields[4]), [])
  {
    SplitJoin(fields, FIELD_SEPARATOR);
  }

  /** The receipt number, the time and any field after the fifth do not matter. */
  lemma QrIgnoresOtherFields(a: seq<string>, b: seq<string>, today: string)
    requires |a| >= 5 && |b| >= 5
    requires forall f :: f in a ==> FIELD_SEPARATOR !in f
    requires forall f :: f in b ==> FIELD_SEPARATOR !in f
    requires a[0] == b[0] && a[2] == b[2] && a[4] == b[4]
    ensures ParseQrData(Join(a, FIELD_SEPARATOR), today) == ParseQrData(Join(b, FIELD_SEPARATOR), today)
  {
    QrOfFields(a, today);
    QrOfFields(b, today);
  }

  /**
   * Fewer than four separators give the fallback: unknown store, today's
   * date, total 0, no items; four or more give a cash-register store.
   */
  lemma QrFallback(data: string, today: string)
    ensures multiset(data)[FIELD_SEPARATOR] < 4 ==>
      ParseQrData(data, today) == QrReceipt(UNKNOWN_STORE, today, Finite(0.0), [])
    ensures multiset(data)[FIELD_SEPARATOR] >= 4 ==>
      var r := ParseQrData(data, today);
      |Split(data, FIELD_SEPARATOR)| >= 5
      && |r.storeName| >= |CASH_REGISTER| && r.storeName[..|CASH_REGISTER|] == CASH_REGISTER
      && r.date == Split(data, FIELD_SEPARATOR)[2]
  {
    SplitCount(data, FIELD_SEPARATOR);
    var parts := Split(data, FIELD_SEPARATOR);
    if |parts| >= 5 {
      assert (CASH_REGISTER + parts[0])[..|CASH_REGISTER|] == CASH_REGISTER;
    }
  }

  /** The fallback is never stored: whatever is stored came from a five-field payload. */
  lemma SavedOnlyFromFields(data: string, today: string)
    ensures ShouldSave(ParseQrData(data, today)) ==> multiset(data)[FIELD_SEPARATOR] >= 4
    ensures ShouldSave(ParseQrData(data, today)) ==>
      ParseFloat(Split(data, FIELD_SEPARATOR)[4]) == ParseQrData(data, today).total
  {
    SplitCount(data, FIELD_SEPARATOR);
  }

  /**
   * A total field written as digits, a point and digits is read as that
   * decimal number, and the receipt is stored exactly when it is positive.
   */
  lemma QrDecimalTotal(fields: seq<string>, today: string, d: string, f: string)
    requires |fields| >= 5
    requires forall x :: x in fields ==> FIELD_SEPARATOR !in x
    requires |d| > 0 && AllDigits(d) && AllDigits(f) && fields[4] == d + "." + f
    ensures var r := ParseQrData(Join(fields, FIELD_SEPARATOR), today);
      r.total == Finite(DecimalValue(d, f))
      && (ShouldSave(r) <==> DecimalValue(d, f) > 0.0)
  {
    QrOfFields(fields, today);
    DecimalLiteralParse(d, f);
  }
}
