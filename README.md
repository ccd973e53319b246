# Smart Spender receipt parsing, modelled in Dafny

Smart Spender is a React Native expense tracker. A photographed receipt goes
through an OCR service, and the recognised text is turned into a structured
receipt. That structure has a store name, a date, a total and a list of
purchased items. This project models the pure core of that pipeline and
proves what each part guarantees:

- **The OCR.space receipt-text extractor** (`ocrSpaceService.ts`). It splits
  the text into trimmed, non-empty lines and then runs four ordered regular
  expression cascades:
  - the store name, from the first 10 lines;
  - the date, from the first 15 lines;
  - the total, first from lines with a payment keyword and then bottom-up
    over the last 15 lines, accepted only when 0 < total < 10000;
  - the items, from a zone between the header lines and the first footer
    line, each line read by a four-shape line parser.
- **The Google Vision fallback parser** (`googleVisionAPI.ts`). The shop name
  is the first line. The total follows "общо" or "total". The date is
  re-ordered from `dd.mm.yyyy` or `dd/mm/yyyy`. Each line with a price gives
  one item.
- **The QR-code reader** of the scanner screen. It reads the `*`-separated
  Bulgarian fiscal-receipt payload, and the screen stores a receipt only
  when its total is positive.
- **The formatters**: truncating text, naming a month, appending a time, and
  the `YYYY-MM-DD` strings of a month's first and last day and of today.
- **The statistics helpers**: category percentages, average, month-end
  projection, budget usage and status, summing a field, and grouping by date.

Each JavaScript regular expression is hand-coded as a matcher over
`seq<char>` with the engine's backtracking semantics:

- an unanchored `match` finds the leftmost start;
- a lazy `(.+?)` ends at the shortest non-empty capture after which the rest
  matches, and never crosses a line terminator;
- `/i` and `toUpperCase` use a table covering ASCII and Cyrillic letters;
- `\s` and `trim` use JavaScript's white-space and line-terminator set.

`parseFloat` and `parseInt` are modelled over exact numbers (`JsNumbers`).
Every price expression is `\d+[.,]\d{2}`, so prices are kept as integer
hundredths. `ReceiptPatterns.PriceTokenParse` proves that the source's
`parseFloat(match.replace(',', '.'))` of such a token is exactly that
number of hundredths divided by 100.

The parts of the source that work step by step are methods, each proved
equal to a specification function:

- `parseReceiptText` with its store, date and two-phase total loops;
- `extractItems` with its start, end and collection loops;
- the Google Vision `forEach` and its re-assigned `date`;
- `groupByDate` building its `Map`.

The pure parts are functions. Lemmas state the properties.

Where the documented intent and the code differ, the model follows the code:

- The name-and-price item shape accepts prices from 0.10 to 1000 inclusive
  (`price < 0.10 || price > 1000` rejects).
- When that shape rejects a line, the line gives no item: it returns `null`
  instead of trying the next shape.
- The third and fourth item shapes can never decide a line that holds no
  line terminator. Every such line they match is already decided by the
  second shape (`OcrSpaceProperties.CountShapesNeverDecide`). So
  "1 Хляб 1.20" gives the item "1 Хляб" without a quantity.
- The store-name scan goes on past a line whose accepted capture strips to
  the empty string, because its stop test is truthiness. The result can
  therefore be the empty name.
- The fifth store-name pattern (text before ДАТА/ЧАС/ВРЕМЕ) can never match.
  Its keywords are in the skip test that every candidate line must pass
  first (`OcrSpaceProperties.DateWordPatternIsDead`).
- The payment-keyword trigger of the first total phase omits bare ОБЩО and
  СУМА, which the total patterns themselves accept.
- The hyphenated legal forms in the leading-form list are never the ones
  removed. The same form without the hyphen is listed earlier and matches
  first, so the hyphen stays at the start of the name
  (`OcrSpace.HyphenatedFormsShadowed`).

## Model

| member | source | states |
|---|---|---|
| OcrSpace.ParseReceiptText | smart-spender-app/src/services/ocrSpaceService.ts:87-192 | the loops of `parseReceiptText` compute exactly the analysis `AnalyseReceipt`: the store name, date, total and items the lemmas below describe, and the raw text |
| OcrSpaceProperties.AnalysisKeepsText | smart-spender-app/src/services/ocrSpaceService.ts:88-93 | `rawText` is the input verbatim and `items` are the zone items of the normalised lines |
| Text.NormalizedLine | smart-spender-app/src/services/ocrSpaceService.ts:93 | every normalised line is non-empty, already trimmed, free of line feeds, and the trimmed form of one of the `'\n'`-split pieces |
| Text.NonEmptyTrimmed | smart-spender-app/src/services/ocrSpaceService.ts:93 | the lines are at most as many as the pieces, and each is a non-empty trimmed piece |
| Text.TrimEach | smart-spender-app/src/services/ocrSpaceService.ts:93 | one trimmed piece per piece, at the same position |
| Text.NonEmptyAt | smart-spender-app/src/services/ocrSpaceService.ts:93 | the k-th kept line is the non-empty line at the k-th recorded position, and there are as many positions as kept lines |
| Text.NonEmptyIndicesIncrease | smart-spender-app/src/services/ocrSpaceService.ts:93 | the recorded positions of the kept lines strictly increase |
| Text.NonEmptyIndicesComplete | smart-spender-app/src/services/ocrSpaceService.ts:93 | every non-empty line has its position recorded, so none is dropped |
| Text.NonEmptyTrimmedOrigin | smart-spender-app/src/services/ocrSpaceService.ts:93 | the k-th line is the trimmed piece at the k-th recorded position; positions strictly increase, so the lines keep the pieces' order; every piece that does not trim to the empty string is kept |
| Text.NonEmptyTrimmedFirst | smart-spender-app/src/services/googleVisionAPI.ts:109-112 | the first line is the trimmed first piece that is not blank |
| Text.NonEmptyTrimmedNone | smart-spender-app/src/services/googleVisionAPI.ts:109-112 | when every piece is blank there are no lines |
| OcrSpace.StoreNameOfLines | smart-spender-app/src/services/ocrSpaceService.ts:104-120 | the store-name loop, with its `continue` and two `break`s, returns the store name of the first 10 lines |
| OcrSpace.StoreNameOfLine | smart-spender-app/src/services/ocrSpaceService.ts:109-118 | the pattern loop over one line returns the first pattern's cleaned capture whose length is accepted |
| OcrSpace.TryStorePattern | smart-spender-app/src/services/ocrSpaceService.ts:110-117 | one store pattern either gives the line's cleaned capture or passes the line on to the next pattern |
| OcrSpace.StoreCapture | smart-spender-app/src/services/ocrSpaceService.ts:96-102 | a store pattern's capture, when there is one, is non-empty and occurs in the line |
| OcrSpace.CleanStoreName | smart-spender-app/src/services/ocrSpaceService.ts:111-114 | the name left after removing the legal forms is trimmed |
| ReceiptPatterns.StripLeadingWords | smart-spender-app/src/services/ocrSpaceService.ts:112 | removing a leading legal form cuts off the first listed form found at the start, with the white space after it, and changes nothing when none is there |
| ReceiptPatterns.StripTrailingWords | smart-spender-app/src/services/ocrSpaceService.ts:113 | removing a trailing legal form cuts the name at the leftmost position from which white space and a listed form run to the end, and keeps the name whole when there is none |
| OcrSpace.LeadingFormStripped | smart-spender-app/src/services/ocrSpaceService.ts:112 | a name starting with a legal form loses the first listed form found there and the white space after it |
| OcrSpace.HyphenatedFormsShadowed | smart-spender-app/src/services/ocrSpaceService.ts:112 | a hyphenated form is never the one cut off: its unhyphenated form is listed earlier and is found wherever it is |
| OcrSpace.PlainStoreName | smart-spender-app/src/services/ocrSpaceService.ts:111-114 | a capture with no legal form at either end is only trimmed |
| OcrSpace.TrailingFormStoreName | smart-spender-app/src/services/ocrSpaceService.ts:111-114 | a capture with a trailing legal form and no leading one is cut at the leftmost place where the form's suffix starts, and trimmed |
| OcrSpaceProperties.StoreNameSource | smart-spender-app/src/services/ocrSpaceService.ts:104-120 | a non-empty store name is the candidate of the earliest of the first 10 lines whose candidate is non-empty; an empty or absent name means no line among them gave a non-empty one |
| OcrSpaceProperties.StoreNameScanResult | smart-spender-app/src/services/ocrSpaceService.ts:104-120 | the scan returns the first non-empty candidate; without one it returns the empty name if some candidate was empty, and nothing only if no line gave a capture |
| OcrSpaceProperties.StoreCandidateSource | smart-spender-app/src/services/ocrSpaceService.ts:105-115 | a line that gives a store name passes the skip test (no leading digit, no skip keyword); the name is trimmed and is the cleaned capture of a pattern whose capture is 3 to 49 characters long |
| OcrSpaceProperties.FirstStoreCaptureSource | smart-spender-app/src/services/ocrSpaceService.ts:109-116 | the capture of the accepted pattern is longer than 2 and shorter than 50 characters, and the name is that capture cleaned |
| OcrSpaceProperties.AcceptedStorePattern | smart-spender-app/src/services/ocrSpaceService.ts:109-111 | the index of the accepted pattern is one of the five, at or after the first one tried |
| OcrSpaceProperties.DateWordPatternIsDead | smart-spender-app/src/services/ocrSpaceService.ts:101-105 | on a line that passes the skip test, the pattern before ДАТА/ЧАС/ВРЕМЕ never captures |
| OcrSpace.DateOfLines | smart-spender-app/src/services/ocrSpaceService.ts:132-141 | the date loop returns the date of the first 15 lines |
| OcrSpace.DateOfLine | smart-spender-app/src/services/ocrSpaceService.ts:133-139 | the pattern loop over one line returns the capture of the first of the six date patterns that matches |
| OcrSpace.LineDate | smart-spender-app/src/services/ocrSpaceService.ts:123-139 | a date found in a line is a substring of that line |
| OcrSpaceProperties.ReceiptDateSource | smart-spender-app/src/services/ocrSpaceService.ts:123-141 | the date, when present, is a substring of the earliest of the first 15 lines with a date, and is that line's first pattern match; when absent, none of those lines has a date |
| OcrSpace.TotalPattern | smart-spender-app/src/services/ocrSpaceService.ts:147-154 | each of the six total patterns captures a `\d+[.,]\d{2}` price |
| OcrSpace.LineTotal | smart-spender-app/src/services/ocrSpaceService.ts:159-168 | a total read from a line lies strictly between 0 and 10000 (in hundredths: between 0 and 1000000) |
| OcrSpace.TotalOfLine | smart-spender-app/src/services/ocrSpaceService.ts:159-168 | the pattern loop over one line returns the line's total |
| OcrSpace.TryTotalPattern | smart-spender-app/src/services/ocrSpaceService.ts:160-167 | one total pattern either gives an accepted total or passes the line on to the next pattern |
| OcrSpace.PaymentTotalOf | smart-spender-app/src/services/ocrSpaceService.ts:157-171 | the first phase returns the total of the first payment-keyword line that has one |
| OcrSpace.TotalOfLineAt | smart-spender-app/src/services/ocrSpaceService.ts:176-186 | the body of the bottom-up loop reads the total of line `i` |
| OcrSpace.BottomTotalOf | smart-spender-app/src/services/ocrSpaceService.ts:174-189 | the second phase returns the total of the last line, among the last 15, that has one |
| OcrSpace.TotalOfLines | smart-spender-app/src/services/ocrSpaceService.ts:156-189 | the two phases together return the receipt total |
| OcrSpaceProperties.ReceiptTotalBound | smart-spender-app/src/services/ocrSpaceService.ts:157-189 | any total found satisfies 0 < total < 10000 |
| OcrSpaceProperties.ReceiptTotalFirstPass | smart-spender-app/src/services/ocrSpaceService.ts:157-171 | the total of the first payment-keyword line that has a total wins over every later line and over the second phase |
| OcrSpaceProperties.ReceiptTotalSecondPass | smart-spender-app/src/services/ocrSpaceService.ts:173-189 | when no payment line gives a total, the total is the one of the lowest line among the last 15 that has one, and absent only when none of them has one |
| OcrSpaceProperties.BottomStartBound | smart-spender-app/src/services/ocrSpaceService.ts:175 | the bottom-up pass covers exactly the last min(15, n) lines |
| OcrSpace.ExtractItems | smart-spender-app/src/services/ocrSpaceService.ts:197-266 | `extractItems` returns exactly the items of the zone lines |
| OcrSpace.FindZoneStart | smart-spender-app/src/services/ocrSpaceService.ts:218-236 | the start loop computes the zone start |
| OcrSpace.FindZoneEnd | smart-spender-app/src/services/ocrSpaceService.ts:239-245 | the end loop computes the first footer line at or after the start, or the line count |
| OcrSpace.ZoneEndScan | smart-spender-app/src/services/ocrSpaceService.ts:239-245 | the end is within the lines, no line from the start up to it is a footer line, and the line at the end, if any, is one |
| OcrSpace.CollectItems | smart-spender-app/src/services/ocrSpaceService.ts:248-263 | the collection loop pushes, in order, the item of each candidate zone line that parses |
| OcrSpace.ItemOfLine | smart-spender-app/src/services/ocrSpaceService.ts:249-262 | one iteration of the collection loop yields the item of line `i`, or none for a short line, a header line or an unparsed line |
| OcrSpaceProperties.ZoneBounds | smart-spender-app/src/services/ocrSpaceService.ts:218-245 | 0 ≤ start ≤ min(15, n), start ≤ end ≤ n, end is the first footer line at or after start, or n |
| OcrSpaceProperties.ZoneStartSpec | smart-spender-app/src/services/ocrSpaceService.ts:222-236 | no line before the start looks like a product line; the start follows a header line, or is a product-like line, or is 0; if it is neither, every line from it up to line 15 is neither header nor product-like |
| OcrSpaceProperties.ZoneStartScanSpec | smart-spender-app/src/services/ocrSpaceService.ts:222-236 | the start scan, from any point of the loop, keeps the loop's invariant and ends as described for the zone start |
| OcrSpaceProperties.ZoneKinds | smart-spender-app/src/services/ocrSpaceService.ts:226-235 | the classification of the first 15 lines is header exactly on header lines, product-like exactly on non-header lines with a price and three letters |
| OcrSpace.ProductLikeLine | smart-spender-app/src/services/ocrSpaceService.ts:271-277 | a line looks like a product line exactly when it holds a price token somewhere and three consecutive letters from A–Z, a–z or А–я (Ё and ё not among them) somewhere |
| OcrSpaceProperties.ZoneItemsOrigin | smart-spender-app/src/services/ocrSpaceService.ts:248-263 | each item comes from its own zone line, in input order; that line has at least 3 characters, no skip keyword and parses to the item; every such line of the zone contributes its item |
| OcrSpace.QuantityTimesPriceShape | smart-spender-app/src/services/ocrSpaceService.ts:290-301 | the first shape never rejects, and an item it gives has quantity and unit price set |
| OcrSpace.NamePriceShape | smart-spender-app/src/services/ocrSpaceService.ts:303-321 | an item of the second shape has no quantity or unit price, a name of at least 3 characters and a price from 0.10 to 1000 inclusive |
| OcrSpace.LeadingCountMatch | smart-spender-app/src/services/ocrSpaceService.ts:325-337 | a match of `^\d+\s+(.+?)\s+(\d+[.,]\d{2})$` has a leading digit run, a non-empty name, and a price that ends the line |
| OcrSpace.CountNameFrom | smart-spender-app/src/services/ocrSpaceService.ts:325-337 | the lazy name of the third and fourth shapes holds no line terminator, a price ends the line right after it, and no shorter name, from any start the leading `\d+\s+` could leave, is followed by a price that ends the line; without a name, no start and end have one |
| OcrSpace.CountNamePriceShape | smart-spender-app/src/services/ocrSpaceService.ts:323-333 | the third shape never rejects, and an item it gives has a quantity but no unit price |
| OcrSpace.CodeNamePriceShape | smart-spender-app/src/services/ocrSpaceService.ts:335-344 | the fourth shape never rejects, and an item it gives has neither quantity nor unit price |
| OcrSpace.ParseProductLine | smart-spender-app/src/services/ocrSpaceService.ts:282-347 | an item's name is trimmed, and an item with a unit price also has a quantity |
| OcrSpace.FirstDecided | smart-spender-app/src/services/ocrSpaceService.ts:282-346 | the line parser returns the item of the first shape that matches, provided every earlier shape did not match; a rejecting shape ends the cascade with no item |
| OcrSpaceProperties.FirstDecidedNone | smart-spender-app/src/services/ocrSpaceService.ts:346 | when no shape matches, the line gives no item |
| OcrSpaceProperties.FirstDecidedPrefix | smart-spender-app/src/services/ocrSpaceService.ts:282-346 | shapes after the first one that matches are never consulted |
| OcrSpaceProperties.UnitPriceHasQuantity | smart-spender-app/src/services/ocrSpaceService.ts:292-346 | no parsed item has a unit price without a quantity |
| OcrSpaceProperties.CountMatchImpliesNamePrice | smart-spender-app/src/services/ocrSpaceService.ts:305-337 | on a line without line terminators, every line the third or fourth pattern matches is matched by the second pattern |
| OcrSpaceProperties.CountShapesNeverDecide | smart-spender-app/src/services/ocrSpaceService.ts:282-347 | on a line without line terminators, the line parser's result is decided by the first two shapes alone |
| OcrSpaceProperties.ItemWithoutQuantityBounds | smart-spender-app/src/services/ocrSpaceService.ts:305-321 | on a line without line terminators, an item without quantity has a name of at least 3 characters and a price from 0.10 to 1000 |
| ReceiptPatterns.PriceEnd | smart-spender-app/src/services/ocrSpaceService.ts:273 | a match of `\d+[.,]\d{2}` is a price token ending three characters after the digit run it starts with |
| ReceiptPatterns.PriceTokenParse | smart-spender-app/src/services/ocrSpaceService.ts:162 | `parseFloat` of a price token with its comma replaced is its amount in hundredths divided by 100, so prices as integer hundredths lose nothing |
| ReceiptPatterns.QuantityTokenParse | smart-spender-app/src/services/ocrSpaceService.ts:297 | `parseFloat` of a quantity token with its comma replaced is its decimal value |
| ReceiptPatterns.SearchFrom | smart-spender-app/src/services/ocrSpaceService.ts:134 | an unanchored match starts at the leftmost index where the expression matches |
| ReceiptPatterns.LazyEnd | smart-spender-app/src/services/ocrSpaceService.ts:98 | a lazy `(.+?)` ends at the smallest end after which the rest matches, consuming no line terminator |
| GoogleVision.ParseReceiptText | smart-spender-app/src/services/googleVisionAPI.ts:107-164 | the method, with its re-assigned date and its item loop, returns exactly the parsed receipt |
| GoogleVision.ParseReceipt | smart-spender-app/src/services/googleVisionAPI.ts:154-163 | the shop name is never empty; time, VAT and payment method are undefined and the category is 'Храна' |
| GoogleVision.ShopName | smart-spender-app/src/services/googleVisionAPI.ts:112 | the shop name is never empty |
| GoogleVisionProperties.ShopNameSource | smart-spender-app/src/services/googleVisionAPI.ts:109-112 | the shop is the trimmed first line of the text that is not blank, and 'Неизвестен магазин' only when every line is blank |
| GoogleVisionProperties.TotalSource | smart-spender-app/src/services/googleVisionAPI.ts:115-116 | the total is 0 unless "общо" or "total" (any case) is followed by `[:\s]*` and a `[\d.,]` character; otherwise it is `parseFloat` of the run after the leftmost "общо", or after the leftmost "total" when there is no "общо" amount, with its first comma made a point |
| GoogleVisionProperties.KeywordMatchAt | smart-spender-app/src/services/googleVisionAPI.ts:115 | `w[:\s]*([\d.,]+)` matches at an index exactly when the word is there and an amount follows it, and captures that amount |
| GoogleVisionProperties.TotalRange | smart-spender-app/src/services/googleVisionAPI.ts:116 | the total is NaN or a non-negative number |
| GoogleVisionProperties.ParseNumberChars | smart-spender-app/src/services/googleVisionAPI.ts:116 | `parseFloat` of a non-empty run of digits, points and commas is NaN or non-negative |
| GoogleVisionProperties.DateMatchShape | smart-spender-app/src/services/googleVisionAPI.ts:119 | a date match is ten characters of the text, separated at positions 2 and 5 (day first) or 4 and 7 (year first) |
| GoogleVisionProperties.ReceiptDateCases | smart-spender-app/src/services/googleVisionAPI.ts:119-132 | the date is '2025-01-01' without a match; `dd/mm/yyyy` and `dd.mm.yyyy` become `yyyy-mm-dd`; `yyyy/mm/dd` and `yyyy.mm.dd` become `dd-mm-yyyy`; a dash-only match is kept; mixed separators give a date starting "undefined-" |
| GoogleVisionProperties.RebuildSeparated | smart-spender-app/src/services/googleVisionAPI.ts:123-131 | equal separators other than '-' give third piece, '-', second piece padded, '-', first piece padded; two dashes keep the string; different separators give a string starting "undefined-" |
| GoogleVisionProperties.SplitSeparatedTwice | smart-spender-app/src/services/googleVisionAPI.ts:123-128 | splitting a date at its separator, present twice, gives its three pieces |
| GoogleVisionProperties.MixedSeparators | smart-spender-app/src/services/googleVisionAPI.ts:123-128 | a date with two different separators is rebuilt into a string starting "undefined-" |
| GoogleVision.PriceLines | smart-spender-app/src/services/googleVisionAPI.ts:136 | the price lines are input lines, each holding a price, at most as many as the lines |
| GoogleVision.ExtractItems | smart-spender-app/src/services/googleVisionAPI.ts:138-152 | the `forEach` pushes exactly the items of the price lines, in order |
| GoogleVisionProperties.ItemOfLineSource | smart-spender-app/src/services/googleVisionAPI.ts:139-150 | a line gives an item exactly when it holds a price and something besides its leftmost price; the item has quantity 1, the leftmost price as unit and total price, and the trimmed rest of the line as its non-empty name |
| GoogleVisionProperties.RemovesMatchedPrice | smart-spender-app/src/services/googleVisionAPI.ts:142 | `line.replace(price, '')` removes exactly the matched leftmost price, because that text occurs nowhere earlier in the line |
| GoogleVisionProperties.LeftmostPrice | smart-spender-app/src/services/googleVisionAPI.ts:139 | the first price of a line starts at the first index where a price token starts |
| GoogleVisionProperties.ItemsOfAllLines | smart-spender-app/src/services/googleVisionAPI.ts:136-152 | filtering the price lines first changes nothing: the items are those of all lines |
| GoogleVisionProperties.ItemsSnoc | smart-spender-app/src/services/googleVisionAPI.ts:138-152 | one more line adds its item, if any, at the end |
| GoogleVisionProperties.ItemsOrigin | smart-spender-app/src/services/googleVisionAPI.ts:136-152 | each item comes from its own line, in line order, and every line that gives an item contributes it |
| QrScanner.ParseQrData | smart-spender-app/src/screens/Scanner/QRScannerScreen.tsx:81-107 | a string payload never yields items and always yields a store name |
| QrScanner.QrOfFields | smart-spender-app/src/screens/Scanner/QRScannerScreen.tsx:83-97 | a payload of five or more `*`-free fields gives store 'Каса ' + first field, date = third field, total = `parseFloat` of the fifth, no items |
| QrScanner.QrIgnoresOtherFields | smart-spender-app/src/screens/Scanner/QRScannerScreen.tsx:86-95 | the receipt number, the time and any field after the fifth do not affect the result |
| QrScanner.QrFallback | smart-spender-app/src/screens/Scanner/QRScannerScreen.tsx:83-107 | fewer than four `*` give 'Неизвестен магазин', today's date, total 0 and no items; four or more give a 'Каса ' store and the third field as date |
| QrScanner.ShouldSave | smart-spender-app/src/screens/Scanner/QRScannerScreen.tsx:32 | the guard `total > 0` refuses NaN, minus infinity, zero and negative totals, passes plus infinity, and passes a finite total exactly when it is positive |
| QrScanner.SavedOnlyFromFields | smart-spender-app/src/screens/Scanner/QRScannerScreen.tsx:32 | a receipt that passes the `total > 0` guard came from a payload with at least five fields, and its total is the fifth field parsed |
| QrScanner.QrDecimalTotal | smart-spender-app/src/screens/Scanner/QRScannerScreen.tsx:82-95 | a total field `digits.digits` is read as that decimal number, and the receipt is stored exactly when it is positive |
| Formatters.TruncateText | smart-spender-app/src/utils/formatters.ts:79-82 | text that fits is returned unchanged; with maxLength ≥ 3 longer text becomes its first maxLength-3 characters and "...", exactly maxLength long; with a smaller maxLength it becomes "..." |
| Formatters.TruncateFits | smart-spender-app/src/utils/formatters.ts:79-82 | with maxLength ≥ 3 the result always fits, truncating twice is truncating once, and longer text is always changed |
| Formatters.FormatDateTime | smart-spender-app/src/utils/formatters.ts:24-30 | the formatted date always comes first; " в " and the time follow exactly when a non-empty time is given |
| Formatters.MonthName | smart-spender-app/src/utils/formatters.ts:34-40 | the name is one of the twelve Bulgarian month names, or "undefined" exactly when the month is not a number from 1 to 12 |
| Formatters.FormatMonthParts | smart-spender-app/src/utils/formatters.ts:32-41 | the result ends in a space and the year piece; before them stands a month name or "undefined", "undefined" exactly when the month piece is not a number from 1 to 12 |
| Formatters.FormatMonthNoDash | smart-spender-app/src/utils/formatters.ts:32-41 | a string without '-' has no month piece and prints as "undefined", a space and the string itself |
| Formatters.FormatMonthOf | smart-spender-app/src/utils/formatters.ts:32-41 | `YYYY-MM` with a month from 1 to 12, padded or not, gives the Bulgarian month name, a space and the year; further '-' pieces are ignored |
| Formatters.TwoDigits | smart-spender-app/src/utils/formatters.ts:60-66 | a padded number is all digits, exactly two of them below 100 |
| Formatters.TwoDigitsValue | smart-spender-app/src/utils/formatters.ts:60-66 | a zero-padded number below 100 reads back as itself |
| Formatters.DaysInMonth | smart-spender-app/src/utils/formatters.ts:56 | a month has 28 to 31 days; February has 29 exactly in Gregorian leap years |
| Formatters.YearLength | smart-spender-app/src/utils/formatters.ts:56 | the twelve month lengths add up to 366 in a leap year and 365 otherwise |
| Formatters.LastDayIsMonthLength | smart-spender-app/src/utils/formatters.ts:53-58 | the last day `getMonthEnd` prints is 28 to 31 and the length of the month, except February of year 0, which the `Date` constructor reads as 1900 |
| Formatters.GetMonthEnd | smart-spender-app/src/utils/formatters.ts:53-58 | the month end shares the year and month with the month start and ends in the last day of the month |
| Formatters.GetMonthStart | smart-spender-app/src/utils/formatters.ts:47-51 | the month start is the year followed by exactly six characters |
| Formatters.MonthStartName | smart-spender-app/src/utils/formatters.ts:32-51 | `formatMonth` of a month start names that month of that year |
| Formatters.GetToday | smart-spender-app/src/utils/formatters.ts:60-66 | today's string is the year followed by exactly six characters |
| Formatters.TodayRoundTrip | smart-spender-app/src/utils/formatters.ts:60-66 | today's string splits at '-' into year, month and day, and `parseInt` reads each number back |
| Formatters.TodayOnFirst | smart-spender-app/src/utils/formatters.ts:47-66 | on the first of the month `getToday` equals `getMonthStart` |
| Formatters.TodayOnLast | smart-spender-app/src/utils/formatters.ts:53-66 | on the last day of the month `getToday` equals `getMonthEnd` |
| Formatters.TodayMonthName | smart-spender-app/src/utils/formatters.ts:32-41 | `formatMonth` of today's date names the current month and year |
| JsNumbers.ParseIntNatToString | smart-spender-app/src/utils/formatters.ts:39 | `parseInt` reads back a rendered natural number |
| JsNumbers.DecimalLiteralParse | smart-spender-app/src/screens/Scanner/QRScannerScreen.tsx:90 | `parseFloat` of `digits.digits` is that decimal number |
| Calculations.CalculateCategoryPercentages | smart-spender-app/src/utils/calculations.ts:3-13 | one entry per category, in order, with its category and total and count 0; percentage 0 when the grand total is not positive, and between 0 and 100 for a part of the grand total |
| Calculations.SharesAddUp | smart-spender-app/src/utils/calculations.ts:7-12 | the percentages add up to the categories' total as a percentage of the grand total |
| Calculations.SharesAddUpToHundred | smart-spender-app/src/utils/calculations.ts:7-12 | when the grand total is the sum of the categories, the percentages add up to 100 |
| Calculations.CalculateAverage | smart-spender-app/src/utils/calculations.ts:15-19 | 0 for no values; otherwise the average times the count is the sum |
| Calculations.AverageBounds | smart-spender-app/src/utils/calculations.ts:15-19 | the average of values that all lie in [lo, hi] lies in [lo, hi] |
| Calculations.CalculateMonthlyProjection | smart-spender-app/src/utils/calculations.ts:21-29 | 0 with no days elapsed; otherwise the projection is the daily rate so far times the days of the month; the current total at the end of the month; never below a non-negative current total part-way through |
| Calculations.CalculateBudgetUsage | smart-spender-app/src/utils/calculations.ts:31-34 | 0 for a zero budget; otherwise usage times budget is spent times 100 |
| Calculations.GetBudgetStatus | smart-spender-app/src/utils/calculations.ts:36-45 | a zero budget is safe; for a positive budget, safe exactly below 75% of it, warning exactly from 75% up to the budget, danger exactly from the budget on; for a negative budget, where the usage thresholds flip the comparisons, safe exactly above 75% of it, warning exactly from the budget (exclusive) up to 75% of it, danger exactly at or below the budget |
| Calculations.SumBy | smart-spender-app/src/utils/calculations.ts:60-62 | items that all lack the field sum to 0, and non-negative fields give a non-negative sum |
| Calculations.SumByAppend | smart-spender-app/src/utils/calculations.ts:60-62 | the sum over two lists is the sum of their sums, and items without the field add nothing |
| Calculations.GroupByDate | smart-spender-app/src/utils/calculations.ts:47-58 | the keys are exactly the dates that occur, and each date's group is the records with that date in input order |
| Calculations.GroupStep | smart-spender-app/src/utils/calculations.ts:52-55 | one `set` of the loop keeps the grouping invariant for the records seen so far |
| Calculations.GroupOrigin | smart-spender-app/src/utils/calculations.ts:47-58 | every record lands in the group of its own date, each group lists its records at strictly increasing input positions, and none is missing |

## Left out

- Network, image and file I/O: `analyzeReceipt` and `compressImage` in `ocrSpaceService.ts`, and `analyzeReceipt` and `extractText` in `googleVisionAPI.ts`. They are HTTP calls and image manipulation.
- `claudeAPI.ts` and `database.ts` are not part of this model. They send prompts over HTTP and run SQL through expo-sqlite, whose results the app cannot decide.
- Screens, navigation and theme are left out, apart from `parseQRData` and the `total > 0` save guard. That includes the rest of the QR handler: the alerts, the state updates and the database call.
- The object branch of `parseQRData` is left out. It depends on dynamic property lookup with `||` fallbacks on arbitrary JSON.
- The clock is not modelled. The QR fallback takes today's date as a parameter, and `getMonthStart`, `getMonthEnd` and `getToday` take the year, month and day a `Date` would report.
- `formatDate`, `getWeekStart`, `formatCurrency` and `formatPercentage` are left out. They depend on the clock and the locale, or on `toFixed` rounding. `formatDateTime` is modelled given what `formatDate` produced.
- IEEE double rounding is not modelled. Numbers are exact reals, and `parseFloat` results and divisions are exact. Item prices and totals are whole hundredths, which loses nothing (`ReceiptPatterns.PriceTokenParse`).
- Unicode case folding is reduced to ASCII and Cyrillic letters.
- Strings are sequences of Unicode scalar values, not of the UTF-16 code units JavaScript strings hold. A character outside the Basic Multilingual Plane counts once here and twice in JavaScript, so `length` and `substring` differ on text holding such characters: the store-name length bounds (`ocrSpaceService.ts` line 110), the 3-character line minimum (lines 252 and 312) and `truncateText` (`formatters.ts` lines 80-81).
- Calculations.SumBy: a field is a real or absent. A field holding another falsy value, such as `NaN` or an empty string, or a non-number that `+` would concatenate, is not modelled.
- Calculations.GroupByDate: the insertion order of the `Map`'s keys is not stated. The model states the key set and each group's order.
- Formatters.GetMonthStart, Formatters.GetMonthEnd, Formatters.GetToday: years are natural numbers. Negative years, which `getFullYear` can report, are not modelled.
- GoogleVisionProperties.ItemOfLineSource: the item's price is stated as whole hundredths of the leftmost price token. `ReceiptPatterns.PriceTokenParse` links this to the `parseFloat` the source calls.
- OcrSpaceProperties.CountShapesNeverDecide, OcrSpaceProperties.CountMatchImpliesNamePrice, OcrSpaceProperties.ItemWithoutQuantityBounds: they are stated for lines without a line terminator. A line can still hold `\r`, U+2028 or U+2029, which the lazy `(.+?)` of the second shape cannot cross, and on such lines the third and fourth shapes can decide.
