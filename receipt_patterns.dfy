/**
 * The regular expressions of the receipt parsers, each hand-coded as a
 * matcher over a string with JavaScript's backtracking semantics:
 *
 *  - an unanchored `s.match(re)` finds the LEFTMOST start index at which the
 *    expression matches (SearchFrom / Exec);
 *  - a lazy `(.+?)` capture ends at the SMALLEST end index for which the rest
 *    of the expression matches, consuming only `.` characters (LazyEnd);
 *  - a greedy run followed by a piece that starts with a character outside
 *    the run's characters gains nothing by giving characters back, so it is modelled as
 *    the maximal run (e.g. `\d+[.,]`, `\s*` before a digit);
 *  - a bounded greedy count `\d{1,2}` tries the larger count first (TryCounts).
 */
module ReceiptPatterns {
  import opened Wrappers
  import opened Text
  import opened JsNumbers

  // ---------------------------------------------------------------------------
  // Prices `\d+[.,]\d{2}` and quantities `\d+(?:[.,]\d+)?`

  /** A string that `\d+[.,]\d{2}` matches entirely. */
  predicate IsPriceToken(t: string) {
    |t| >= 4 && AllDigits(t[..|t| - 3]) && (t[|t| - 3] == '.' || t[|t| - 3] == ',')
    && IsDigit(t[|t| - 2]) && IsDigit(t[|t| - 1])
  }

  /**
   * End of the match of `\d+[.,]\d{2}` that starts at `i`. The greedy `\d+`
   * must stop at the separator, so the match is the whole digit run.
   */
  function PriceEnd(s: string, i: nat): (r: Option<nat>)
    ensures r.Some? ==> i + 4 <= r.value <= |s| && IsPriceToken(s[i..r.value])
    ensures r.Some? ==> r.value - 3 == DigitRunEnd(s, i)
  {
    if i < |s| && IsDigit(s[i]) then
      var j := DigitRunEnd(s, i);
      if j + 2 < |s| && (s[j] == '.' || s[j] == ',') && IsDigit(s[j + 1]) && IsDigit(s[j + 2]) then
        assert s[i..j + 3][..j - i] == s[i..j];
        assert forall k :: 0 <= k < j - i ==> s[i..j][k] == s[i + k];
        Some(j + 3)
      else None
    else None
  }

  /** Every price token is a match of the price expression where it occurs. */
  lemma PriceEndOfToken(s: string, i: nat, n: nat)
    requires i + n <= |s| && IsPriceToken(s[i..i + n])
    ensures PriceEnd(s, i) == Some(i + n)
  {
    var t := s[i..i + n];
    assert forall k :: i <= k < i + n - 3 ==> s[k] == t[..n - 3][k - i];
    assert !IsDigit(s[i + n - 3]) by { assert s[i + n - 3] == t[n - 3]; }
    assert DigitRunEnd(s, i) == i + n - 3;
    assert s[i + n - 2] == t[n - 2] && s[i + n - 1] == t[n - 1];
  }

  /** The amount of a price token in hundredths: the two decimals are exact cents. */
  function Cents(t: string): nat
    requires IsPriceToken(t)
  {
    DigitsValue(t[..|t| - 3]) * 100 + DigitValue(t[|t| - 2]) * 10 + DigitValue(t[|t| - 1])
  }

  /**
   * Storing a price as integer cents loses nothing: reading a price token
   * with `parseFloat` after making its comma a point gives its cents / 100.
   */
  lemma PriceTokenParse(t: string)
    requires IsPriceToken(t)
    ensures ParseFloat(ReplaceFirst(t, ",", ".")) == Finite(Cents(t) as real / 100.0)
  {
    var d := t[..|t| - 3];
    var f := t[|t| - 2..];
    PriceTokenNormalised(t);
    DecimalLiteralParse(d, f);
    CentsValue(t);
  }

  /** The decimal value of a price token's digits is its cents divided by a hundred. */
  lemma CentsValue(t: string)
    requires IsPriceToken(t)
    ensures DecimalValue(t[..|t| - 3], t[|t| - 2..]) == Cents(t) as real / 100.0
  {
    var d := t[..|t| - 3];
    var f := t[|t| - 2..];
    assert Cents(t) == DigitsValue(d) * 100 + DigitsValue(f) by {
      TwoDigitsValue(f);
      assert f[0] == t[|t| - 2] && f[1] == t[|t| - 1];
    }
    HundredthsValue(d, f);
  }

  lemma TwoDigitsValue(f: string)
    requires |f| == 2 && AllDigits(f)
    ensures DigitsValue(f) == DigitValue(f[0]) * 10 + DigitValue(f[1])
  {
    var g := f[..1];
    assert g[..0] == [];
    assert DigitsValue(g) == DigitValue(g[0]);
    assert f[..|f| - 1] == g;
  }

  /** A literal with two decimals is its value in hundredths divided by a hundred. */
  lemma HundredthsValue(d: string, f: string)
    requires AllDigits(d) && AllDigits(f) && |f| == 2
    ensures DecimalValue(d, f) == (DigitsValue(d) * 100 + DigitsValue(f)) as real / 100.0
  {
    assert Pow10(2) == 100.0;
    var x := DigitsValue(d) as real;
    var y := DigitsValue(f) as real;
    assert DecimalValue(d, f) == x + y / 100.0;
    assert (x * 100.0 + y) / 100.0 == x + y / 100.0;
  }

  /** Replacing the first comma of a price token turns its separator into a dot. */
  lemma {:induction false} PriceTokenNormalised(t: string)
    requires IsPriceToken(t)
    ensures ReplaceFirst(t, ",", ".") == t[..|t| - 3] + "." + t[|t| - 2..]
  {
    var n := |t|;
    assert forall j :: 0 <= j < n - 3 ==> t[j] == t[..n - 3][j];
    if t[n - 3] == ',' {
      assert WordAt(t, n - 3, ",");
      forall j | 0 <= j < n - 3 ensures !WordAt(t, j, ",") {
        assert t[j..j + 1][0] == t[j];
      }
      assert IndexOf(t, ",", 0) == Some(n - 3);
    } else {
      forall j | 0 <= j < n ensures t[j] != ',' {
        if j < n - 3 { assert t[j] == t[..n - 3][j]; }
      }
      forall j | 0 <= j ensures !WordAt(t, j, ",") {
        if j + 1 <= n { assert t[j..j + 1][0] == t[j]; }
      }
      assert IndexOf(t, ",", 0) == None;
      assert t == t[..n - 3] + "." + t[n - 2..];
    }
  }

  /** A string that `\d+(?:[.,]\d+)?` matches entirely. */
  predicate IsQuantityToken(t: string) {
    |t| > 0 && IsDigit(t[0]) &&
    var b := DigitRunEnd(t, 0);
    b == |t| || (b + 1 < |t| && (t[b] == '.' || t[b] == ',') && AllDigits(t[b + 1..]))
  }

  /** The value of a quantity token, as a decimal number. */
  function QuantityValue(t: string): real
    requires IsQuantityToken(t)
  {
    var b := DigitRunEnd(t, 0);
    assert AllDigits(t[..b]);
    if b == |t| then DigitsValue(t) as real else DecimalValue(t[..b], t[b + 1..])
  }

  /** The quantity the parser reads with `parseFloat` after making the comma a point. */
  lemma QuantityTokenParse(t: string)
    requires IsQuantityToken(t)
    ensures ParseFloat(ReplaceFirst(t, ",", ".")) == Finite(QuantityValue(t))
  {
    var b := DigitRunEnd(t, 0);
    if b == |t| {
      assert forall j :: 0 <= j ==> !WordAt(t, j, ",") by {
        forall j | 0 <= j ensures !WordAt(t, j, ",") {
          if j + 1 <= |t| { assert t[j..j + 1][0] == t[j]; }
        }
      }
      assert ReplaceFirst(t, ",", ".") == t;
      DigitsOnlyParse(t);
    } else {
      var d := t[..b];
      var f := t[b + 1..];
      var u := d + "." + f;
      if t[b] == ',' {
        assert WordAt(t, b, ",");
        assert forall j :: 0 <= j < b ==> !WordAt(t, j, ",") by {
          forall j | 0 <= j < b ensures !WordAt(t, j, ",") {
            assert t[j..j + 1][0] == t[j];
          }
        }
        assert IndexOf(t, ",", 0) == Some(b);
        assert ReplaceFirst(t, ",", ".") == u;
      } else {
        assert forall j :: 0 <= j ==> !WordAt(t, j, ",") by {
          forall j | 0 <= j ensures !WordAt(t, j, ",") {
            if j + 1 <= |t| {
              assert t[j..j + 1][0] == t[j];
              if j > b { assert t[j] == f[j - b - 1]; }
            }
          }
        }
        assert ReplaceFirst(t, ",", ".") == t;
        assert t == u;
      }
      DecimalLiteralParse(d, f);
    }
  }

  // ---------------------------------------------------------------------------
  // Starred character classes between a keyword and an amount

  /** A class `c` written as `c*` between two pieces of an expression. */
  datatype Gap = Spaces | Colons | Equals | ColonsOrSpaces

  predicate InGap(g: Gap, c: char) {
    match g
    case Spaces => IsSpace(c)
    case Colons => c == ':'
    case Equals => c == '='
    case ColonsOrSpaces => c == ':' || IsSpace(c)
  }

  /** End of the maximal run of class `g` starting at `i`. */
  function GapRunEnd(g: Gap, s: string, i: nat): (r: nat)
    ensures i <= |s| ==> i <= r <= |s| && (r == |s| || !InGap(g, s[r]))
    ensures forall k :: i <= k < r ==> k < |s| && InGap(g, s[k])
    ensures i > |s| ==> r == i
    decreases |s| - i
  {
    if i < |s| && InGap(g, s[i]) then GapRunEnd(g, s, i + 1) else i
  }

  /** The greedy runs `g1* g2* ...` in order, from `i`. */
  function SkipGaps(gaps: seq<Gap>, s: string, i: nat): (r: nat)
    ensures i <= |s| ==> i <= r <= |s|
    ensures i > |s| ==> r == i
  {
    if gaps == [] then i else SkipGaps(gaps[1..], s, GapRunEnd(gaps[0], s, i))
  }

  // ---------------------------------------------------------------------------
  // Unanchored expressions with one capture group

  /** One element of a date expression: `\d{min,max}` or a separator class. */
  datatype DateElem = Digits(min: nat, max: nat) | Sep(chars: string)

  /** The unanchored expressions of the parsers (case-insensitive where noted). */
  datatype Pattern =
    | DateShape(elems: seq<DateElem>)                   // `(e1 e2 ...)`, the whole match captured
    | KeywordPrice(words: seq<string>, gaps: seq<Gap>)  // `(?:w1|w2|..)g1*g2*..(\d+[.,]\d{2})`, /i
    | PriceUnit(units: seq<string>)                     // `(\d+[.,]\d{2})\s*(?:u1|u2|..)`, /i
    | PriceAtEnd                                        // `(\d+[.,]\d{2})\s*$`
    | Price                                             // `(\d+[.,]\d{2})`
    | KeywordNumber(word: string)                       // `word[:\s]*([\d.,]+)`, /i
    | LeadingWords(words: seq<string>)                  // `^(w1|w2|..)\s*`, /i
    | TrailingWords(words: seq<string>)                 // `\s*(w1|w2|..)$`, /i

  /** The expressions whose group 1 is a price `\d+[.,]\d{2}`. */
  predicate CapturesPrice(p: Pattern) {
    p.KeywordPrice? || p.PriceUnit? || p.PriceAtEnd? || p.Price?
  }

  /** A match from `start` to `end` whose capture group 1 is `[lo, hi)`. */
  datatype Match = Match(start: nat, end: nat, lo: nat, hi: nat)

  predicate WellFormed(m: Match, s: string) {
    m.start <= m.lo <= m.hi <= m.end <= |s|
  }

  /** Group 1 of `m` is a price token whenever `p` captures one. */
  predicate PriceCapturedIfAny(p: Pattern, s: string, m: Match) {
    WellFormed(m, s) && (CapturesPrice(p) ==> IsPriceToken(s[m.lo..m.hi]))
  }

  /** Group 1 of a match. */
  function Captured(s: string, m: Match): string
    requires WellFormed(m, s)
  {
    s[m.lo..m.hi]
  }

  /** The first alternative (in order) of `words` that occurs at `i`, case-insensitively. */
  function FirstWordAt(s: string, i: nat, words: seq<string>): (r: Option<string>)
    ensures r.Some? ==> r.value in words && WordAtCI(s, i, r.value)
    ensures r.None? ==> forall w :: w in words ==> !WordAtCI(s, i, w)
  {
    if words == [] then None
    else if WordAtCI(s, i, words[0]) then Some(words[0])
    else FirstWordAt(s, i, words[1..])
  }

  /** `(?:w1|w2|..)<gaps>(\d+[.,]\d{2})` at `i`: alternatives are tried in order. */
  function KeywordPriceAt(words: seq<string>, gaps: seq<Gap>, s: string, i: nat): (r: Option<Match>)
    requires i <= |s|
    ensures r.Some? ==> r.value.start == i && WellFormed(r.value, s) && r.value.hi == r.value.end
    ensures r.Some? ==> IsPriceToken(s[r.value.lo..r.value.hi])
    ensures r.Some? ==> exists w :: w in words && WordAtCI(s, i, w)
  {
    if words == [] then None
    else if WordAtCI(s, i, words[0]) then
      var m := SkipGaps(gaps, s, i + |words[0]|);
      match PriceEnd(s, m)
      case Some(e) => Some(Match(i, e, m, e))
      case None => KeywordPriceAt(words[1..], gaps, s, i)
    else KeywordPriceAt(words[1..], gaps, s, i)
  }

  /** The date element sequence matched at `i`, greedy counts first; the end of the match. */
  function MatchElems(es: seq<DateElem>, s: string, i: nat): (r: Option<nat>)
    ensures r.Some? ==> i <= r.value <= |s|
    decreases |es|, 1, 0
  {
    if es == [] then (if i <= |s| then Some(i) else None)
    else match es[0]
      case Sep(cs) => if i < |s| && s[i] in cs then MatchElems(es[1..], s, i + 1) else None
      case Digits(lo, hi) => TryCounts(es, s, i, hi)
  }

  /** `\d{lo,hi}` at `i` followed by the rest of `es`, trying `n` digits, then fewer. */
  function TryCounts(es: seq<DateElem>, s: string, i: nat, n: nat): (r: Option<nat>)
    requires es != [] && es[0].Digits?
    ensures r.Some? ==> i <= r.value <= |s|
    decreases |es|, 0, n
  {
    if n < es[0].min then None
    else
      var here := if i + n <= |s| && AllDigits(s[i..i + n]) then MatchElems(es[1..], s, i + n) else None;
      if here.Some? then here
      else if n == 0 then None
      else TryCounts(es, s, i, n - 1)
  }

  /** The class `[\d.,]`. */
  predicate IsNumberChar(c: char) {
    IsDigit(c) || c == '.' || c == ','
  }

  /** End of the maximal run of `[\d.,]` starting at `i`. */
  function NumberCharRunEnd(s: string, i: nat): (r: nat)
    ensures i <= |s| ==> i <= r <= |s| && (r == |s| || !IsNumberChar(s[r]))
    ensures forall k :: i <= k < r ==> k < |s| && IsNumberChar(s[k])
    ensures i > |s| ==> r == i
    decreases |s| - i
  {
    if i < |s| && IsNumberChar(s[i]) then NumberCharRunEnd(s, i + 1) else i
  }

  /**
   * The match of `p` that starts at index `i`, if any. Each alternative is
   * its own helper, which requires its constructor, so that reasoning
   * about one expression never unfolds the matchers of the others.
   */
  function MatchAt(p: Pattern, s: string, i: nat): (r: Option<Match>)
    ensures r.Some? ==> r.value.start == i && WellFormed(r.value, s)
    ensures r.Some? ==> PriceCapturedIfAny(p, s, r.value)
    ensures i > |s| ==> r.None?
  {
    if i > |s| then None
    else match p
      case DateShape(_) => DateShapeAt(p, s, i)
      case KeywordPrice(_, _) => KeywordPriceMatch(p, s, i)
      case PriceUnit(_) => PriceUnitAt(p, s, i)
      case PriceAtEnd => PriceAtEndAt(p, s, i)
      case Price => PriceAt(p, s, i)
      case KeywordNumber(_) => KeywordNumberAt(p, s, i)
      case LeadingWords(_) => LeadingWordsAt(p, s, i)
      case TrailingWords(_) => TrailingWordsAt(p, s, i)
  }

  function DateShapeAt(p: Pattern, s: string, i: nat): (r: Option<Match>)
    requires p.DateShape? && i <= |s|
    ensures r.Some? ==> r.value.start == i && WellFormed(r.value, s)
  {
    match MatchElems(p.elems, s, i)
    case Some(e) => Some(Match(i, e, i, e))
    case None => None
  }

  function KeywordPriceMatch(p: Pattern, s: string, i: nat): (r: Option<Match>)
    requires p.KeywordPrice? && i <= |s|
    ensures r.Some? ==> r.value.start == i && WellFormed(r.value, s)
    ensures r.Some? ==> IsPriceToken(s[r.value.lo..r.value.hi])
  {
    KeywordPriceAt(p.words, p.gaps, s, i)
  }

  function PriceUnitAt(p: Pattern, s: string, i: nat): (r: Option<Match>)
    requires p.PriceUnit? && i <= |s|
    ensures r.Some? ==> r.value.start == i && WellFormed(r.value, s)
    ensures r.Some? ==> IsPriceToken(s[r.value.lo..r.value.hi])
  {
    match PriceEnd(s, i)
    case None => None
    case Some(e) =>
      var f := SpaceRunEnd(s, e);
      match FirstWordAt(s, f, p.units)
      case None => None
      case Some(w) => Some(Match(i, f + |w|, i, e))
  }

  function PriceAtEndAt(p: Pattern, s: string, i: nat): (r: Option<Match>)
    requires p.PriceAtEnd? && i <= |s|
    ensures r.Some? ==> r.value.start == i && WellFormed(r.value, s)
    ensures r.Some? ==> IsPriceToken(s[r.value.lo..r.value.hi])
  {
    match PriceEnd(s, i)
    case Some(e) => if SpaceRunEnd(s, e) == |s| then Some(Match(i, |s|, i, e)) else None
    case None => None
  }

  function PriceAt(p: Pattern, s: string, i: nat): (r: Option<Match>)
    requires p.Price? && i <= |s|
    ensures r.Some? ==> r.value.start == i && WellFormed(r.value, s)
    ensures r.Some? ==> IsPriceToken(s[r.value.lo..r.value.hi])
  {
    match PriceEnd(s, i)
    case Some(e) => Some(Match(i, e, i, e))
    case None => None
  }

  function KeywordNumberAt(p: Pattern, s: string, i: nat): (r: Option<Match>)
    requires p.KeywordNumber? && i <= |s|
    ensures r.Some? ==> r.value.start == i && WellFormed(r.value, s)
  {
    if WordAtCI(s, i, p.word) then
      var m := GapRunEnd(ColonsOrSpaces, s, i + |p.word|);
      var e := NumberCharRunEnd(s, m);
      if m < e then Some(Match(i, e, m, e)) else None
    else None
  }

  function LeadingWordsAt(p: Pattern, s: string, i: nat): (r: Option<Match>)
    requires p.LeadingWords? && i <= |s|
    ensures r.Some? ==> r.value.start == i && WellFormed(r.value, s)
  {
    if i == 0 then
      match FirstWordAt(s, 0, p.words)
      case Some(w) => Some(Match(0, SpaceRunEnd(s, |w|), 0, |w|))
      case None => None
    else None
  }

  function TrailingWordsAt(p: Pattern, s: string, i: nat): (r: Option<Match>)
    requires p.TrailingWords? && i <= |s|
    ensures r.Some? ==> r.value.start == i && WellFormed(r.value, s)
  {
    var m := SpaceRunEnd(s, i);
    if exists w | w in p.words :: WordAtCI(s, m, w) && m + |w| == |s| then Some(Match(i, |s|, m, |s|))
    else None
  }

  /** The leftmost match of `p` starting at or after `i`. */
  function SearchFrom(p: Pattern, s: string, i: nat): (r: Option<Match>)
    ensures r.Some? ==> i <= r.value.start <= |s| && MatchAt(p, s, r.value.start) == r
    ensures r.Some? ==> forall j :: i <= j < r.value.start ==> MatchAt(p, s, j).None?
    ensures r.None? ==> forall j :: i <= j ==> MatchAt(p, s, j).None?
    decreases |s| + 1 - i
  {
    if i > |s| then None
    else match MatchAt(p, s, i)
      case Some(m) => Some(m)
      case None => SearchFrom(p, s, i + 1)
  }

  /** `s.match(re)` for a non-global expression: the leftmost match. */
  function Exec(p: Pattern, s: string): (r: Option<Match>)
    ensures r.Some? ==> WellFormed(r.value, s)
    ensures r.Some? ==> PriceCapturedIfAny(p, s, r.value)
  {
    SearchFrom(p, s, 0)
  }

  /** `s.replace(re, '')`: the leftmost match cut out. */
  function RemoveMatch(p: Pattern, s: string): (r: string)
    ensures Exec(p, s).None? ==> r == s
    ensures Exec(p, s).Some? ==> r == s[..Exec(p, s).value.start] + s[Exec(p, s).value.end..]
  {
    match Exec(p, s)
    case None => s
    case Some(m) => s[..m.start] + s[m.end..]
  }

  /** `FirstWordAt` picks the first alternative, in list order, that occurs at `i`. */
  lemma {:induction false} FirstWordAtIndex(s: string, i: nat, words: seq<string>, j: nat)
    requires j < |words| && WordAtCI(s, i, words[j])
    requires forall k :: 0 <= k < j ==> !WordAtCI(s, i, words[k])
    ensures FirstWordAt(s, i, words) == Some(words[j])
    decreases j
  {
    if j > 0 {
      assert !WordAtCI(s, i, words[0]);
      assert forall k :: 0 <= k < j - 1 ==> words[1..][k] == words[k + 1];
      FirstWordAtIndex(s, i, words[1..], j - 1);
    }
  }

  /** Removing `^(w1|w2|..)\s*` (case-insensitive): the first listed alternative found at the start goes, with the white space after it. */
  function StripLeadingWords(words: seq<string>, s: string): (u: string)
    ensures FirstWordAt(s, 0, words).None? ==> u == s
    ensures FirstWordAt(s, 0, words).Some? ==> u == s[SpaceRunEnd(s, |FirstWordAt(s, 0, words).value|)..]
  {
    var p := LeadingWords(words);
    assert MatchAt(p, s, 0) == LeadingWordsAt(p, s, 0);
    match Exec(p, s)
    case None => RemoveMatch(p, s)
    case Some(m) =>
      assert MatchAt(p, s, m.start) == LeadingWordsAt(p, s, m.start);
      RemoveMatch(p, s)
  }

  /** `\s*(w1|w2|..)$` matches from `k`: white space, then an alternative that ends `s`. */
  predicate WordsEndFrom(words: seq<string>, s: string, k: nat) {
    k <= |s| && exists w | w in words :: WordAtCI(s, SpaceRunEnd(s, k), w) && SpaceRunEnd(s, k) + |w| == |s|
  }

  /** The trailing-words expression matches at `k` exactly when `WordsEndFrom` holds, and then runs to the end. */
  lemma TrailingWordsMatchAt(words: seq<string>, s: string, k: nat)
    requires k <= |s|
    ensures MatchAt(TrailingWords(words), s, k).Some? <==> WordsEndFrom(words, s, k)
    ensures MatchAt(TrailingWords(words), s, k).Some? ==> MatchAt(TrailingWords(words), s, k).value.end == |s|
  {
    var p := TrailingWords(words);
    assert MatchAt(p, s, k) == TrailingWordsAt(p, s, k);
  }

  /**
   * Removing `\s*(w1|w2|..)$` (case-insensitive): `s` is cut at the leftmost position
   * from which the expression matches, and kept whole when there is none.
   */
  function StripTrailingWords(words: seq<string>, s: string): (v: string)
    ensures |v| <= |s| && v == s[..|v|]
    ensures (forall k :: 0 <= k <= |s| ==> !WordsEndFrom(words, s, k)) ==> v == s
    ensures forall k :: 0 <= k <= |s| && WordsEndFrom(words, s, k) ==>
      |v| <= k && WordsEndFrom(words, s, |v|) && forall x :: 0 <= x < |v| ==> !WordsEndFrom(words, s, x)
  {
    var p := TrailingWords(words);
    match Exec(p, s)
    case None =>
      assert forall k :: 0 <= k <= |s| ==> !WordsEndFrom(words, s, k) by {
        forall k | 0 <= k <= |s| ensures !WordsEndFrom(words, s, k) {
          TrailingWordsMatchAt(words, s, k);
        }
      }
      s
    case Some(m) =>
      TrailingWordsMatchAt(words, s, m.start);
      assert forall x :: 0 <= x < m.start ==> !WordsEndFrom(words, s, x) by {
        forall x | 0 <= x < m.start ensures !WordsEndFrom(words, s, x) {
          TrailingWordsMatchAt(words, s, x);
        }
      }
      s[..m.start]
  }

  // ---------------------------------------------------------------------------
  // Lazy captures `(.+?)` followed by the rest of an expression

  /** The parts of an expression that may follow a lazy `(.+?)`. */
  datatype Rest =
    | BeforeWords(words: seq<string>)  // `(?=w1|w2|..)`, /i
    | BeforeDigits(count: nat)         // `(?=\d{count,..})`
    | TimesTotalTail                   // `\s+(\d+(?:[.,]\d+)?)\s*[xхXХ]\s*(\d+[.,]\d{2})\s*=\s*(\d+[.,]\d{2})`
    | PriceTail(units: seq<string>)    // `\s+(\d+[.,]\d{2})(?:\s*(?:u1|u2|..))?$`, /i
    | PriceEndTail                     // `\s+(\d+[.,]\d{2})$`

  /** The characters `s[a..b]` exist and are all matched by `.`. */
  predicate DotsBetween(s: string, a: nat, b: nat) {
    b <= |s| && forall k :: a <= k < b ==> !IsLineTerminator(s[k])
  }

  /** The spans of the three captures of the quantity-times-price tail. */
  datatype TimesTotal = TimesTotal(qtyLo: nat, qtyHi: nat, unitLo: nat, unitHi: nat, totalLo: nat, totalHi: nat)

  predicate IsTimesSign(c: char) {
    c == 'x' || c == '\U{445}' || c == 'X' || c == '\U{425}'
  }

  /** The quantity-times-price tail at `pos` (it is not anchored at the end). */
  function TimesTotalAt(s: string, pos: nat): (r: Option<TimesTotal>)
    ensures r.Some? ==> pos < r.value.qtyLo < r.value.qtyHi <= r.value.unitLo
    ensures r.Some? ==> r.value.unitLo < r.value.unitHi <= r.value.totalLo < r.value.totalHi <= |s|
  {
    var a := SpaceRunEnd(s, pos);
    if a == pos || a >= |s| || !IsDigit(s[a]) then None
    else
      var b := DigitRunEnd(s, a);
      var c := if b + 1 < |s| && (s[b] == '.' || s[b] == ',') && IsDigit(s[b + 1]) then DigitRunEnd(s, b + 1) else b;
      var d := SpaceRunEnd(s, c);
      if d >= |s| || !IsTimesSign(s[d]) then None
      else
        var f := SpaceRunEnd(s, d + 1);
        match PriceEnd(s, f)
        case None => None
        case Some(g) =>
          var h := SpaceRunEnd(s, g);
          if h >= |s| || s[h] != '=' then None
          else
            var k := SpaceRunEnd(s, h + 1);
            match PriceEnd(s, k)
            case None => None
            case Some(t) => Some(TimesTotal(a, c, f, g, k, t))
  }

  /** The three captures of the quantity-times-price tail are a quantity and two prices. */
  lemma TimesTotalTokens(s: string, pos: nat)
    requires TimesTotalAt(s, pos).Some?
    ensures var m := TimesTotalAt(s, pos).value;
      IsQuantityToken(s[m.qtyLo..m.qtyHi]) && IsPriceToken(s[m.unitLo..m.unitHi])
      && IsPriceToken(s[m.totalLo..m.totalHi])
  {
    var a := SpaceRunEnd(s, pos);
    var b := DigitRunEnd(s, a);
    var c := if b + 1 < |s| && (s[b] == '.' || s[b] == ',') && IsDigit(s[b + 1]) then DigitRunEnd(s, b + 1) else b;
    QuantitySpan(s, a, b, c);
  }

  lemma QuantitySpan(s: string, a: nat, b: nat, c: nat)
    requires a < b == DigitRunEnd(s, a) <= |s|
    requires c == if b + 1 < |s| && (s[b] == '.' || s[b] == ',') && IsDigit(s[b + 1]) then DigitRunEnd(s, b + 1) else b
    ensures IsQuantityToken(s[a..c])
  {
    var t := s[a..c];
    assert forall k :: a <= k < c ==> t[k - a] == s[k];
    assert DigitRunEnd(t, 0) == b - a by {
      assert forall k :: 0 <= k < b - a ==> IsDigit(t[k]);
      assert b - a == |t| || !IsDigit(t[b - a]);
      DigitRunEndOf(t, 0, b - a);
    }
    if c > b {
      var f := t[b - a + 1..];
      assert forall k :: 0 <= k < |f| ==> f[k] == s[b + 1 + k];
    }
  }

  /** The half-open span `[lo, hi)` of a captured price. */
  datatype Span = Span(lo: nat, hi: nat)

  /** A span after `pos`, of at least four characters within `s`, that holds a price token. */
  predicate PriceSpanAfter(s: string, pos: nat, span: Span) {
    pos < span.lo && span.lo + 4 <= span.hi <= |s| && IsPriceToken(s[span.lo..span.hi])
  }

  /** The name-then-price tail `\s+(\d+[.,]\d{2})(?:\s*(?:units))?$` at `pos`: the price span. */
  function PriceTailAt(s: string, pos: nat, units: seq<string>): (r: Option<Span>)
    ensures r.Some? ==> PriceSpanAfter(s, pos, r.value)
  {
    var a := SpaceRunEnd(s, pos);
    if a == pos then None
    else match PriceEnd(s, a)
      case None => None
      case Some(e) =>
        var f := SpaceRunEnd(s, e);
        if e == |s| || exists u | u in units :: WordAtCI(s, f, u) && f + |u| == |s| then Some(Span(a, e))
        else None
  }

  /** The tail `\s+(\d+[.,]\d{2})$` at `pos`: the price span, which ends the string. */
  function PriceEndTailAt(s: string, pos: nat): (r: Option<Span>)
    ensures r.Some? ==> PriceSpanAfter(s, pos, r.value) && r.value.hi == |s|
  {
    var a := SpaceRunEnd(s, pos);
    if a == pos then None
    else match PriceEnd(s, a)
      case Some(e) => if e == |s| then Some(Span(a, e)) else None
      case None => None
  }

  /** Whenever the price-at-end tail matches, the optional-unit tail matches too, with the same price. */
  lemma PriceEndTailIsPriceTail(s: string, pos: nat, units: seq<string>)
    requires PriceEndTailAt(s, pos).Some?
    ensures PriceTailAt(s, pos, units) == PriceEndTailAt(s, pos)
  {
  }

  /** The rest of the expression matches at `pos`; each alternative has its own helper, as for `MatchAt`. */
  predicate RestMatches(r: Rest, s: string, pos: nat) {
    match r
    case BeforeWords(_) => BeforeWordsAt(r, s, pos)
    case BeforeDigits(_) => BeforeDigitsAt(r, s, pos)
    case TimesTotalTail => TimesTotalTailAt(r, s, pos)
    case PriceTail(_) => PriceTailMatches(r, s, pos)
    case PriceEndTail => PriceEndTailMatches(r, s, pos)
  }

  predicate BeforeWordsAt(r: Rest, s: string, pos: nat)
    requires r.BeforeWords?
  {
    exists w | w in r.words :: WordAtCI(s, pos, w)
  }

  predicate BeforeDigitsAt(r: Rest, s: string, pos: nat)
    requires r.BeforeDigits?
  {
    pos + r.count <= |s| && AllDigits(s[pos..pos + r.count])
  }

  predicate TimesTotalTailAt(r: Rest, s: string, pos: nat)
    requires r.TimesTotalTail?
  {
    TimesTotalAt(s, pos).Some?
  }

  predicate PriceTailMatches(r: Rest, s: string, pos: nat)
    requires r.PriceTail?
  {
    PriceTailAt(s, pos, r.units).Some?
  }

  predicate PriceEndTailMatches(r: Rest, s: string, pos: nat)
    requires r.PriceEndTail?
  {
    PriceEndTailAt(s, pos).Some?
  }

  /** A test on candidate end positions of a lazy capture. */
  type EndTest = nat -> bool

  /** The ends at which the rest of the expression matches. */
  function RestAt(r: Rest, s: string): EndTest {
    (x: nat) => RestMatches(r, s, x)
  }

  /**
   * A lazy `(.+?)` that starts at `from`, with `s[from..e-1]` already
   * consumed: the smallest end at or after `e` for which the rest matches.
   */
  function LazyEnd(r: Rest, s: string, from: nat, e: nat): (res: Option<nat>)
    requires from < e && DotsBetween(s, from, e - 1)
    ensures res.Some? ==> e <= res.value <= |s| && DotsBetween(s, from, res.value)
    ensures res.Some? ==> RestAt(r, s)(res.value)
    ensures res.Some? ==> forall x :: e <= x < res.value ==> !RestAt(r, s)(x)
    ensures res.None? ==> forall x :: e <= x && DotsBetween(s, from, x) ==> !RestAt(r, s)(x)
  {
    FirstEnd(RestAt(r, s), s, from, e)
  }

  /**
   * The smallest end at or after `e` that `ok` admits, the characters up to
   * it all matched by `.`; the search for a lazy capture, whatever follows it.
   */
  function FirstEnd(ok: EndTest, s: string, from: nat, e: nat): (res: Option<nat>)
    requires from < e && DotsBetween(s, from, e - 1)
    ensures res.Some? ==> e <= res.value <= |s| && DotsBetween(s, from, res.value)
    ensures res.Some? ==> ok(res.value)
    ensures res.Some? ==> forall x :: e <= x < res.value ==> !ok(x)
    ensures res.None? ==> forall x :: e <= x && DotsBetween(s, from, x) ==> !ok(x)
    decreases |s| + 1 - e
  {
    if e > |s| || IsLineTerminator(s[e - 1]) then
      DotsStop(s, from, e);
      None
    else if ok(e) then Some(e)
    else
      assert DotsBetween(s, from, e);
      FirstEnd(ok, s, from, e + 1)
  }

  /** `.` cannot run past the end of the text or over a line terminator. */
  lemma DotsStop(s: string, from: nat, e: nat)
    requires from < e && (e > |s| || IsLineTerminator(s[e - 1]))
    ensures forall x :: e <= x ==> !DotsBetween(s, from, x)
  {
  }

  /** A lazy capture from `from` exists as soon as one admissible end exists. */
  lemma LazyEndFinds(r: Rest, s: string, from: nat, x: nat)
    requires from < x && DotsBetween(s, from, x) && RestMatches(r, s, x)
    ensures LazyEnd(r, s, from, from + 1).Some?
    ensures LazyEnd(r, s, from, from + 1).value <= x
  {
    assert RestAt(r, s)(x);
  }
}
