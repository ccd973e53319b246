/**
 * The JavaScript string operations the receipt parsers are built from:
 * character classes of regular expressions, `trim`, `split`, `includes`,
 * `indexOf`, `replace` with a string pattern, `padStart` and `toUpperCase`.
 *
 * A JavaScript string is modelled as a sequence of Unicode scalar values.
 */
module Text {
  import opened Wrappers

  /** `\d` of a JavaScript regular expression: the ten ASCII digits. */
  predicate IsDigit(c: char) {
    '0' <= c <= '9'
  }

  function DigitValue(c: char): (d: nat)
    requires IsDigit(c)
    ensures d <= 9
  {
    c as int - '0' as int
  }

  predicate AllDigits(s: string) {
    forall i :: 0 <= i < |s| ==> IsDigit(s[i])
  }

  /** The value of a run of decimal digits, most significant digit first. */
  function DigitsValue(s: string): nat
    requires AllDigits(s)
    decreases |s|
  {
    if s == [] then 0 else DigitsValue(s[..|s| - 1]) * 10 + DigitValue(s[|s| - 1])
  }

  /**
   * JavaScript's WhiteSpace and LineTerminator code points: the set that
   * `\s` matches and that `trim` removes (tab, vertical tab, form feed,
   * space, no-break space, byte order mark, the space separators of
   * category Zs, line feed, carriage return, line and paragraph separator).
   */
  predicate IsSpace(c: char) {
    c == '\t' || c == '\n' || c == '\U{B}' || c == '\U{C}' || c == '\r' || c == ' '
    || c == '\U{A0}' || c == '\U{1680}' || ('\U{2000}' <= c <= '\U{200A}')
    || c == '\U{2028}' || c == '\U{2029}' || c == '\U{202F}' || c == '\U{205F}'
    || c == '\U{3000}' || c == '\U{FEFF}'
  }

  /** The characters that the regular-expression `.` does not match. */
  predicate IsLineTerminator(c: char) {
    c == '\n' || c == '\r' || c == '\U{2028}' || c == '\U{2029}'
  }

  /**
   * Upper-case mapping used by `toUpperCase` and by case-insensitive
   * regular expressions, for ASCII letters and the Cyrillic block
   * U+0430..U+045F (Bulgarian receipts); every other character maps to itself.
   */
  function Upper(c: char): char {
    if 'a' <= c <= 'z' then (c as int - 32) as char
    else if '\U{430}' <= c <= '\U{44F}' then (c as int - 32) as char
    else if '\U{450}' <= c <= '\U{45F}' then (c as int - 80) as char
    else c
  }

  /** `s.toUpperCase()` */
  function UpperString(s: string): string {
    seq(|s|, i requires 0 <= i < |s| => Upper(s[i]))
  }

  /** `w` occurs in `s` at index `i`. */
  predicate WordAt(s: string, i: nat, w: string) {
    i + |w| <= |s| && s[i..i + |w|] == w
  }

  /** `w` occurs in `s` at index `i`, compared as a case-insensitive regular expression does. */
  predicate WordAtCI(s: string, i: nat, w: string) {
    i + |w| <= |s| && forall j :: 0 <= j < |w| ==> Upper(s[i + j]) == Upper(w[j])
  }

  /** `s.includes(w)` */
  predicate Includes(s: string, w: string) {
    exists i | 0 <= i <= |s| :: WordAt(s, i, w)
  }

  /** A case-insensitive alternation `w1|w2|...` of literal words matches somewhere in `s`. */
  predicate MentionsCI(s: string, words: seq<string>) {
    exists w, i | w in words && 0 <= i <= |s| :: WordAtCI(s, i, w)
  }

  /** `s.indexOf(w, from)`: the first index at or after `from` where `w` occurs. */
  function IndexOf(s: string, w: string, from: nat): (r: Option<nat>)
    ensures r.Some? ==> from <= r.value && WordAt(s, r.value, w)
    ensures r.Some? ==> forall j :: from <= j < r.value ==> !WordAt(s, j, w)
    ensures r.None? ==> forall j :: from <= j ==> !WordAt(s, j, w)
    decreases |s| + 1 - from
  {
    if from + |w| > |s| then None
    else if WordAt(s, from, w) then Some(from)
    else IndexOf(s, w, from + 1)
  }

  /** `w` at `i` and nowhere between `from` and `i` is what `indexOf` finds. */
  lemma IndexOfAt(s: string, w: string, from: nat, i: nat)
    requires from <= i && WordAt(s, i, w)
    requires forall j :: from <= j < i ==> !WordAt(s, j, w)
    ensures IndexOf(s, w, from) == Some(i)
  {
  }

  /** `s.replace(t, u)` with a string pattern: only the first occurrence of `t` is replaced. */
  function ReplaceFirst(s: string, t: string, u: string): string {
    match IndexOf(s, t, 0)
    case None => s
    case Some(i) => s[..i] + u + s[i + |t|..]
  }

  /** End of the maximal run of `\s` characters starting at `i`. */
  function SpaceRunEnd(s: string, i: nat): (r: nat)
    ensures i <= |s| ==> i <= r <= |s| && (r == |s| || !IsSpace(s[r]))
    ensures forall k :: i <= k < r ==> k < |s| && IsSpace(s[k])
    ensures i > |s| ==> r == i
    decreases |s| - i
  {
    if i < |s| && IsSpace(s[i]) then SpaceRunEnd(s, i + 1) else i
  }

  /** End of the maximal run of `\d` characters starting at `i`. */
  function DigitRunEnd(s: string, i: nat): (r: nat)
    ensures i <= |s| ==> i <= r <= |s| && (r == |s| || !IsDigit(s[r]))
    ensures forall k :: i <= k < r ==> k < |s| && IsDigit(s[k])
    ensures i > |s| ==> r == i
    decreases |s| - i
  {
    if i < |s| && IsDigit(s[i]) then DigitRunEnd(s, i + 1) else i
  }

  /** A run of digits that stops at `j` ends at `j`. */
  lemma DigitRunEndOf(t: string, i: nat, j: nat)
    requires i <= j <= |t|
    requires forall k :: i <= k < j ==> IsDigit(t[k])
    requires j == |t| || !IsDigit(t[j])
    ensures DigitRunEnd(t, i) == j
    decreases j - i
  {
    if i < j { DigitRunEndOf(t, i + 1, j); }
  }

  /** Leading white space removed (`trimStart`). */
  function TrimStart(s: string): (r: string)
    ensures |r| <= |s| && r == s[|s| - |r|..]
    ensures forall i :: 0 <= i < |s| - |r| ==> IsSpace(s[i])
    ensures r != [] ==> !IsSpace(r[0])
  {
    if s != [] && IsSpace(s[0]) then TrimStart(s[1..]) else s
  }

  /** Trailing white space removed (`trimEnd`). */
  function TrimEnd(s: string): (r: string)
    ensures |r| <= |s| && r == s[..|r|]
    ensures forall i :: |r| <= i < |s| ==> IsSpace(s[i])
    ensures r != [] ==> !IsSpace(r[|r| - 1])
  {
    if s != [] && IsSpace(s[|s| - 1]) then TrimEnd(s[..|s| - 1]) else s
  }

  /** `s.trim()`: a slice of `s` with only white space cut off on both sides. */
  function Trim(s: string): (r: string)
    ensures var a := |s| - |TrimStart(s)|;
      a + |r| <= |s| && r == s[a..a + |r|]
      && (forall i :: 0 <= i < a ==> IsSpace(s[i]))
      && (forall i :: a + |r| <= i < |s| ==> IsSpace(s[i]))
    ensures r != [] ==> !IsSpace(r[0]) && !IsSpace(r[|r| - 1])
  {
    var t := TrimStart(s);
    var r := TrimEnd(t);
    assert r == t[..|r|];
    r
  }

  /** Trimming is idempotent. */
  lemma TrimIdempotent(s: string)
    ensures Trim(Trim(s)) == Trim(s)
  {
    var r := Trim(s);
    assert TrimStart(r) == r;
    assert TrimEnd(r) == r;
  }

  /** A slice of `s` holds only characters of `s`. */
  lemma TrimKeepsOut(s: string, c: char)
    requires c !in s
    ensures c !in Trim(s)
  {
    var r := Trim(s);
    var a := |s| - |TrimStart(s)|;
    forall k | 0 <= k < |r| ensures r[k] != c {
      assert r[k] == s[a + k];
    }
  }

  /** The parts of a split string put back together. */
  function Join(parts: seq<string>, sep: char): string {
    if parts == [] then ""
    else if |parts| == 1 then parts[0]
    else parts[0] + [sep] + Join(parts[1..], sep)
  }

  function FirstIndexOfChar(s: string, c: char): (k: nat)
    requires c in s
    ensures k < |s| && s[k] == c && c !in s[..k]
  {
    if s[0] == c then 0 else FirstIndexOfChar(s[1..], c) + 1
  }

  /** The first occurrence of `c` is at `k` when `c` is at `k` and nowhere before it. */
  lemma {:induction false} FirstIndexOfCharAt(s: string, c: char, k: nat)
    requires k < |s| && s[k] == c
    requires forall j :: 0 <= j < k ==> s[j] != c
    ensures c in s && FirstIndexOfChar(s, c) == k
    decreases k
  {
    assert s[k] in s;
    if k > 0 {
      var t := s[1..];
      assert t[k - 1] == c;
      assert forall j :: 0 <= j < k - 1 ==> t[j] == s[j + 1];
      FirstIndexOfCharAt(t, c, k - 1);
    }
  }

  /**
   * `s.split(sep)` for a one-character separator: the pieces between the
   * occurrences of `sep`.
   */
  function Split(s: string, sep: char): (parts: seq<string>)
    ensures |parts| >= 1
    ensures sep !in s ==> parts == [s]
    ensures sep in s ==> |parts| >= 2
    ensures forall p :: p in parts ==> sep !in p
    decreases |s|
  {
    if sep !in s then [s]
    else
      var k := FirstIndexOfChar(s, sep);
      var rest := Split(s[k + 1..], sep);
      [s[..k]] + rest
  }

  /** Joining the pieces back with the separator gives the string. */
  lemma {:induction false} JoinSplit(s: string, sep: char)
    ensures Join(Split(s, sep), sep) == s
    decreases |s|
  {
    if sep in s {
      var k := FirstIndexOfChar(s, sep);
      var rest := Split(s[k + 1..], sep);
      var parts := Split(s, sep);
      assert Join(parts, sep) == s[..k] + [sep] + Join(rest, sep) by {
        assert parts == [s[..k]] + rest;
        JoinCons(s[..k], rest, sep);
      }
      assert Join(rest, sep) == s[k + 1..] by {
        JoinSplit(s[k + 1..], sep);
      }
      SplitAround(s, k);
    }
  }

  /** A string is the part before `k`, the character at `k` and the part after it. */
  lemma SplitAround(s: string, k: nat)
    requires k < |s|
    ensures s[..k] + [s[k]] + s[k + 1..] == s
  {
  }

  lemma JoinCons(p: string, rest: seq<string>, sep: char)
    requires rest != []
    ensures Join([p] + rest, sep) == p + [sep] + Join(rest, sep)
  {
    assert ([p] + rest)[1..] == rest;
  }

  /** `split` gives one piece more than there are separators. */
  lemma {:induction false} SplitCount(s: string, sep: char)
    ensures |Split(s, sep)| == multiset(s)[sep] + 1
    decreases |s|
  {
    if sep in s {
      var k := FirstIndexOfChar(s, sep);
      var rest := s[k + 1..];
      assert |Split(s, sep)| == 1 + |Split(rest, sep)|;
      SplitCount(rest, sep);
      assert multiset(s) == multiset(s[..k]) + multiset{sep} + multiset(rest) by {
        SplitAround(s, k);
      }
      assert multiset(s[..k])[sep] == 0;
    } else {
      assert multiset(s)[sep] == 0;
    }
  }

  /** Three parts joined. */
  lemma JoinThree(a: string, b: string, c: string, sep: char)
    ensures Join([a, b, c], sep) == a + [sep] + b + [sep] + c
  {
    assert [a, b, c][1..] == [b, c];
    assert [b, c][1..] == [c];
    assert Join([b, c], sep) == b + [sep] + c;
    assert a + [sep] + (b + [sep] + c) == a + [sep] + b + [sep] + c;
  }

  /** A run of digits holds no other character. */
  lemma DigitsOnly(s: string, c: char)
    requires AllDigits(s) && !IsDigit(c)
    ensures c !in s
  {
    assert forall k :: 0 <= k < |s| ==> s[k] != c;
  }

  /** Splitting the join of separator-free parts gives the parts back. */
  lemma {:induction false} SplitJoin(parts: seq<string>, sep: char)
    requires |parts| >= 1
    requires forall p :: p in parts ==> sep !in p
    ensures Split(Join(parts, sep), sep) == parts
    decreases |parts|
  {
    if |parts| == 1 {
      assert Join(parts, sep) == parts[0];
    } else {
      var p0 := parts[0];
      var rest := parts[1..];
      var tail := Join(rest, sep);
      var s := Join(parts, sep);
      assert s == p0 + [sep] + tail by {
        ConsTail(parts);
        JoinCons(p0, rest, sep);
      }
      ConcatAt(p0, sep, tail);
      forall j | 0 <= j < |p0|
        ensures s[j] != sep
      {
        assert s[j] == p0[j] && p0[j] in p0;
      }
      FirstIndexOfCharAt(s, sep, |p0|);
      forall p | p in rest
        ensures sep !in p
      {
        assert p in parts;
      }
      SplitJoin(rest, sep);
      assert Split(s, sep) == [p0] + rest;
      ConsTail(parts);
    }
  }

  /** The three pieces of `a + [c] + b`. */
  lemma ConcatAt(a: string, c: char, b: string)
    ensures var s := a + [c] + b;
      s[|a|] == c && s[..|a|] == a && s[|a| + 1..] == b && forall j :: 0 <= j < |a| ==> s[j] == a[j]
  {
  }

  /** A non-empty sequence is its head in front of its tail. */
  lemma ConsTail<T>(xs: seq<T>)
    requires xs != []
    ensures [xs[0]] + xs[1..] == xs
  {
  }

  /** `s.padStart(n, c)` for a one-character filler. */
  function PadStart(s: string, n: nat, c: char): (r: string)
    ensures |s| >= n ==> r == s
    ensures |s| < n ==> |r| == n && r[n - |s|..] == s && forall i :: 0 <= i < n - |s| ==> r[i] == c
  {
    if |s| >= n then s else seq(n - |s|, _ => c) + s
  }

  // ---------------------------------------------------------------------------
  // Receipt lines

  /** Each piece trimmed, in order. */
  function TrimEach(pieces: seq<string>): (ts: seq<string>)
    ensures |ts| == |pieces|
    ensures forall i :: 0 <= i < |pieces| ==> ts[i] == Trim(pieces[i])
  {
    if pieces == [] then [] else [Trim(pieces[0])] + TrimEach(pieces[1..])
  }

  /** The non-empty strings of `lines`, in order. */
  function NonEmpty(lines: seq<string>): (kept: seq<string>)
    ensures |kept| <= |lines|
  {
    if lines == [] then []
    else if |lines[0]| == 0 then NonEmpty(lines[1..])
    else [lines[0]] + NonEmpty(lines[1..])
  }

  /** The positions, counted from `base`, of the non-empty strings of `lines`, in order. */
  function NonEmptyIndices(lines: seq<string>, base: nat): (ix: seq<nat>)
    ensures |ix| <= |lines|
  {
    if lines == [] then []
    else (if |lines[0]| == 0 then [] else [base]) + NonEmptyIndices(lines[1..], base + 1)
  }

  /** There is one position in `NonEmptyIndices` per kept string. */
  lemma {:induction false} NonEmptyIndicesLength(lines: seq<string>, base: nat)
    ensures |NonEmptyIndices(lines, base)| == |NonEmpty(lines)|
    decreases |lines|
  {
    if lines != [] {
      NonEmptyIndicesLength(lines[1..], base + 1);
    }
  }

  /** The k-th kept string is the non-empty one at the k-th position of `NonEmptyIndices`. */
  lemma {:induction false} NonEmptyAtIndex(lines: seq<string>, base: nat, k: nat)
    requires k < |NonEmptyIndices(lines, base)|
    ensures k < |NonEmpty(lines)|
    ensures base <= NonEmptyIndices(lines, base)[k] < base + |lines|
    ensures NonEmpty(lines)[k] == lines[NonEmptyIndices(lines, base)[k] - base]
    ensures |NonEmpty(lines)[k]| > 0
    decreases |lines|
  {
    NonEmptyIndicesLength(lines, base);
    var tl := lines[1..];
    var rix := NonEmptyIndices(tl, base + 1);
    if |lines[0]| == 0 {
      NonEmptyAtIndex(tl, base + 1, k);
      assert tl[rix[k] - (base + 1)] == lines[rix[k] - base];
    } else if k > 0 {
      NonEmptyAtIndex(tl, base + 1, k - 1);
      assert tl[rix[k - 1] - (base + 1)] == lines[rix[k - 1] - base];
    }
  }

  /** `NonEmptyAtIndex` at every position. */
  lemma {:induction false} NonEmptyAt(lines: seq<string>, base: nat)
    ensures |NonEmptyIndices(lines, base)| == |NonEmpty(lines)|
    ensures forall k :: 0 <= k < |NonEmptyIndices(lines, base)| ==>
      base <= NonEmptyIndices(lines, base)[k] < base + |lines|
      && NonEmpty(lines)[k] == lines[NonEmptyIndices(lines, base)[k] - base]
      && |NonEmpty(lines)[k]| > 0
  {
    NonEmptyIndicesLength(lines, base);
    forall k | 0 <= k < |NonEmptyIndices(lines, base)|
      ensures base <= NonEmptyIndices(lines, base)[k] < base + |lines|
      ensures NonEmpty(lines)[k] == lines[NonEmptyIndices(lines, base)[k] - base]
      ensures |NonEmpty(lines)[k]| > 0
    {
      NonEmptyAtIndex(lines, base, k);
    }
  }

  /** The positions of `NonEmptyIndices` increase and lie from `base` on. */
  lemma {:induction false} NonEmptyIndicesIncrease(lines: seq<string>, base: nat)
    ensures forall k :: 0 <= k < |NonEmptyIndices(lines, base)| ==> base <= NonEmptyIndices(lines, base)[k]
    ensures forall k, l :: 0 <= k < l < |NonEmptyIndices(lines, base)| ==>
      NonEmptyIndices(lines, base)[k] < NonEmptyIndices(lines, base)[l]
    decreases |lines|
  {
    if lines != [] {
      NonEmptyIndicesIncrease(lines[1..], base + 1);
      var rix := NonEmptyIndices(lines[1..], base + 1);
      if |lines[0]| == 0 {
        assert NonEmptyIndices(lines, base) == rix;
      } else {
        assert NonEmptyIndices(lines, base) == [base] + rix;
      }
    }
  }

  /** Every non-empty string of `lines` has its position in `NonEmptyIndices`. */
  lemma {:induction false} NonEmptyIndicesComplete(lines: seq<string>, base: nat)
    ensures forall j :: 0 <= j < |lines| && |lines[j]| > 0 ==> base + j in NonEmptyIndices(lines, base)
    decreases |lines|
  {
    if lines != [] {
      var tl := lines[1..];
      NonEmptyIndicesComplete(tl, base + 1);
      var rix := NonEmptyIndices(tl, base + 1);
      assert forall x :: x in rix ==> x in NonEmptyIndices(lines, base);
      forall j | 1 <= j < |lines| && |lines[j]| > 0
        ensures base + j in rix
      {
        assert tl[j - 1] == lines[j];
      }
    }
  }

  /** The trimmed pieces, without the empty ones, in order. */
  function NonEmptyTrimmed(pieces: seq<string>): (lines: seq<string>)
    ensures |lines| <= |pieces|
    ensures forall l :: l in lines ==> l != [] && exists p :: p in pieces && l == Trim(p)
  {
    var ts := TrimEach(pieces);
    var lines := NonEmpty(ts);
    NonEmptyAt(ts, 0);
    forall l | l in lines
      ensures l != [] && exists p :: p in pieces && l == Trim(p)
    {
      var k :| 0 <= k < |lines| && lines[k] == l;
      var i := NonEmptyIndices(ts, 0)[k];
      assert l == Trim(pieces[i]) && pieces[i] in pieces;
    }
    lines
  }

  /**
   * Nothing is lost, duplicated or reordered: the k-th line is the trimmed
   * piece at the k-th position of `ix`, those positions increase, and every
   * piece that does not trim to nothing is among them.
   */
  lemma {:induction false} NonEmptyTrimmedOrigin(pieces: seq<string>)
    ensures var lines := NonEmptyTrimmed(pieces); var ix := NonEmptyIndices(TrimEach(pieces), 0);
      |ix| == |lines|
      && (forall k :: 0 <= k < |ix| ==> ix[k] < |pieces| && lines[k] == Trim(pieces[ix[k]]))
      && (forall k, l :: 0 <= k < l < |ix| ==> ix[k] < ix[l])
      && (forall j :: 0 <= j < |pieces| && Trim(pieces[j]) != [] ==> j in ix)
  {
    var ts := TrimEach(pieces);
    var lines := NonEmptyTrimmed(pieces);
    var ix := NonEmptyIndices(ts, 0);
    assert lines == NonEmpty(ts);
    NonEmptyAt(ts, 0);
    NonEmptyIndicesIncrease(ts, 0);
    NonEmptyIndicesComplete(ts, 0);
    forall k | 0 <= k < |ix|
      ensures ix[k] < |pieces| && lines[k] == Trim(pieces[ix[k]])
    {
      assert lines[k] == ts[ix[k]];
    }
    forall j | 0 <= j < |pieces| && Trim(pieces[j]) != []
      ensures j in ix
    {
      assert |ts[j]| > 0;
    }
  }


  /** The text split at line feeds, each line trimmed, empty lines dropped. */
  function NormalizeLines(text: string): seq<string> {
    NonEmptyTrimmed(Split(text, '\n'))
  }

  /** Every normalised line is a non-empty, trimmed piece of the text between two line feeds. */
  lemma NormalizedLine(text: string, line: string)
    requires line in NormalizeLines(text)
    ensures line != [] && Trim(line) == line && '\n' !in line
    ensures exists piece :: piece in Split(text, '\n') && line == Trim(piece)
  {
    var piece :| piece in Split(text, '\n') && line == Trim(piece);
    TrimIdempotent(piece);
    TrimKeepsOut(piece, '\n');
  }

  /** The first normalised line is the first piece that does not trim to nothing. */
  lemma NonEmptyTrimmedFirst(pieces: seq<string>, k: nat)
    requires k < |pieces| && Trim(pieces[k]) != []
    requires forall j :: 0 <= j < k ==> Trim(pieces[j]) == []
    ensures NonEmptyTrimmed(pieces) != [] && NonEmptyTrimmed(pieces)[0] == Trim(pieces[k])
  {
    NonEmptyTrimmedOrigin(pieces);
    var lines := NonEmptyTrimmed(pieces);
    var ix := NonEmptyIndices(TrimEach(pieces), 0);
    var m :| 0 <= m < |ix| && ix[m] == k;
    assert ix[0] <= k;
    assert lines[0] in lines;
  }

  /** Strings that are all empty keep nothing. */
  lemma {:induction false} NonEmptyNone(lines: seq<string>)
    requires forall j :: 0 <= j < |lines| ==> |lines[j]| == 0
    ensures NonEmpty(lines) == []
    decreases |lines|
  {
    if lines != [] {
      assert forall j :: 0 <= j < |lines| - 1 ==> lines[1..][j] == lines[j + 1];
      NonEmptyNone(lines[1..]);
    }
  }

  /** Pieces that all trim to nothing give no lines. */
  lemma NonEmptyTrimmedNone(pieces: seq<string>)
    requires forall j :: 0 <= j < |pieces| ==> Trim(pieces[j]) == []
    ensures NonEmptyTrimmed(pieces) == []
  {
    NonEmptyNone(TrimEach(pieces));
  }
}
