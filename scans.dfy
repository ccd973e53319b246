/**
 * The scans the extractors perform over per-line results: the first line
 * that gives a value, the last one, and all values in order.
 */
module Scans {
  import opened Wrappers

  /** The first value of `xs[i..]`. */
  function FirstSome<T>(xs: seq<Option<T>>, i: nat): (r: Option<T>)
    ensures r.Some? ==> exists j :: i <= j < |xs| && xs[j] == r && forall k :: i <= k < j ==> xs[k].None?
    ensures r.None? ==> forall k :: i <= k < |xs| ==> xs[k].None?
    decreases |xs| - i
  {
    if i >= |xs| then None
    else if xs[i].Some? then xs[i]
    else FirstSome(xs, i + 1)
  }

  /** The last value of `xs[lo..hi]`, looking from `hi - 1` down to `lo`. */
  function LastSome<T>(xs: seq<Option<T>>, hi: nat, lo: nat): Option<T>
    requires hi <= |xs|
    decreases hi
  {
    if hi <= lo then None
    else if xs[hi - 1].Some? then xs[hi - 1]
    else LastSome(xs, hi - 1, lo)
  }

  /** The last value is the entry of a position in range with only empty entries above it. */
  lemma {:induction false} LastSomeSpec<T>(xs: seq<Option<T>>, hi: nat, lo: nat)
    requires hi <= |xs|
    ensures var r := LastSome(xs, hi, lo);
      r.Some? ==> exists j :: lo <= j < hi && xs[j] == r && forall k :: j < k < hi ==> xs[k].None?
    ensures LastSome(xs, hi, lo).None? ==> forall k :: lo <= k < hi ==> xs[k].None?
    decreases hi
  {
    if lo < hi && xs[hi - 1].None? {
      LastSomeSpec(xs, hi - 1, lo);
    }
  }

  /** The values of `xs[i..end]`, in order. */
  function Somes<T>(xs: seq<Option<T>>, i: nat, end: nat): (r: seq<T>)
    requires end <= |xs|
    ensures i <= end ==> |r| <= end - i
    decreases end - i
  {
    if i >= end then []
    else (if xs[i].Some? then [xs[i].value] else []) + Somes(xs, i + 1, end)
  }

  /** The first index at or after `i` where `bs` holds, or `|bs|`. */
  function FirstTrue(bs: seq<bool>, i: nat): (r: nat)
    ensures i <= |bs| ==> i <= r <= |bs|
    ensures i > |bs| ==> r == i
    ensures forall k :: i <= k < r ==> k < |bs| && !bs[k]
    ensures r < |bs| ==> bs[r]
    decreases |bs| - i
  {
    if i >= |bs| then i
    else if bs[i] then i
    else FirstTrue(bs, i + 1)
  }

  /**
   * Where each value of `Somes(xs, i, end)` comes from: the indices of
   * `xs[i..end]` that hold a value, in increasing order.
   */
  function SomeIndices<T>(xs: seq<Option<T>>, i: nat, end: nat): (r: seq<nat>)
    requires end <= |xs|
    decreases end - i
  {
    if i >= end then []
    else (if xs[i].Some? then [i] else []) + SomeIndices(xs, i + 1, end)
  }

  /**
   * `r` holds exactly the values of `xs[i..end]`, taken at the increasing
   * indices `ix`: each `r[k]` is the value at `ix[k]`, and every index in
   * range that holds a value is listed.
   */
  ghost predicate IndexedBy<T>(xs: seq<Option<T>>, i: nat, end: nat, r: seq<T>, ix: seq<nat>) {
    |ix| == |r|
    && (forall k :: 0 <= k < |ix| ==> i <= ix[k] < end && ix[k] < |xs| && xs[ix[k]] == Some(r[k]))
    && (forall k, l :: 0 <= k < l < |ix| ==> ix[k] < ix[l])
    && (forall j :: i <= j < end && j < |xs| && xs[j].Some? ==> j in ix)
  }

  /** `Somes` loses nothing and invents nothing: `SomeIndices` names where each value comes from. */
  lemma {:induction false} SomesOrigin<T>(xs: seq<Option<T>>, i: nat, end: nat)
    requires i <= end <= |xs|
    ensures IndexedBy(xs, i, end, Somes(xs, i, end), SomeIndices(xs, i, end))
    decreases end - i
  {
    if i < end {
      SomesOrigin(xs, i + 1, end);
      var rest := Somes(xs, i + 1, end);
      var restIx := SomeIndices(xs, i + 1, end);
      if xs[i].Some? {
        assert Somes(xs, i, end) == [xs[i].value] + rest;
        assert SomeIndices(xs, i, end) == [i] + restIx;
        IndexedByCons(xs, i, end, rest, restIx);
      } else {
        assert Somes(xs, i, end) == rest;
        assert SomeIndices(xs, i, end) == restIx;
      }
    }
  }

  /** A value at `i` in front of the values after it, with `i` in front of their indices. */
  lemma IndexedByCons<T>(xs: seq<Option<T>>, i: nat, end: nat, rest: seq<T>, restIx: seq<nat>)
    requires i < end <= |xs| && xs[i].Some?
    requires IndexedBy(xs, i + 1, end, rest, restIx)
    ensures IndexedBy(xs, i, end, [xs[i].value] + rest, [i] + restIx)
  {
    var r := [xs[i].value] + rest;
    var ix := [i] + restIx;
    forall k | 0 <= k < |ix|
      ensures i <= ix[k] < end && ix[k] < |xs| && xs[ix[k]] == Some(r[k])
    {
      if k > 0 {
        assert ix[k] == restIx[k - 1] && r[k] == rest[k - 1];
      }
    }
    forall k, l | 0 <= k < l < |ix|
      ensures ix[k] < ix[l]
    {
      assert ix[l] == restIx[l - 1];
      if k > 0 {
        assert ix[k] == restIx[k - 1];
      }
    }
    forall j | i <= j < end && j < |xs| && xs[j].Some?
      ensures j in ix
    {
      if j > i {
        assert j in restIx;
      }
    }
  }

  /** Extending the range by one index appends that index's value, if any. */
  lemma {:induction false} SomesSnoc<T>(xs: seq<Option<T>>, i: nat, end: nat)
    requires i <= end < |xs|
    ensures Somes(xs, i, end + 1) == Somes(xs, i, end) + (if xs[end].Some? then [xs[end].value] else [])
    decreases end - i
  {
    if i < end {
      SomesSnoc(xs, i + 1, end);
      var h := if xs[i].Some? then [xs[i].value] else [];
      var t := if xs[end].Some? then [xs[end].value] else [];
      calc {
        Somes(xs, i, end + 1);
        h + Somes(xs, i + 1, end + 1);
        h + (Somes(xs, i + 1, end) + t);
        (h + Somes(xs, i + 1, end)) + t;
        Somes(xs, i, end) + t;
      }
    }
  }

  /** An empty entry at the top of the range does not change the last value. */
  lemma LastSomeStep<T>(xs: seq<Option<T>>, hi: nat, lo: nat)
    requires lo < hi <= |xs| && xs[hi - 1].None?
    ensures LastSome(xs, hi, lo) == LastSome(xs, hi - 1, lo)
  {
  }

  /** The last value below `hi` is the entry at `hi - 1` when it has one, else the last value below it. */
  lemma LastSomeTop<T>(xs: seq<Option<T>>, hi: nat, lo: nat, x: Option<T>)
    requires lo < hi <= |xs| && x == xs[hi - 1]
    ensures x.Some? ==> LastSome(xs, hi, lo) == x
    ensures x.None? ==> LastSome(xs, hi, lo) == LastSome(xs, hi - 1, lo)
  {
  }

  /** A value with only empty entries above it, up to `hi`, is the last one. */
  lemma {:induction false} LastSomeAt<T>(xs: seq<Option<T>>, hi: nat, lo: nat, j: nat)
    requires lo <= j < hi <= |xs|
    requires xs[j].Some?
    requires forall k :: j < k < hi ==> xs[k].None?
    ensures LastSome(xs, hi, lo) == xs[j]
    decreases hi
  {
    if j < hi - 1 {
      LastSomeAt(xs, hi - 1, lo, j);
    }
  }

  /** A value with only empty entries below it, from `i`, is the first one. */
  lemma {:induction false} FirstSomeAt<T>(xs: seq<Option<T>>, i: nat, j: nat)
    requires i <= j < |xs|
    requires xs[j].Some?
    requires forall k :: i <= k < j ==> xs[k].None?
    ensures FirstSome(xs, i) == xs[j]
    decreases j - i
  {
    if i < j {
      FirstSomeAt(xs, i + 1, j);
    }
  }

  /** A range without values gives no values. */
  lemma {:induction false} SomesEmpty<T>(xs: seq<Option<T>>, i: nat, end: nat)
    requires end <= |xs|
    requires forall k :: i <= k < end ==> xs[k].None?
    ensures Somes(xs, i, end) == []
    decreases end - i
  {
    if i < end {
      SomesEmpty(xs, i + 1, end);
    }
  }

  /** Entries after `end` do not matter. */
  lemma {:induction false} SomesPrefix<T>(xs: seq<Option<T>>, ys: seq<Option<T>>, i: nat, end: nat)
    requires end <= |xs|
    ensures Somes(xs + ys, i, end) == Somes(xs, i, end)
    decreases end - i
  {
    if i < end {
      var zs := xs + ys;
      var h := if xs[i].Some? then [xs[i].value] else [];
      calc {
        Somes(zs, i, end);
        == { assert zs[i] == xs[i]; }
        h + Somes(zs, i + 1, end);
        == { SomesPrefix(xs, ys, i + 1, end); }
        h + Somes(xs, i + 1, end);
      }
    }
  }

  /** Appending one entry to the whole range appends its value, if any. */
  lemma SomesAppend<T>(xs: seq<Option<T>>, x: Option<T>)
    ensures Somes(xs + [x], 0, |xs| + 1) == Somes(xs, 0, |xs|) + (if x.Some? then [x.value] else [])
  {
    SomesAppendFrom(xs, x, 0);
  }

  /** `SomesAppend` for a sequence already known to be `xs` with `x` appended. */
  lemma SomesOfSnoc<T>(ys: seq<Option<T>>, xs: seq<Option<T>>, x: Option<T>)
    requires ys == xs + [x]
    ensures Somes(ys, 0, |xs| + 1) == Somes(xs, 0, |xs|) + (if x.Some? then [x.value] else [])
  {
    SomesAppend(xs, x);
  }

  lemma {:induction false} SomesAppendFrom<T>(xs: seq<Option<T>>, x: Option<T>, i: nat)
    requires i <= |xs|
    ensures Somes(xs + [x], i, |xs| + 1) == Somes(xs, i, |xs|) + (if x.Some? then [x.value] else [])
    decreases |xs| - i
  {
    var ys := xs + [x];
    var t := if x.Some? then [x.value] else [];
    if i < |xs| {
      var h := if xs[i].Some? then [xs[i].value] else [];
      assert ys[i] == xs[i];
      calc {
        Somes(ys, i, |xs| + 1);
        h + Somes(ys, i + 1, |xs| + 1);
        { SomesAppendFrom(xs, x, i + 1); }
        h + (Somes(xs, i + 1, |xs|) + t);
        (h + Somes(xs, i + 1, |xs|)) + t;
        Somes(xs, i, |xs|) + t;
      }
    } else {
      assert ys[i] == x;
      calc {
        Somes(ys, i, |xs| + 1);
        t + Somes(ys, i + 1, |xs| + 1);
        t;
      }
    }
  }

  /** A non-empty sequence is its front and its last element. */
  lemma InitLast<T>(xs: seq<T>)
    requires xs != []
    ensures xs[..|xs| - 1] + [xs[|xs| - 1]] == xs
  {
  }

  /** Appending an element leaves the front as it was. */
  lemma FrontOfSnoc<T>(xs: seq<T>, x: T)
    ensures (xs + [x])[..|xs|] == xs && (xs + [x])[|xs|] == x
  {
  }
}
