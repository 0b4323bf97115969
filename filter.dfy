/**
 * List comprehensions: `[f(x) for x in xs if keep(x)]`, as both the docling sectioning loop
 * and the key-point cleaning write them, and `[f(i, x) for i, x in enumerate(xs, 1)]`, as the
 * search agent numbers the shown documents. `keep` and `f` are function values, so the facts
 * below hold whatever the condition and the mapping are.
 */
module Filter {

  /** `[f(x) for x in xs if keep(x)]`, built from the back as a loop that appends builds it. */
  function FilterMap<T, U>(xs: seq<T>, keep: T -> bool, f: T -> U): seq<U> {
    if xs == [] then []
    else
      var last := xs[|xs| - 1];
      FilterMap(xs[..|xs| - 1], keep, f) + (if keep(last) then [f(last)] else [])
  }

  /** The positions of the kept elements, in order. */
  function KeptIndices<T>(xs: seq<T>, keep: T -> bool): seq<nat> {
    if xs == [] then []
    else KeptIndices(xs[..|xs| - 1], keep) + (if keep(xs[|xs| - 1]) then [|xs| - 1] else [])
  }

  /** One more element appends its image exactly when it is kept. */
  lemma FilterMapSnoc<T, U>(xs: seq<T>, x: T, keep: T -> bool, f: T -> U)
    ensures FilterMap(xs + [x], keep, f) == FilterMap(xs, keep, f) + (if keep(x) then [f(x)] else [])
  {
    assert (xs + [x])[..|xs|] == xs;
  }

  /** A single kept element gives its image. */
  lemma FilterMapSingle<T, U>(x: T, keep: T -> bool, f: T -> U)
    requires keep(x)
    ensures FilterMap([x], keep, f) == [f(x)]
  {
    assert [x][..0] == [];
  }

  /** Output j is the image of the kept element at position KeptIndices(xs, keep)[j]. */
  lemma {:induction false} KeptIndicesMatch<T, U>(xs: seq<T>, keep: T -> bool, f: T -> U)
    ensures |KeptIndices(xs, keep)| == |FilterMap(xs, keep, f)|
    ensures forall j | 0 <= j < |KeptIndices(xs, keep)| ::
      && KeptIndices(xs, keep)[j] < |xs|
      && keep(xs[KeptIndices(xs, keep)[j]])
      && FilterMap(xs, keep, f)[j] == f(xs[KeptIndices(xs, keep)[j]])
    decreases |xs|
  {
    if xs != [] {
      var init, last := xs[..|xs| - 1], xs[|xs| - 1];
      KeptIndicesMatch(init, keep, f);
      var idx0, out0 := KeptIndices(init, keep), FilterMap(init, keep, f);
      var idx, out := KeptIndices(xs, keep), FilterMap(xs, keep, f);
      forall j | 0 <= j < |idx|
        ensures idx[j] < |xs| && keep(xs[idx[j]]) && out[j] == f(xs[idx[j]])
      {
        if j < |idx0| {
          assert idx[j] == idx0[j] && out[j] == out0[j] && init[idx0[j]] == xs[idx0[j]];
        }
      }
    }
  }

  /** The kept positions increase. */
  lemma {:induction false} KeptIndicesIncrease<T>(xs: seq<T>, keep: T -> bool)
    ensures forall j | 0 <= j < |KeptIndices(xs, keep)| :: KeptIndices(xs, keep)[j] < |xs|
    ensures forall j | 0 <= j < |KeptIndices(xs, keep)| - 1 :: KeptIndices(xs, keep)[j] < KeptIndices(xs, keep)[j + 1]
    decreases |xs|
  {
    if xs != [] {
      KeptIndicesIncrease(xs[..|xs| - 1], keep);
    }
  }

  /** A position that was not kept holds an element the condition rejects. */
  lemma {:induction false} UnkeptFail<T>(xs: seq<T>, keep: T -> bool)
    ensures forall k | 0 <= k < |xs| && k !in KeptIndices(xs, keep) :: !keep(xs[k])
    decreases |xs|
  {
    if xs != [] {
      var init := xs[..|xs| - 1];
      UnkeptFail(init, keep);
      forall k | 0 <= k < |xs| && k !in KeptIndices(xs, keep) ensures !keep(xs[k]) {
        if k < |init| {
          assert k !in KeptIndices(init, keep);
          assert init[k] == xs[k];
        }
      }
    }
  }

  /** Every output comes from a kept element, and every kept element shows up in the output. */
  lemma FilterMapMembers<T, U>(xs: seq<T>, keep: T -> bool, f: T -> U)
    ensures forall y | y in FilterMap(xs, keep, f) :: exists x | x in xs :: keep(x) && y == f(x)
    ensures forall x | x in xs && keep(x) :: f(x) in FilterMap(xs, keep, f)
  {
    var idx, out := KeptIndices(xs, keep), FilterMap(xs, keep, f);
    KeptIndicesMatch(xs, keep, f);
    UnkeptFail(xs, keep);
    forall y | y in out ensures exists x | x in xs :: keep(x) && y == f(x) {
      var j :| 0 <= j < |out| && out[j] == y;
      assert xs[idx[j]] in xs;
    }
    forall x | x in xs && keep(x) ensures f(x) in out {
      var i :| 0 <= i < |xs| && xs[i] == x;
      assert i in idx;
      var j :| 0 <= j < |idx| && idx[j] == i;
      assert out[j] == f(x);
    }
  }

  /** `[f(i, x) for i, x in enumerate(xs, 1)]` */
  function Numbered<T, U>(xs: seq<T>, f: (nat, T) -> U): seq<U> {
    seq(|xs|, i requires 0 <= i < |xs| => f(i + 1, xs[i]))
  }

  /** One more element appends its image under its 1-based position. */
  lemma NumberedSnoc<T, U>(xs: seq<T>, x: T, f: (nat, T) -> U)
    ensures Numbered(xs + [x], f) == Numbered(xs, f) + [f(|xs| + 1, x)]
  {
    var l, r := Numbered(xs + [x], f), Numbered(xs, f) + [f(|xs| + 1, x)];
    assert forall i | 0 <= i < |xs| :: l[i] == f(i + 1, xs[i]) == r[i];
  }

  /** A header line followed by the numbered images of a prefix of xs. */
  lemma NumberedPrefix<T, U>(h: U, xs: seq<T>, shown: seq<T>, f: (nat, T) -> U)
    requires |shown| <= |xs| && forall i | 0 <= i < |shown| :: shown[i] == xs[i]
    ensures var lines := [h] + Numbered(shown, f);
      && |lines| == 1 + |shown| && lines[0] == h
      && forall i | 0 <= i < |lines| - 1 :: lines[i + 1] == f(i + 1, xs[i])
  {
  }
}
