/**
 N-dimensional lookup tables (src/container/cpp/lookup_table.cpp).

 The program interpolates by adding up 2^dim weighted corners, with corners numbered by
 bit patterns and cells addressed by a row-major offset. The reference is linear
 interpolation along the first axis between the interpolated slabs of the remaining axes.
 Doubles are modelled as reals.
 */
module LookupTables {
  import opened Common

  // ---------------------------------------------------------------------------
  // Arithmetic kept behind names, so that layout and sums are proved linearly
  // ---------------------------------------------------------------------------

  function Mul(x: real, y: real): real { x * y }

  lemma {:induction false} MulMul(x: real, y: real, z: real)
    ensures Mul(Mul(x, y), z) == Mul(x, Mul(y, z))
  {
  }

  lemma {:induction false} MulPositive(x: real, y: real)
    requires 0.0 <= x && 0.0 <= y
    ensures 0.0 <= x * y
  {
  }

  lemma {:induction false} ScaleDown(t: real, x: real)
    requires 0.0 <= t <= 1.0 && 0.0 <= x
    ensures 0.0 <= Mul(t, x) <= x
  {
    MulPositive(t, x);
    MulPositive(1.0 - t, x);
    assert (1.0 - t) * x == x - t * x;
  }

  lemma {:induction false} MulNegate(t: real, x: real)
    ensures Mul(t, -x) == -Mul(t, x)
  {
  }

  lemma {:induction false} Fraction(p: real, q: real)
    requires 0.0 <= p <= q && 0.0 < q
    ensures 0.0 <= p / q <= 1.0
    ensures p == q ==> p / q == 1.0
  {
  }

  lemma {:induction false} TimesIsProduct(n: nat, m: nat)
    ensures Times(n, m) == n * m
  {
    if n > 0 {
      TimesIsProduct(n - 1, m);
      assert n * m == (n - 1) * m + m;
    }
  }

  lemma {:induction false} TimesSum(a: nat, b: nat, m: nat)
    ensures Times(a + b, m) == Times(a, m) + Times(b, m)
  {
    if b > 0 {
      TimesSum(a, b - 1, m);
    }
  }

  lemma {:induction false} TimesNested(a: nat, n: nat, m: nat)
    ensures Times(Times(a, n), m) == Times(a, Times(n, m))
  {
    if a > 0 {
      TimesNested(a - 1, n, m);
      TimesSum(Times(a - 1, n), n, m);
    }
  }

  // ---------------------------------------------------------------------------
  // Shape of a table
  // ---------------------------------------------------------------------------

  ghost predicate Sorted(axis: seq<real>) {
    forall i, j :: 0 <= i < j < |axis| ==> axis[i] <= axis[j]
  }

  ghost predicate StrictlyAscending(axis: seq<real>) {
    forall i, j :: 0 <= i < j < |axis| ==> axis[i] < axis[j]
  }

  ghost predicate GoodAxes(axes: seq<seq<real>>) {
    forall d :: 0 <= d < |axes| ==> |axes[d]| > 0 && Sorted(axes[d])
  }

  /** Number of cells spanned by the axes. */
  ghost function Cells(axes: seq<seq<real>>): nat {
    if axes == [] then 1 else Times(|axes[0]|, Cells(axes[1..]))
  }

  ghost predicate Shaped(axes: seq<seq<real>>, values: seq<real>) {
    GoodAxes(axes) && |values| == Cells(axes)
  }

  /** Block i of n lies inside the n blocks. */
  lemma {:induction false} BlockFits(i: nat, n: nat, m: nat)
    requires i < n
    ensures Times(i + 1, m) == Times(i, m) + m <= Times(n, m)
  {
    TimesSum(i + 1, n - i - 1, m);
  }

  /** The cells whose first index is i: contiguous, because the first axis varies slowest. */
  ghost function Slab(axes: seq<seq<real>>, values: seq<real>, i: nat): (slab: seq<real>)
    requires axes != [] && Shaped(axes, values) && i < |axes[0]|
    ensures Shaped(axes[1..], slab)
  {
    var m := Cells(axes[1..]);
    BlockFits(i, |axes[0]|, m);
    values[Times(i, m)..Times(i + 1, m)]
  }

  ghost function Distance(p: real, c: real): real { if p < c then c - p else p - c }

  // ---------------------------------------------------------------------------
  // Reference: nested one-dimensional interpolation at the clamped point
  // ---------------------------------------------------------------------------

  /** The point of the axis range that is nearest to c. */
  function Clamp(axis: seq<real>, c: real): (p: real)
    requires axis != []
    ensures axis[0] <= axis[|axis| - 1] ==>
              && axis[0] <= p <= axis[|axis| - 1]
              && forall q :: axis[0] <= q <= axis[|axis| - 1] ==> Distance(p, c) <= Distance(q, c)
  {
    if c < axis[0] then axis[0]
    else if axis[|axis| - 1] < c then axis[|axis| - 1]
    else c
  }

  ghost function Lerp(axis: seq<real>, ys: seq<real>, c: real): real
    requires |axis| == |ys| > 0
  {
    if c <= axis[0] || |axis| == 1 then ys[0]
    else if c <= axis[1] then ys[0] + Mul((c - axis[0]) / (axis[1] - axis[0]), ys[1] - ys[0])
    else Lerp(axis[1..], ys[1..], c)
  }

  ghost function Nested(axes: seq<seq<real>>, values: seq<real>, coords: seq<real>): real
    requires Shaped(axes, values) && |coords| == |axes|
    decreases |axes|, 1
  {
    if axes == [] then values[0]
    else Lerp(axes[0], Slabs(axes, values, coords[1..]), Clamp(axes[0], coords[0]))
  }

  /** The interpolated value of every slab along the first axis. */
  ghost function Slabs(axes: seq<seq<real>>, values: seq<real>, coords: seq<real>): (ys: seq<real>)
    requires axes != [] && Shaped(axes, values) && |coords| == |axes| - 1
    ensures |ys| == |axes[0]|
    decreases |axes|, 0
  {
    seq(|axes[0]|, i requires 0 <= i < |axes[0]| => Nested(axes[1..], Slab(axes, values, i), coords))
  }

  /** Between the ends of the first axis the slabs are interpolated at the coordinate itself. */
  lemma {:induction false} NestedInside(axes: seq<seq<real>>, values: seq<real>, coords: seq<real>)
    requires axes != [] && Shaped(axes, values) && |coords| == |axes|
    requires axes[0][0] <= coords[0] <= axes[0][|axes[0]| - 1]
    ensures Nested(axes, values, coords) == Lerp(axes[0], Slabs(axes, values, coords[1..]), coords[0])
  {
  }

  /** Beyond an end of any axis the answer is the one at that end. */
  lemma {:induction false} NestedOutside(axes: seq<seq<real>>, values: seq<real>, coords: seq<real>, d: nat)
    requires Shaped(axes, values) && |coords| == |axes| && d < |axes|
    ensures coords[d] <= axes[d][0] ==>
              Nested(axes, values, coords) == Nested(axes, values, coords[d := axes[d][0]])
    ensures axes[d][|axes[d]| - 1] <= coords[d] ==>
              Nested(axes, values, coords) == Nested(axes, values, coords[d := axes[d][|axes[d]| - 1]])
    decreases |axes|
  {
    var low, high := axes[d][0], axes[d][|axes[d]| - 1];
    if d == 0 {
      assert coords[0 := low][1..] == coords[1..] && coords[0 := high][1..] == coords[1..];
      assert low <= high;
    } else {
      hide Clamp, Lerp, Slab;
      forall i | 0 <= i < |axes[0]|
        ensures coords[d] <= low ==>
                  Nested(axes[1..], Slab(axes, values, i), coords[1..]) ==
                  Nested(axes[1..], Slab(axes, values, i), coords[d := low][1..])
        ensures high <= coords[d] ==>
                  Nested(axes[1..], Slab(axes, values, i), coords[1..]) ==
                  Nested(axes[1..], Slab(axes, values, i), coords[d := high][1..])
      {
        NestedOutside(axes[1..], Slab(axes, values, i), coords[1..], d - 1);
        assert coords[d := low][1..] == coords[1..][d - 1 := low];
        assert coords[d := high][1..] == coords[1..][d - 1 := high];
      }
      if coords[d] <= low {
        assert Slabs(axes, values, coords[1..]) == Slabs(axes, values, coords[d := low][1..]);
      }
      if high <= coords[d] {
        assert Slabs(axes, values, coords[1..]) == Slabs(axes, values, coords[d := high][1..]);
      }
    }
  }

  // ---------------------------------------------------------------------------
  // The program's form: one bracket per axis, one term per corner
  // ---------------------------------------------------------------------------

  /** Lower grid point of the interval holding a coordinate, and the weight of that point. */
  datatype Bracket = Bracket(lo: nat, w: real)

  /** The upper grid point exists whenever it carries weight. */
  ghost predicate Usable(b: Bracket, n: nat) {
    b.lo < n && (b.w != 1.0 ==> b.lo + 1 < n)
  }

  ghost predicate AllUsable(bs: seq<Bracket>, axes: seq<seq<real>>) {
    |bs| == |axes| && forall d :: 0 <= d < |axes| ==> Usable(bs[d], |axes[d]|)
  }

  /** Weighted mean of the two grid points of a bracket. */
  ghost function Blend(b: Bracket, low: real, high: real): real {
    if b.w == 1.0 then low else Mul(b.w, low) + Mul(1.0 - b.w, high)
  }

  /** b interpolates along the axis at c, whatever the values at the grid points. */
  ghost predicate Brackets(b: Bracket, axis: seq<real>, c: real) {
    && Usable(b, |axis|)
    && forall ys: seq<real> :: |ys| == |axis| ==>
         Lerp(axis, ys, c) == Blend(b, ys[b.lo], if b.w == 1.0 then 0.0 else ys[b.lo + 1])
  }

  /** Weight of one side of a bracket. */
  function Side(b: Bracket, takeLo: bool): real {
    if takeLo then b.w else 1.0 - b.w
  }

  function Position(b: Bracket, takeLo: bool): nat {
    if takeLo then b.lo else b.lo + 1
  }

  /** Bit d of a corner number. */
  function Bit(corner: nat, d: nat): bool {
    if d == 0 then corner % 2 == 1 else Bit(corner / 2, d - 1)
  }

  /** One corner's contribution, peeling the axes from the slowest. */
  ghost function Term(axes: seq<seq<real>>, values: seq<real>, bs: seq<Bracket>, corner: nat): real
    requires Shaped(axes, values) && AllUsable(bs, axes)
    decreases |axes|
  {
    if axes == [] then values[0]
    else
      var takeLo := corner % 2 == 1;
      var w := Side(bs[0], takeLo);
      if w == 0.0 then 0.0
      else Mul(w, Term(axes[1..], Slab(axes, values, Position(bs[0], takeLo)), bs[1..], corner / 2))
  }

  ghost function Corners(axes: seq<seq<real>>, values: seq<real>, bs: seq<Bracket>, k: nat): real
    requires Shaped(axes, values) && AllUsable(bs, axes)
  {
    if k == 0 then 0.0 else Corners(axes, values, bs, k - 1) + Term(axes, values, bs, k - 1)
  }

  /** The upper slab of a bracket, where it carries weight. */
  ghost function UpperCorners(axes: seq<seq<real>>, values: seq<real>, bs: seq<Bracket>, k: nat): real
    requires axes != [] && Shaped(axes, values) && AllUsable(bs, axes)
  {
    if bs[0].w == 1.0 then 0.0
    else Corners(axes[1..], Slab(axes, values, bs[0].lo + 1), bs[1..], k)
  }

  /** The two corners 2j and 2j+1 differ only on the first axis. */
  lemma {:induction false} TermPair(axes: seq<seq<real>>, values: seq<real>, bs: seq<Bracket>, j: nat)
    requires axes != [] && Shaped(axes, values) && AllUsable(bs, axes)
    ensures Term(axes, values, bs, 2 * j) + Term(axes, values, bs, 2 * j + 1) ==
            Blend(bs[0], Term(axes[1..], Slab(axes, values, bs[0].lo), bs[1..], j),
                  if bs[0].w == 1.0 then 0.0 else Term(axes[1..], Slab(axes, values, bs[0].lo + 1), bs[1..], j))
  {
  }

  lemma {:induction false} BlendSum(b: Bracket, x: real, x': real, y: real, y': real)
    ensures Blend(b, x + x', y + y') == Blend(b, x, y) + Blend(b, x', y')
  {
  }

  lemma {:induction false} BlendZero(b: Bracket)
    ensures Blend(b, 0.0, 0.0) == 0.0
  {
  }

  /** Summing corners in pairs splits the sum along the first axis. */
  lemma {:induction false} CornersSplit(axes: seq<seq<real>>, values: seq<real>, bs: seq<Bracket>, k: nat)
    requires axes != [] && Shaped(axes, values) && AllUsable(bs, axes)
    ensures Corners(axes, values, bs, 2 * k) ==
            Blend(bs[0], Corners(axes[1..], Slab(axes, values, bs[0].lo), bs[1..], k),
                  UpperCorners(axes, values, bs, k))
  {
    hide Mul, Term, Blend, Slab;
    if k == 0 {
      BlendZero(bs[0]);
    } else {
      CornersSplit(axes, values, bs, k - 1);
      TermPair(axes, values, bs, k - 1);
      assert 2 * k - 1 == 2 * (k - 1) + 1;
      assert Corners(axes, values, bs, 2 * k)
          == Corners(axes, values, bs, 2 * (k - 1)) + Term(axes, values, bs, 2 * (k - 1))
             + Term(axes, values, bs, 2 * (k - 1) + 1);
      BlendSum(bs[0],
               Corners(axes[1..], Slab(axes, values, bs[0].lo), bs[1..], k - 1),
               Term(axes[1..], Slab(axes, values, bs[0].lo), bs[1..], k - 1),
               UpperCorners(axes, values, bs, k - 1),
               if bs[0].w == 1.0 then 0.0 else Term(axes[1..], Slab(axes, values, bs[0].lo + 1), bs[1..], k - 1));
    }
  }

  /** Nested interpolation looks only at the two slabs around the coordinate. */
  lemma {:induction false} NestedByBracket(axes: seq<seq<real>>, values: seq<real>, coords: seq<real>, b: Bracket)
    requires axes != [] && Shaped(axes, values) && |coords| == |axes|
    requires Brackets(b, axes[0], Clamp(axes[0], coords[0]))
    ensures Nested(axes, values, coords) ==
            Blend(b, Nested(axes[1..], Slab(axes, values, b.lo), coords[1..]),
                  if b.w == 1.0 then 0.0 else Nested(axes[1..], Slab(axes, values, b.lo + 1), coords[1..]))
  {
  }

  ghost predicate BracketsAll(bs: seq<Bracket>, axes: seq<seq<real>>, coords: seq<real>) {
    && GoodAxes(axes) && |coords| == |axes| == |bs|
    && forall d :: 0 <= d < |axes| ==> Brackets(bs[d], axes[d], Clamp(axes[d], coords[d]))
  }

  lemma {:induction false} AllBracketsUsable(axes: seq<seq<real>>, coords: seq<real>, bs: seq<Bracket>)
    requires BracketsAll(bs, axes, coords)
    ensures AllUsable(bs, axes)
  {
  }

  lemma {:induction false} FirstBracket(axes: seq<seq<real>>, coords: seq<real>, bs: seq<Bracket>)
    requires axes != [] && BracketsAll(bs, axes, coords)
    ensures axes[0] != [] && Brackets(bs[0], axes[0], Clamp(axes[0], coords[0])) && Usable(bs[0], |axes[0]|)
    ensures BracketsAll(bs[1..], axes[1..], coords[1..])
  {
  }

  lemma {:induction false} NoAxes(axes: seq<seq<real>>, values: seq<real>, coords: seq<real>, bs: seq<Bracket>)
    requires axes == [] && coords == [] && Shaped(axes, values) && AllUsable(bs, axes)
    ensures Corners(axes, values, bs, Pow2(|axes|)) == Nested(axes, values, coords)
  {
  }

  /** The corner sum over all 2^dim corners is nested linear interpolation. */
  lemma {:induction false} CornerSumIsNested(
      axes: seq<seq<real>>, values: seq<real>, coords: seq<real>, bs: seq<Bracket>)
    requires Shaped(axes, values) && |coords| == |axes| == |bs| && BracketsAll(bs, axes, coords)
    ensures AllUsable(bs, axes)
    ensures Corners(axes, values, bs, Pow2(|axes|)) == Nested(axes, values, coords)
    decreases |axes|
  {
    hide *;
    AllBracketsUsable(axes, coords, bs);
    if axes == [] {
      NoAxes(axes, values, coords, bs);
    } else {
      FirstBracket(axes, coords, bs);
      UsableMeans(bs[0], |axes[0]|);
      CornerSumIsNested(axes[1..], Slab(axes, values, bs[0].lo), coords[1..], bs[1..]);
      if bs[0].w != 1.0 {
        CornerSumIsNested(axes[1..], Slab(axes, values, bs[0].lo + 1), coords[1..], bs[1..]);
      }
      CornerSumStep(axes, values, coords, bs);
    }
  }

  /** If the corner sums of the two slabs of the first bracket are nested interpolation, so is the whole. */
  lemma {:induction false} CornerSumStep(axes: seq<seq<real>>, values: seq<real>, coords: seq<real>, bs: seq<Bracket>)
    requires axes != [] && Shaped(axes, values) && |coords| == |axes| == |bs| && AllUsable(bs, axes)
    requires Brackets(bs[0], axes[0], Clamp(axes[0], coords[0]))
    requires Corners(axes[1..], Slab(axes, values, bs[0].lo), bs[1..], Pow2(|axes| - 1)) ==
             Nested(axes[1..], Slab(axes, values, bs[0].lo), coords[1..])
    requires bs[0].w != 1.0 ==>
               Corners(axes[1..], Slab(axes, values, bs[0].lo + 1), bs[1..], Pow2(|axes| - 1)) ==
               Nested(axes[1..], Slab(axes, values, bs[0].lo + 1), coords[1..])
    ensures Corners(axes, values, bs, Pow2(|axes|)) == Nested(axes, values, coords)
  {
    hide Mul, Blend, Lerp, Clamp, Slab, Term, Brackets, Nested, Corners, Shaped, Cells, AllUsable;
    CornersSplit(axes, values, bs, Pow2(|axes| - 1));
    NestedByBracket(axes, values, coords, bs[0]);
  }

  lemma {:induction false} UsableMeans(b: Bracket, n: nat)
    requires Usable(b, n)
    ensures b.lo < n && (b.w != 1.0 ==> b.lo + 1 < n)
  {
  }

  // ---------------------------------------------------------------------------
  // What nested interpolation guarantees
  // ---------------------------------------------------------------------------

  lemma {:induction false} ConvexStep(a: real, b: real, t: real, lo: real, hi: real)
    requires lo <= a <= hi && lo <= b <= hi && 0.0 <= t <= 1.0
    ensures lo <= a + Mul(t, b - a) <= hi
  {
    hide Mul;
    if a <= b {
      ScaleDown(t, b - a);
    } else {
      ScaleDown(t, a - b);
      MulNegate(t, a - b);
      assert b - a == -(a - b);
    }
  }

  lemma {:induction false} LerpBetween(axis: seq<real>, ys: seq<real>, c: real, lo: real, hi: real)
    requires |axis| == |ys| > 0
    requires forall i :: 0 <= i < |ys| ==> lo <= ys[i] <= hi
    ensures lo <= Lerp(axis, ys, c) <= hi
    decreases |axis|
  {
    hide Mul;
    if c <= axis[0] || |axis| == 1 {
    } else if c <= axis[1] {
      Fraction(c - axis[0], axis[1] - axis[0]);
      ConvexStep(ys[0], ys[1], (c - axis[0]) / (axis[1] - axis[0]), lo, hi);
    } else {
      LerpBetween(axis[1..], ys[1..], c, lo, hi);
    }
  }

  /** Interpolation never leaves the range of the stored values. */
  lemma {:induction false} NestedBetween(axes: seq<seq<real>>, values: seq<real>, coords: seq<real>, lo: real, hi: real)
    requires Shaped(axes, values) && |coords| == |axes|
    requires forall i :: 0 <= i < |values| ==> lo <= values[i] <= hi
    ensures lo <= Nested(axes, values, coords) <= hi
    decreases |axes|
  {
    hide Lerp, Clamp;
    if axes != [] {
      var ys := Slabs(axes, values, coords[1..]);
      forall i | 0 <= i < |ys| ensures lo <= ys[i] <= hi {
        var slab := Slab(axes, values, i);
        BlockFits(i, |axes[0]|, Cells(axes[1..]));
        assert forall j :: 0 <= j < |slab| ==> slab[j] == values[Times(i, Cells(axes[1..])) + j];
        NestedBetween(axes[1..], slab, coords[1..], lo, hi);
      }
      LerpBetween(axes[0], ys, Clamp(axes[0], coords[0]), lo, hi);
    }
  }

  lemma {:induction false} LerpAtNode(axis: seq<real>, ys: seq<real>, k: nat)
    requires |axis| == |ys| && k < |axis| && StrictlyAscending(axis)
    ensures Lerp(axis, ys, axis[k]) == ys[k]
    decreases k
  {
    if k == 1 {
      Fraction(axis[1] - axis[0], axis[1] - axis[0]);
    } else if k > 1 {
      LerpAtNode(axis[1..], ys[1..], k - 1);
    }
  }

  /** Horner form of the row-major offset, last axis fastest. */
  ghost function RowMajor(sizes: seq<nat>, pos: seq<nat>): nat
    requires |sizes| == |pos|
  {
    if sizes == [] then 0
    else Times(RowMajor(sizes[..|sizes| - 1], pos[..|pos| - 1]), sizes[|sizes| - 1]) + pos[|pos| - 1]
  }

  ghost function Sizes(axes: seq<seq<real>>): (s: seq<nat>)
    ensures |s| == |axes|
  {
    seq(|axes|, d requires 0 <= d < |axes| => |axes[d]|)
  }

  ghost predicate Within(pos: seq<nat>, axes: seq<seq<real>>) {
    |pos| == |axes| && forall d :: 0 <= d < |axes| ==> pos[d] < |axes[d]|
  }

  /** The cells reached by fixing the first d indices. */
  ghost function Block(axes: seq<seq<real>>, values: seq<real>, pos: seq<nat>, d: nat): (block: seq<real>)
    requires Shaped(axes, values) && d <= |axes| && d <= |pos|
    requires forall e :: 0 <= e < d ==> pos[e] < |axes[e]|
    ensures Shaped(axes[d..], block)
    decreases d
  {
    if d == 0 then assert axes[0..] == axes; values
    else
      assert axes[d - 1..][1..] == axes[d..];
      Slab(axes[d - 1..], Block(axes, values, pos, d - 1), pos[d - 1])
  }

  lemma {:induction false} OffsetArithmetic(outer: nat, p: nat, n: nat, m: nat)
    ensures Times(Times(outer, n) + p, m) == Times(outer, Times(n, m)) + Times(p, m)
    ensures Times(Times(outer, n) + p + 1, m) == Times(outer, Times(n, m)) + Times(p + 1, m)
    ensures Times(outer + 1, Times(n, m)) == Times(outer, Times(n, m)) + Times(n, m)
  {
    TimesSum(Times(outer, n), p, m);
    TimesSum(Times(outer, n), p + 1, m);
    TimesNested(outer, n, m);
  }

  lemma {:induction false} SliceOfSlice(s: seq<real>, a: nat, b: nat, c: nat, d: nat)
    requires a <= b <= |s| && c <= d <= b - a
    ensures s[a..b][c..d] == s[a + c..a + d]
  {
    forall i | 0 <= i < d - c ensures s[a..b][c..d][i] == s[a + c..a + d][i] {
      assert s[a..b][c..d][i] == s[a..b][c + i] == s[a + c + i];
    }
  }

  lemma {:induction false} ShapedLength(axes: seq<seq<real>>, values: seq<real>)
    requires Shaped(axes, values)
    ensures |values| == Cells(axes)
  {
  }

  /** Fixing d indices selects the block at the Horner offset of those indices. */
  lemma {:induction false} BlockAtOffset(axes: seq<seq<real>>, values: seq<real>, pos: seq<nat>, d: nat)
    requires Shaped(axes, values) && d <= |axes| && d <= |pos|
    requires forall e :: 0 <= e < d ==> pos[e] < |axes[e]|
    ensures var m := Cells(axes[d..]);
            var off := RowMajor(Sizes(axes)[..d], pos[..d]);
            Times(off, m) <= Times(off + 1, m) <= |values| &&
            Block(axes, values, pos, d) == values[Times(off, m)..Times(off + 1, m)]
    decreases d
  {
    var sizes := Sizes(axes);
    if d == 0 {
      hide Shaped;
      assert axes[0..] == axes;
      assert Times(1, Cells(axes)) == Times(0, Cells(axes)) + Cells(axes);
      assert |values| == Cells(axes) by { ShapedLength(axes, values); }
    } else {
      hide Block, Times, Cells, Shaped, RowMajor;
      BlockAtOffset(axes, values, pos, d - 1);
      InnerBlock(axes, values, pos, d, RowMajor(sizes[..d - 1], pos[..d - 1]));
      RowMajorStep(sizes, pos, d);
      assert sizes[d - 1] == |axes[d - 1]|;
    }
  }

  lemma {:induction false} RowMajorStep(sizes: seq<nat>, pos: seq<nat>, d: nat)
    requires 0 < d <= |sizes| && d <= |pos|
    ensures RowMajor(sizes[..d], pos[..d]) == Times(RowMajor(sizes[..d - 1], pos[..d - 1]), sizes[d - 1]) + pos[d - 1]
  {
    assert sizes[..d][..d - 1] == sizes[..d - 1] && pos[..d][..d - 1] == pos[..d - 1];
  }

  /** One more index moves from a block to the block inside it. */
  lemma {:induction false} InnerBlock(axes: seq<seq<real>>, values: seq<real>, pos: seq<nat>, d: nat, outer: nat)
    requires Shaped(axes, values) && 0 < d <= |axes| && d <= |pos|
    requires forall e :: 0 <= e < d ==> pos[e] < |axes[e]|
    requires var m := Cells(axes[d - 1..]);
             Times(outer, m) <= Times(outer + 1, m) <= |values| &&
             Block(axes, values, pos, d - 1) == values[Times(outer, m)..Times(outer + 1, m)]
    ensures var m := Cells(axes[d..]);
            var off := Times(outer, |axes[d - 1]|) + pos[d - 1];
            Times(off, m) <= Times(off + 1, m) <= |values| &&
            Block(axes, values, pos, d) == values[Times(off, m)..Times(off + 1, m)]
  {
    hide GoodAxes, RowMajor, Times;
    var n, m, p := |axes[d - 1]|, Cells(axes[d..]), pos[d - 1];
    assert axes[d - 1..][1..] == axes[d..] && axes[d - 1..][0] == axes[d - 1];
    assert Cells(axes[d - 1..]) == Times(n, m);
    BlockFits(p, n, m);
    OffsetArithmetic(outer, p, n, m);
    SliceOfSlice(values, Times(outer, Times(n, m)), Times(outer + 1, Times(n, m)), Times(p, m), Times(p + 1, m));
  }

  /** Every index vector addresses a cell of the table. */
  lemma {:induction false} CellInRange(axes: seq<seq<real>>, values: seq<real>, pos: seq<nat>)
    requires Shaped(axes, values) && Within(pos, axes)
    ensures RowMajor(Sizes(axes), pos) < |values|
    ensures Block(axes, values, pos, |axes|) == [values[RowMajor(Sizes(axes), pos)]]
  {
    assert pos[..|axes|] == pos && Sizes(axes)[..|axes|] == Sizes(axes);
    BlockAtOffset(axes, values, pos, |axes|);
    TimesIsProduct(RowMajor(Sizes(axes), pos), 1);
    TimesIsProduct(RowMajor(Sizes(axes), pos) + 1, 1);
  }

  lemma {:induction false} NestedAtBlock(axes: seq<seq<real>>, values: seq<real>, coords: seq<real>, pos: seq<nat>,
                                         d: nat)
    requires Shaped(axes, values) && |coords| == |axes| && Within(pos, axes) && d <= |axes|
    requires forall e :: 0 <= e < |axes| ==> StrictlyAscending(axes[e]) && coords[e] == axes[e][pos[e]]
    ensures Nested(axes[d..], Block(axes, values, pos, d), coords[d..]) == Block(axes, values, pos, |axes|)[0]
    decreases |axes| - d
  {
    if d < |axes| {
      NestedAtBlock(axes, values, coords, pos, d + 1);
      BlockStep(axes, values, coords, pos, d);
    } else {
      assert axes[d..] == [];
    }
  }

  /** At a grid point of its axis, a block interpolates to the block inside it. */
  lemma {:induction false} BlockStep(axes: seq<seq<real>>, values: seq<real>, coords: seq<real>, pos: seq<nat>, d: nat)
    requires Shaped(axes, values) && |coords| == |axes| && Within(pos, axes) && d < |axes|
    requires StrictlyAscending(axes[d]) && coords[d] == axes[d][pos[d]]
    ensures Nested(axes[d..], Block(axes, values, pos, d), coords[d..]) ==
            Nested(axes[d + 1..], Block(axes, values, pos, d + 1), coords[d + 1..])
  {
    hide Lerp, Slab, GoodAxes, Cells;
    var block, rest := Block(axes, values, pos, d), axes[d..];
    assert rest[1..] == axes[d + 1..] && coords[d..][1..] == coords[d + 1..];
    var ys := Slabs(rest, block, coords[d + 1..]);
    assert ys[pos[d]] == Nested(axes[d + 1..], Block(axes, values, pos, d + 1), coords[d + 1..]);
    assert Clamp(axes[d], coords[d]) == axes[d][pos[d]];
    LerpAtNode(axes[d], ys, pos[d]);
  }

  /** At a grid node of strictly ascending axes the stored cell is returned exactly. */
  lemma {:induction false} NestedAtNode(axes: seq<seq<real>>, values: seq<real>, coords: seq<real>, pos: seq<nat>)
    requires Shaped(axes, values) && |coords| == |axes| && Within(pos, axes)
    requires forall d :: 0 <= d < |axes| ==> StrictlyAscending(axes[d]) && coords[d] == axes[d][pos[d]]
    ensures RowMajor(Sizes(axes), pos) < |values|
    ensures Nested(axes, values, coords) == values[RowMajor(Sizes(axes), pos)]
  {
    CellInRange(axes, values, pos);
    NestedAtBlock(axes, values, coords, pos, 0);
    assert axes[0..] == axes && coords[0..] == coords;
  }

  // ---------------------------------------------------------------------------
  // Per-axis search and per-corner loop
  // ---------------------------------------------------------------------------

  lemma {:induction false} BlendFromSpan(a: real, b: real, c: real, low: real, high: real)
    requires a < c <= b
    ensures low + Mul((c - a) / (b - a), high - low) == Blend(Bracket(0, (b - c) / (b - a)), low, high)
  {
  }

  /** The weights computed around the first grid point at or above c reproduce Lerp. */
  lemma {:induction false} LerpByLowerBound(axis: seq<real>, ys: seq<real>, c: real, up: nat)
    requires |axis| == |ys| && up < |axis|
    requires forall i :: 0 <= i < up ==> axis[i] < c
    requires c <= axis[up]
    ensures up == 0 ==> Lerp(axis, ys, c) == ys[0]
    ensures up > 0 ==>
              Lerp(axis, ys, c) ==
              Blend(Bracket(up - 1, (axis[up] - c) / (axis[up] - axis[up - 1])), ys[up - 1], ys[up])
    decreases up
  {
    hide Mul;
    if up == 1 {
      BlendFromSpan(axis[0], axis[1], c, ys[0], ys[1]);
    } else if up > 1 {
      LerpByLowerBound(axis[1..], ys[1..], c, up - 1);
    }
  }

  /** First index whose grid point is not below c. */
  method LowerBound(axis: seq<real>, c: real) returns (up: nat)
    requires Sorted(axis)
    ensures up <= |axis|
    ensures forall i :: 0 <= i < up ==> axis[i] < c
    ensures forall i :: up <= i < |axis| ==> c <= axis[i]
  {
    up := 0;
    var hi := |axis|;
    while up < hi
      invariant up <= hi <= |axis|
      invariant forall i :: 0 <= i < up ==> axis[i] < c
      invariant forall i :: hi <= i < |axis| ==> c <= axis[i]
    {
      var mid := (up + hi) / 2;
      if axis[mid] < c {
        up := mid + 1;
      } else {
        hi := mid;
      }
    }
  }

  /** Clamp a coordinate and find the interval and weight used on its axis. */
  method FindBracket(axis: seq<real>, coord: real) returns (b: Bracket)
    requires |axis| > 0 && Sorted(axis)
    ensures Brackets(b, axis, Clamp(axis, coord))
  {
    var c := Clamp(axis, coord);
    var up := LowerBound(axis, c);
    if up == 0 {
      b := Bracket(0, 1.0);
      forall ys: seq<real> | |ys| == |axis| ensures Lerp(axis, ys, c) == ys[0] {
        LerpByLowerBound(axis, ys, c, up);
      }
    } else {
      var span := axis[up] - axis[up - 1];
      b := Bracket(up - 1, if span > 0.0 then (axis[up] - c) / span else 0.0);
      forall ys: seq<real> | |ys| == |axis|
        ensures Lerp(axis, ys, c) == Blend(b, ys[b.lo], if b.w == 1.0 then 0.0 else ys[b.lo + 1])
      {
        LerpByLowerBound(axis, ys, c, up);
      }
    }
  }

  method FindBrackets(axes: seq<seq<real>>, coords: seq<real>) returns (bs: seq<Bracket>, sizes: seq<nat>)
    requires GoodAxes(axes) && |coords| == |axes|
    ensures |bs| == |axes| && sizes == Sizes(axes)
    ensures AllUsable(bs, axes) && BracketsAll(bs, axes, coords)
  {
    hide Lerp, Blend, Clamp;
    bs, sizes := [], [];
    for d := 0 to |axes|
      invariant |bs| == |sizes| == d
      invariant forall e :: 0 <= e < d ==> Brackets(bs[e], axes[e], Clamp(axes[e], coords[e]))
      invariant forall e :: 0 <= e < d ==> sizes[e] == |axes[e]|
    {
      var b := FindBracket(axes[d], coords[d]);
      bs, sizes := bs + [b], sizes + [|axes[d]|];
    }
  }

  method RowMajorOffset(sizes: seq<nat>, pos: seq<nat>) returns (off: nat)
    requires |sizes| == |pos|
    ensures off == RowMajor(sizes, pos)
  {
    off := 0;
    for d := 0 to |sizes|
      invariant off == RowMajor(sizes[..d], pos[..d])
    {
      assert sizes[..d + 1][..d] == sizes[..d] && pos[..d + 1][..d] == pos[..d];
      TimesIsProduct(off, sizes[d]);
      off := off * sizes[d] + pos[d];
    }
    assert sizes[..|sizes|] == sizes && pos[..|pos|] == pos;
  }

  /** A corner number with its low d bits dropped. */
  ghost function Shifted(corner: nat, d: nat): nat {
    if d == 0 then corner else Shifted(corner, d - 1) / 2
  }

  lemma {:induction false} ShiftHalf(corner: nat, d: nat)
    ensures Shifted(corner / 2, d) == Shifted(corner, d + 1)
  {
    if d > 0 {
      ShiftHalf(corner, d - 1);
    }
  }

  lemma {:induction false} BitOfShifted(corner: nat, d: nat)
    ensures Bit(corner, d) == (Shifted(corner, d) % 2 == 1)
    decreases d
  {
    if d > 0 {
      BitOfShifted(corner / 2, d - 1);
      ShiftHalf(corner, d - 1);
    }
  }

  /** The axes fixed so far contribute the factor w; the rest is the term of the inner block. */
  ghost predicate Peeled(axes: seq<seq<real>>, values: seq<real>, bs: seq<Bracket>, corner: nat,
                         d: nat, w: real, pos: seq<nat>)
    requires Shaped(axes, values) && AllUsable(bs, axes)
  {
    && d <= |axes| && |pos| == d
    && (forall e :: 0 <= e < d ==> pos[e] < |axes[e]|)
    && Term(axes, values, bs, corner) ==
       Mul(w, Term(axes[d..], Block(axes, values, pos, d), bs[d..], Shifted(corner, d)))
  }

  lemma {:induction false} PeelOne(axes: seq<seq<real>>, values: seq<real>, bs: seq<Bracket>, corner: nat,
                d: nat, w: real, pos: seq<nat>)
    requires Shaped(axes, values) && AllUsable(bs, axes)
    requires d < |axes| && Peeled(axes, values, bs, corner, d, w, pos)
    ensures var side := Side(bs[d], Bit(corner, d));
            if side == 0.0 then Term(axes, values, bs, corner) == 0.0
            else Peeled(axes, values, bs, corner, d + 1, Mul(w, side), pos + [Position(bs[d], Bit(corner, d))])
  {
    hide Mul, Slab, GoodAxes, Bit;
    BitOfShifted(corner, d);
    var takeLo := Bit(corner, d);
    var side := Side(bs[d], takeLo);
    assert axes[d..][0] == axes[d] && bs[d..][0] == bs[d];
    assert axes[d..][1..] == axes[d + 1..] && bs[d..][1..] == bs[d + 1..];
    if side == 0.0 {
      MulZero(w);
    } else {
      assert Usable(bs[d], |axes[d]|);
      var pos' := pos + [Position(bs[d], takeLo)];
      BlockPrefix(axes, values, pos, pos', d);
      MulMul(w, side, Term(axes[d + 1..], Block(axes, values, pos', d + 1), bs[d + 1..], Shifted(corner, d + 1)));
    }
  }

  lemma {:induction false} MulZero(w: real)
    ensures Mul(w, 0.0) == 0.0
  {
  }

  lemma {:induction false} MulNonZero(x: real, y: real)
    requires x != 0.0
    ensures Mul(x, y) == 0.0 <==> y == 0.0
  {
  }

  lemma {:induction false} BlockPrefix(axes: seq<seq<real>>, values: seq<real>, pos: seq<nat>, pos': seq<nat>, d: nat)
    requires Shaped(axes, values) && d <= |axes| && d <= |pos| && d <= |pos'|
    requires forall e :: 0 <= e < d ==> pos[e] == pos'[e] < |axes[e]|
    ensures Block(axes, values, pos, d) == Block(axes, values, pos', d)
    decreases d
  {
    if d > 0 {
      BlockPrefix(axes, values, pos, pos', d - 1);
    }
  }

  lemma {:induction false} PeelNone(axes: seq<seq<real>>, values: seq<real>, bs: seq<Bracket>, corner: nat)
    requires Shaped(axes, values) && AllUsable(bs, axes)
    ensures Peeled(axes, values, bs, corner, 0, 1.0, [])
  {
  }

  lemma {:induction false} TermOfNothing(axes: seq<seq<real>>, values: seq<real>, bs: seq<Bracket>, corner: nat)
    requires axes == [] && Shaped(axes, values) && AllUsable(bs, axes)
    ensures Term(axes, values, bs, corner) == values[0]
  {
  }

  lemma {:induction false} MulIs(x: real, y: real)
    ensures Mul(x, y) == x * y
  {
  }

  lemma {:induction false} PeelAll(axes: seq<seq<real>>, values: seq<real>, bs: seq<Bracket>, corner: nat, w: real,
                                   pos: seq<nat>)
    requires Shaped(axes, values) && AllUsable(bs, axes)
    requires Peeled(axes, values, bs, corner, |axes|, w, pos)
    ensures |pos| == |axes| && RowMajor(Sizes(axes), pos) < |values|
    ensures Term(axes, values, bs, corner) == w * values[RowMajor(Sizes(axes), pos)]
  {
    hide Block, RowMajor, Term, Mul;
    assert axes[|axes|..] == [];
    CellInRange(axes, values, pos);
    TermOfNothing(axes[|axes|..], Block(axes, values, pos, |axes|), bs[|axes|..], Shifted(corner, |axes|));
    MulIs(w, values[RowMajor(Sizes(axes), pos)]);
  }

  /** One corner: multiply the weights, give up as soon as they vanish, else read one cell. */
  method CornerTerm(axes: seq<seq<real>>, sizes: seq<nat>, values: seq<real>, bs: seq<Bracket>, corner: nat)
    returns (term: real)
    requires Shaped(axes, values) && AllUsable(bs, axes) && sizes == Sizes(axes)
    ensures term == Term(axes, values, bs, corner)
  {
    hide Mul, Term, Peeled, Shaped, Block, RowMajor;
    var w := 1.0;
    var pos: seq<nat> := [];
    PeelNone(axes, values, bs, corner);
    for d := 0 to |axes|
      invariant w != 0.0
      invariant Peeled(axes, values, bs, corner, d, w, pos)
    {
      var takeLo := Bit(corner, d);
      PeelOne(axes, values, bs, corner, d, w, pos);
      MulNonZero(w, Side(bs[d], takeLo));
      w := Mul(w, Side(bs[d], takeLo));
      if w == 0.0 {
        return 0.0;
      }
      pos := pos + [Position(bs[d], takeLo)];
    }
    PeelAll(axes, values, bs, corner, w, pos);
    var off := RowMajorOffset(sizes, pos);
    term := w * values[off];
  }

  /** All 2^dim corners, numbered by their bit patterns. */
  method SumCorners(axes: seq<seq<real>>, sizes: seq<nat>, values: seq<real>, bs: seq<Bracket>) returns (sum: real)
    requires Shaped(axes, values) && AllUsable(bs, axes) && sizes == Sizes(axes)
    ensures sum == Corners(axes, values, bs, Pow2(|axes|))
  {
    hide Shaped, AllUsable, Term;
    sum := 0.0;
    for corner := 0 to Pow2(|axes|)
      invariant sum == Corners(axes, values, bs, corner)
    {
      var term := CornerTerm(axes, sizes, values, bs, corner);
      sum := sum + term;
    }
  }

  method IsSorted(axis: seq<real>) returns (sorted: bool)
    ensures sorted == Sorted(axis)
  {
    if axis == [] {
      return true;
    }
    for i := 1 to |axis|
      invariant Sorted(axis[..i])
    {
      if axis[i] < axis[i - 1] {
        return false;
      }
    }
    assert axis[..|axis|] == axis;
    sorted := true;
  }

  lemma {:induction false} CellsEnds(axes: seq<seq<real>>, expected: nat)
    ensures Times(1, Cells(axes[0..])) == Cells(axes)
    ensures Times(expected, Cells(axes[|axes|..])) == expected
  {
    assert axes[0..] == axes && axes[|axes|..] == [];
    TimesIsProduct(1, Cells(axes));
    TimesIsProduct(expected, 1);
  }

  lemma {:induction false} CellsStep(axes: seq<seq<real>>, d: nat, expected: nat)
    requires d < |axes| && Times(expected, Cells(axes[d..])) == Cells(axes)
    ensures Times(expected * |axes[d]|, Cells(axes[d + 1..])) == Cells(axes)
  {
    assert axes[d..][1..] == axes[d + 1..];
    TimesIsProduct(expected, |axes[d]|);
    TimesNested(expected, |axes[d]|, Cells(axes[d + 1..]));
  }

  // ---------------------------------------------------------------------------
  // The table
  // ---------------------------------------------------------------------------

  datatype Template = Template(variableNames: seq<string>, indexSets: seq<seq<real>>)

  /** std::vector::resize: cut, or fill up with empty axes. */
  function Resize(axes: seq<seq<real>>, n: nat): (r: seq<seq<real>>)
    ensures |r| == n
    ensures forall d :: 0 <= d < n ==> r[d] == if d < |axes| then axes[d] else []
  {
    seq(n, d requires 0 <= d < n => if d < |axes| then axes[d] else [])
  }

  /** Axes given by the table win over the template's. */
  ghost function Overlay(own: seq<seq<real>>, tmpl: seq<seq<real>>): (r: seq<seq<real>>)
    requires |own| == |tmpl|
    ensures |r| == |own|
    ensures forall d :: 0 <= d < |r| ==> r[d] == if own[d] != [] then own[d] else tmpl[d]
  {
    seq(|own|, d requires 0 <= d < |own| => if own[d] != [] then own[d] else tmpl[d])
  }

  ghost predicate NoEmptyAxis(axes: seq<seq<real>>) {
    forall d :: 0 <= d < |axes| ==> axes[d] != []
  }

  /** Overlay axis by axis, stopping at the first axis that stays empty; cells counts the
      product of the axis lengths when none does. */
  method MergeAxes(own: seq<seq<real>>, tmpl: seq<seq<real>>) returns (axes: seq<seq<real>>, cells: Option<nat>)
    requires |own| == |tmpl|
    ensures |axes| == |own|
    ensures cells.Some? <==> NoEmptyAxis(Overlay(own, tmpl))
    ensures cells.Some? ==> axes == Overlay(own, tmpl) && cells.value == Cells(axes)
    ensures forall d :: 0 <= d < |own| ==> axes[d] == Overlay(own, tmpl)[d] || axes[d] == own[d]
  {
    hide Times, Cells, Overlay;
    axes := own;
    var expected: nat := 1;
    ghost var merged := Overlay(own, tmpl);
    CellsEnds(merged, expected);
    for d := 0 to |own|
      invariant |axes| == |own|
      invariant forall e :: 0 <= e < d ==> axes[e] == merged[e] != []
      invariant forall e :: d <= e < |own| ==> axes[e] == own[e]
      invariant Times(expected, Cells(merged[d..])) == Cells(merged)
    {
      if axes[d] == [] {
        axes := axes[d := tmpl[d]];
      }
      if axes[d] == [] {
        assert merged[d] == [];
        return axes, None;
      }
      CellsStep(merged, d, expected);
      expected := expected * |axes[d]|;
    }
    assert axes == merged;
    CellsEnds(merged, expected);
    cells := Some(expected);
  }

  class LookupTable {
    var dim: int
    var variableNames: seq<string>
    var indexSets: seq<seq<real>>
    var values: seq<real>

    constructor (dim: int, variableNames: seq<string>, indexSets: seq<seq<real>>, values: seq<real>)
      ensures this.dim == dim && this.variableNames == variableNames
      ensures this.indexSets == indexSets && this.values == values
    {
      this.dim, this.variableNames, this.indexSets, this.values := dim, variableNames, indexSets, values;
    }

    ghost predicate Ready()
      reads this
    {
      && dim > 0 && dim == |variableNames| && dim == |indexSets|
      && Shaped(indexSets, values)
    }

    /** Template and table agree on the number of axes. */
    ghost predicate Compatible(tmpl: Template)
      reads this
    {
      |tmpl.variableNames| == |tmpl.indexSets| && dim == |tmpl.variableNames|
    }

    /** Complete the table from a template. It fails exactly when the axis counts differ, an
        axis stays empty, or the values do not fill the axes; a failed table may already have
        taken names and axes from the template and must be dropped. */
    method ResolveTemplate(tmpl: Template) returns (ok: bool)
      modifies this
      ensures dim == old(dim) && values == old(values)
      ensures !old(Compatible(tmpl)) ==> !ok && variableNames == old(variableNames) && indexSets == old(indexSets)
      ensures old(Compatible(tmpl)) ==>
                && variableNames == tmpl.variableNames && |indexSets| == dim
                && var merged := Overlay(Resize(old(indexSets), dim), tmpl.indexSets);
                  && ok == (NoEmptyAxis(merged) && |values| == Cells(merged))
                  && (NoEmptyAxis(merged) ==> indexSets == merged)
                  && forall d :: 0 <= d < dim ==>
                       indexSets[d] == merged[d] || indexSets[d] == Resize(old(indexSets), dim)[d]
      ensures ok && dim > 0 ==> (Ready() <==> forall d :: 0 <= d < dim ==> Sorted(indexSets[d]))
    {
      if |tmpl.variableNames| != |tmpl.indexSets| {
        return false;
      }
      if dim != |tmpl.variableNames| {
        return false;
      }
      variableNames := tmpl.variableNames;
      indexSets := Resize(indexSets, dim);
      var axes, cells := MergeAxes(indexSets, tmpl.indexSets);
      indexSets := axes;
      ok := cells == Some(|values|);
    }

    method IsReady() returns (ready: bool)
      ensures ready == Ready()
    {
      if dim <= 0 || dim != |variableNames| || dim != |indexSets| {
        return false;
      }
      hide Times, Cells;
      var expected: nat := 1;
      CellsEnds(indexSets, expected);
      for d := 0 to |indexSets|
        invariant GoodAxes(indexSets[..d])
        invariant Times(expected, Cells(indexSets[d..])) == Cells(indexSets)
      {
        if indexSets[d] == [] {
          return false;
        }
        var sorted := IsSorted(indexSets[d]);
        if !sorted {
          return false;
        }
        CellsStep(indexSets, d, expected);
        expected := expected * |indexSets[d]|;
      }
      assert indexSets[..|indexSets|] == indexSets;
      CellsEnds(indexSets, expected);
      ready := |values| == expected;
    }

    /** The corner sum of a ready table is nested linear interpolation at the clamped point;
        every other request is refused. */
    method Interpolate(coords: seq<real>) returns (result: Option<real>)
      ensures result.Some? <==> Ready() && |coords| == dim
      ensures result.Some? ==> result.value == Nested(indexSets, values, coords)
    {
      var ready := IsReady();
      if !ready || |coords| != dim {
        return None;
      }
      hide Nested, Corners, Shaped, AllUsable, BracketsAll;
      var bs, sizes := FindBrackets(indexSets, coords);
      var sum := SumCorners(indexSets, sizes, values, bs);
      CornerSumIsNested(indexSets, values, coords, bs);
      result := Some(sum);
    }
  }
}
