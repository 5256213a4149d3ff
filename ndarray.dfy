/**
 * The numpy arrays the `.inc` converters load and reorder: a C-order
 * array of rank three (`cells[z][y][x]` is `a[z, y, x]`) or four, the
 * slice `a[:, :, :, c]`, `reshape`, the Z flip `a[::-1, :, :]`,
 * `transpose(2, 1, 0)` and `flatten()` in C and in Fortran order.
 */
module NdArray {
  import opened Text
  import opened Chunking

  /** A three-dimensional array of shape `(d0, d1, d2)`. */
  datatype Array3 = Array3(d0: nat, d1: nat, d2: nat, cells: seq<seq<seq<real>>>)

  /** A four-dimensional array of shape `(d0, d1, d2, d3)`. */
  datatype Array4 = Array4(d0: nat, d1: nat, d2: nat, d3: nat, cells: seq<seq<seq<seq<real>>>>)

  /** What `np.load` gives: an array of rank three or four, or one of another rank kept as its shape and C-order values. */
  datatype Npy = Rank3(a: Array3) | Rank4(b: Array4) | OtherRank(shape: seq<nat>, flat: seq<real>)

  predicate Rows(rows: seq<seq<real>>, d1: nat, d2: nat) {
    |rows| == d1 && forall y :: 0 <= y < d1 ==> |rows[y]| == d2
  }

  /** The nested sequences really have the shape the array claims. */
  predicate Shaped(a: Array3) {
    |a.cells| == a.d0 && forall z :: 0 <= z < a.d0 ==> Rows(a.cells[z], a.d1, a.d2)
  }

  predicate Rows4(rows: seq<seq<seq<real>>>, d1: nat, d2: nat, d3: nat) {
    |rows| == d1 && forall y :: 0 <= y < d1 ==> Rows(rows[y], d2, d3)
  }

  predicate Shaped4(b: Array4) {
    |b.cells| == b.d0 && forall z :: 0 <= z < b.d0 ==> Rows4(b.cells[z], b.d1, b.d2, b.d3)
  }

  function Product(shape: seq<nat>): nat {
    if shape == [] then 1 else shape[0] * Product(shape[1..])
  }

  predicate WellFormed(n: Npy) {
    match n
    case Rank3(a) => Shaped(a)
    case Rank4(b) => Shaped4(b)
    case OtherRank(shape, flat) => |shape| != 3 && |shape| != 4 && |flat| == Product(shape)
  }

  function Size(a: Array3): nat { a.d0 * a.d1 * a.d2 }

  /** `data.size` */
  function NpySize(n: Npy): nat {
    match n
    case Rank3(a) => Size(a)
    case Rank4(b) => b.d0 * b.d1 * b.d2 * b.d3
    case OtherRank(shape, _) => Product(shape)
  }

  /** The position of `a[z, y, x]` in a C-order array of shape `(_, d1, d2)`. */
  function Offset(d1: nat, d2: nat, z: nat, y: nat, x: nat): nat { (z * d1 + y) * d2 + x }

  lemma MulLe(a: nat, b: nat, c: nat)
    requires a <= b
    ensures a * c <= b * c
  {
  }

  lemma AllOffsetsInRange(d0: nat, d1: nat, d2: nat)
    ensures forall z, y, x :: 0 <= z < d0 && 0 <= y < d1 && 0 <= x < d2 ==> Offset(d1, d2, z, y, x) < d0 * d1 * d2
  {
    forall z, y, x | 0 <= z < d0 && 0 <= y < d1 && 0 <= x < d2 ensures Offset(d1, d2, z, y, x) < d0 * d1 * d2 {
      OffsetInRange(d0, d1, d2, z, y, x);
    }
  }

  lemma OffsetInRange(d0: nat, d1: nat, d2: nat, z: nat, y: nat, x: nat)
    requires z < d0 && y < d1 && x < d2
    ensures Offset(d1, d2, z, y, x) < d0 * d1 * d2
  {
    MulLe(z + 1, d0, d1);
    assert z * d1 + y < d0 * d1;
    MulLe(z * d1 + y + 1, d0 * d1, d2);
  }

  /** `data[:, :, :, c]`, with Python's negative indices counting from the end; `None` is numpy's `IndexError`. */
  function Component(b: Array4, c: int): (r: Option<Array3>)
    requires Shaped4(b)
    ensures r.Some? <==> -(b.d3 as int) <= c < b.d3
    ensures r.Some? ==> Shaped(r.value) && r.value.d0 == b.d0 && r.value.d1 == b.d1 && r.value.d2 == b.d2
    ensures r.Some? ==> forall z, y, x :: 0 <= z < b.d0 && 0 <= y < b.d1 && 0 <= x < b.d2 ==>
      r.value.cells[z][y][x] == b.cells[z][y][x][if c < 0 then c + b.d3 else c]
  {
    if c < -(b.d3 as int) || c >= b.d3 then None
    else
      var k := if c < 0 then c + b.d3 else c;
      Some(Array3(b.d0, b.d1, b.d2,
        seq(b.d0, z requires 0 <= z < b.d0 =>
          seq(b.d1, y requires 0 <= y < b.d1 =>
            seq(b.d2, x requires 0 <= x < b.d2 => b.cells[z][y][x][k])))))
  }

  /** `flat.reshape(d0, d1, d2)`: the C-order values laid out again in the new shape. */
  function Reshape(flat: seq<real>, d0: nat, d1: nat, d2: nat): (r: Array3)
    requires |flat| == d0 * d1 * d2
    ensures Shaped(r) && r.d0 == d0 && r.d1 == d1 && r.d2 == d2
    ensures forall z, y, x :: 0 <= z < d0 && 0 <= y < d1 && 0 <= x < d2 ==>
      Offset(d1, d2, z, y, x) < |flat| && r.cells[z][y][x] == flat[Offset(d1, d2, z, y, x)]
  {
    AllOffsetsInRange(d0, d1, d2);
    Array3(d0, d1, d2,
      seq(d0, z requires 0 <= z < d0 =>
        seq(d1, y requires 0 <= y < d1 =>
          seq(d2, x requires 0 <= x < d2 =>
            flat[Offset(d1, d2, z, y, x)]))))
  }

  /** `a.flatten()`: layer by layer, row by row (C order). */
  function CFlatten(cells: seq<seq<seq<real>>>): seq<real> {
    Flatten(Layers(cells))
  }

  /** Each layer's rows, concatenated. */
  function Layers(cells: seq<seq<seq<real>>>): seq<seq<real>> {
    seq(|cells|, z requires 0 <= z < |cells| => Flatten(cells[z]))
  }

  /** `a.flatten(order='F')`: the first index varies fastest, the last slowest. */
  function FFlatten(a: Array3): seq<real>
    requires Shaped(a)
  {
    Flatten(Columns(a))
  }

  /** The values `a[:, j, k]`. */
  function Fiber(a: Array3, j: nat, k: nat): seq<real>
    requires Shaped(a) && j < a.d1 && k < a.d2
  {
    seq(a.d0, i requires 0 <= i < a.d0 => a.cells[i][j][k])
  }

  /** The values `a[:, :, k]` in Fortran order. */
  function Columns(a: Array3): seq<seq<real>>
    requires Shaped(a)
  {
    seq(a.d2, k requires 0 <= k < a.d2 =>
      Flatten(seq(a.d1, j requires 0 <= j < a.d1 => Fiber(a, j, k))))
  }

  /** `a[::-1, :, :]`: the layers in reverse order. */
  function FlipZ(a: Array3): (r: Array3)
    requires Shaped(a)
    ensures Shaped(r) && r.d0 == a.d0 && r.d1 == a.d1 && r.d2 == a.d2
    ensures forall z :: 0 <= z < a.d0 ==> r.cells[z] == a.cells[a.d0 - 1 - z]
  {
    Array3(a.d0, a.d1, a.d2, seq(a.d0, z requires 0 <= z < a.d0 => a.cells[a.d0 - 1 - z]))
  }

  /** `a.transpose(2, 1, 0)`: shape `(d2, d1, d0)`, with `t[x, y, z] == a[z, y, x]`. */
  function Transpose210(a: Array3): (t: Array3)
    requires Shaped(a)
    ensures Shaped(t) && t.d0 == a.d2 && t.d1 == a.d1 && t.d2 == a.d0
    ensures forall x, y, z :: 0 <= x < a.d2 && 0 <= y < a.d1 && 0 <= z < a.d0 ==>
      t.cells[x][y][z] == a.cells[z][y][x]
  {
    Array3(a.d2, a.d1, a.d0,
      seq(a.d2, x requires 0 <= x < a.d2 =>
        seq(a.d1, y requires 0 <= y < a.d1 =>
          seq(a.d0, z requires 0 <= z < a.d0 => a.cells[z][y][x]))))
  }

  /** `a[::-1]` along the first axis of an array of any rank, given as `m` blocks of `w` C-order values. */
  function FlipOuter(flat: seq<real>, m: nat, w: nat): (r: seq<real>)
    requires |flat| == m * w
    ensures |r| == |flat| && multiset(r) == multiset(flat)
    decreases m
  {
    if m == 0 then []
    else
      assert |flat| == (m - 1) * w + w;
      var rest := flat[w..];
      assert flat == flat[..w] + rest;
      FlipOuter(rest, m - 1, w) + flat[..w]
  }

  // ---------------------------------------------------------------- lemmas

  function Reverse<T>(s: seq<T>): seq<T> {
    seq(|s|, n requires 0 <= n < |s| => s[|s| - 1 - n])
  }

  lemma {:induction false} FlattenLength<T>(bs: seq<seq<T>>, w: nat)
    requires forall m :: 0 <= m < |bs| ==> |bs[m]| == w
    ensures |Flatten(bs)| == |bs| * w
  {
    if bs != [] {
      FlattenLength(bs[1..], w);
      assert |bs| * w == w + (|bs| - 1) * w;
    }
  }

  /** In blocks of equal width `w`, position `b * w + r` of the concatenation is position `r` of block `b`. */
  lemma {:induction false} FlattenAt<T>(bs: seq<seq<T>>, w: nat, b: nat, r: nat)
    requires forall m :: 0 <= m < |bs| ==> |bs[m]| == w
    requires b < |bs| && r < w
    ensures b * w + r < |Flatten(bs)| && Flatten(bs)[b * w + r] == bs[b][r]
  {
    FlattenLength(bs, w);
    if b > 0 {
      FlattenAt(bs[1..], w, b - 1, r);
      assert b * w + r == w + ((b - 1) * w + r);
      FlattenLength(bs[1..], w);
    }
  }

  lemma {:induction false} FlattenAppend<T>(p: seq<seq<T>>, q: seq<seq<T>>)
    ensures Flatten(p + q) == Flatten(p) + Flatten(q)
  {
    if p == [] {
      assert p + q == q;
    } else {
      assert (p + q)[0] == p[0];
      assert (p + q)[1..] == p[1..] + q;
      FlattenAppend(p[1..], q);
    }
  }

  /** Concatenating the blocks in reverse order loses, repeats and invents no value. */
  lemma {:induction false} FlattenReversePermutes<T>(bs: seq<seq<T>>)
    ensures multiset(Flatten(Reverse(bs))) == multiset(Flatten(bs))
  {
    if bs != [] {
      var rest := bs[1..];
      assert Reverse(bs) == Reverse(rest) + [bs[0]];
      FlattenAppend(Reverse(rest), [bs[0]]);
      assert Flatten([bs[0]]) == bs[0] + Flatten<T>([]);
      FlattenReversePermutes(rest);
    }
  }

  lemma LayersShape(a: Array3)
    requires Shaped(a)
    ensures |Layers(a.cells)| == a.d0
    ensures forall z :: 0 <= z < a.d0 ==> |Layers(a.cells)[z]| == a.d1 * a.d2
  {
    forall z | 0 <= z < a.d0 ensures |Layers(a.cells)[z]| == a.d1 * a.d2 {
      FlattenLength(a.cells[z], a.d2);
    }
  }

  lemma CFlattenLength(a: Array3)
    requires Shaped(a)
    ensures |CFlatten(a.cells)| == Size(a)
  {
    LayersShape(a);
    FlattenLength(Layers(a.cells), a.d1 * a.d2);
    MulAssoc(a.d0, a.d1, a.d2);
  }

  lemma MulAssoc(p: nat, q: nat, r: nat)
    ensures p * q * r == p * (q * r)
  {
  }

  /** The first `z` layers of an array form an array of shape `(z, d1, d2)`. */
  lemma ShapedPrefix(a: Array3, z: nat)
    requires Shaped(a) && z <= a.d0
    ensures Shaped(Array3(z, a.d1, a.d2, a.cells[..z]))
  {
    forall i | 0 <= i < z ensures Rows(a.cells[..z][i], a.d1, a.d2) {
      assert a.cells[..z][i] == a.cells[i];
    }
  }

  lemma ProductTurned(p: nat, q: nat, r: nat)
    ensures r * q * p == p * q * r
  {
  }

  lemma OffsetSplit(d1: nat, d2: nat, z: nat, y: nat, x: nat)
    ensures Offset(d1, d2, z, y, x) == z * (d1 * d2) + (y * d2 + x)
  {
    assert (z * d1 + y) * d2 == z * d1 * d2 + y * d2;
  }

  lemma RowInRange(d1: nat, d2: nat, y: nat, x: nat)
    requires y < d1 && x < d2
    ensures y * d2 + x < d1 * d2
  {
    MulLe(y + 1, d1, d2);
  }

  /** Position `(z * d1 + y) * d2 + x` of the C-order values holds `a[z, y, x]`. */
  lemma CFlattenAt(a: Array3, z: nat, y: nat, x: nat)
    requires Shaped(a) && z < a.d0 && y < a.d1 && x < a.d2
    ensures |CFlatten(a.cells)| == Size(a)
    ensures Offset(a.d1, a.d2, z, y, x) < Size(a)
    ensures CFlatten(a.cells)[Offset(a.d1, a.d2, z, y, x)] == a.cells[z][y][x]
  {
    CFlattenLength(a);
    OffsetInRange(a.d0, a.d1, a.d2, z, y, x);
    LayersShape(a);
    RowInRange(a.d1, a.d2, y, x);
    FlattenAt(a.cells[z], a.d2, y, x);
    FlattenAt(Layers(a.cells), a.d1 * a.d2, z, y * a.d2 + x);
    OffsetSplit(a.d1, a.d2, z, y, x);
  }

  lemma ColumnsShape(a: Array3)
    requires Shaped(a)
    ensures |Columns(a)| == a.d2
    ensures forall k :: 0 <= k < a.d2 ==> |Columns(a)[k]| == a.d1 * a.d0
    ensures |FFlatten(a)| == Size(a)
  {
    forall k | 0 <= k < a.d2 ensures |Columns(a)[k]| == a.d1 * a.d0 {
      var fibers := seq(a.d1, j requires 0 <= j < a.d1 => Fiber(a, j, k));
      assert Columns(a)[k] == Flatten(fibers);
      FlattenLength(fibers, a.d0);
    }
    FlattenLength(Columns(a), a.d1 * a.d0);
    ProductReversed(a.d0, a.d1, a.d2);
  }

  lemma ProductReversed(p: nat, q: nat, r: nat)
    ensures r * (q * p) == p * q * r
  {
  }

  /** Position `(k * d1 + j) * d0 + i` of the Fortran-order values holds `a[i, j, k]`. */
  lemma FFlattenAt(a: Array3, i: nat, j: nat, k: nat)
    requires Shaped(a) && i < a.d0 && j < a.d1 && k < a.d2
    ensures |FFlatten(a)| == Size(a)
    ensures Offset(a.d1, a.d0, k, j, i) < Size(a)
    ensures FFlatten(a)[Offset(a.d1, a.d0, k, j, i)] == a.cells[i][j][k]
  {
    ColumnsShape(a);
    var col := seq(a.d1, j requires 0 <= j < a.d1 => Fiber(a, j, k));
    assert Columns(a)[k] == Flatten(col);
    RowInRange(a.d1, a.d0, j, i);
    FlattenAt(col, a.d0, j, i);
    FlattenAt(Columns(a), a.d1 * a.d0, k, j * a.d0 + i);
    OffsetSplit(a.d1, a.d0, k, j, i);
    OffsetInRange(a.d2, a.d1, a.d0, k, j, i);
    ProductTurned(a.d0, a.d1, a.d2);
  }

  /**
   * `a.transpose(2, 1, 0).flatten(order='F')` is `a.flatten()`: the transpose
   * and the Fortran order undo each other, so the values come out in C order.
   */
  lemma FortranOfTransposed(a: Array3)
    requires Shaped(a)
    ensures FFlatten(Transpose210(a)) == CFlatten(a.cells)
  {
    var t := Transpose210(a);
    forall k | 0 <= k < a.d0 ensures Columns(t)[k] == Layers(a.cells)[k] {
      var rows := seq(t.d1, j requires 0 <= j < t.d1 => Fiber(t, j, k));
      forall j | 0 <= j < a.d1 ensures rows[j] == a.cells[k][j] {
      }
      assert rows == a.cells[k];
    }
    assert Columns(t) == Layers(a.cells);
  }

  /** Division with remainder: a position below `m * d` is `q * d + r` with `q < m` and `r < d`. */
  lemma DivStep(n: nat, m: nat, d: nat) returns (q: nat, r: nat)
    requires n < m * d
    ensures q < m && r < d && n == q * d + r
  {
    assert d > 0;
    q := n / d;
    r := n % d;
    if q >= m {
      MulLe(m, q, d);
    }
  }

  /** Every position below `d0 * d1 * d2` is the C-order position of an index triple. */
  lemma Decompose(n: nat, d0: nat, d1: nat, d2: nat) returns (z: nat, y: nat, x: nat)
    requires n < d0 * d1 * d2
    ensures z < d0 && y < d1 && x < d2 && n == Offset(d1, d2, z, y, x)
  {
    var q;
    q, x := DivStep(n, d0 * d1, d2);
    z, y := DivStep(q, d0, d1);
  }

  /** `reshape` keeps the C-order values: reading the new array in C order gives the old values back. */
  lemma ReshapeKeepsOrder(flat: seq<real>, d0: nat, d1: nat, d2: nat)
    requires |flat| == d0 * d1 * d2
    ensures CFlatten(Reshape(flat, d0, d1, d2).cells) == flat
  {
    var a := Reshape(flat, d0, d1, d2);
    var r := CFlatten(a.cells);
    CFlattenLength(a);
    forall n | 0 <= n < |flat| ensures r[n] == flat[n] {
      var z, y, x := Decompose(n, d0, d1, d2);
      CFlattenAt(a, z, y, x);
    }
  }

  /** Flipping twice gives the array back. */
  lemma FlipZTwice(a: Array3)
    requires Shaped(a)
    ensures FlipZ(FlipZ(a)) == a
  {
    var b := FlipZ(FlipZ(a));
    assert b.cells == a.cells;
  }

  /** After the flip, C-order position `(z * d1 + y) * d2 + x` holds `a[d0 - 1 - z, y, x]`. */
  lemma FlippedAt(a: Array3, z: nat, y: nat, x: nat)
    requires Shaped(a) && z < a.d0 && y < a.d1 && x < a.d2
    ensures |CFlatten(FlipZ(a).cells)| == Size(a) && Offset(a.d1, a.d2, z, y, x) < Size(a)
    ensures CFlatten(FlipZ(a).cells)[Offset(a.d1, a.d2, z, y, x)] == a.cells[a.d0 - 1 - z][y][x]
  {
    CFlattenAt(FlipZ(a), z, y, x);
  }

  /** The flip only moves values: the flattened array holds the same values as before. */
  lemma FlipZPermutes(a: Array3)
    requires Shaped(a)
    ensures multiset(CFlatten(FlipZ(a).cells)) == multiset(CFlatten(a.cells))
  {
    var f := FlipZ(a);
    LayersShape(a);
    LayersShape(f);
    assert Layers(f.cells) == Reverse(Layers(a.cells));
    FlattenReversePermutes(Layers(a.cells));
  }
}
