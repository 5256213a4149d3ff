/**
 * How the VTK exporter chooses the grid shape when ResInsight does not
 * report one: a table of known GEOSX shapes, then a search for a divisor
 * with 25 layers, then an estimate from a square root.
 */
module GridDims {
  import opened Text

  datatype Dims = Dims(nx: int, ny: int, nz: int)

  function Cells(d: Dims): int { d.nx * d.ny * d.nz }

  /** `int(np.sqrt(n))`, taken as the exact integer square root. */
  function ISqrt(n: nat): (r: nat)
    ensures r * r <= n < (r + 1) * (r + 1)
  {
    if n == 0 then 0
    else
      var s := ISqrt(n - 1);
      if (s + 1) * (s + 1) <= n then s + 1 else s
  }

  /** `possible_dims`, each of them 44800 cells. */
  const Presets: seq<Dims> := [Dims(64, 28, 25), Dims(70, 64, 10), Dims(80, 56, 10), Dims(112, 40, 10)]

  /** The test a preset must pass: `test_nx * test_ny * test_nz == total_cells and test_nz > 0`. */
  predicate Fits(d: Dims, total: nat) {
    Cells(d) == total && d.nz > 0
  }

  /** The first entry of `table` that fits. */
  function FirstFit(table: seq<Dims>, total: nat): (r: Option<Dims>)
    ensures r.Some? ==> r.value in table && Fits(r.value, total)
    ensures r.None? <==> forall n :: 0 <= n < |table| ==> !Fits(table[n], total)
  {
    if table == [] then None
    else if Fits(table[0], total) then Some(table[0])
    else FirstFit(table[1..], total)
  }

  /** The layer count of the second and third rules. */
  const Layers: int := 25

  /** The divisor test of the search: `product_xy % test_ny == 0` and the shape found holds every cell. */
  predicate Divides(total: nat, y: nat) {
    y > 0 && (total / Layers) % y == 0 && (total / Layers / y) * y * Layers == total
  }

  /** Which rule decided the shape, or the `ZeroDivisionError` of the last rule. */
  datatype Inference = FromTable(d: Dims) | FromDivisor(d: Dims) | Estimated(d: Dims) | ZeroDivision

  /** The dimension inference of `export_ymfs_to_vtk_geosx` for `total_cells` cells. */
  method InferDims(total: nat) returns (r: Inference)
    ensures FirstFit(Presets, total).Some? ==> r == FromTable(FirstFit(Presets, total).value)
    ensures FirstFit(Presets, total).None? && total % Layers == 0 && total >= Layers ==>
      r.FromDivisor? && r.d.nz == Layers && Cells(r.d) == total && 1 <= r.d.ny <= r.d.nx
      && forall y :: r.d.ny < y <= ISqrt(total / Layers) ==> (total / Layers) % y != 0
    ensures FirstFit(Presets, total).None? && total % Layers != 0 && total >= Layers ==>
      r == Estimated(Dims(total / (ISqrt(total / Layers) * Layers), ISqrt(total / Layers), Layers))
    ensures FirstFit(Presets, total).None? && total < Layers ==> r == ZeroDivision
  {
    var n := 0;
    while n < |Presets|
      invariant 0 <= n <= |Presets|
      invariant FirstFit(Presets, total) == FirstFit(Presets[n..], total)
    {
      var p := Presets[n];
      assert Presets[n..][1..] == Presets[n + 1..];
      if p.nx * p.ny * p.nz == total && p.nz > 0 {
        return FromTable(p);
      }
      n := n + 1;
    }
    var nz := Layers;
    var productXY := total / nz;
    var testNy := ISqrt(productXY);
    while testNy > 0
      invariant 0 <= testNy <= ISqrt(productXY)
      invariant forall y :: testNy < y <= ISqrt(productXY) ==> !Divides(total, y)
    {
      if productXY % testNy == 0 {
        var testNx := productXY / testNy;
        if testNx * testNy * nz == total {
          DivisorShape(total, testNy);
          NoLargerDivisor(total, testNy);
          return FromDivisor(Dims(testNx, testNy, nz));
        }
      }
      testNy := testNy - 1;
    }
    if total % Layers == 0 && total >= Layers {
      OneDivides(total);
      assert false;
    }
    var ny := ISqrt(total / nz);
    EstimateDivisor(total);
    if ny * nz == 0 {
      return ZeroDivision;
    }
    return Estimated(Dims(total / (ny * nz), ny, nz));
  }

  /** The estimate divides by zero exactly when there are fewer cells than layers. */
  lemma EstimateDivisor(total: nat)
    ensures (ISqrt(total / Layers) * Layers == 0) == (total < Layers)
  {
    if total >= Layers {
      assert total / Layers >= 1;
    }
  }

  /** With 25 layers every cell count that is a multiple of 25 has the divisor 1. */
  lemma OneDivides(total: nat)
    requires total % Layers == 0 && total >= Layers
    ensures ISqrt(total / Layers) >= 1 && Divides(total, 1)
  {
  }

  /** A divisor found at or below the square root gives a shape with `ny <= nx` holding every cell. */
  lemma DivisorShape(total: nat, y: nat)
    requires Divides(total, y) && y <= ISqrt(total / Layers)
    ensures var nx := total / Layers / y; 1 <= y <= nx && nx * y * Layers == total
    ensures total % Layers == 0
  {
    assert total % Layers == 0 by { WholeLayers(total, total / Layers / y, y); }
    var p := total / Layers;
    var nx := p / y;
    ExactQuotient(p, y);
    assert y * y <= p by { SquareBelow(p, y); }
    if nx < y {
      MulLess(nx, y, y);
    }
  }

  lemma WholeLayers(total: nat, nx: nat, ny: nat)
    requires nx * ny * Layers == total
    ensures total % Layers == 0
  {
    assert total == (nx * ny) * Layers;
  }

  lemma ExactQuotient(p: nat, y: nat)
    requires y > 0 && p % y == 0
    ensures (p / y) * y == p
  {
  }

  lemma SquareBelow(p: nat, y: nat)
    requires y <= ISqrt(p)
    ensures y * y <= p
  {
    var r := ISqrt(p);
    MulMono(y, r);
  }

  lemma MulMono(a: nat, b: nat)
    requires a <= b
    ensures a * a <= b * b
  {
  }

  lemma MulLess(a: int, b: int, c: int)
    requires a < b && c > 0
    ensures a * c < b * c
  {
  }

  /** Divisors above the one found fail the `%` test, so the search returns the largest one. */
  lemma NoLargerDivisor(total: nat, y0: nat)
    requires forall y :: y0 < y <= ISqrt(total / Layers) ==> !Divides(total, y)
    requires Divides(total, y0)
    ensures forall y :: y0 < y <= ISqrt(total / Layers) ==> (total / Layers) % y != 0
  {
    var p := total / Layers;
    ExactQuotient(p, y0);
    assert p * Layers == total;
    forall y | y0 < y <= ISqrt(p) ensures p % y != 0 {
      DividesWhenExact(total, y);
    }
  }

  /** On a total that fills whole layers, the `%` test alone decides the divisor test. */
  lemma DividesWhenExact(total: nat, y: nat)
    requires y > 0 && (total / Layers) * Layers == total
    ensures (total / Layers) % y == 0 ==> Divides(total, y)
  {
    if (total / Layers) % y == 0 {
      ExactQuotient(total / Layers, y);
    }
  }

  /** The 44800 cells of the GEOSX model get the first table entry, 64 × 28 × 25. */
  lemma GeosxShape()
    ensures FirstFit(Presets, 44800) == Some(Dims(64, 28, 25))
  {
  }

  /** The estimate of the last rule never claims more cells than there are, and is at least one cell wide. */
  lemma EstimateFits(total: nat)
    requires total >= Layers
    ensures var ny := ISqrt(total / Layers); var nx := total / (ny * Layers);
      ny >= 1 && nx >= 1 && nx * ny * Layers <= total
  {
    var p := total / Layers;
    var ny := ISqrt(p);
    assert ny >= 1;
    assert ny * Layers <= total by {
      assert ny <= ny * ny;
      assert ny * ny <= p;
      assert p * Layers <= total;
    }
    var nx := total / (ny * Layers);
    assert nx * (ny * Layers) <= total;
  }
}
