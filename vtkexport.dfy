/**
 * The per-grid and per-timestep steps of `export_ymfs_to_vtk_geosx` that do
 * not call ResInsight or PyVista: which cell-centre lists are used as real
 * coordinates, how the unique coordinate counts override the inferred
 * shape, how a value list is fitted to the cell count, and the timestep
 * loop that writes the GRDECL file and the VTK file of every timestep.
 */
module VtkExport {
  import opened Text
  import opened Numbers
  import opened GrdeclWriter
  import opened GridDims
  import YmfsExport
  import Timesteps

  // ------------------------------------------------------------ coordinates

  datatype Point = Point(x: real, y: real, z: real)

  /**
   * What `np.array(case.cell_centers())` is: absent, a flat list of numbers,
   * a 2-D array with three columns, or a 2-D array of some other width
   * (of which only the row count matters).
   */
  datatype CellCenters = NoCenters | Flat(xs: seq<real>) | Table(points: seq<Point>) | OtherShape(rows: nat)

  /** `len(cell_centers)`. */
  function Len(c: CellCenters): nat {
    match c
    case NoCenters => 0
    case Flat(xs) => |xs|
    case Table(ps) => |ps|
    case OtherShape(rows) => rows
  }

  /** `coords.reshape(-1, 3)`: consecutive triples as points (a trailing part triple is dropped). */
  function Reshape(xs: seq<real>): (ps: seq<Point>)
    ensures |ps| == |xs| / 3
    ensures forall n :: 0 <= n < |ps| ==> ps[n] == Point(xs[3 * n], xs[3 * n + 1], xs[3 * n + 2])
    decreases |xs|
  {
    if |xs| < 3 then [] else [Point(xs[0], xs[1], xs[2])] + Reshape(xs[3..])
  }

  /** The coordinates of the points, one after the other. */
  function Unreshape(ps: seq<Point>): (xs: seq<real>) {
    if ps == [] then [] else [ps[0].x, ps[0].y, ps[0].z] + Unreshape(ps[1..])
  }

  /**
   * The real coordinates the exporter uses, AS WRITTEN: the outer test
   * demands `len(cell_centers) == total_cells` before a flat list is
   * reshaped to `(total_cells, 3)`, which needs `3 * total_cells` numbers.
   */
  function CoordsAsWritten(c: CellCenters, total: nat): Option<seq<Point>> {
    if Len(c) == 0 || Len(c) != total then None
    else match c
      case Flat(xs) => if |xs| == total * 3 then Some(Reshape(xs)) else None
      case Table(ps) => Some(ps)
      case _ => None
  }

  /** The coordinates as evidently intended: a flat list of `3 * total_cells` numbers is `total_cells` points. */
  function Coords(c: CellCenters, total: nat): Option<seq<Point>> {
    match c
    case Flat(xs) => if total > 0 && |xs| == total * 3 then Some(Reshape(xs)) else None
    case Table(ps) => if ps != [] && |ps| == total then Some(ps) else None
    case _ => None
  }

  /** As written, a flat coordinate list is never used: the two length tests cannot both hold. */
  lemma FlatCentersDiscarded(xs: seq<real>, total: nat)
    ensures CoordsAsWritten(Flat(xs), total) == None
  {
  }

  /** One cell with its centre given as a flat list: discarded as written, used as intended. */
  lemma FlatCentersExample()
    ensures CoordsAsWritten(Flat([100.0, 200.0, 2650.0]), 1) == None
    ensures Coords(Flat([100.0, 200.0, 2650.0]), 1) == Some([Point(100.0, 200.0, 2650.0)])
  {
    var xs := [100.0, 200.0, 2650.0];
    assert xs[3..] == [];
    assert Reshape(xs[3..]) == [];
    assert Reshape(xs) == [Point(100.0, 200.0, 2650.0)];
    assert Coords(Flat(xs), 1) == Some(Reshape(xs));
  }

  /** The corrected test uses a centre list exactly when it gives one point per cell, and loses no number. */
  lemma {:induction false} CoordsPointPerCell(c: CellCenters, total: nat)
    ensures Coords(c, total).Some? <==>
      total > 0 && ((c.Flat? && |c.xs| == 3 * total) || (c.Table? && |c.points| == total))
    ensures Coords(c, total).Some? ==> |Coords(c, total).value| == total
    ensures Coords(c, total).Some? && c.Flat? ==> Unreshape(Coords(c, total).value) == c.xs
  {
    if Coords(c, total).Some? && c.Flat? {
      UnreshapeReshape(c.xs);
    }
  }

  lemma {:induction false} UnreshapeReshape(xs: seq<real>)
    requires |xs| % 3 == 0
    ensures Unreshape(Reshape(xs)) == xs
    decreases |xs|
  {
    if xs != [] {
      var ps := Reshape(xs);
      assert ps[1..] == Reshape(xs[3..]);
      UnreshapeReshape(xs[3..]);
      assert xs == [xs[0], xs[1], xs[2]] + xs[3..];
    }
  }

  /** `len(np.unique(s))`. */
  function UniqueCount(s: seq<real>): nat {
    |set n | 0 <= n < |s| :: s[n]|
  }

  function Xs(ps: seq<Point>): seq<real> { seq(|ps|, n requires 0 <= n < |ps| => ps[n].x) }
  function Ys(ps: seq<Point>): seq<real> { seq(|ps|, n requires 0 <= n < |ps| => ps[n].y) }
  function Zs(ps: seq<Point>): seq<real> { seq(|ps|, n requires 0 <= n < |ps| => ps[n].z) }

  /**
   * The shape the exporter goes on with: with real coordinates whose unique
   * counts are not the inferred shape plus one, the shape becomes the
   * counts minus one.
   */
  function ShapeAfterCoords(d: Dims, coords: Option<seq<Point>>): Dims {
    match coords
    case None => d
    case Some(ps) =>
      var ux, uy, uz := UniqueCount(Xs(ps)), UniqueCount(Ys(ps)), UniqueCount(Zs(ps));
      if ux == d.nx + 1 && uy == d.ny + 1 && uz == d.nz + 1 then d else Dims(ux - 1, uy - 1, uz - 1)
  }

  /**
   * With real coordinates the grid's point dimensions, `[nx + 1, ny + 1,
   * nz + 1]` of the shape gone on with, are the unique coordinate counts in
   * both branches; without them the inferred shape stays.
   */
  lemma ShapeMatchesCoords(d: Dims, coords: Option<seq<Point>>)
    ensures coords.None? ==> ShapeAfterCoords(d, coords) == d
    ensures coords.Some? ==>
      var s := ShapeAfterCoords(d, coords); var ps := coords.value;
      s.nx + 1 == UniqueCount(Xs(ps)) && s.ny + 1 == UniqueCount(Ys(ps)) && s.nz + 1 == UniqueCount(Zs(ps))
  {
  }

  // ------------------------------------------------------- fitting the values

  /** `values[:n]` for a longer list, `values` followed by zeros for a shorter one. */
  function Reconciled(values: seq<real>, n: nat): (r: seq<real>)
    ensures |r| == n
    ensures forall k :: 0 <= k < n && k < |values| ==> r[k] == values[k]
    ensures forall k :: |values| <= k < n ==> r[k] == 0.0
  {
    if |values| > n then values[..n] else values + Zeros(n - |values|)
  }

  /** The truncate-or-pad block; padding copies the values into `np.zeros(n)` in place. */
  method ReconcileLength(values: seq<real>, n: nat) returns (r: seq<real>)
    ensures r == Reconciled(values, n)
  {
    if |values| > n {
      return values[..n];
    } else if |values| < n {
      var padded := new real[n](_ => 0.0);
      var m := 0;
      while m < |values|
        invariant 0 <= m <= |values|
        invariant forall k :: 0 <= k < m ==> padded[k] == values[k]
        invariant forall k :: m <= k < n ==> padded[k] == 0.0
      {
        padded[m] := values[m];
        m := m + 1;
      }
      assert padded[..] == values + Zeros(n - |values|);
      return padded[..];
    }
    assert values + Zeros(0) == values;
    return values;
  }

  /** Fitting a list that already has `n` values changes nothing, so fitting twice is fitting once. */
  lemma ReconciledIdempotent(values: seq<real>, n: nat)
    ensures Reconciled(values, n) == values <==> |values| == n
    ensures Reconciled(Reconciled(values, n), n) == Reconciled(values, n)
  {
    if |values| == n {
      assert values + Zeros(0) == values;
    }
    var r := Reconciled(values, n);
    assert r + Zeros(0) == r;
  }

  /** Where the YMFS array goes on the grid copy. */
  datatype Attachment = CellData(values: seq<real>) | PointData(values: seq<real>)

  /**
   * The attach rule: the values as cell data when there is one per cell,
   * else as point data when there is one per point, else fitted to the cell
   * count and attached as cell data.
   */
  function AttachYmfs(values: seq<real>, nCells: nat, nPoints: nat): (a: Attachment)
    ensures |values| == nCells ==> a == CellData(values)
    ensures a.PointData? <==> |values| != nCells && |values| == nPoints
    ensures a.PointData? ==> a.values == values
    ensures a.CellData? ==> |a.values| == nCells
    ensures a.CellData? && |values| != nCells ==> a.values == Reconciled(values, nCells)
  {
    if |values| == nCells then CellData(values)
    else if |values| == nPoints then PointData(values)
    else CellData(Reconciled(values, nCells))
  }

  // ------------------------------------------------------------ the loop

  /** What the `.vtk` file of a timestep holds of interest here: the YMFS array and where it sits. */
  datatype VtkFile = VtkFile(ymfs: Attachment)

  /** `f"ymfs_ts_{i:04d}.vtk"`. */
  function VtkFileName(i: nat): string {
    "ymfs_ts_" + ZeroPad(i, 4) + ".vtk"
  }

  /**
   * The one raise after the files are saved: `min(values)` on the list
   * attached, which is empty only when a list was fitted to a grid without
   * cells.
   */
  predicate MinRaises(values: seq<real>, nCells: nat, nPoints: nat) {
    AttachYmfs(values, nCells, nPoints).values == []
  }

  /** The VTK files after the first `n` timesteps. */
  function VtkExports(steps: seq<YmfsExport.Fetch>, nCells: nat, nPoints: nat, n: nat): map<string, VtkFile>
    requires n <= |steps|
  {
    if n == 0 then map[]
    else
      var m := VtkExports(steps, nCells, nPoints, n - 1);
      if YmfsExport.Written(steps[n - 1])
      then m[VtkFileName(n - 1) := VtkFile(AttachYmfs(steps[n - 1].values, nCells, nPoints))]
      else m
  }

  /** `exported_count` after the first `n` timesteps. */
  function VtkCount(steps: seq<YmfsExport.Fetch>, nCells: nat, nPoints: nat, n: nat): nat
    requires n <= |steps|
  {
    if n == 0 then 0
    else
      VtkCount(steps, nCells, nPoints, n - 1)
      + (if YmfsExport.Written(steps[n - 1]) && !MinRaises(steps[n - 1].values, nCells, nPoints) then 1 else 0)
  }

  /**
   * The timestep loop. The grid copy is given by its cell and point counts;
   * a fetch can raise, and so can the `min` of the report line, after the
   * files are written.
   */
  method ExportVtkTimesteps(grdeclDir: YmfsExport.OutputDir<string>, vtkDir: YmfsExport.OutputDir<VtkFile>,
                            steps: seq<YmfsExport.Fetch>, fmt: real -> string, nCells: nat, nPoints: nat)
    returns (exported: nat)
    requires grdeclDir as object != vtkDir as object
    modifies grdeclDir, vtkDir
    ensures grdeclDir.files == old(grdeclDir.files) + YmfsExport.Exports(steps, fmt, |steps|)
    ensures vtkDir.files == old(vtkDir.files) + VtkExports(steps, nCells, nPoints, |steps|)
    ensures exported == VtkCount(steps, nCells, nPoints, |steps|)
  {
    exported := 0;
    var i := 0;
    while i < |steps|
      invariant 0 <= i <= |steps|
      invariant grdeclDir.files == old(grdeclDir.files) + YmfsExport.Exports(steps, fmt, i)
      invariant vtkDir.files == old(vtkDir.files) + VtkExports(steps, nCells, nPoints, i)
      invariant exported == VtkCount(steps, nCells, nPoints, i)
    {
      var fetched := steps[i];
      if fetched.FetchRaised? || fetched.values == [] {
        i := i + 1;
        continue;
      }
      var counted := ExportVtkTimestep(grdeclDir, vtkDir, i, fetched.values, fmt, nCells, nPoints);
      if counted {
        exported := exported + 1;
      }
      YmfsExport.UnionUpdate(old(grdeclDir.files), YmfsExport.Exports(steps, fmt, i),
                             FileName(i), GrdeclText(i, fmt, fetched.values));
      YmfsExport.UnionUpdate(old(vtkDir.files), VtkExports(steps, nCells, nPoints, i),
                             VtkFileName(i), VtkFile(AttachYmfs(fetched.values, nCells, nPoints)));
      i := i + 1;
    }
  }

  /** One timestep with values: the GRDECL file, the VTK file, and whether the report line lets it be counted. */
  method ExportVtkTimestep(grdeclDir: YmfsExport.OutputDir<string>, vtkDir: YmfsExport.OutputDir<VtkFile>,
                           i: nat, values: seq<real>, fmt: real -> string, nCells: nat, nPoints: nat)
    returns (counted: bool)
    requires grdeclDir as object != vtkDir as object
    modifies grdeclDir, vtkDir
    ensures grdeclDir.files == old(grdeclDir.files)[FileName(i) := GrdeclText(i, fmt, values)]
    ensures vtkDir.files == old(vtkDir.files)[VtkFileName(i) := VtkFile(AttachYmfs(values, nCells, nPoints))]
    ensures counted == !MinRaises(values, nCells, nPoints)
  {
    var text := WriteYmfsGrdecl(i, values, fmt);
    grdeclDir.Write(FileName(i), text);
    var attached: Attachment;
    if |values| == nCells {
      attached := CellData(values);
    } else if |values| == nPoints {
      attached := PointData(values);
    } else {
      var fitted := ReconcileLength(values, nCells);
      attached := CellData(fitted);
    }
    vtkDir.Write(VtkFileName(i), VtkFile(attached));
    counted := attached.values != [];
  }

  // ---------------------------------------------------------------- lemmas

  /** The VTK file names carry the timestep too, so no timestep's file replaces another's. */
  lemma VtkFileNameInjective(i: nat, j: nat)
    requires VtkFileName(i) == VtkFileName(j)
    ensures i == j
  {
    TsIdOfVtkFileName(i);
    TsIdOfVtkFileName(j);
  }

  lemma TsIdOfVtkFileName(i: nat)
    ensures Timesteps.TsId(VtkFileName(i)) == Some(i)
  {
    var d := ZeroPad(i, 4);
    assert |d| >= |Decimal(i)| >= 1;
    Timesteps.SplitAfterPrefix("ymfs_ts_", "ymfs_", d, ".vtk");
    Timesteps.TsIdAfter("ymfs_", d, ".vtk", 0);
    ZeroPadValue(i, 4);
  }

  /** A VTK file exists exactly for the timesteps with non-empty values, and holds their attached array. */
  lemma {:induction false} VtkExportsContent(steps: seq<YmfsExport.Fetch>, nCells: nat, nPoints: nat, n: nat, i: nat)
    requires n <= |steps|
    ensures VtkFileName(i) in VtkExports(steps, nCells, nPoints, n) <==> i < n && YmfsExport.Written(steps[i])
    ensures i < n && YmfsExport.Written(steps[i]) ==>
      VtkExports(steps, nCells, nPoints, n)[VtkFileName(i)] == VtkFile(AttachYmfs(steps[i].values, nCells, nPoints))
  {
    if n > 0 {
      VtkExportsContent(steps, nCells, nPoints, n - 1, i);
      if VtkFileName(i) == VtkFileName(n - 1) {
        VtkFileNameInjective(i, n - 1);
      }
    }
  }

  /**
   * On a grid with cells the count is the YMFS exporter's: one per timestep
   * with values. On a grid without cells a list fitted to it is empty, and
   * such a timestep is written but not counted.
   */
  lemma {:induction false} VtkCountWithCells(steps: seq<YmfsExport.Fetch>, nCells: nat, nPoints: nat, n: nat)
    requires n <= |steps|
    ensures nCells > 0 ==> VtkCount(steps, nCells, nPoints, n) == YmfsExport.ExportCount(steps, n)
    ensures VtkCount(steps, nCells, nPoints, n) <= YmfsExport.ExportCount(steps, n)
  {
    if n > 0 {
      VtkCountWithCells(steps, nCells, nPoints, n - 1);
    }
  }

  /** A timestep goes uncounted exactly when its values fit neither the cells nor the points of an empty grid. */
  lemma MinRaisesExactly(values: seq<real>, nCells: nat, nPoints: nat)
    requires values != []
    ensures MinRaises(values, nCells, nPoints) <==> nCells == 0 && |values| != nPoints
  {
  }
}
