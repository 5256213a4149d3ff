/**
 * The voxel mesh of the visualisation app: every cell whose YMFS value
 * reaches the threshold becomes a cube of 8 vertices and 12 triangles, and
 * the four injector wells are drawn with the same cube template.
 */
module Voxels {
  import opened Numbers

  /** The arrays handed to a Mesh3d trace: vertex coordinates and triangle corner indices. */
  datatype Mesh = Mesh(x: seq<real>, y: seq<real>, z: seq<real>, i: seq<int>, j: seq<int>, k: seq<int>)

  const EmptyMesh: Mesh := Mesh([], [], [], [], [], [])

  /** Local corner triples of the 12 triangles of a cube (`faces`). */
  const Faces: seq<(int, int, int)> := [
    (0, 1, 2), (0, 2, 3), (4, 6, 5), (4, 7, 6),
    (0, 4, 5), (0, 5, 1), (2, 6, 7), (2, 7, 3),
    (0, 3, 7), (0, 7, 4), (1, 5, 6), (1, 6, 2)]

  /** The template only names the cube's own corners 0..7. */
  lemma FacesLocal()
    ensures |Faces| == 12
    ensures forall f :: 0 <= f < 12 ==>
      0 <= Faces[f].0 < 8 && 0 <= Faces[f].1 < 8 && 0 <= Faces[f].2 < 8
  {
  }

  /** An axis-aligned box `[x0, x1] × [y0, y1] × [z0, z1]`. */
  datatype Box = Box(x0: real, x1: real, y0: real, y1: real, z0: real, z1: real)

  /**
   * The eight corners of a box in the order of `verts`: the bottom face
   * (`z0`) counter-clockwise from `(x0, y0)`, then the top face (`z1`).
   */
  function CubeXs(b: Box): seq<real> { [b.x0, b.x1, b.x1, b.x0, b.x0, b.x1, b.x1, b.x0] }
  function CubeYs(b: Box): seq<real> { [b.y0, b.y0, b.y1, b.y1, b.y0, b.y0, b.y1, b.y1] }
  function CubeZs(b: Box): seq<real> { [b.z0, b.z0, b.z0, b.z0, b.z1, b.z1, b.z1, b.z1] }

  /** The template's triangles with their corners offset by `base`. */
  function FaceIs(base: int): seq<int> { seq(12, f requires 0 <= f < 12 => base + Faces[f].0) }
  function FaceJs(base: int): seq<int> { seq(12, f requires 0 <= f < 12 => base + Faces[f].1) }
  function FaceKs(base: int): seq<int> { seq(12, f requires 0 <= f < 12 => base + Faces[f].2) }

  /** One cube whose first vertex is vertex number `base` of the mesh. */
  function Cube(b: Box, base: int): Mesh {
    Mesh(CubeXs(b), CubeYs(b), CubeZs(b), FaceIs(base), FaceJs(base), FaceKs(base))
  }

  /** Every list `extend`ed by the second mesh's entries. */
  function Join(a: Mesh, b: Mesh): Mesh {
    Mesh(a.x + b.x, a.y + b.y, a.z + b.z, a.i + b.i, a.j + b.j, a.k + b.k)
  }

  /**
   * The mesh both builders produce for a list of boxes: the boxes' cubes in
   * order, cube `c` using vertices `8c .. 8c + 7` (`base` grows by 8 per cube).
   */
  function BoxesMesh(bs: seq<Box>): Mesh {
    if bs == [] then EmptyMesh
    else Join(BoxesMesh(bs[..|bs| - 1]), Cube(bs[|bs| - 1], 8 * (|bs| - 1)))
  }

  /**
   * The mesh is `n` cubes: 8 vertices and 12 triangles each, and every
   * corner index of triangle `t`, which belongs to cube `t / 12`, is one of
   * that cube's own vertices.
   */
  predicate Cubes(m: Mesh, n: nat) {
    |m.x| == 8 * n && |m.y| == 8 * n && |m.z| == 8 * n
    && |m.i| == 12 * n && |m.j| == 12 * n && |m.k| == 12 * n
    && (forall t :: 0 <= t < 12 * n ==> OwnCorner(m.i[t], t))
    && (forall t :: 0 <= t < 12 * n ==> OwnCorner(m.j[t], t))
    && (forall t :: 0 <= t < 12 * n ==> OwnCorner(m.k[t], t))
  }

  /** Corner index `v` of triangle `t` lies among the vertices `8c .. 8c + 7` of its cube `c = t / 12`. */
  predicate OwnCorner(v: int, t: nat) {
    8 * (t / 12) <= v < 8 * (t / 12) + 8
  }

  /** Appending a cube based at the current vertex count keeps the mesh a list of cubes. */
  lemma JoinCube(m: Mesh, n: nat, b: Box)
    requires Cubes(m, n)
    ensures Cubes(Join(m, Cube(b, 8 * n)), n + 1)
  {
    var r := Join(m, Cube(b, 8 * n));
    FacesLocal();
    forall t | 12 * n <= t < 12 * n + 12
      ensures OwnCorner(r.i[t], t) && OwnCorner(r.j[t], t) && OwnCorner(r.k[t], t)
    {
      var f := t - 12 * n;
      assert t / 12 == n;
      assert r.i[t] == FaceIs(8 * n)[f] == 8 * n + Faces[f].0;
      assert r.j[t] == FaceJs(8 * n)[f] == 8 * n + Faces[f].1;
      assert r.k[t] == FaceKs(8 * n)[f] == 8 * n + Faces[f].2;
    }
    forall t | 0 <= t < 12 * n
      ensures r.i[t] == m.i[t] && r.j[t] == m.j[t] && r.k[t] == m.k[t]
    {
    }
  }

  /** Every corner index of a list of cubes names a vertex that exists. */
  lemma CubesIndicesInRange(m: Mesh, n: nat)
    requires Cubes(m, n)
    ensures forall t :: 0 <= t < |m.i| ==> 0 <= m.i[t] < |m.x| && 0 <= m.j[t] < |m.x| && 0 <= m.k[t] < |m.x|
  {
    forall t | 0 <= t < |m.i| ensures 0 <= m.i[t] < |m.x| && 0 <= m.j[t] < |m.x| && 0 <= m.k[t] < |m.x| {
      assert OwnCorner(m.i[t], t) && OwnCorner(m.j[t], t) && OwnCorner(m.k[t], t);
      assert t / 12 < n;
    }
  }

  /** The mesh of `n` boxes has 8n vertices and 12n triangles, each triangle on its own cube's vertices. */
  lemma {:induction false} BoxesMeshCubes(bs: seq<Box>)
    ensures Cubes(BoxesMesh(bs), |bs|)
  {
    if bs != [] {
      BoxesMeshCubes(bs[..|bs| - 1]);
      JoinCube(BoxesMesh(bs[..|bs| - 1]), |bs| - 1, bs[|bs| - 1]);
    }
  }

  /** Adding a box to the list adds its cube at the end of the mesh. */
  lemma BoxesMeshSnoc(bs: seq<Box>, b: Box)
    ensures BoxesMesh(bs + [b]) == Join(BoxesMesh(bs), Cube(b, 8 * |bs|))
  {
    assert (bs + [b])[..|bs|] == bs;
  }

  /** The vertex lists of the mesh of `n` boxes have `8n` entries each. */
  lemma {:induction false} BoxesMeshLengths(bs: seq<Box>)
    ensures var m := BoxesMesh(bs); |m.x| == |m.y| == |m.z| == 8 * |bs|
  {
    if bs != [] {
      BoxesMeshLengths(bs[..|bs| - 1]);
    }
  }

  /** A slice inside the first part of a concatenation is a slice of that part. */
  lemma SliceOfFront<T>(a: seq<T>, b: seq<T>, lo: nat, hi: nat)
    requires lo <= hi <= |a|
    ensures (a + b)[lo..hi] == a[lo..hi]
  {
  }

  /** The second part of a concatenation, as a slice. */
  lemma SliceOfBack<T>(a: seq<T>, b: seq<T>)
    ensures (a + b)[|a|..|a| + |b|] == b
  {
  }

  /** The vertices `8c .. 8c + 7` of the mesh are the corners of box `c`. */
  lemma {:induction false} BoxesMeshVertices(bs: seq<Box>, c: nat)
    requires c < |bs|
    ensures var m := BoxesMesh(bs);
      |m.x| == |m.y| == |m.z| == 8 * |bs|
      && m.x[8 * c .. 8 * c + 8] == CubeXs(bs[c])
      && m.y[8 * c .. 8 * c + 8] == CubeYs(bs[c])
      && m.z[8 * c .. 8 * c + 8] == CubeZs(bs[c])
  {
    var n := |bs| - 1;
    var pre := bs[..n];
    var b := bs[n];
    BoxesMeshLengths(bs);
    BoxesMeshLengths(pre);
    var m0 := BoxesMesh(pre);
    var cube := Cube(b, 8 * n);
    assert BoxesMesh(bs) == Join(m0, cube);
    if c < n {
      BoxesMeshVertices(pre, c);
      assert pre[c] == bs[c];
      SliceOfFront(m0.x, cube.x, 8 * c, 8 * c + 8);
      SliceOfFront(m0.y, cube.y, 8 * c, 8 * c + 8);
      SliceOfFront(m0.z, cube.z, 8 * c, 8 * c + 8);
    } else {
      assert |m0.x| == 8 * c && |m0.y| == 8 * c && |m0.z| == 8 * c;
      SliceOfBack(m0.x, cube.x);
      SliceOfBack(m0.y, cube.y);
      SliceOfBack(m0.z, cube.z);
    }
  }

  /** Every vertex coordinate of the mesh lies in `[outer.x0, outer.x1]` and alike for y and z. */
  predicate WithinBox(m: Mesh, outer: Box) {
    (forall t :: 0 <= t < |m.x| ==> outer.x0 <= m.x[t] <= outer.x1)
    && (forall t :: 0 <= t < |m.y| ==> outer.y0 <= m.y[t] <= outer.y1)
    && (forall t :: 0 <= t < |m.z| ==> outer.z0 <= m.z[t] <= outer.z1)
  }

  /** Both corners of `b` lie inside `outer` on every axis. */
  predicate BoxInside(b: Box, outer: Box) {
    outer.x0 <= b.x0 <= outer.x1 && outer.x0 <= b.x1 <= outer.x1
    && outer.y0 <= b.y0 <= outer.y1 && outer.y0 <= b.y1 <= outer.y1
    && outer.z0 <= b.z0 <= outer.z1 && outer.z0 <= b.z1 <= outer.z1
  }

  /** A mesh of boxes that lie inside `outer` has all its vertices inside `outer`. */
  lemma {:induction false} BoxesWithin(bs: seq<Box>, outer: Box)
    requires forall n :: 0 <= n < |bs| ==> BoxInside(bs[n], outer)
    ensures WithinBox(BoxesMesh(bs), outer)
  {
    if bs != [] {
      var pre := bs[..|bs| - 1];
      assert forall n :: 0 <= n < |pre| ==> pre[n] == bs[n];
      BoxesWithin(pre, outer);
      assert BoxInside(bs[|bs| - 1], outer);
    }
  }

  // ------------------------------------------------------- YMFS voxels

  /** The `nx × ny × nz` grid `build_voxels_from_values` is called with (100 × 100 × 10 by default). */
  datatype Grid = Grid(nx: nat, ny: nat, nz: nat)

  function Total(g: Grid): nat { g.nx * g.ny * g.nz }

  /** The cells a grid is drawn from: one fewer than its size along each axis (`range(n - 1)`). */
  function Span(n: nat): nat { if n == 0 then 0 else n - 1 }

  datatype Cell = Cell(i: nat, j: nat, k: nat)

  /** `idx = i + j * nx + k * nx * ny`: the cell's position in the flat value list. */
  function Idx(g: Grid, c: Cell): nat { c.i + c.j * g.nx + c.k * g.nx * g.ny }

  predicate Visited(g: Grid, c: Cell) {
    c.i < Span(g.nx) && c.j < Span(g.ny) && c.k < Span(g.nz)
  }

  /** The value list after padding: shorter lists are filled with zeros up to `total`, longer ones kept. */
  function Padded(values: seq<real>, total: nat): (p: seq<real>)
    ensures |p| >= total && |p| >= |values|
    ensures |values| >= total ==> p == values
    ensures forall n :: 0 <= n < |values| ==> p[n] == values[n]
    ensures forall n :: |values| <= n < |p| ==> p[n] == 0.0
  {
    if |values| < total then values + Zeros(total - |values|) else values
  }

  /** Every visited cell's index lies inside the grid, so the padded list always has it. */
  lemma IndexInGrid(g: Grid, c: Cell)
    requires Visited(g, c)
    ensures Idx(g, c) < Total(g)
  {
    var a := g.nx * g.ny;
    assert c.i + c.j * g.nx < a by {
      MulLe(c.j + 1, g.ny, g.nx);
      assert c.i + c.j * g.nx < (c.j + 1) * g.nx;
    }
    MulLe(c.k + 1, g.nz, a);
    assert c.k * g.nx * g.ny == c.k * a;
    assert Idx(g, c) < (c.k + 1) * a;
  }

  lemma MulLe(a: nat, b: nat, c: nat)
    requires a <= b
    ensures a * c <= b * c
  {
  }

  /** The value `ymfs_values[idx]` of a visited cell, read from the padded list. */
  function CellValue(g: Grid, p: seq<real>, c: Cell): real
    requires |p| >= Total(g) && Visited(g, c)
  {
    IndexInGrid(g, c);
    p[Idx(g, c)]
  }

  /** A cell drawn as a voxel together with the value that colours it. */
  datatype Voxel = Voxel(cell: Cell, value: real)

  /** The voxels of row `j` of layer `k` among its first `n` cells: those whose value reaches the threshold. */
  function RowVoxels(g: Grid, p: seq<real>, threshold: real, j: nat, k: nat, n: nat): seq<Voxel>
    requires |p| >= Total(g) && j < Span(g.ny) && k < Span(g.nz) && n <= Span(g.nx)
  {
    if n == 0 then []
    else
      var c := Cell(n - 1, j, k);
      RowVoxels(g, p, threshold, j, k, n - 1)
      + (if CellValue(g, p, c) >= threshold then [Voxel(c, CellValue(g, p, c))] else [])
  }

  /** The voxels of the first `n` rows of layer `k`. */
  function LayerVoxels(g: Grid, p: seq<real>, threshold: real, k: nat, n: nat): seq<Voxel>
    requires |p| >= Total(g) && k < Span(g.nz) && n <= Span(g.ny)
  {
    if n == 0 then [] else LayerVoxels(g, p, threshold, k, n - 1) + RowVoxels(g, p, threshold, n - 1, k, Span(g.nx))
  }

  /** The voxels of the first `n` layers, in the order of the `k`, `j`, `i` loops. */
  function GridVoxels(g: Grid, p: seq<real>, threshold: real, n: nat): seq<Voxel>
    requires |p| >= Total(g) && n <= Span(g.nz)
  {
    if n == 0 then [] else GridVoxels(g, p, threshold, n - 1) + LayerVoxels(g, p, threshold, n - 1, Span(g.ny))
  }

  /** The cell sizes `(x_max - x_min) / (nx - 1)` and alike, over the 10000 m × 10000 m × 200 m block. */
  datatype Steps = Steps(dx: real, dy: real, dz: real)

  function CellSteps(g: Grid): Steps
    requires g.nx != 1 && g.ny != 1 && g.nz != 1
  {
    Steps(10000.0 / (g.nx as real - 1.0), 10000.0 / (g.ny as real - 1.0), -200.0 / (g.nz as real - 1.0))
  }

  /** The block the voxels are drawn in, also the figure's axis ranges: z from -2700 (bottom) to -2500 (top). */
  const Domain: Box := Box(0.0, 10000.0, 0.0, 10000.0, -2700.0, -2500.0)

  /** The box of a cell: its corner `(x_min + i dx, y_min + j dy, z_top + k dz)` and the far corner one step further. */
  function CellBox(s: Steps, c: Cell): Box {
    var x0 := 0.0 + c.i as real * s.dx;
    var y0 := 0.0 + c.j as real * s.dy;
    var z0 := -2500.0 + c.k as real * s.dz;
    Box(x0, x0 + s.dx, y0, y0 + s.dy, z0, z0 + s.dz)
  }

  function VoxelBoxes(s: Steps, vs: seq<Voxel>): (bs: seq<Box>)
    ensures |bs| == |vs| && forall n :: 0 <= n < |vs| ==> bs[n] == CellBox(s, vs[n].cell)
  {
    seq(|vs|, n requires 0 <= n < |vs| => CellBox(s, vs[n].cell))
  }

  /** `intensity`: each voxel's value once for every one of its 12 triangles. */
  function Shades(vs: seq<Voxel>): seq<real> {
    if vs == [] then [] else Shades(vs[..|vs| - 1]) + seq(12, _ => vs[|vs| - 1].value)
  }

  /** `build_voxels_from_values`: the mesh and intensities, or the `ZeroDivisionError` of a grid one cell wide. */
  datatype VoxelResult = Voxels(mesh: Mesh, colors: seq<real>) | ZeroDivision

  /** The twelve triangles of the cube at `base`, appended by the `for f in faces` loop. */
  method AppendFaces(m: Mesh, base: int) returns (r: Mesh)
    ensures r == m.(i := m.i + FaceIs(base), j := m.j + FaceJs(base), k := m.k + FaceKs(base))
  {
    r := m;
    for f := 0 to 12
      invariant r == m.(i := m.i + FaceIs(base)[..f], j := m.j + FaceJs(base)[..f], k := m.k + FaceKs(base)[..f])
    {
      var face := Faces[f];
      assert FaceIs(base)[..f + 1] == FaceIs(base)[..f] + [base + face.0];
      assert FaceJs(base)[..f + 1] == FaceJs(base)[..f] + [base + face.1];
      assert FaceKs(base)[..f + 1] == FaceKs(base)[..f] + [base + face.2];
      r := r.(i := r.i + [base + face.0], j := r.j + [base + face.1], k := r.k + [base + face.2]);
    }
    assert FaceIs(base)[..12] == FaceIs(base);
    assert FaceJs(base)[..12] == FaceJs(base);
    assert FaceKs(base)[..12] == FaceKs(base);
  }

  /** One pass of the innermost loop body: cell `c` becomes a cube and 12 intensities when its value reaches the threshold. */
  method VisitCell(g: Grid, ymfs: seq<real>, threshold: real, s: Steps, c: Cell,
                   mesh: Mesh, colors: seq<real>, vtxCount: nat, ghost done: seq<Voxel>)
    returns (mesh': Mesh, colors': seq<real>, vtxCount': nat, ghost done': seq<Voxel>)
    requires |ymfs| >= Total(g) && Visited(g, c)
    requires mesh == BoxesMesh(VoxelBoxes(s, done)) && colors == Shades(done) && vtxCount == 8 * |done|
    ensures done' == done + (if CellValue(g, ymfs, c) >= threshold then [Voxel(c, CellValue(g, ymfs, c))] else [])
    ensures mesh' == BoxesMesh(VoxelBoxes(s, done')) && colors' == Shades(done') && vtxCount' == 8 * |done'|
  {
    IndexInGrid(g, c);
    var idx := c.i + c.j * g.nx + c.k * g.nx * g.ny;
    assert idx == Idx(g, c) && CellValue(g, ymfs, c) == ymfs[idx];
    mesh', colors', vtxCount', done' := mesh, colors, vtxCount, done;
    if ymfs[idx] >= threshold {
      var val := ymfs[idx];
      var b := CellBox(s, c);
      mesh' := mesh'.(x := mesh'.x + CubeXs(b), y := mesh'.y + CubeYs(b), z := mesh'.z + CubeZs(b));
      var base := vtxCount;
      mesh' := AppendFaces(mesh', base);
      colors' := colors' + seq(12, _ => val);
      vtxCount' := vtxCount' + 8;
      done' := done + [Voxel(c, val)];
      ghost var bs := VoxelBoxes(s, done);
      assert mesh' == Join(mesh, Cube(b, 8 * |bs|));
      VoxelBoxesSnoc(s, done, Voxel(c, val));
      BoxesMeshSnoc(bs, b);
      ShadesSnoc(done, Voxel(c, val));
    } else {
      assert done + [] == done;
    }
  }

  lemma ShadesSnoc(vs: seq<Voxel>, v: Voxel)
    ensures Shades(vs + [v]) == Shades(vs) + seq(12, _ => v.value)
  {
    assert (vs + [v])[..|vs|] == vs;
  }

  lemma VoxelBoxesSnoc(s: Steps, vs: seq<Voxel>, v: Voxel)
    ensures VoxelBoxes(s, vs + [v]) == VoxelBoxes(s, vs) + [CellBox(s, v.cell)]
  {
  }

  /** The mesh lists, the intensities and `vtx_count` agree with the voxels drawn so far. */
  predicate Drawn(s: Steps, done: seq<Voxel>, mesh: Mesh, colors: seq<real>, vtxCount: nat) {
    mesh == BoxesMesh(VoxelBoxes(s, done)) && colors == Shades(done) && vtxCount == 8 * |done|
  }

  /** The `for i in range(nx - 1)` loop over row `j` of layer `k`. */
  method VisitRow(g: Grid, ymfs: seq<real>, threshold: real, s: Steps, j: nat, k: nat,
                  mesh: Mesh, colors: seq<real>, vtxCount: nat, ghost done: seq<Voxel>)
    returns (mesh': Mesh, colors': seq<real>, vtxCount': nat, ghost done': seq<Voxel>)
    requires |ymfs| >= Total(g) && j < Span(g.ny) && k < Span(g.nz)
    requires Drawn(s, done, mesh, colors, vtxCount)
    ensures done' == done + RowVoxels(g, ymfs, threshold, j, k, Span(g.nx))
    ensures Drawn(s, done', mesh', colors', vtxCount')
  {
    mesh', colors', vtxCount', done' := mesh, colors, vtxCount, done;
    var i := 0;
    while i < Span(g.nx)
      invariant i <= Span(g.nx)
      invariant done' == done + RowVoxels(g, ymfs, threshold, j, k, i)
      invariant Drawn(s, done', mesh', colors', vtxCount')
    {
      mesh', colors', vtxCount', done' := VisitCell(g, ymfs, threshold, s, Cell(i, j, k), mesh', colors', vtxCount', done');
      i := i + 1;
    }
  }

  /** The `for j in range(ny - 1)` loop over layer `k`. */
  method VisitLayer(g: Grid, ymfs: seq<real>, threshold: real, s: Steps, k: nat,
                    mesh: Mesh, colors: seq<real>, vtxCount: nat, ghost done: seq<Voxel>)
    returns (mesh': Mesh, colors': seq<real>, vtxCount': nat, ghost done': seq<Voxel>)
    requires |ymfs| >= Total(g) && k < Span(g.nz)
    requires Drawn(s, done, mesh, colors, vtxCount)
    ensures done' == done + LayerVoxels(g, ymfs, threshold, k, Span(g.ny))
    ensures Drawn(s, done', mesh', colors', vtxCount')
  {
    mesh', colors', vtxCount', done' := mesh, colors, vtxCount, done;
    var j := 0;
    while j < Span(g.ny)
      invariant j <= Span(g.ny)
      invariant done' == done + LayerVoxels(g, ymfs, threshold, k, j)
      invariant Drawn(s, done', mesh', colors', vtxCount')
    {
      mesh', colors', vtxCount', done' := VisitRow(g, ymfs, threshold, s, j, k, mesh', colors', vtxCount', done');
      j := j + 1;
    }
  }

  /** The voxels drawn for `values` on grid `g`: the padded values' drawable cells, in loop order. */
  function GridVoxelsOf(values: seq<real>, threshold: real, g: Grid): seq<Voxel> {
    GridVoxels(g, Padded(values, Total(g)), threshold, Span(g.nz))
  }

  /** What `build_voxels_from_values` returns: one cube and 12 intensities per drawn voxel. */
  function Voxelize(values: seq<real>, threshold: real, g: Grid): VoxelResult {
    if g.nx == 1 || g.ny == 1 || g.nz == 1 then ZeroDivision
    else
      var vs := GridVoxelsOf(values, threshold, g);
      Voxels(BoxesMesh(VoxelBoxes(CellSteps(g), vs)), Shades(vs))
  }

  /** `build_voxels_from_values(ymfs_values, threshold, nx, ny, nz)`. */
  method BuildVoxels(values: seq<real>, threshold: real, g: Grid) returns (r: VoxelResult)
    ensures r == Voxelize(values, threshold, g)
  {
    if g.nx == 1 || g.ny == 1 || g.nz == 1 {
      return ZeroDivision;
    }
    var s := Steps(10000.0 / (g.nx as real - 1.0), 10000.0 / (g.ny as real - 1.0), -200.0 / (g.nz as real - 1.0));
    var total := g.nx * g.ny * g.nz;
    var ymfs := values;
    if |ymfs| < total {
      ymfs := ymfs + Zeros(total - |ymfs|);
    }
    assert ymfs == Padded(values, Total(g));
    var mesh := EmptyMesh;
    var colors: seq<real> := [];
    var vtxCount: nat := 0;
    ghost var done: seq<Voxel> := [];
    var k := 0;
    while k < Span(g.nz)
      invariant k <= Span(g.nz)
      invariant done == GridVoxels(g, ymfs, threshold, k)
      invariant Drawn(s, done, mesh, colors, vtxCount)
    {
      mesh, colors, vtxCount, done := VisitLayer(g, ymfs, threshold, s, k, mesh, colors, vtxCount, done);
      k := k + 1;
    }
    return Voxels(mesh, colors);
  }

  // ---------------------------------------------------------------- lemmas

  /** The value reaches the threshold and is the one stored for the cell. */
  predicate Drawable(g: Grid, p: seq<real>, threshold: real, v: Voxel)
    requires |p| >= Total(g)
  {
    Visited(g, v.cell) && v.value == CellValue(g, p, v.cell) && v.value >= threshold
  }

  lemma {:induction false} RowMembers(g: Grid, p: seq<real>, threshold: real, j: nat, k: nat, n: nat, v: Voxel)
    requires |p| >= Total(g) && j < Span(g.ny) && k < Span(g.nz) && n <= Span(g.nx)
    ensures v in RowVoxels(g, p, threshold, j, k, n)
      <==> Drawable(g, p, threshold, v) && v.cell.j == j && v.cell.k == k && v.cell.i < n
  {
    if n > 0 {
      RowMembers(g, p, threshold, j, k, n - 1, v);
    }
  }

  lemma {:induction false} LayerMembers(g: Grid, p: seq<real>, threshold: real, k: nat, n: nat, v: Voxel)
    requires |p| >= Total(g) && k < Span(g.nz) && n <= Span(g.ny)
    ensures v in LayerVoxels(g, p, threshold, k, n)
      <==> Drawable(g, p, threshold, v) && v.cell.k == k && v.cell.j < n
  {
    if n > 0 {
      var front := LayerVoxels(g, p, threshold, k, n - 1);
      var row := RowVoxels(g, p, threshold, n - 1, k, Span(g.nx));
      assert LayerVoxels(g, p, threshold, k, n) == front + row;
      assert v in front + row <==> v in front || v in row;
      LayerMembers(g, p, threshold, k, n - 1, v);
      RowMembers(g, p, threshold, n - 1, k, Span(g.nx), v);
    }
  }

  lemma {:induction false} GridMembers(g: Grid, p: seq<real>, threshold: real, n: nat, v: Voxel)
    requires |p| >= Total(g) && n <= Span(g.nz)
    ensures v in GridVoxels(g, p, threshold, n) <==> Drawable(g, p, threshold, v) && v.cell.k < n
  {
    if n > 0 {
      var front := GridVoxels(g, p, threshold, n - 1);
      var layer := LayerVoxels(g, p, threshold, n - 1, Span(g.ny));
      assert v in front <==> Drawable(g, p, threshold, v) && v.cell.k < n - 1 by {
        GridMembers(g, p, threshold, n - 1, v);
      }
      assert v in layer <==> Drawable(g, p, threshold, v) && v.cell.k == n - 1 by {
        LayerMembers(g, p, threshold, n - 1, Span(g.ny), v);
      }
      assert GridVoxels(g, p, threshold, n) == front + layer;
    }
  }

  /**
   * A cell becomes a voxel exactly when it is one of the `(nx - 1) × (ny - 1) × (nz - 1)`
   * visited cells and its (padded) value reaches the threshold; the voxel carries that value.
   */
  lemma VoxelsExactlyDrawable(g: Grid, values: seq<real>, threshold: real, v: Voxel)
    ensures var p := Padded(values, Total(g));
      v in GridVoxels(g, p, threshold, Span(g.nz)) <==> Drawable(g, p, threshold, v)
  {
    GridMembers(g, Padded(values, Total(g)), threshold, Span(g.nz), v);
  }

  /** Cells past the end of a short value list are zero: they are drawn exactly when the threshold is at most 0. */
  lemma PaddedCellsAreZero(g: Grid, values: seq<real>, c: Cell)
    requires Visited(g, c) && Idx(g, c) >= |values|
    ensures CellValue(g, Padded(values, Total(g)), c) == 0.0
  {
    IndexInGrid(g, c);
  }

  /** The intensity list has 12 entries per voxel, each the value of the voxel its triangle belongs to. */
  lemma {:induction false} ShadesOfVoxels(vs: seq<Voxel>)
    ensures |Shades(vs)| == 12 * |vs|
    ensures forall t :: 0 <= t < 12 * |vs| ==> Shades(vs)[t] == vs[t / 12].value
  {
    if vs != [] {
      var pre := vs[..|vs| - 1];
      ShadesOfVoxels(pre);
      forall t | 0 <= t < 12 * |vs| ensures Shades(vs)[t] == vs[t / 12].value {
        if t < 12 * |pre| {
          assert Shades(vs)[t] == Shades(pre)[t];
          assert pre[t / 12] == vs[t / 12];
        } else {
          assert t / 12 == |pre|;
        }
      }
    }
  }

  /**
   * For `N` drawn voxels the mesh has 8N vertices and 12N triangles, each on its own cube's
   * vertices and on existing ones, and 12N intensities: triangle `t` carries the value of
   * voxel `t / 12`, which reaches the threshold.
   */
  lemma VoxelMeshShape(values: seq<real>, threshold: real, g: Grid)
    requires g.nx != 1 && g.ny != 1 && g.nz != 1
    ensures var r := Voxelize(values, threshold, g); var vs := GridVoxelsOf(values, threshold, g);
      && r.Voxels? && Cubes(r.mesh, |vs|)
      && (forall t :: 0 <= t < |r.mesh.i| ==> r.mesh.i[t] < |r.mesh.x| && r.mesh.j[t] < |r.mesh.x| && r.mesh.k[t] < |r.mesh.x|)
      && |r.colors| == 12 * |vs|
      && forall t :: 0 <= t < |r.colors| ==> r.colors[t] == vs[t / 12].value && r.colors[t] >= threshold
  {
    var p := Padded(values, Total(g));
    var vs := GridVoxelsOf(values, threshold, g);
    var r := Voxelize(values, threshold, g);
    BoxesMeshCubes(VoxelBoxes(CellSteps(g), vs));
    CubesIndicesInRange(r.mesh, |vs|);
    ShadesOfVoxels(vs);
    forall t | 0 <= t < |r.colors| ensures r.colors[t] >= threshold {
      GridMembers(g, p, threshold, Span(g.nz), vs[t / 12]);
    }
  }

  /** Cube `c` of the mesh is the box of voxel `c`. */
  lemma VoxelCubeIsCellBox(values: seq<real>, threshold: real, g: Grid, c: nat)
    requires g.nx != 1 && g.ny != 1 && g.nz != 1 && c < |GridVoxelsOf(values, threshold, g)|
    ensures var m := Voxelize(values, threshold, g).mesh; var b := CellBox(CellSteps(g), GridVoxelsOf(values, threshold, g)[c].cell);
      |m.x| == |m.y| == |m.z| == 8 * |GridVoxelsOf(values, threshold, g)|
      && m.x[8 * c .. 8 * c + 8] == CubeXs(b) && m.y[8 * c .. 8 * c + 8] == CubeYs(b) && m.z[8 * c .. 8 * c + 8] == CubeZs(b)
  {
    var vs := GridVoxelsOf(values, threshold, g);
    var bs := VoxelBoxes(CellSteps(g), vs);
    assert Voxelize(values, threshold, g).mesh == BoxesMesh(bs);
    assert bs[c] == CellBox(CellSteps(g), vs[c].cell);
    BoxesMeshVertices(bs, c);
  }

  lemma RealMulLe(a: real, b: real, d: real)
    requires a <= b && d >= 0.0
    ensures a * d <= b * d
  {
  }

  /** Cell `i` of `n` equal steps over `[0, len]` starts at or after 0 and ends at or before `len`. */
  lemma StepInside(i: nat, n: nat, len: real)
    requires i < n && len > 0.0
    ensures var d := len / n as real; 0.0 <= i as real * d && i as real * d + d <= len
  {
    var d := len / n as real;
    assert d > 0.0;
    RealMulLe(0.0, i as real, d);
    RealMulLe(i as real + 1.0, n as real, d);
    assert n as real * d == len;
    assert i as real * d + d == (i as real + 1.0) * d;
  }

  /** The box of every visited cell lies inside the 10000 m × 10000 m block between -2700 m and -2500 m. */
  lemma CellBoxInside(g: Grid, c: Cell)
    requires Visited(g, c)
    ensures g.nx != 1 && g.ny != 1 && g.nz != 1 && BoxInside(CellBox(CellSteps(g), c), Domain)
  {
    var st := CellSteps(g);
    StepInside(c.i, g.nx - 1, 10000.0);
    StepInside(c.j, g.ny - 1, 10000.0);
    StepInside(c.k, g.nz - 1, 200.0);
    assert st.dz == -(200.0 / (g.nz - 1) as real);
    assert c.k as real * st.dz == -(c.k as real * (200.0 / (g.nz - 1) as real));
  }

  /** All voxel vertices lie inside the figure's axis ranges. */
  lemma VoxelsInDomain(values: seq<real>, threshold: real, g: Grid)
    requires g.nx != 1 && g.ny != 1 && g.nz != 1
    ensures WithinBox(Voxelize(values, threshold, g).mesh, Domain)
  {
    var p := Padded(values, Total(g));
    var vs := GridVoxelsOf(values, threshold, g);
    var bs := VoxelBoxes(CellSteps(g), vs);
    forall n | 0 <= n < |bs| ensures BoxInside(bs[n], Domain) {
      GridMembers(g, p, threshold, Span(g.nz), vs[n]);
      CellBoxInside(g, vs[n].cell);
    }
    BoxesWithin(bs, Domain);
  }

  /** No cell is drawn twice. */
  predicate DistinctCells(vs: seq<Voxel>) {
    forall a, b :: 0 <= a < b < |vs| ==> vs[a].cell != vs[b].cell
  }

  lemma DistinctJoin(xs: seq<Voxel>, ys: seq<Voxel>)
    requires DistinctCells(xs) && DistinctCells(ys)
    requires forall a, b :: 0 <= a < |xs| && 0 <= b < |ys| ==> xs[a].cell != ys[b].cell
    ensures DistinctCells(xs + ys)
  {
    var zs := xs + ys;
    forall a, b | 0 <= a < b < |zs| ensures zs[a].cell != zs[b].cell {
      if b < |xs| {
        assert zs[a] == xs[a] && zs[b] == xs[b];
      } else if a >= |xs| {
        assert zs[a] == ys[a - |xs|] && zs[b] == ys[b - |xs|];
      } else {
        assert zs[a] == xs[a] && zs[b] == ys[b - |xs|];
      }
    }
  }

  lemma {:induction false} RowDistinct(g: Grid, p: seq<real>, threshold: real, j: nat, k: nat, n: nat)
    requires |p| >= Total(g) && j < Span(g.ny) && k < Span(g.nz) && n <= Span(g.nx)
    ensures DistinctCells(RowVoxels(g, p, threshold, j, k, n))
  {
    if n > 0 {
      var xs := RowVoxels(g, p, threshold, j, k, n - 1);
      RowDistinct(g, p, threshold, j, k, n - 1);
      forall a | 0 <= a < |xs| ensures xs[a].cell.i < n - 1 {
        RowMembers(g, p, threshold, j, k, n - 1, xs[a]);
      }
      var c := Cell(n - 1, j, k);
      DistinctJoin(xs, if CellValue(g, p, c) >= threshold then [Voxel(c, CellValue(g, p, c))] else []);
    }
  }

  lemma {:induction false} LayerDistinct(g: Grid, p: seq<real>, threshold: real, k: nat, n: nat)
    requires |p| >= Total(g) && k < Span(g.nz) && n <= Span(g.ny)
    ensures DistinctCells(LayerVoxels(g, p, threshold, k, n))
  {
    if n > 0 {
      var xs := LayerVoxels(g, p, threshold, k, n - 1);
      var ys := RowVoxels(g, p, threshold, n - 1, k, Span(g.nx));
      LayerDistinct(g, p, threshold, k, n - 1);
      RowDistinct(g, p, threshold, n - 1, k, Span(g.nx));
      forall a, b | 0 <= a < |xs| && 0 <= b < |ys| ensures xs[a].cell != ys[b].cell {
        LayerMembers(g, p, threshold, k, n - 1, xs[a]);
        RowMembers(g, p, threshold, n - 1, k, Span(g.nx), ys[b]);
      }
      DistinctJoin(xs, ys);
    }
  }

  /** Every drawable cell is drawn once: the voxel list has no cell twice. */
  lemma {:induction false} GridDistinct(g: Grid, p: seq<real>, threshold: real, n: nat)
    requires |p| >= Total(g) && n <= Span(g.nz)
    ensures DistinctCells(GridVoxels(g, p, threshold, n))
  {
    if n > 0 {
      var xs := GridVoxels(g, p, threshold, n - 1);
      var ys := LayerVoxels(g, p, threshold, n - 1, Span(g.ny));
      GridDistinct(g, p, threshold, n - 1);
      LayerDistinct(g, p, threshold, n - 1, Span(g.ny));
      forall a, b | 0 <= a < |xs| && 0 <= b < |ys| ensures xs[a].cell != ys[b].cell {
        GridMembers(g, p, threshold, n - 1, xs[a]);
        LayerMembers(g, p, threshold, n - 1, Span(g.ny), ys[b]);
      }
      DistinctJoin(xs, ys);
    }
  }

  // ------------------------------------------------------ injector wells

  /** The four injector wells, as `(x, y, z)` centres. */
  const Wells: seq<(real, real, real)> := [
    (2500.0, 2500.0, -2500.0), (2500.0, 7500.0, -2500.0),
    (7500.0, 2500.0, -2500.0), (7438.0, 7438.0, -2500.0)]

  /** Half of `cube_size = 200.0`. */
  const Half: real := 100.0

  /** The cube of side 200 centred on a well. */
  function WellBox(w: (real, real, real)): Box {
    Box(w.0 - Half, w.0 + Half, w.1 - Half, w.1 + Half, w.2 - Half, w.2 + Half)
  }

  function WellBoxes(n: nat): (bs: seq<Box>)
    requires n <= |Wells|
    ensures |bs| == n && forall w :: 0 <= w < n ==> bs[w] == WellBox(Wells[w])
  {
    seq(n, w requires 0 <= w < n => WellBox(Wells[w]))
  }

  /** `build_injector_cubes()`: one cube per well, `base` growing by 8. */
  method BuildInjectorCubes() returns (m: Mesh)
    ensures m == BoxesMesh(WellBoxes(|Wells|))
  {
    m := EmptyMesh;
    var base := 0;
    var n := 0;
    while n < |Wells|
      invariant n <= |Wells| && base == 8 * n
      invariant m == BoxesMesh(WellBoxes(n))
    {
      var (cx, cy, cz) := Wells[n];
      var b := Box(cx - Half, cx + Half, cy - Half, cy + Half, cz - Half, cz + Half);
      m := m.(x := m.x + CubeXs(b), y := m.y + CubeYs(b), z := m.z + CubeZs(b));
      m := AppendFaces(m, base);
      assert WellBoxes(n + 1) == WellBoxes(n) + [b];
      BoxesMeshSnoc(WellBoxes(n), b);
      base := base + 8;
      n := n + 1;
    }
  }

  /**
   * The injector trace has 32 vertices and 48 triangles; the vertices of
   * cube `w` are the corners of the 200 m cube centred on well `w`.
   */
  lemma InjectorShape(w: nat)
    requires w < |Wells|
    ensures var m := BoxesMesh(WellBoxes(|Wells|));
      Cubes(m, 4) && |m.x| == 32 && |m.i| == 48
      && m.x[8 * w .. 8 * w + 8] == CubeXs(WellBox(Wells[w]))
      && m.y[8 * w .. 8 * w + 8] == CubeYs(WellBox(Wells[w]))
      && m.z[8 * w .. 8 * w + 8] == CubeZs(WellBox(Wells[w]))
  {
    BoxesMeshCubes(WellBoxes(|Wells|));
    BoxesMeshVertices(WellBoxes(|Wells|), w);
  }

  /** The injector cubes stand inside the block horizontally but reach 100 m above its top (z up to -2400). */
  lemma InjectorsAboveTop()
    ensures var m := BoxesMesh(WellBoxes(|Wells|));
      WithinBox(m, Box(2400.0, 7600.0, 2400.0, 7600.0, -2600.0, -2400.0))
      && exists t :: 0 <= t < |m.z| && m.z[t] > Domain.z1
  {
    var bs := WellBoxes(|Wells|);
    var outer := Box(2400.0, 7600.0, 2400.0, 7600.0, -2600.0, -2400.0);
    assert forall n :: 0 <= n < |bs| ==> BoxInside(bs[n], outer);
    BoxesWithin(bs, outer);
    BoxesMeshVertices(bs, 0);
    var m := BoxesMesh(bs);
    assert m.z[4] == m.z[0 .. 8][4] == -2400.0;
  }
}
