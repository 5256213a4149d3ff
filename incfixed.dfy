/**
 * `convert_npy_to_inc` of `convert_npy_to_inc_fixed.py`: the array is cut
 * to one component, fitted to the grid `(nz, ny, nx)`, and written with a
 * z/y/x loop as the property name line followed by the values, five to a
 * line, permeability converted from m^2 to millidarcy. No `/` line closes
 * the file.
 */
module IncFixed {
  import opened Text
  import opened Chunking
  import opened Numbers
  import opened NdArray
  import opened IncWriter
  import P = PlainReader

  /** One millidarcy in square metres: `9.869233e-16`. */
  const MilliDarcy: real := 0.0000000000000009869233

  /** `value / 9.869233e-16`: square metres to millidarcy. */
  function ToMilliDarcy(v: real): (r: real)
    ensures r * MilliDarcy == v
  {
    v / MilliDarcy
  }

  /** The number one value becomes in the file: converted when the property name starts with `PERM`. */
  function Shown(name: string, v: real): (r: real)
    ensures StartsWith(name, "PERM") ==> r * MilliDarcy == v
    ensures !StartsWith(name, "PERM") ==> r == v
  {
    if StartsWith(name, "PERM") then ToMilliDarcy(v) else v
  }

  /** The numbers the values become in the file, in order. */
  function ShownAll(name: string, vs: seq<real>): (r: seq<real>)
    ensures |r| == |vs| && forall k :: 0 <= k < |vs| ==> r[k] == Shown(name, vs[k])
  {
    seq(|vs|, k requires 0 <= k < |vs| => Shown(name, vs[k]))
  }

  /** What the preparation of the array gives: the array to write, or the exception raised. */
  datatype Prepared<T> = Ready(value: T) | Failed(error: PyError)

  /** `data.reshape(nz, ny, nx)` when `data.size == nx * ny * nz`, and `ValueError` otherwise. */
  function FitFlat(flat: seq<real>, nx: nat, ny: nat, nz: nat): (r: Prepared<Array3>)
    ensures r.Ready? <==> |flat| == nx * ny * nz
    ensures r.Failed? ==> r.error == ValueError
    ensures r.Ready? ==> Shaped(r.value) && r.value.d0 == nz && r.value.d1 == ny && r.value.d2 == nx
  {
    if |flat| == nx * ny * nz then
      ProductTurned(nx, ny, nz);
      Ready(Reshape(flat, nz, ny, nx))
    else Failed(ValueError)
  }

  /** Fits an array to the grid: one of the grid's shape is kept, any other one reshaped if the sizes agree. */
  function FitGrid(a: Array3, nx: nat, ny: nat, nz: nat): (r: Prepared<Array3>)
    requires Shaped(a)
    ensures r.Ready? ==> Shaped(r.value) && r.value.d0 == nz && r.value.d1 == ny && r.value.d2 == nx
  {
    if a.d0 == nz && a.d1 == ny && a.d2 == nx then Ready(a)
    else
      CFlattenLength(a);
      FitFlat(CFlatten(a.cells), nx, ny, nz)
  }

  /**
   * Prepares the loaded array: `data.min()` of an empty array raises `ValueError`; a
   * four-dimensional array is cut to `data[:, :, :, c]`, which raises
   * `IndexError` for a component out of range; then the array is fitted to
   * the grid. An array of another rank never has the grid's shape.
   */
  function IncGrid(data: Npy, nx: nat, ny: nat, nz: nat, c: int): (r: Prepared<Array3>)
    requires WellFormed(data)
    ensures r.Ready? ==> Shaped(r.value) && r.value.d0 == nz && r.value.d1 == ny && r.value.d2 == nx
  {
    if NpySize(data) == 0 then Failed(ValueError)
    else
      match data
      case Rank3(a) => FitGrid(a, nx, ny, nz)
      case Rank4(b) =>
        (match Component(b, c)
         case None => Failed(IndexError)
         case Some(a) => FitGrid(a, nx, ny, nz))
      case OtherRank(_, flat) => FitFlat(flat, nx, ny, nz)
  }

  /** The C-order values of the array once cut to one component (none when the cut fails). */
  function SourceValues(data: Npy, c: int): seq<real>
    requires WellFormed(data)
  {
    match data
    case Rank3(a) => CFlatten(a.cells)
    case Rank4(b) =>
      (match Component(b, c)
       case None => []
       case Some(a) => CFlatten(a.cells))
    case OtherRank(_, flat) => flat
  }

  /** The file the converter leaves: the name line and the values, or the exception and no file. */
  function IncFile(data: Npy, name: string, nx: nat, ny: nat, nz: nat, c: int, fmt: real -> string): IncOutcome
    requires WellFormed(data)
  {
    match IncGrid(data, nx, ny, nz, c)
    case Failed(e) => Raised(e, None)
    case Ready(a) => Written(name + "\n" + Body(fmt, ShownAll(name, CFlatten(a.cells))))
  }

  // ---------------------------------------------------------------- the write loop

  lemma {:induction false} ShownAllAppend(name: string, a: seq<real>, b: seq<real>)
    ensures ShownAll(name, a + b) == ShownAll(name, a) + ShownAll(name, b)
  {
  }

  lemma {:induction false} FlattenSnoc<T>(bs: seq<seq<T>>, b: seq<T>)
    ensures Flatten(bs + [b]) == Flatten(bs) + b
  {
    FlattenAppend(bs, [b]);
    assert Flatten([b]) == b + Flatten<T>([]);
  }

  lemma {:induction false} ShownAllSnoc(name: string, row: seq<real>, x: nat)
    requires x < |row|
    ensures ShownAll(name, row[..x + 1]) == ShownAll(name, row[..x]) + [Shown(name, row[x])]
  {
    var a := ShownAll(name, row[..x + 1]);
    var b := ShownAll(name, row[..x]) + [Shown(name, row[x])];
    forall k | 0 <= k < |a| ensures a[k] == b[k] {
    }
  }

  lemma {:induction false} ShownPrefix(name: string, done: seq<real>, row: seq<real>, x: nat)
    requires x < |row|
    ensures done + ShownAll(name, row[..x + 1]) == (done + ShownAll(name, row[..x])) + [Shown(name, row[x])]
    ensures |done + ShownAll(name, row[..x])| == |done| + x
  {
    ShownAllSnoc(name, row, x);
  }

  /** One more value written: its entry, and a line break when it is the fifth of its line. */
  lemma {:induction false} WriteStep(name: string, fmt: real -> string, done: seq<real>, row: seq<real>, x: nat,
                                     head: string, text: string, text': string)
    requires x < |row|
    requires text == head + ValueText(fmt, done + ShownAll(name, row[..x]))
    requires text' == text + Entry(fmt, Shown(name, row[x])) + (if (|done| + x + 1) % 5 == 0 then "\n" else "")
    ensures text' == head + ValueText(fmt, done + ShownAll(name, row[..x + 1]))
  {
    ghost var pre := done + ShownAll(name, row[..x]);
    ghost var post := done + ShownAll(name, row[..x + 1]);
    ghost var v := Shown(name, row[x]);
    ShownPrefix(name, done, row, x);
    assert post == pre + [v];
    ValueTextSnoc(fmt, pre, v);
    Regroup(head, ValueText(fmt, pre), Entry(fmt, v), if (|done| + x + 1) % 5 == 0 then "\n" else "");
  }

  lemma {:induction false} Regroup(a: string, b: string, c: string, d: string)
    ensures a + b + c + d == a + (b + c + d)
  {
  }

  /** The body of the innermost loop: write `value` (converted for a `PERM` name), count it, break the line after every fifth. */
  method WriteValue(name: string, fmt: real -> string, value: real, text0: string, count0: nat)
    returns (text: string, count: nat)
    ensures text == text0 + Entry(fmt, Shown(name, value)) + (if (count0 + 1) % 5 == 0 then "\n" else "")
    ensures count == count0 + 1
  {
    if StartsWith(name, "PERM") {
      var valueMD := value / MilliDarcy;
      text := text0 + Entry(fmt, valueMD);
    } else {
      text := text0 + Entry(fmt, value);
    }
    count := count0 + 1;
    if count % 5 == 0 {
      text := text + "\n";
    }
  }

  /** The innermost `for x in range(nx)` loop over one row. */
  method WriteRow(name: string, fmt: real -> string, row: seq<real>, nx: nat,
                  text0: string, count0: nat, ghost head: string, ghost done: seq<real>)
    returns (text: string, count: nat)
    requires |row| == nx
    requires text0 == head + ValueText(fmt, done) && count0 == |done|
    ensures text == head + ValueText(fmt, done + ShownAll(name, row)) && count == count0 + nx
  {
    text, count := text0, count0;
    var x := 0;
    assert done + ShownAll(name, row[..0]) == done;
    while x < nx
      invariant 0 <= x <= nx
      invariant text == head + ValueText(fmt, done + ShownAll(name, row[..x]))
      invariant count == count0 + x
    {
      ghost var text0 := text;
      text, count := WriteValue(name, fmt, row[x], text, count);
      WriteStep(name, fmt, done, row, x, head, text0, text);
      x := x + 1;
    }
    assert row[..x] == row;
  }

  /** After row `y`, the values written so far are those of the first `y + 1` rows. */
  lemma {:induction false} RowStep(name: string, done: seq<real>, layer: seq<seq<real>>, y: nat)
    requires y < |layer|
    ensures done + ShownAll(name, Flatten(layer[..y + 1]))
         == (done + ShownAll(name, Flatten(layer[..y]))) + ShownAll(name, layer[y])
    ensures |Flatten(layer[..y + 1])| == |Flatten(layer[..y])| + |layer[y]|
  {
    assert layer[..y + 1] == layer[..y] + [layer[y]];
    FlattenSnoc(layer[..y], layer[y]);
    ShownAllAppend(name, Flatten(layer[..y]), layer[y]);
  }

  /** The `for y in range(ny)` loop over one layer. */
  method WriteLayer(name: string, fmt: real -> string, layer: seq<seq<real>>, nx: nat, ny: nat,
                    text0: string, count0: nat, ghost head: string, ghost done: seq<real>)
    returns (text: string, count: nat)
    requires Rows(layer, ny, nx)
    requires text0 == head + ValueText(fmt, done) && count0 == |done|
    ensures text == head + ValueText(fmt, done + ShownAll(name, Flatten(layer))) && count == count0 + ny * nx
  {
    text, count := text0, count0;
    var y := 0;
    assert Flatten(layer[..0]) == [];
    assert done + ShownAll(name, Flatten(layer[..0])) == done;
    while y < ny
      invariant 0 <= y <= ny
      invariant text == head + ValueText(fmt, done + ShownAll(name, Flatten(layer[..y])))
      invariant count == count0 + |Flatten(layer[..y])|
    {
      ghost var sofar := done + ShownAll(name, Flatten(layer[..y]));
      text, count := WriteRow(name, fmt, layer[y], nx, text, count, head, sofar);
      RowStep(name, done, layer, y);
      y := y + 1;
    }
    assert layer[..y] == layer;
    FlattenLength(layer, nx);
  }

  lemma {:induction false} CFlattenSnoc(cells: seq<seq<seq<real>>>, z: nat)
    requires z < |cells|
    ensures CFlatten(cells[..z + 1]) == CFlatten(cells[..z]) + Flatten(cells[z])
  {
    assert cells[..z + 1] == cells[..z] + [cells[z]];
    assert Layers(cells[..z + 1]) == Layers(cells[..z]) + [Flatten(cells[z])];
    FlattenSnoc(Layers(cells[..z]), Flatten(cells[z]));
  }

  lemma {:induction false} LayersLength(a: Array3, z: nat)
    requires Shaped(a) && z <= a.d0
    ensures |CFlatten(a.cells[..z])| == z * (a.d1 * a.d2)
  {
    var b := Array3(z, a.d1, a.d2, a.cells[..z]);
    ShapedPrefix(a, z);
    CFlattenLength(b);
    MulAssoc(z, a.d1, a.d2);
  }

  /** After layer `z`, the values written so far are those of the first `z + 1` layers. */
  lemma {:induction false} LayerStep(name: string, a: Array3, z: nat)
    requires Shaped(a) && z < a.d0
    ensures ShownAll(name, CFlatten(a.cells[..z + 1]))
         == ShownAll(name, CFlatten(a.cells[..z])) + ShownAll(name, Flatten(a.cells[z]))
    ensures |CFlatten(a.cells[..z + 1])| == |CFlatten(a.cells[..z])| + a.d1 * a.d2
  {
    CFlattenSnoc(a.cells, z);
    ShownAllAppend(name, CFlatten(a.cells[..z]), Flatten(a.cells[z]));
    LayersLength(a, z);
    LayersLength(a, z + 1);
    MulSucc(z, a.d1 * a.d2);
  }

  lemma MulSucc(z: nat, m: nat)
    ensures (z + 1) * m == z * m + m
  {
  }

  /** Once every layer is written, the count is the grid's cell count. */
  lemma {:induction false} AllLayers(a: Array3, nx: nat, ny: nat, nz: nat)
    requires Shaped(a) && a.d0 == nz && a.d1 == ny && a.d2 == nx
    ensures a.cells[..nz] == a.cells
    ensures |CFlatten(a.cells)| == nx * ny * nz
  {
    CFlattenLength(a);
    ProductTurned(nx, ny, nz);
  }

  /** Writes the file: the name line, the z/y/x loop over the grid, and the line break after a short last line. */
  method WriteGrid(name: string, a: Array3, nx: nat, ny: nat, nz: nat, fmt: real -> string)
    returns (text: string, count: nat)
    requires Shaped(a) && a.d0 == nz && a.d1 == ny && a.d2 == nx
    ensures text == name + "\n" + Body(fmt, ShownAll(name, CFlatten(a.cells)))
    ensures count == nx * ny * nz
  {
    text := name + "\n";
    count := 0;
    var z := 0;
    assert CFlatten(a.cells[..0]) == [];
    while z < nz
      invariant 0 <= z <= nz
      invariant text == name + "\n" + ValueText(fmt, ShownAll(name, CFlatten(a.cells[..z])))
      invariant count == |CFlatten(a.cells[..z])|
    {
      ghost var sofar := ShownAll(name, CFlatten(a.cells[..z]));
      text, count := WriteLayer(name, fmt, a.cells[z], nx, ny, text, count, name + "\n", sofar);
      LayerStep(name, a, z);
      z := z + 1;
    }
    AllLayers(a, nx, ny, nz);
    ghost var body := ValueText(fmt, ShownAll(name, CFlatten(a.cells)));
    ghost var nl: string := if count % 5 != 0 then "\n" else "";
    if count % 5 != 0 {
      text := text + "\n";
    }
    assert text == name + "\n" + body + nl;
    Regroup(name, "\n", body, nl);
  }

  /**
   * `convert_npy_to_inc`, returning the file it leaves and the final
   * `count`. The arrays are values: the preparation is the function `IncGrid`.
   */
  method ConvertNpyToInc(data: Npy, name: string, nx: nat, ny: nat, nz: nat, c: int, fmt: real -> string)
    returns (r: IncOutcome, count: nat)
    requires WellFormed(data)
    ensures r == IncFile(data, name, nx, ny, nz, c, fmt)
    ensures r.Written? ==> count == nx * ny * nz
  {
    var prepared := IncGrid(data, nx, ny, nz, c);
    if prepared.Failed? {
      return Raised(prepared.error, None), 0;
    }
    var text;
    text, count := WriteGrid(name, prepared.value, nx, ny, nz, fmt);
    r := Written(text);
  }

  // ---------------------------------------------------------------- properties

  /** The four-dimensional cut `data[:, :, :, c]` succeeds (trivially for other ranks). */
  predicate CutSucceeds(data: Npy, c: int) {
    data.Rank4? ==> -(data.b.d3 as int) <= c < data.b.d3
  }

  /**
   * The converter writes exactly when the array is not empty, the cut
   * succeeds and the cut array has `nx * ny * nz` values; a failed cut is
   * the only `IndexError`; what is written is the cut array's values in C
   * order, whatever shape it had (`reshape` keeps the order).
   */
  lemma {:induction false} IncGridOutcome(data: Npy, nx: nat, ny: nat, nz: nat, c: int)
    requires WellFormed(data)
    ensures var r := IncGrid(data, nx, ny, nz, c);
      (r.Ready? <==> NpySize(data) > 0 && CutSucceeds(data, c) && |SourceValues(data, c)| == nx * ny * nz)
      && (r.Failed? ==> (r.error == IndexError <==> NpySize(data) > 0 && !CutSucceeds(data, c)))
      && (r.Ready? ==> CFlatten(r.value.cells) == SourceValues(data, c))
  {
    if NpySize(data) > 0 {
      match data
      case Rank3(a) => FitGridOutcome(a, nx, ny, nz);
      case Rank4(b) =>
        if CutSucceeds(data, c) {
          FitGridOutcome(Component(b, c).value, nx, ny, nz);
        }
      case OtherRank(_, flat) =>
        if |flat| == nx * ny * nz {
          ProductTurned(nx, ny, nz);
          ReshapeKeepsOrder(flat, nz, ny, nx);
        }
    }
  }

  lemma {:induction false} FitGridOutcome(a: Array3, nx: nat, ny: nat, nz: nat)
    requires Shaped(a)
    ensures var r := FitGrid(a, nx, ny, nz);
      (r.Ready? <==> |CFlatten(a.cells)| == nx * ny * nz)
      && (r.Failed? ==> r.error == ValueError)
      && (r.Ready? ==> CFlatten(r.value.cells) == CFlatten(a.cells))
  {
    CFlattenLength(a);
    ProductTurned(nx, ny, nz);
    if !(a.d0 == nz && a.d1 == ny && a.d2 == nx) && |CFlatten(a.cells)| == nx * ny * nz {
      ReshapeKeepsOrder(CFlatten(a.cells), nz, ny, nx);
    }
  }

  /** The name line followed by the values, as the line iteration sees it. */
  lemma {:induction false} HeaderAndBodyLines(name: string, fmt: real -> string, vs: seq<real>)
    requires TokenFormatter(fmt) && '\n' !in name
    ensures Lines(name + "\n" + Body(fmt, vs)) == [name] + IncLines(fmt, Chunks(vs))
  {
    var ls := IncLines(fmt, Chunks(vs));
    BodyLines(fmt, vs);
    assert ([name] + ls)[0] == name && ([name] + ls)[1..] == ls;
    assert ConcatLines([name] + ls) == name + "\n" + ConcatLines(ls);
    ValueLinesNoBreaks(fmt, Chunks(vs));
    NoBreaksCons(name, ls);
    LinesOfConcat([name] + ls);
  }

  /** Without a `/` line the name-triggered reader reads the values to the end of the file. */
  lemma {:induction false} HeaderAndBodyRead(name: string, fmt: real -> string, toFloat: string -> Option<real>, vs: seq<real>)
    requires TokenFormatter(fmt) && Readable(fmt, toFloat) && Keyword(name)
    ensures P.ReadPlainProperty(name + "\n" + Body(fmt, vs), toFloat) == Reread(fmt, toFloat, vs)
  {
    var ls := IncLines(fmt, Chunks(vs));
    KeywordFacts(name);
    HeaderAndBodyLines(name, fmt, vs);
    P.NameLineStarts(name, ls, toFloat);
    ValueLinesReadBack(fmt, toFloat, vs, []);
    assert ls + [] == ls;
    assert Reread(fmt, toFloat, vs) + [] == Reread(fmt, toFloat, vs);
  }

  /**
   * A written file is the name line and then `nx * ny * nz` values, five
   * to a line, in the cut array's C order (z slowest, x fastest), each
   * converted to millidarcy for a `PERM` name.
   */
  lemma {:induction false} IncFileLayout(data: Npy, name: string, nx: nat, ny: nat, nz: nat, c: int, fmt: real -> string)
    requires WellFormed(data) && TokenFormatter(fmt) && '\n' !in name
    requires IncFile(data, name, nx, ny, nz, c, fmt).Written?
    ensures var vs := ShownAll(name, SourceValues(data, c));
      |vs| == nx * ny * nz
      && Lines(IncFile(data, name, nx, ny, nz, c, fmt).text) == [name] + IncLines(fmt, Chunks(vs))
  {
    IncGridOutcome(data, nx, ny, nz, c);
    HeaderAndBodyLines(name, fmt, ShownAll(name, SourceValues(data, c)));
  }

  /** The name-triggered GRDECL reader gives back the converted values of a written file. */
  lemma {:induction false} IncFileReadsBack(data: Npy, name: string, nx: nat, ny: nat, nz: nat, c: int,
                                            fmt: real -> string, toFloat: string -> Option<real>)
    requires WellFormed(data) && TokenFormatter(fmt) && Readable(fmt, toFloat) && Keyword(name)
    requires IncFile(data, name, nx, ny, nz, c, fmt).Written?
    ensures P.ReadPlainProperty(IncFile(data, name, nx, ny, nz, c, fmt).text, toFloat)
         == Reread(fmt, toFloat, ShownAll(name, SourceValues(data, c)))
  {
    IncGridOutcome(data, nx, ny, nz, c);
    HeaderAndBodyRead(name, fmt, toFloat, ShownAll(name, SourceValues(data, c)));
  }
}
