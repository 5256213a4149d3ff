/**
 * The `main` functions of `load_grdecl.py` and `save_vtk.py`: each property
 * file that exists is read with the name-triggered reader and attached to
 * the grid's cells when it has one value per cell, else to its points when
 * it has one value per point, else left out. `load_grdecl.py` also keeps
 * the attached properties in `loaded_properties`, and skips a property
 * whose values are empty, because `prop_values.min()` raises before the
 * attach and the exception is caught.
 */
module PropertyAttach {
  import opened Text
  import P = PlainReader

  /** Where a property goes. */
  datatype Placement = Cells | Points | Dropped

  /** Which of the two scripts runs. */
  datatype Script = LoadGrdecl | SaveVtk

  /** The `if len == n_cells ... elif len == n_points` test: cells first. */
  function Place(n: nat, nCells: nat, nPoints: nat): (r: Placement)
    ensures r == Cells <==> n == nCells
    ensures r == Points <==> n != nCells && n == nPoints
  {
    if n == nCells then Cells else if n == nPoints then Points else Dropped
  }

  /** The keys of `property_files`, in the dictionary's order. */
  const PropertyNames: seq<string> := ["PORO", "PERMX", "PERMY", "PERMZ", "NTG", "BORDNUM", "OPERNUM"]

  /** `property_files[name]` */
  function FileName(name: string): string { name + ".GRDECL" }

  /** The grid as far as the scripts touch it: its sizes and its two attribute tables. */
  class PropertyGrid {
    const nCells: nat
    const nPoints: nat
    var cellData: map<string, seq<real>>
    var pointData: map<string, seq<real>>

    /** Every cell array has one value per cell, every point array one per point. */
    ghost predicate Valid()
      reads this
    {
      Sized(Session(cellData, pointData, map[]), nCells, nPoints)
    }

    /** The grid as `pv.read_grdecl` gives it, before any property is attached. */
    constructor (nCells: nat, nPoints: nat)
      ensures this.nCells == nCells && this.nPoints == nPoints
      ensures cellData == map[] && pointData == map[]
      ensures Valid()
    {
      this.nCells := nCells;
      this.nPoints := nPoints;
      cellData := map[];
      pointData := map[];
    }

    /** `grid.cell_data[name] = values` or `grid.point_data[name] = values`, by the size test. */
    method AttachProperty(name: string, values: seq<real>) returns (placed: Placement)
      requires Valid()
      modifies this
      ensures Valid()
      ensures placed == Place(|values|, nCells, nPoints)
      ensures cellData == if placed == Cells then old(cellData)[name := values] else old(cellData)
      ensures pointData == if placed == Points then old(pointData)[name := values] else old(pointData)
    {
      if |values| == nCells {
        cellData := cellData[name := values];
        placed := Cells;
      } else if |values| == nPoints {
        pointData := pointData[name := values];
        placed := Points;
      } else {
        placed := Dropped;
      }
    }
  }

  /** The attribute tables and `loaded_properties` after some of the loop. */
  datatype Session = Session(cells: map<string, seq<real>>, points: map<string, seq<real>>,
                             loaded: map<string, seq<real>>)

  /** The values of a property whose file exists. */
  function Values(files: map<string, string>, name: string, toFloat: string -> Option<real>): seq<real>
    requires FileName(name) in files
  {
    P.ReadPlainProperty(files[FileName(name)], toFloat)
  }

  /** Where the property `name` ends up: nowhere when its file is missing or, in `load_grdecl.py`, when it reads no value. */
  function Attaches(files: map<string, string>, name: string, toFloat: string -> Option<real>,
                    nCells: nat, nPoints: nat, script: Script): (r: Placement)
    ensures r != Dropped ==> FileName(name) in files && Place(|Values(files, name, toFloat)|, nCells, nPoints) == r
    ensures r != Dropped && script == LoadGrdecl ==> Values(files, name, toFloat) != []
  {
    if FileName(name) !in files then Dropped
    else
      var values := Values(files, name, toFloat);
      if script == LoadGrdecl && values == [] then Dropped
      else Place(|values|, nCells, nPoints)
  }

  /** One turn of the loop for a property whose file exists. */
  function Step(s: Session, name: string, values: seq<real>, nCells: nat, nPoints: nat, script: Script): Session {
    if script == LoadGrdecl && values == [] then s
    else
      match Place(|values|, nCells, nPoints)
      case Cells =>
        Session(s.cells[name := values], s.points, if script == LoadGrdecl then s.loaded[name := values] else s.loaded)
      case Points =>
        Session(s.cells, s.points[name := values], if script == LoadGrdecl then s.loaded[name := values] else s.loaded)
      case Dropped => s
  }

  /** The loop over the properties `names`, in order. */
  function Run(s: Session, names: seq<string>, files: map<string, string>, toFloat: string -> Option<real>,
               nCells: nat, nPoints: nat, script: Script): Session
    decreases |names|
  {
    if names == [] then s
    else
      var prev := Run(s, names[..|names| - 1], files, toFloat, nCells, nPoints, script);
      var name := names[|names| - 1];
      if FileName(name) in files then Step(prev, name, Values(files, name, toFloat), nCells, nPoints, script)
      else prev
  }

  // ---------------------------------------------------------------- the scripts

  /** The property loop of `load_grdecl.py`'s `main`, on the files that exist; returns `loaded_properties`. */
  method LoadGrdeclMain(grid: PropertyGrid, files: map<string, string>, toFloat: string -> Option<real>)
    returns (loaded: map<string, seq<real>>)
    requires grid.Valid()
    modifies grid
    ensures grid.Valid()
    ensures Session(grid.cellData, grid.pointData, loaded)
         == Run(Session(old(grid.cellData), old(grid.pointData), map[]), PropertyNames, files, toFloat,
                grid.nCells, grid.nPoints, LoadGrdecl)
  {
    ghost var s0 := Session(grid.cellData, grid.pointData, map[]);
    loaded := map[];
    var k := 0;
    while k < |PropertyNames|
      invariant 0 <= k <= |PropertyNames| && grid.Valid()
      invariant Session(grid.cellData, grid.pointData, loaded)
             == Run(s0, PropertyNames[..k], files, toFloat, grid.nCells, grid.nPoints, LoadGrdecl)
    {
      var name := PropertyNames[k];
      RunPrefixStep(s0, PropertyNames, k, files, toFloat, grid.nCells, grid.nPoints, LoadGrdecl);
      if FileName(name) in files {
        var values := P.ReadGrdeclProperty(files[FileName(name)], toFloat);
        if values != [] {
          var placed := grid.AttachProperty(name, values);
          if placed != Dropped {
            loaded := loaded[name := values];
          }
        }
      }
      k := k + 1;
    }
    assert PropertyNames[..k] == PropertyNames;
  }

  /** One more turn of the loop over the names. */
  lemma RunPrefixStep(s: Session, names: seq<string>, k: nat, files: map<string, string>,
                      toFloat: string -> Option<real>, nCells: nat, nPoints: nat, script: Script)
    requires k < |names|
    ensures Run(s, names[..k + 1], files, toFloat, nCells, nPoints, script)
         == if FileName(names[k]) in files
            then Step(Run(s, names[..k], files, toFloat, nCells, nPoints, script), names[k],
                      Values(files, names[k], toFloat), nCells, nPoints, script)
            else Run(s, names[..k], files, toFloat, nCells, nPoints, script)
  {
    assert names[..k + 1][..k] == names[..k];
  }

  /** The property loop of `save_vtk.py`'s `main`, on the files that exist. */
  method SaveVtkMain(grid: PropertyGrid, files: map<string, string>, toFloat: string -> Option<real>)
    requires grid.Valid()
    modifies grid
    ensures grid.Valid()
    ensures Session(grid.cellData, grid.pointData, map[])
         == Run(Session(old(grid.cellData), old(grid.pointData), map[]), PropertyNames, files, toFloat,
                grid.nCells, grid.nPoints, SaveVtk)
  {
    ghost var s0 := Session(grid.cellData, grid.pointData, map[]);
    var k := 0;
    while k < |PropertyNames|
      invariant 0 <= k <= |PropertyNames| && grid.Valid()
      invariant Session(grid.cellData, grid.pointData, map[])
             == Run(s0, PropertyNames[..k], files, toFloat, grid.nCells, grid.nPoints, SaveVtk)
    {
      var name := PropertyNames[k];
      RunPrefixStep(s0, PropertyNames, k, files, toFloat, grid.nCells, grid.nPoints, SaveVtk);
      if FileName(name) in files {
        var values := P.ReadGrdeclProperty(files[FileName(name)], toFloat);
        var _ := grid.AttachProperty(name, values);
      }
      k := k + 1;
    }
    assert PropertyNames[..k] == PropertyNames;
  }

  // ---------------------------------------------------------------- properties

  /** Cells take precedence: when every cell and every point would fit, a property goes to the cells. */
  lemma CellsFirst(n: nat, nCells: nat, nPoints: nat)
    requires n == nCells && n == nPoints
    ensures Place(n, nCells, nPoints) == Cells
  {
  }

  /** The arrays of the properties among `names` that end up in one of the places `where`. */
  function Attached(names: seq<string>, files: map<string, string>, toFloat: string -> Option<real>,
                    nCells: nat, nPoints: nat, script: Script, where: set<Placement>): map<string, seq<real>>
  {
    map n | n in names && Attaches(files, n, toFloat, nCells, nPoints, script) in where && FileName(n) in files
      :: Values(files, n, toFloat)
  }

  lemma {:induction false} AttachedSnoc(front: seq<string>, name: string, files: map<string, string>,
                                        toFloat: string -> Option<real>, nCells: nat, nPoints: nat,
                                        script: Script, where: set<Placement>)
    ensures Attached(front + [name], files, toFloat, nCells, nPoints, script, where)
         == if Attaches(files, name, toFloat, nCells, nPoints, script) in where && FileName(name) in files
            then Attached(front, files, toFloat, nCells, nPoints, script, where)[name := Values(files, name, toFloat)]
            else Attached(front, files, toFloat, nCells, nPoints, script, where)
  {
    assert forall n :: n in front + [name] <==> n in front || n == name;
  }

  /** The table one turn of the loop changes for a placement, and how. */
  lemma StepTables(prev: Session, name: string, values: seq<real>, nCells: nat, nPoints: nat, script: Script)
    ensures var placed := if script == LoadGrdecl && values == [] then Dropped else Place(|values|, nCells, nPoints);
      var r := Step(prev, name, values, nCells, nPoints, script);
      r.cells == (if placed == Cells then prev.cells[name := values] else prev.cells)
      && r.points == (if placed == Points then prev.points[name := values] else prev.points)
      && (script == LoadGrdecl ==> r.loaded == if placed != Dropped then prev.loaded[name := values] else prev.loaded)
  {
  }

  /** One more name in the loop, seen from the tables. */
  lemma {:induction false} RunSnoc(s: Session, front: seq<string>, name: string, files: map<string, string>,
                                   toFloat: string -> Option<real>, nCells: nat, nPoints: nat, script: Script)
    ensures var prev := Run(s, front, files, toFloat, nCells, nPoints, script);
      var r := Run(s, front + [name], files, toFloat, nCells, nPoints, script);
      var placed := Attaches(files, name, toFloat, nCells, nPoints, script);
      r.cells == (if placed == Cells then prev.cells[name := Values(files, name, toFloat)] else prev.cells)
      && r.points == (if placed == Points then prev.points[name := Values(files, name, toFloat)] else prev.points)
      && (script == LoadGrdecl ==>
            r.loaded == if placed != Dropped then prev.loaded[name := Values(files, name, toFloat)] else prev.loaded)
  {
    var names := front + [name];
    assert names[..|names| - 1] == front && names[|names| - 1] == name;
    if FileName(name) in files {
      StepTables(Run(s, front, files, toFloat, nCells, nPoints, script), name, Values(files, name, toFloat), nCells, nPoints, script);
    }
  }

  lemma MapOverUpdate(a: map<string, seq<real>>, b: map<string, seq<real>>, k: string, v: seq<real>)
    ensures (a + b)[k := v] == a + b[k := v]
  {
  }

  /** After the loop each table is the old one with every property attached there laid over it; nothing else changes. */
  lemma {:induction false} RunCells(s: Session, names: seq<string>, files: map<string, string>,
                                    toFloat: string -> Option<real>, nCells: nat, nPoints: nat, script: Script)
    ensures Run(s, names, files, toFloat, nCells, nPoints, script).cells
         == s.cells + Attached(names, files, toFloat, nCells, nPoints, script, {Cells})
    decreases |names|
  {
    if names == [] {
      assert Attached(names, files, toFloat, nCells, nPoints, script, {Cells}) == map[];
    } else {
      var front := names[..|names| - 1];
      var name := names[|names| - 1];
      assert names == front + [name];
      RunCells(s, front, files, toFloat, nCells, nPoints, script);
      RunSnoc(s, front, name, files, toFloat, nCells, nPoints, script);
      AttachedSnoc(front, name, files, toFloat, nCells, nPoints, script, {Cells});
      if FileName(name) in files {
        MapOverUpdate(s.cells, Attached(front, files, toFloat, nCells, nPoints, script, {Cells}), name, Values(files, name, toFloat));
      }
    }
  }

  /** The same for the point table. */
  lemma {:induction false} RunPoints(s: Session, names: seq<string>, files: map<string, string>,
                                     toFloat: string -> Option<real>, nCells: nat, nPoints: nat, script: Script)
    ensures Run(s, names, files, toFloat, nCells, nPoints, script).points
         == s.points + Attached(names, files, toFloat, nCells, nPoints, script, {Points})
    decreases |names|
  {
    if names == [] {
      assert Attached(names, files, toFloat, nCells, nPoints, script, {Points}) == map[];
    } else {
      var front := names[..|names| - 1];
      var name := names[|names| - 1];
      assert names == front + [name];
      RunPoints(s, front, files, toFloat, nCells, nPoints, script);
      RunSnoc(s, front, name, files, toFloat, nCells, nPoints, script);
      AttachedSnoc(front, name, files, toFloat, nCells, nPoints, script, {Points});
      if FileName(name) in files {
        MapOverUpdate(s.points, Attached(front, files, toFloat, nCells, nPoints, script, {Points}), name, Values(files, name, toFloat));
      }
    }
  }

  /** `loaded_properties` ends up holding exactly the properties `load_grdecl.py` attached, each with its values. */
  lemma {:induction false} RunLoadedMap(s: Session, names: seq<string>, files: map<string, string>,
                                        toFloat: string -> Option<real>, nCells: nat, nPoints: nat)
    ensures Run(s, names, files, toFloat, nCells, nPoints, LoadGrdecl).loaded
         == s.loaded + Attached(names, files, toFloat, nCells, nPoints, LoadGrdecl, {Cells, Points})
    decreases |names|
  {
    var both := {Cells, Points};
    if names == [] {
      assert Attached(names, files, toFloat, nCells, nPoints, LoadGrdecl, both) == map[];
    } else {
      var front := names[..|names| - 1];
      var name := names[|names| - 1];
      assert names == front + [name];
      RunLoadedMap(s, front, files, toFloat, nCells, nPoints);
      RunSnoc(s, front, name, files, toFloat, nCells, nPoints, LoadGrdecl);
      AttachedSnoc(front, name, files, toFloat, nCells, nPoints, LoadGrdecl, both);
      assert Attaches(files, name, toFloat, nCells, nPoints, LoadGrdecl) != Dropped
         <==> Attaches(files, name, toFloat, nCells, nPoints, LoadGrdecl) in both;
      if FileName(name) in files {
        MapOverUpdate(s.loaded, Attached(front, files, toFloat, nCells, nPoints, LoadGrdecl, both), name, Values(files, name, toFloat));
      }
    }
  }

  /** Every array in the tables has the size its table demands. */
  ghost predicate Sized(s: Session, nCells: nat, nPoints: nat) {
    (forall k :: k in s.cells ==> |s.cells[k]| == nCells) && (forall k :: k in s.points ==> |s.points[k]| == nPoints)
  }

  /** Every entry of `loaded_properties` is the array attached under its name. */
  ghost predicate Mirrored(s: Session, nCells: nat, nPoints: nat) {
    forall k :: k in s.loaded ==>
      (|s.loaded[k]| == nCells && k in s.cells && s.cells[k] == s.loaded[k])
      || (|s.loaded[k]| != nCells && |s.loaded[k]| == nPoints && k in s.points && s.points[k] == s.loaded[k])
  }

  /** The loop keeps every array in the table its size demands. */
  lemma {:induction false} RunKeepsSized(s: Session, names: seq<string>, files: map<string, string>,
                                         toFloat: string -> Option<real>, nCells: nat, nPoints: nat, script: Script)
    requires Sized(s, nCells, nPoints)
    ensures Sized(Run(s, names, files, toFloat, nCells, nPoints, script), nCells, nPoints)
    decreases |names|
  {
    if names != [] {
      var front := names[..|names| - 1];
      var name := names[|names| - 1];
      RunKeepsSized(s, front, files, toFloat, nCells, nPoints, script);
      if FileName(name) in files {
        StepKeepsSized(Run(s, front, files, toFloat, nCells, nPoints, script), name,
                       Values(files, name, toFloat), nCells, nPoints, script);
      }
    }
  }

  lemma StepKeepsSized(s: Session, name: string, values: seq<real>, nCells: nat, nPoints: nat, script: Script)
    requires Sized(s, nCells, nPoints)
    ensures Sized(Step(s, name, values, nCells, nPoints, script), nCells, nPoints)
  {
  }

  /** The loop of `load_grdecl.py` keeps `loaded_properties` in step with the tables. */
  lemma {:induction false} RunKeepsMirrored(s: Session, names: seq<string>, files: map<string, string>,
                                            toFloat: string -> Option<real>, nCells: nat, nPoints: nat)
    requires Mirrored(s, nCells, nPoints)
    ensures Mirrored(Run(s, names, files, toFloat, nCells, nPoints, LoadGrdecl), nCells, nPoints)
    decreases |names|
  {
    if names != [] {
      var front := names[..|names| - 1];
      var name := names[|names| - 1];
      RunKeepsMirrored(s, front, files, toFloat, nCells, nPoints);
      if FileName(name) in files {
        StepKeepsMirrored(Run(s, front, files, toFloat, nCells, nPoints, LoadGrdecl), name,
                          Values(files, name, toFloat), nCells, nPoints);
      }
    }
  }

  lemma StepKeepsMirrored(s: Session, name: string, values: seq<real>, nCells: nat, nPoints: nat)
    requires Mirrored(s, nCells, nPoints)
    ensures Mirrored(Step(s, name, values, nCells, nPoints, LoadGrdecl), nCells, nPoints)
  {
  }

  /** With cells and points on the grid, the two scripts attach the same properties in the same places. */
  lemma {:induction false} ScriptsAgree(s: Session, names: seq<string>, files: map<string, string>,
                                        toFloat: string -> Option<real>, nCells: nat, nPoints: nat)
    requires nCells > 0 && nPoints > 0
    ensures Run(s, names, files, toFloat, nCells, nPoints, LoadGrdecl).cells
         == Run(s, names, files, toFloat, nCells, nPoints, SaveVtk).cells
    ensures Run(s, names, files, toFloat, nCells, nPoints, LoadGrdecl).points
         == Run(s, names, files, toFloat, nCells, nPoints, SaveVtk).points
    decreases |names|
  {
    if names != [] {
      var front := names[..|names| - 1];
      var name := names[|names| - 1];
      ScriptsAgree(s, front, files, toFloat, nCells, nPoints);
      if FileName(name) in files {
        StepsAgree(Run(s, front, files, toFloat, nCells, nPoints, LoadGrdecl),
                   Run(s, front, files, toFloat, nCells, nPoints, SaveVtk),
                   name, Values(files, name, toFloat), nCells, nPoints);
      }
    }
  }

  /** One turn of the two loops, from tables that agree, leaves tables that agree. */
  lemma StepsAgree(a: Session, b: Session, name: string, values: seq<real>, nCells: nat, nPoints: nat)
    requires nCells > 0 && nPoints > 0 && a.cells == b.cells && a.points == b.points
    ensures Step(a, name, values, nCells, nPoints, LoadGrdecl).cells == Step(b, name, values, nCells, nPoints, SaveVtk).cells
    ensures Step(a, name, values, nCells, nPoints, LoadGrdecl).points == Step(b, name, values, nCells, nPoints, SaveVtk).points
  {
  }

  /** On a grid without cells, a file with no values is attached by `save_vtk.py` but not by `load_grdecl.py`. */
  lemma EmptyPropertyOnEmptyGrid(s: Session, name: string, nPoints: nat)
    ensures name in Step(s, name, [], 0, nPoints, SaveVtk).cells
    ensures Step(s, name, [], 0, nPoints, LoadGrdecl) == s
  {
  }
}
