/**
 * The timestep loop of the YMFS exporter (`export_ymfs_timesteps_geosx`):
 * for every timestep the YMFS values are fetched from ResInsight; a
 * non-empty list is written as `YMFS_ts_{i:04d}.GRDECL` and counted, an
 * empty list or a failed fetch is reported and skipped.
 */
module YmfsExport {
  import opened Text
  import opened Numbers
  import opened GrdeclWriter
  import Timesteps
  import R = RleReader
  import GrdeclRoundTrip

  /** What `case.active_cell_property(...)` gave for one timestep: a value list, or an exception. */
  datatype Fetch = Fetched(values: seq<real>) | FetchRaised

  /** An output directory, as a map from file name to what the file holds. */
  class OutputDir<T> {
    var files: map<string, T>

    constructor (existing: map<string, T>)
      ensures files == existing
    {
      files := existing;
    }

    /** `open(os.path.join(output_dir, name), 'w')` and the writes into it: the file is created or replaced. */
    method Write(name: string, text: T)
      modifies this
      ensures files == old(files)[name := text]
    {
      files := files[name := text];
    }
  }

  /** `if values:` — the timestep is written only when the fetch gave a non-empty list. */
  predicate Written(f: Fetch) {
    f.Fetched? && f.values != []
  }

  /** The files the loop has written after the first `n` timesteps. */
  function Exports(steps: seq<Fetch>, fmt: real -> string, n: nat): map<string, string>
    requires n <= |steps|
  {
    if n == 0 then map[]
    else
      var m := Exports(steps, fmt, n - 1);
      if Written(steps[n - 1]) then m[FileName(n - 1) := GrdeclText(n - 1, fmt, steps[n - 1].values)] else m
  }

  /** `exported_count` after the first `n` timesteps. */
  function ExportCount(steps: seq<Fetch>, n: nat): nat
    requires n <= |steps|
  {
    if n == 0 then 0 else ExportCount(steps, n - 1) + (if Written(steps[n - 1]) then 1 else 0)
  }

  /** The `for i, ts in enumerate(time_steps)` loop; it returns `exported_count`. */
  method ExportYmfsTimesteps(dir: OutputDir<string>, steps: seq<Fetch>, fmt: real -> string) returns (exported: nat)
    modifies dir
    ensures exported == ExportCount(steps, |steps|)
    ensures dir.files == old(dir.files) + Exports(steps, fmt, |steps|)
  {
    exported := 0;
    var i := 0;
    while i < |steps|
      invariant 0 <= i <= |steps|
      invariant exported == ExportCount(steps, i)
      invariant dir.files == old(dir.files) + Exports(steps, fmt, i)
    {
      var fetched := steps[i];
      if fetched.Fetched? && fetched.values != [] {
        var text := WriteYmfsGrdecl(i, fetched.values, fmt);
        assert Exports(steps, fmt, i + 1) == Exports(steps, fmt, i)[FileName(i) := text];
        UnionUpdate(old(dir.files), Exports(steps, fmt, i), FileName(i), text);
        dir.Write(FileName(i), text);
        exported := exported + 1;
      } else {
        assert Exports(steps, fmt, i + 1) == Exports(steps, fmt, i);
      }
      i := i + 1;
    }
  }

  // ---------------------------------------------------------------- lemmas

  /** Writing a file after the loop's earlier writes is the same as recording it with them. */
  lemma UnionUpdate<V>(before: map<string, V>, written: map<string, V>, name: string, v: V)
    ensures (before + written)[name := v] == before + written[name := v]
  {
  }

  /** A file name is written exactly for the timesteps with non-empty values. */
  lemma {:induction false} ExportsKeys(steps: seq<Fetch>, fmt: real -> string, n: nat, i: nat)
    requires n <= |steps|
    ensures FileName(i) in Exports(steps, fmt, n) <==> i < n && Written(steps[i])
  {
    if n > 0 {
      ExportsKeys(steps, fmt, n - 1, i);
      if FileName(i) == FileName(n - 1) {
        Timesteps.FileNameInjective(i, n - 1);
      }
    }
  }

  /** Every written file is named after one of the written timesteps. */
  lemma {:induction false} ExportsNames(steps: seq<Fetch>, fmt: real -> string, n: nat, name: string)
    requires n <= |steps| && name in Exports(steps, fmt, n)
    ensures exists i :: 0 <= i < n && Written(steps[i]) && name == FileName(i)
  {
    if name != FileName(n - 1) || !Written(steps[n - 1]) {
      ExportsNames(steps, fmt, n - 1, name);
    }
  }

  /** The file of timestep `i` holds that timestep's header, values and `/`; no later write replaces it. */
  lemma {:induction false} ExportsContent(steps: seq<Fetch>, fmt: real -> string, n: nat, i: nat)
    requires i < n <= |steps| && Written(steps[i])
    ensures FileName(i) in Exports(steps, fmt, n)
    ensures Exports(steps, fmt, n)[FileName(i)] == GrdeclText(i, fmt, steps[i].values)
  {
    ExportsKeys(steps, fmt, n, i);
    if i < n - 1 {
      ExportsContent(steps, fmt, n - 1, i);
      if FileName(i) == FileName(n - 1) {
        Timesteps.FileNameInjective(i, n - 1);
      }
    }
  }

  /** `exported_count` is the number of files written: every counted timestep has a file of its own. */
  lemma {:induction false} ExportCountIsFileCount(steps: seq<Fetch>, fmt: real -> string, n: nat)
    requires n <= |steps|
    ensures |Exports(steps, fmt, n).Keys| == ExportCount(steps, n)
  {
    if n > 0 {
      ExportCountIsFileCount(steps, fmt, n - 1);
      var m := Exports(steps, fmt, n - 1);
      if Written(steps[n - 1]) {
        ExportsKeys(steps, fmt, n - 1, n - 1);
        assert FileName(n - 1) !in m;
        assert Exports(steps, fmt, n).Keys == m.Keys + {FileName(n - 1)};
      }
    }
  }

  /** The VTK exporter's reader gets every written timestep's values back, as `float()` reads their printed form. */
  lemma ExportedFileReadsBack(steps: seq<Fetch>, fmt: real -> string, ps: R.Parsers, i: nat)
    requires i < |steps| && Written(steps[i])
    requires TokenFormatter(fmt) && Readable(fmt, ps.toFloat)
    ensures FileName(i) in Exports(steps, fmt, |steps|)
    ensures R.ReadProperty(Exports(steps, fmt, |steps|)[FileName(i)], R.YmfsKeywords, ps)
         == R.Values(Reread(fmt, ps.toFloat, steps[i].values))
  {
    ExportsContent(steps, fmt, |steps|, i);
    GrdeclRoundTrip.ConverterReadsExport(i, fmt, ps, steps[i].values);
  }
}
