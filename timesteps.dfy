/**
 * The timestep catalogue of the visualisation app (`load_all_timesteps`):
 * every `YMFS_ts_*.GRDECL` file of the export directory is read with the
 * keyword reader and filed under the number that follows `ts_` in its name;
 * the numbers are returned sorted ascending.
 */
module Timesteps {
  import opened Text
  import opened GrdeclWriter
  import R = RleReader
  import opened Numbers
  import GrdeclRoundTrip

  // ------------------------------------------------------------- timestep ids

  /** `ts_` followed by a digit starts at position `p` of `name`. */
  predicate MatchAt(name: string, p: nat) {
    p + 3 < |name| && name[p] == 't' && name[p + 1] == 's' && name[p + 2] == '_' && IsDigit(name[p + 3])
  }

  /** The number `ts_(\d+)` captures at `p`: the whole digit run after `ts_`. */
  function CapturedAt(name: string, p: nat): nat
    requires MatchAt(name, p)
  {
    var d := name[p + 3..];
    DigitsValue(d[..DigitRun(d)])
  }

  /** `re.search(r'ts_(\d+)', name)` from position `p` on, and `int()` of its group. */
  function SearchTs(name: string, p: nat): Option<nat>
    decreases |name| - p
  {
    if p + 3 >= |name| then None
    else if MatchAt(name, p) then Some(CapturedAt(name, p))
    else SearchTs(name, p + 1)
  }

  function TsId(name: string): Option<nat> {
    SearchTs(name, 0)
  }

  /**
   * The search finds a match exactly when there is one, and it reports the
   * left-most one.
   */
  lemma {:induction false} SearchTsLeftmost(name: string, p: nat)
    ensures SearchTs(name, p).None? <==> forall q :: p <= q ==> !MatchAt(name, q)
    ensures SearchTs(name, p).Some? ==>
      (exists q :: p <= q && MatchAt(name, q) && (forall r :: p <= r < q ==> !MatchAt(name, r))
         && SearchTs(name, p) == Some(CapturedAt(name, q)))
    decreases |name| - p
  {
    if p + 3 >= |name| {
      forall q | p <= q ensures !MatchAt(name, q) { }
    } else if MatchAt(name, p) {
    } else {
      SearchTsLeftmost(name, p + 1);
      if SearchTs(name, p).None? {
        forall q | p <= q ensures !MatchAt(name, q) {
          if q > p { }
        }
      } else {
        var q :| p + 1 <= q && MatchAt(name, q)
          && (forall r :: p + 1 <= r < q ==> !MatchAt(name, r)) && SearchTs(name, p + 1) == Some(CapturedAt(name, q));
        assert forall r :: p <= r < q ==> !MatchAt(name, r);
      }
    }
  }

  /** A name `pre + "ts_" + digits + rest` with no `t` in `pre` carries the id `int(digits)`. */
  lemma {:induction false} TsIdAfter(pre: string, d: string, rest: string, p: nat)
    requires p <= |pre| && 't' !in pre[p..]
    requires d != [] && AllDigits(d) && (rest == [] || !IsDigit(rest[0]))
    ensures SearchTs(pre + "ts_" + d + rest, p) == Some(DigitsValue(d))
    decreases |pre| - p
  {
    var name := pre + "ts_" + d + rest;
    if p == |pre| {
      assert name[p..p + 3] == "ts_";
      assert name[p + 3..] == d + rest;
      assert MatchAt(name, p);
      DigitRunOfDigits(d, rest);
      assert (d + rest)[..|d|] == d;
    } else {
      assert name[p] == pre[p];
      assert pre[p] in pre[p..];
      assert !MatchAt(name, p);
      assert 't' !in pre[p + 1..] by {
        assert forall c :: c in pre[p + 1..] ==> c in pre[p..];
      }
      TsIdAfter(pre, d, rest, p + 1);
    }
  }

  /** The id the app reads from a file name is the timestep the exporter wrote into it. */
  lemma TsIdOfFileName(i: nat)
    ensures TsId(FileName(i)) == Some(i)
  {
    var d := ZeroPad(i, 4);
    assert |d| >= |Decimal(i)| >= 1;
    SplitAfterPrefix("YMFS_ts_", "YMFS_", d, ".GRDECL");
    TsIdAfter("YMFS_", d, ".GRDECL", 0);
    ZeroPadValue(i, 4);
  }

  /** A name that starts with `pre` followed by `ts_`, seen as `pre`, `ts_` and the rest. */
  lemma SplitAfterPrefix(start: string, pre: string, d: string, rest: string)
    requires start == pre + "ts_"
    ensures start + d + rest == pre + "ts_" + d + rest
  {
  }

  /** Different timesteps get different file names, so no export overwrites another. */
  lemma FileNameInjective(i: nat, j: nat)
    requires FileName(i) == FileName(j)
    ensures i == j
  {
    TsIdOfFileName(i);
    TsIdOfFileName(j);
  }

  // --------------------------------------------------------------- catalogue

  /** One entry of the export directory: its name and its text. */
  datatype DirFile = DirFile(name: string, content: string)

  /** `Path.glob('YMFS_ts_*.GRDECL')`: the name starts with the prefix, ends with the suffix, and they do not overlap. */
  predicate GlobMatch(name: string) {
    |name| >= 15 && StartsWith(name, "YMFS_ts_") && EndsWith(name, ".GRDECL")
  }

  /** A listed file the loop files under an id: it matches the glob and the `ts_(\d+)` search. */
  predicate Catalogued(f: DirFile) {
    GlobMatch(f.name) && TsId(f.name).Some?
  }

  /** The ids the loop appends to `idxs`, in listing order (before `idxs.sort()`). */
  function CatalogueIds(files: seq<DirFile>): seq<nat> {
    if files == [] then []
    else
      var last := files[|files| - 1];
      CatalogueIds(files[..|files| - 1]) + (if Catalogued(last) then [TsId(last.name).value] else [])
  }

  /**
   * The `data` dictionary after the loop, or `None` when reading one of the
   * files raises; a later file with the same id replaces the earlier one.
   */
  function CatalogueData(files: seq<DirFile>, ps: R.Parsers): Option<map<nat, seq<real>>> {
    if files == [] then Some(map[])
    else
      var last := files[|files| - 1];
      match CatalogueData(files[..|files| - 1], ps)
      case None => None
      case Some(m) =>
        if !Catalogued(last) then Some(m)
        else match R.ReadProperty(last.content, R.AppKeywords, ps)
          case UnpackRaised => None
          case Values(v) => Some(m[TsId(last.name).value := v])
  }

  predicate Sorted(s: seq<nat>) {
    forall a, b :: 0 <= a < b < |s| ==> s[a] <= s[b]
  }

  /** What `load_all_timesteps` returns, or the exception a file read lets through. */
  datatype LoadResult = Loaded(data: map<nat, seq<real>>, idxs: seq<nat>) | ReadRaised

  /**
   * `load_all_timesteps`. The directory is `None` when it does not exist, and
   * otherwise its listing in the order `sorted(glob(...))` gives.
   */
  method LoadAllTimesteps(dir: Option<seq<DirFile>>, ps: R.Parsers) returns (r: LoadResult)
    ensures dir.None? ==> r == Loaded(map[], [])
    ensures dir.Some? ==> (r.ReadRaised? <==> CatalogueData(dir.value, ps).None?)
    ensures dir.Some? && r.Loaded? ==>
      Some(r.data) == CatalogueData(dir.value, ps) && Sorted(r.idxs)
      && multiset(r.idxs) == multiset(CatalogueIds(dir.value))
  {
    if dir.None? {
      return Loaded(map[], []);
    }
    var files := dir.value;
    var data: map<nat, seq<real>> := map[];
    var idxs: seq<nat> := [];
    var n := 0;
    while n < |files|
      invariant 0 <= n <= |files|
      invariant CatalogueData(files[..n], ps) == Some(data)
      invariant CatalogueIds(files[..n]) == idxs
    {
      var fp := files[n];
      assert files[..n + 1][..n] == files[..n];
      if !GlobMatch(fp.name) {
        n := n + 1;
        continue;
      }
      var m := TsId(fp.name);
      if m.None? {
        n := n + 1;
        continue;
      }
      var ts := m.value;
      var arr := R.ReadGrdeclProperty(fp.content, R.AppKeywords, ps);
      if arr.UnpackRaised? {
        ReadRaisedStays(files, n + 1, ps);
        return ReadRaised;
      }
      data := data[ts := arr.values];
      idxs := idxs + [ts];
      n := n + 1;
    }
    assert files[..n] == files;
    idxs := SortAscending(idxs);
    return Loaded(data, idxs);
  }

  /** Once a read has raised, later files do not matter. */
  lemma {:induction false} ReadRaisedStays(files: seq<DirFile>, n: nat, ps: R.Parsers)
    requires n <= |files| && CatalogueData(files[..n], ps).None?
    ensures CatalogueData(files, ps).None?
    decreases |files| - n
  {
    if n < |files| {
      assert files[..n + 1][..n] == files[..n];
      ReadRaisedStays(files, n + 1, ps);
    } else {
      assert files[..n] == files;
    }
  }

  /** `idxs.sort()`. */
  method SortAscending(s: seq<nat>) returns (r: seq<nat>)
    ensures Sorted(r) && multiset(r) == multiset(s)
  {
    r := [];
    var n := 0;
    while n < |s|
      invariant 0 <= n <= |s|
      invariant Sorted(r) && multiset(r) == multiset(s[..n])
    {
      assert s[..n + 1] == s[..n] + [s[n]];
      r := Insert(r, s[n]);
      n := n + 1;
    }
    assert s[..n] == s;
  }

  /** Places `x` in a sorted list in front of the first larger element. */
  function Insert(s: seq<nat>, x: nat): (r: seq<nat>)
    requires Sorted(s)
    ensures Sorted(r) && multiset(r) == multiset(s) + multiset{x}
  {
    if s == [] || x <= s[0] then
      InsertFront(s, x);
      [x] + s
    else
      SortedTail(s);
      var t := Insert(s[1..], x);
      InsertBehind(s, x, t);
      [s[0]] + t
  }

  lemma SortedTail(s: seq<nat>)
    requires Sorted(s) && s != []
    ensures Sorted(s[1..])
  {
    forall a, b | 0 <= a < b < |s| - 1 ensures s[1..][a] <= s[1..][b] {
      assert s[1..][a] == s[a + 1] && s[1..][b] == s[b + 1];
    }
  }

  lemma InsertFront(s: seq<nat>, x: nat)
    requires Sorted(s) && (s == [] || x <= s[0])
    ensures Sorted([x] + s) && multiset([x] + s) == multiset(s) + multiset{x}
  {
    var r := [x] + s;
    forall a, b | 0 <= a < b < |r| ensures r[a] <= r[b] {
      assert r[b] == s[b - 1];
      if a > 0 {
        assert r[a] == s[a - 1];
      } else {
        assert s[0] <= s[b - 1];
      }
    }
  }

  /** `s[0]` stays in front of the insertion into `s[1..]`. */
  lemma InsertBehind(s: seq<nat>, x: nat, t: seq<nat>)
    requires Sorted(s) && s != [] && s[0] < x
    requires Sorted(t) && multiset(t) == multiset(s[1..]) + multiset{x}
    ensures Sorted([s[0]] + t) && multiset([s[0]] + t) == multiset(s) + multiset{x}
  {
    assert s == [s[0]] + s[1..];
    assert multiset(s) == multiset{s[0]} + multiset(s[1..]);
    var r := [s[0]] + t;
    forall a, b | 0 <= a < b < |r| ensures r[a] <= r[b] {
      assert r[b] == t[b - 1];
      if a > 0 {
        assert r[a] == t[a - 1];
      } else {
        var e := t[b - 1];
        assert e in multiset(t);
        if e != x {
          assert e in multiset(s[1..]);
          var k :| 0 <= k < |s[1..]| && s[1..][k] == e;
          assert s[k + 1] == e;
        }
      }
    }
  }

  /** Two sorted lists holding the same ids are the same list. */
  lemma {:induction false} SortedUnique(a: seq<nat>, b: seq<nat>)
    requires Sorted(a) && Sorted(b) && multiset(a) == multiset(b)
    ensures a == b
    decreases |a|
  {
    if a != [] {
      assert b != [] && a[0] == b[0] by {
        assert a[0] in multiset(a);
        HeadIsLeast(b, a[0]);
        assert b[0] in multiset(b);
        HeadIsLeast(a, b[0]);
      }
      assert a[1..] == b[1..] by {
        MultisetTail(a);
        MultisetTail(b);
        SortedTail(a);
        SortedTail(b);
        SortedUnique(a[1..], b[1..]);
      }
      HeadTailEqual(a, b);
    } else {
      assert |b| == |multiset(b)| == 0;
    }
  }

  lemma HeadTailEqual(a: seq<nat>, b: seq<nat>)
    requires a != [] && b != [] && a[0] == b[0] && a[1..] == b[1..]
    ensures a == b
  {
    assert a == [a[0]] + a[1..];
    assert b == [b[0]] + b[1..];
  }

  lemma HeadIsLeast(s: seq<nat>, e: nat)
    requires Sorted(s) && e in multiset(s)
    ensures s != [] && s[0] <= e
  {
    var k :| 0 <= k < |s| && s[k] == e;
    if k > 0 {
      assert s[0] <= s[k];
    }
  }

  lemma MultisetTail(s: seq<nat>)
    requires s != []
    ensures multiset(s[1..]) == multiset(s) - multiset{s[0]}
  {
    assert s == [s[0]] + s[1..];
  }

  /** The ids filed in `data` are exactly the ids listed in `idxs`. */
  lemma {:induction false} CatalogueKeys(files: seq<DirFile>, ps: R.Parsers)
    requires CatalogueData(files, ps).Some?
    ensures CatalogueData(files, ps).value.Keys == set t | t in CatalogueIds(files)
  {
    if files != [] {
      var init := files[..|files| - 1];
      CatalogueKeys(init, ps);
    }
  }

  /** The exporter's file names pass the glob. */
  lemma GlobMatchFileName(i: nat)
    ensures GlobMatch(FileName(i))
  {
    var d := ZeroPad(i, 4);
    assert |d| >= |Decimal(i)| >= 1;
    var name := FileName(i);
    assert name[..8] == "YMFS_ts_";
    assert name[|name| - 7..] == ".GRDECL";
  }

  /** A listing of files the exporter wrote: file `n` is timestep `ts[n]` holding `vs[n]`. */
  predicate ExportListing(files: seq<DirFile>, ts: seq<nat>, vs: seq<seq<real>>, fmt: real -> string) {
    |files| == |ts| == |vs|
    && forall n :: 0 <= n < |files| ==> files[n] == DirFile(FileName(ts[n]), GrdeclText(ts[n], fmt, vs[n]))
  }

  /**
   * The app's catalogue of a directory the exporter filled: every file is
   * filed under the timestep it was written for and holds the values
   * written, as `float()` reads back their printed form.
   */
  lemma CatalogueOfExport(files: seq<DirFile>, ts: seq<nat>, vs: seq<seq<real>>,
                          fmt: real -> string, ps: R.Parsers)
    requires ExportListing(files, ts, vs, fmt)
    requires TokenFormatter(fmt) && Readable(fmt, ps.toFloat)
    requires forall a, b :: 0 <= a < b < |ts| ==> ts[a] != ts[b]
    ensures CatalogueIds(files) == ts
    ensures CatalogueData(files, ps).Some?
    ensures forall n :: 0 <= n < |ts| ==>
      ts[n] in CatalogueData(files, ps).value && CatalogueData(files, ps).value[ts[n]] == Reread(fmt, ps.toFloat, vs[n])
  {
    var ws := seq(|vs|, n requires 0 <= n < |vs| => Reread(fmt, ps.toFloat, vs[n]));
    forall n | 0 <= n < |files|
      ensures GlobMatch(files[n].name) && TsId(files[n].name) == Some(ts[n])
      ensures R.ReadProperty(files[n].content, R.AppKeywords, ps) == R.Values(ws[n])
    {
      GlobMatchFileName(ts[n]);
      TsIdOfFileName(ts[n]);
      GrdeclRoundTrip.AppReadsExport(ts[n], fmt, ps, vs[n]);
    }
    CatalogueOfNamed(files, ts, ws, ps);
  }

  /** Files with pairwise different ids, each of which reads without raising, are all filed under their ids. */
  lemma {:induction false} CatalogueOfNamed(files: seq<DirFile>, ts: seq<nat>, ws: seq<seq<real>>, ps: R.Parsers)
    requires |files| == |ts| == |ws|
    requires forall n :: 0 <= n < |files| ==> GlobMatch(files[n].name) && TsId(files[n].name) == Some(ts[n])
    requires forall n :: 0 <= n < |files| ==> R.ReadProperty(files[n].content, R.AppKeywords, ps) == R.Values(ws[n])
    requires forall a, b :: 0 <= a < b < |ts| ==> ts[a] != ts[b]
    ensures CatalogueIds(files) == ts
    ensures CatalogueData(files, ps).Some?
    ensures forall n :: 0 <= n < |ts| ==>
      ts[n] in CatalogueData(files, ps).value && CatalogueData(files, ps).value[ts[n]] == ws[n]
  {
    if files != [] {
      var k := |files| - 1;
      var init := files[..k];
      CatalogueOfNamed(init, ts[..k], ws[..k], ps);
      var m0 := CatalogueData(init, ps).value;
      CatalogueStep(files, files[k], ts[k], ws[k], ps);
      var m := CatalogueData(files, ps).value;
      assert m == m0[ts[k] := ws[k]];
      forall n | 0 <= n < |ts| ensures ts[n] in m && m[ts[n]] == ws[n] {
        if n < k {
          assert ts[n] != ts[k];
          assert ts[..k][n] == ts[n] && ws[..k][n] == ws[n];
        }
      }
      SnocLast(ts);
    }
  }

  lemma SnocLast<T>(s: seq<T>)
    requires s != []
    ensures s[..|s| - 1] + [s[|s| - 1]] == s
  {
  }

  /** A last file that matches, carries id `t` and reads as `w` files `w` under `t`. */
  lemma CatalogueStep(files: seq<DirFile>, f: DirFile, t: nat, w: seq<real>, ps: R.Parsers)
    requires files != [] && files[|files| - 1] == f
    requires GlobMatch(f.name) && TsId(f.name) == Some(t)
    requires R.ReadProperty(f.content, R.AppKeywords, ps) == R.Values(w)
    requires CatalogueData(files[..|files| - 1], ps).Some?
    ensures CatalogueIds(files) == CatalogueIds(files[..|files| - 1]) + [t]
    ensures CatalogueData(files, ps) == Some(CatalogueData(files[..|files| - 1], ps).value[t := w])
  {
    CatalogueIdsStep(files, f, t);
  }

  lemma CatalogueIdsStep(files: seq<DirFile>, f: DirFile, t: nat)
    requires files != [] && files[|files| - 1] == f
    requires GlobMatch(f.name) && TsId(f.name) == Some(t)
    ensures CatalogueIds(files) == CatalogueIds(files[..|files| - 1]) + [t]
  {
  }

  /** The exporter numbers timesteps ascending, so the sorted ids are the exported ids in their own order. */
  lemma LoadedIdsOfExport(files: seq<DirFile>, ts: seq<nat>, vs: seq<seq<real>>,
                          fmt: real -> string, ps: R.Parsers, idxs: seq<nat>)
    requires ExportListing(files, ts, vs, fmt)
    requires TokenFormatter(fmt) && Readable(fmt, ps.toFloat)
    requires forall a, b :: 0 <= a < b < |ts| ==> ts[a] < ts[b]
    requires Sorted(idxs) && multiset(idxs) == multiset(CatalogueIds(files))
    ensures idxs == ts
  {
    CatalogueOfExport(files, ts, vs, fmt, ps);
    SortedUnique(idxs, ts);
  }
}
