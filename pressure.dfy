/**
 * `generate_initial_pressure.py`: the initial pressure include file for
 * PFLOTRAN. A mean of 100 bar plus noise on a 64 x 28 x 25 grid is clipped
 * to [50, 150] bar, flattened with `transpose(2, 1, 0).flatten(order='F')`
 * and written one value per line after a `PRESSURE` header, with no `/`.
 * The noise array is an input of the model.
 */
module InitialPressure {
  import opened Text
  import opened Chunking
  import opened Numbers
  import opened NdArray
  import P = PlainReader
  import GrdeclRoundTrip
  import IncWriter

  const NX: nat := 64
  const NY: nat := 28
  const NZ: nat := 25
  const MeanPressure: real := 100.0
  const LowerBound: real := 50.0
  const UpperBound: real := 150.0

  /** `np.clip` of one value. */
  function Clip(v: real): (r: real)
    ensures LowerBound <= r <= UpperBound
    ensures LowerBound <= v <= UpperBound ==> r == v
    ensures v < LowerBound ==> r == LowerBound
    ensures v > UpperBound ==> r == UpperBound
  {
    if v < LowerBound then LowerBound else if v > UpperBound then UpperBound else v
  }

  /** `np.clip(MEAN_PRESSURE + noise, LOWER_BOUND, UPPER_BOUND)`, cell by cell. */
  function Pressure(noise: Array3): (r: Array3)
    requires Shaped(noise)
    ensures Shaped(r) && r.d0 == noise.d0 && r.d1 == noise.d1 && r.d2 == noise.d2
    ensures forall z, y, x :: 0 <= z < r.d0 && 0 <= y < r.d1 && 0 <= x < r.d2 ==>
      r.cells[z][y][x] == Clip(MeanPressure + noise.cells[z][y][x])
  {
    Array3(noise.d0, noise.d1, noise.d2,
      seq(noise.d0, z requires 0 <= z < noise.d0 =>
        seq(noise.d1, y requires 0 <= y < noise.d1 =>
          seq(noise.d2, x requires 0 <= x < noise.d2 => Clip(MeanPressure + noise.cells[z][y][x])))))
  }

  /** `pressure.transpose(2, 1, 0).flatten(order='F')` */
  function PressureValues(noise: Array3): seq<real>
    requires Shaped(noise)
  {
    FFlatten(Transpose210(Pressure(noise)))
  }

  /** The line written for one value: `f" {val:.6e}"`. */
  function PressureLine(fmt: real -> string, v: real): string {
    " " + fmt(v)
  }

  function PressureLines(fmt: real -> string, vs: seq<real>): (ls: seq<string>)
    ensures |ls| == |vs|
  {
    seq(|vs|, m requires 0 <= m < |vs| => PressureLine(fmt, vs[m]))
  }

  const Header: string := "PRESSURE"

  /** The text of the file once the values `vs` have been written. */
  function PressureText(fmt: real -> string, vs: seq<real>): string {
    ConcatLines([Header] + PressureLines(fmt, vs))
  }

  // ---------------------------------------------------------------- writer

  lemma {:induction false} PressureStep(fmt: real -> string, vs: seq<real>, k: nat)
    requires k < |vs|
    ensures PressureText(fmt, vs[..k + 1]) == PressureText(fmt, vs[..k]) + PressureLine(fmt, vs[k]) + "\n"
  {
    var before := [Header] + PressureLines(fmt, vs[..k]);
    var l := PressureLine(fmt, vs[k]);
    assert [Header] + PressureLines(fmt, vs[..k + 1]) == before + [l];
    ConcatLinesAppend(before, [l]);
    assert [l][1..] == [];
  }

  /** The write loop: the header, then one line per value. */
  method WriteValues(fmt: real -> string, vs: seq<real>) returns (text: string)
    ensures text == PressureText(fmt, vs)
  {
    text := "PRESSURE\n";
    assert [Header][1..] == [] && vs[..0] == [];
    assert PressureText(fmt, vs[..0]) == ConcatLines([Header]);
    var k := 0;
    while k < |vs|
      invariant 0 <= k <= |vs|
      invariant text == PressureText(fmt, vs[..k])
    {
      PressureStep(fmt, vs, k);
      text := text + " " + fmt(vs[k]) + "\n";
      k := k + 1;
    }
    assert vs[..k] == vs;
  }

  /** The script on the noise `rng.normal` gave: the file's text and `flattened.size`. */
  method GenerateInitialPressure(noise: Array3, fmt: real -> string) returns (text: string, count: nat)
    requires Shaped(noise) && noise.d0 == NX && noise.d1 == NY && noise.d2 == NZ
    ensures text == PressureText(fmt, PressureValues(noise))
    ensures count == |PressureValues(noise)| == NX * NY * NZ
  {
    var pressure := Pressure(noise);
    var flattened := FFlatten(Transpose210(pressure));
    text := WriteValues(fmt, flattened);
    PressureCount(noise);
    count := |flattened|;
  }

  // ---------------------------------------------------------------- properties

  /** The transpose and the Fortran order cancel: the values come out in the C order of the clipped array. */
  lemma {:induction false} PressureIsCOrder(noise: Array3)
    requires Shaped(noise)
    ensures PressureValues(noise) == CFlatten(Pressure(noise).cells)
  {
    FortranOfTransposed(Pressure(noise));
  }

  /** Exactly `NX * NY * NZ = 44800` values are written. */
  lemma {:induction false} PressureCount(noise: Array3)
    requires Shaped(noise) && noise.d0 == NX && noise.d1 == NY && noise.d2 == NZ
    ensures |PressureValues(noise)| == NX * NY * NZ == 44800
  {
    PressureIsCOrder(noise);
    CFlattenLength(Pressure(noise));
  }

  /** Value `z + NZ * y + NZ * NY * x` of the file is the clipped pressure of cell `[x, y, z]`. */
  lemma {:induction false} PressureAt(noise: Array3, x: nat, y: nat, z: nat)
    requires Shaped(noise) && noise.d0 == NX && noise.d1 == NY && noise.d2 == NZ
    requires x < NX && y < NY && z < NZ
    ensures z + NZ * y + NZ * NY * x < |PressureValues(noise)|
    ensures PressureValues(noise)[z + NZ * y + NZ * NY * x] == Clip(MeanPressure + noise.cells[x][y][z])
  {
    PressureIsCOrder(noise);
    CFlattenAt(Pressure(noise), x, y, z);
    assert Offset(NY, NZ, x, y, z) == z + NZ * y + NZ * NY * x;
  }

  /** Every written value lies within the bounds. */
  lemma {:induction false} PressureBounds(noise: Array3)
    requires Shaped(noise)
    ensures forall k :: 0 <= k < |PressureValues(noise)| ==>
      LowerBound <= PressureValues(noise)[k] <= UpperBound
  {
    var a := Pressure(noise);
    PressureIsCOrder(noise);
    CFlattenLength(a);
    forall k | 0 <= k < |PressureValues(noise)|
      ensures LowerBound <= PressureValues(noise)[k] <= UpperBound
    {
      var z, y, x := Decompose(k, a.d0, a.d1, a.d2);
      CFlattenAt(a, z, y, x);
    }
  }

  // ---------------------------------------------------------------- reading it back

  lemma HeaderIsKeyword()
    ensures IncWriter.Keyword(Header)
  {
  }

  /** A value line loses its leading space to `strip()` and holds one token. */
  lemma PressureLineRead(fmt: real -> string, toFloat: string -> Option<real>, v: real)
    requires TokenFormatter(fmt) && Readable(fmt, toFloat)
    ensures '\n' !in PressureLine(fmt, v)
    ensures P.Classify(Strip(PressureLine(fmt, v)), true) == P.ValueLine
    ensures P.TokenFloats(Split(Strip(PressureLine(fmt, v))), toFloat) == [ReadBack(fmt, toFloat, v)]
  {
    var t := fmt(v);
    FormattedToken(fmt, v);
    NumericTokenFacts(t);
    assert PressureLine(fmt, v) == Spaces(1) + t;
    StripLeftSpacesThen(1, t);
    assert StripRight(t) == t;
    SplitWord(t, []);
    assert t + [] == t;
    ReadableAt(fmt, toFloat, v);
  }

  lemma PressureLinesNoBreaks(fmt: real -> string, toFloat: string -> Option<real>, vs: seq<real>)
    requires TokenFormatter(fmt) && Readable(fmt, toFloat)
    ensures NoBreaks([Header] + PressureLines(fmt, vs))
  {
    HeaderIsKeyword();
    IncWriter.KeywordFacts(Header);
    forall m | 0 <= m < |vs| ensures '\n' !in PressureLines(fmt, vs)[m] {
      PressureLineRead(fmt, toFloat, vs[m]);
    }
    NoBreaksCons(Header, PressureLines(fmt, vs));
  }

  /** The line iteration of the file: the header, then one line per value. */
  lemma {:induction false} PressureLayout(fmt: real -> string, toFloat: string -> Option<real>, vs: seq<real>)
    requires TokenFormatter(fmt) && Readable(fmt, toFloat)
    ensures Lines(PressureText(fmt, vs)) == [Header] + PressureLines(fmt, vs)
  {
    PressureLinesNoBreaks(fmt, toFloat, vs);
    LinesOfConcat([Header] + PressureLines(fmt, vs));
  }

  function Singletons(vs: seq<real>): (cs: seq<seq<real>>)
    ensures |cs| == |vs|
  {
    seq(|vs|, m requires 0 <= m < |vs| => [vs[m]])
  }

  lemma {:induction false} FlattenSingletons(vs: seq<real>)
    ensures Flatten(Singletons(vs)) == vs
  {
    if vs != [] {
      assert Singletons(vs)[1..] == Singletons(vs[1..]);
      FlattenSingletons(vs[1..]);
      assert vs == [vs[0]] + vs[1..];
    }
  }

  /** After the name, the value lines give every value back, in order. */
  lemma {:induction false} PressureValueLinesRead(fmt: real -> string, toFloat: string -> Option<real>, vs: seq<real>)
    requires TokenFormatter(fmt) && Readable(fmt, toFloat)
    ensures P.PlainScan(PressureLines(fmt, vs), true, toFloat) == Reread(fmt, toFloat, vs)
  {
    var ls := PressureLines(fmt, vs);
    var cs := Singletons(vs);
    var vss := GrdeclRoundTrip.RereadEach(fmt, toFloat, cs);
    forall m | 0 <= m < |ls|
      ensures P.Classify(Strip(ls[m]), true) == P.ValueLine
      ensures P.TokenFloats(Split(Strip(ls[m])), toFloat) == vss[m]
    {
      PressureLineRead(fmt, toFloat, vs[m]);
      assert Reread(fmt, toFloat, [vs[m]]) == [ReadBack(fmt, toFloat, vs[m])];
    }
    P.ValueLinesRead(ls, [], toFloat, vss);
    assert ls + [] == ls;
    GrdeclRoundTrip.FlattenRereadEach(fmt, toFloat, cs);
    FlattenSingletons(vs);
  }

  /** The name-triggered reader takes `PRESSURE` as the name and reads every written value back. */
  lemma {:induction false} PressureReadsBack(fmt: real -> string, toFloat: string -> Option<real>, vs: seq<real>)
    requires TokenFormatter(fmt) && Readable(fmt, toFloat)
    ensures P.ReadPlainProperty(PressureText(fmt, vs), toFloat) == Reread(fmt, toFloat, vs)
  {
    PressureLayout(fmt, toFloat, vs);
    HeaderIsKeyword();
    IncWriter.KeywordFacts(Header);
    P.NameLineStarts(Header, PressureLines(fmt, vs), toFloat);
    PressureValueLinesRead(fmt, toFloat, vs);
  }

  /** The written file reads back as the clipped pressures in C order. */
  lemma {:induction false} GeneratedFileReadsBack(noise: Array3, fmt: real -> string, toFloat: string -> Option<real>)
    requires Shaped(noise) && TokenFormatter(fmt) && Readable(fmt, toFloat)
    ensures P.ReadPlainProperty(PressureText(fmt, PressureValues(noise)), toFloat)
         == Reread(fmt, toFloat, CFlatten(Pressure(noise).cells))
  {
    PressureReadsBack(fmt, toFloat, PressureValues(noise));
    PressureIsCOrder(noise);
  }
}
