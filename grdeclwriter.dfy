/**
 * The per-timestep YMFS GRDECL file the ResInsight exporters write
 * (export_ymfs_geosx.py and the GRDECL step of export_ymfs_geosx_to_vtk.py):
 * a `--` comment naming the timestep, the keyword line `YMFS`, the values
 * five per line, each right-aligned in 15 columns and separated by one
 * space, and a closing `/` line. The file is named `YMFS_ts_{i:04d}.GRDECL`.
 */
module GrdeclWriter {
  import opened Text
  import opened Chunking
  import opened Numbers

  const FieldWidth: nat := 15

  /** `f"{v:15.6f}"`: the printed number right-aligned in 15 columns. */
  function Field(fmt: real -> string, v: real): string {
    LeftPad(fmt(v), FieldWidth, ' ')
  }

  /** `" " + field` for every value of `c`. */
  function JoinRest(fmt: real -> string, c: seq<real>): string {
    if c == [] then "" else " " + Field(fmt, c[0]) + JoinRest(fmt, c[1..])
  }

  /** `" ".join(f"{v:15.6f}" for v in c)`. */
  function DataLine(fmt: real -> string, c: seq<real>): string {
    if c == [] then "" else Field(fmt, c[0]) + JoinRest(fmt, c[1..])
  }

  function DataLines(fmt: real -> string, cs: seq<seq<real>>): (ls: seq<string>)
    ensures |ls| == |cs|
  {
    if cs == [] then [] else [DataLine(fmt, cs[0])] + DataLines(fmt, cs[1..])
  }

  /** `"-- Exported from ResInsight - GEOSX Simulation - Timestep "`, written in pieces. */
  const CommentPrefix: string := "--" + " Exported from" + " ResInsight -" + " GEOSX Simulation" + " - Timestep "

  lemma CommentPrefixFacts()
    ensures |CommentPrefix| >= 2 && CommentPrefix[0] == '-' && CommentPrefix[1] == '-'
    ensures '\n' !in CommentPrefix
  {
  }

  function CommentLine(i: nat): string {
    CommentPrefix + Decimal(i)
  }

  /** The lines of the file for timestep `i` holding `values`. */
  function GrdeclLines(i: nat, fmt: real -> string, values: seq<real>): seq<string> {
    [CommentLine(i), "YMFS"] + DataLines(fmt, Chunks(values)) + ["/"]
  }

  /** The same lines, one at a time from the front. */
  lemma GrdeclLinesCons(i: nat, fmt: real -> string, values: seq<real>)
    ensures GrdeclLines(i, fmt, values)
         == [CommentLine(i)] + (["YMFS"] + (DataLines(fmt, Chunks(values)) + ["/"]))
  {
    FrameCons(CommentLine(i), "YMFS", DataLines(fmt, Chunks(values)), "/");
  }

  lemma FrameCons<T>(a: T, b: T, d: seq<T>, e: T)
    ensures [a, b] + d + [e] == [a] + ([b] + (d + [e]))
  {
  }

  function GrdeclText(i: nat, fmt: real -> string, values: seq<real>): string {
    ConcatLines(GrdeclLines(i, fmt, values))
  }

  /** `f"YMFS_ts_{i:04d}.GRDECL"`. */
  function FileName(i: nat): string {
    "YMFS_ts_" + ZeroPad(i, 4) + ".GRDECL"
  }

  /** The `with open(...)` block: header, `range(0, len(values), 5)` loop, closing `/`. */
  method WriteYmfsGrdecl(i: nat, values: seq<real>, fmt: real -> string) returns (text: string)
    ensures text == GrdeclText(i, fmt, values)
  {
    ghost var header := [CommentLine(i), "YMFS"];
    text := CommentLine(i) + "\n";
    text := text + "YMFS\n";
    WriterStart(header, fmt, values);
    var j := 0;
    while j < |values|
      invariant 0 <= j && j % PerLine == 0
      invariant text == ConcatLines(header + DataLines(fmt, Chunks(values[..Min(j, |values|)])))
    {
      var lineVals := values[j..Min(j + PerLine, |values|)];
      WriterStep(header, fmt, values, j);
      text := text + DataLine(fmt, lineVals) + "\n";
      j := j + PerLine;
    }
    WriterEnd(header, fmt, values, j);
    text := text + "/\n";
  }

  /** The two header lines, as `ConcatLines` renders them. */
  lemma WriterStart(header: seq<string>, fmt: real -> string, values: seq<real>)
    requires |header| == 2
    ensures ConcatLines(header + DataLines(fmt, Chunks(values[..Min(0, |values|)])))
         == header[0] + "\n" + header[1] + "\n"
  {
    assert header + DataLines(fmt, Chunks(values[..0])) == header;
    assert header[1..][1..] == [];
    assert ConcatLines(header[1..]) == header[1] + "\n" + "";
  }

  /** What one pass of the writer loop adds to the text. */
  lemma WriterStep(header: seq<string>, fmt: real -> string, values: seq<real>, j: int)
    requires 0 <= j < |values| && j % PerLine == 0
    ensures (j + PerLine) % PerLine == 0
    ensures ConcatLines(header + DataLines(fmt, Chunks(values[..Min(j + PerLine, |values|)])))
         == ConcatLines(header + DataLines(fmt, Chunks(values[..Min(j, |values|)])))
            + DataLine(fmt, values[j..Min(j + PerLine, |values|)]) + "\n"
  {
    NextLineStart(j);
    var k := Min(j + PerLine, |values|);
    assert values[..j] + values[j..k] == values[..k];
    WriterLine(header, fmt, values[..j], values[j..k]);
  }

  lemma WriterLine(header: seq<string>, fmt: real -> string, done: seq<real>, lineVals: seq<real>)
    requires |done| % PerLine == 0 && 1 <= |lineVals| <= PerLine
    ensures ConcatLines(header + DataLines(fmt, Chunks(done + lineVals)))
         == ConcatLines(header + DataLines(fmt, Chunks(done))) + DataLine(fmt, lineVals) + "\n"
  {
    var l := DataLine(fmt, lineVals);
    var before := header + DataLines(fmt, Chunks(done));
    assert header + DataLines(fmt, Chunks(done + lineVals)) == before + [l] by {
      ChunksSnoc(done, lineVals);
      DataLinesAppend(fmt, Chunks(done), [lineVals]);
    }
    ConcatLinesSnoc(before, l);
  }

  /** After the loop every value is on a line; the closing `/` line completes the file. */
  lemma WriterEnd(header: seq<string>, fmt: real -> string, values: seq<real>, j: int)
    requires j >= |values|
    ensures ConcatLines(header + DataLines(fmt, Chunks(values[..Min(j, |values|)]))) + "/\n"
         == ConcatLines(header + DataLines(fmt, Chunks(values)) + ["/"])
  {
    assert values[..Min(j, |values|)] == values;
    ConcatLinesAppend(header + DataLines(fmt, Chunks(values)), ["/"]);
    assert ConcatLines(["/"]) == "/" + "\n" + "";
  }

  // ---------------------------------------------------------------- lemmas

  lemma {:induction false} DataLinesAt(fmt: real -> string, cs: seq<seq<real>>, m: nat)
    requires m < |cs|
    ensures DataLines(fmt, cs)[m] == DataLine(fmt, cs[m])
  {
    if m > 0 {
      DataLinesAt(fmt, cs[1..], m - 1);
    }
  }

  lemma {:induction false} DataLinesAppend(fmt: real -> string, a: seq<seq<real>>, b: seq<seq<real>>)
    ensures DataLines(fmt, a + b) == DataLines(fmt, a) + DataLines(fmt, b)
  {
    if a == [] {
      assert a + b == b;
    } else {
      assert (a + b)[1..] == a[1..] + b;
      DataLinesAppend(fmt, a[1..], b);
    }
  }

  /** `Spaces(k) + fmt(v)` with the pad `Field` puts in front. */
  lemma FieldShape(fmt: real -> string, v: real)
    ensures var t := fmt(v);
      Field(fmt, v) == Spaces(Pad(t)) + t
  {
  }

  /** The printed numbers of `c`, in order. */
  function Tokens(fmt: real -> string, c: seq<real>): seq<string> {
    if c == [] then [] else [fmt(c[0])] + Tokens(fmt, c[1..])
  }

  /** Text made only of number characters and spaces. */
  predicate NumText(s: string) {
    forall i :: 0 <= i < |s| ==> s[i] == ' ' || NumChar(s[i])
  }

  lemma NumTextFacts(s: string)
    requires NumText(s)
    ensures '\n' !in s && '/' !in s && 'S' !in s
  {
    forall i | 0 <= i < |s| ensures s[i] != '\n' && s[i] != '/' && s[i] != 'S' {
      assert s[i] == ' ' || NumChar(s[i]);
    }
  }

  lemma NumTextAppend(a: string, b: string)
    requires NumText(a) && NumText(b)
    ensures NumText(a + b)
  {
    forall i | 0 <= i < |a + b| ensures (a + b)[i] == ' ' || NumChar((a + b)[i]) {
      if i >= |a| { assert (a + b)[i] == b[i - |a|]; }
    }
  }

  lemma NumTextSpaces(k: nat)
    ensures NumText(Spaces(k))
  {
  }

  lemma SpacesCons(k: nat)
    ensures " " + Spaces(k) == Spaces(k + 1)
  {
  }

  /** The padded field of a value: spaces, then the printed number. */
  lemma FieldFacts(fmt: real -> string, v: real)
    requires TokenFormatter(fmt)
    ensures var t := fmt(v);
      NumericToken(t) && NoSpace(t) && !IsSpace(t[0]) && !IsSpace(t[|t| - 1]) && NumText(t)
      && Field(fmt, v) == Spaces(Pad(t)) + t
  {
    FormattedToken(fmt, v);
    NumericTokenFacts(fmt(v));
    FieldShape(fmt, v);
  }

  /** Padding count `Field` puts before the printed text `t`. */
  function Pad(t: string): nat {
    if |t| < FieldWidth then FieldWidth - |t| else 0
  }

  /** One step of `JoinRest`: the separator and the pad form one run of spaces before the number. */
  lemma JoinRestCons(fmt: real -> string, c: seq<real>)
    requires c != []
    ensures JoinRest(fmt, c) == Spaces(1 + Pad(fmt(c[0]))) + (fmt(c[0]) + JoinRest(fmt, c[1..]))
  {
    var t := fmt(c[0]);
    var rest := JoinRest(fmt, c[1..]);
    FieldShape(fmt, c[0]);
    SpacesCons(Pad(t));
    calc {
      JoinRest(fmt, c);
      " " + Field(fmt, c[0]) + rest;
      " " + (Spaces(Pad(t)) + t) + rest;
      { StringAssoc(" ", Spaces(Pad(t)), t); }
      (" " + Spaces(Pad(t))) + t + rest;
      Spaces(1 + Pad(t)) + t + rest;
      { StringAssoc(Spaces(1 + Pad(t)), t, rest); }
      Spaces(1 + Pad(t)) + (t + rest);
    }
  }

  lemma StringAssoc(a: string, b: string, c: string)
    ensures a + (b + c) == (a + b) + c
  {
  }

  /** The text after the first field: starts with a space and ends with a number character. */
  lemma {:induction false} JoinRestEnds(fmt: real -> string, c: seq<real>)
    requires TokenFormatter(fmt)
    ensures var s := JoinRest(fmt, c);
      (s == [] <==> c == []) && (s != [] ==> s[0] == ' ' && !IsSpace(s[|s| - 1]))
  {
    if c != [] {
      var t := fmt(c[0]);
      FieldFacts(fmt, c[0]);
      var rest := JoinRest(fmt, c[1..]);
      JoinRestEnds(fmt, c[1..]);
      var s := JoinRest(fmt, c);
      assert s == " " + Field(fmt, c[0]) + rest;
      if rest == [] {
        assert s[|s| - 1] == t[|t| - 1];
      } else {
        assert s[|s| - 1] == rest[|rest| - 1];
      }
    }
  }

  lemma {:induction false} JoinRestSplit(fmt: real -> string, c: seq<real>)
    requires TokenFormatter(fmt)
    ensures Split(JoinRest(fmt, c)) == Tokens(fmt, c)
  {
    if c != [] {
      var t := fmt(c[0]);
      FieldFacts(fmt, c[0]);
      var k := Pad(t);
      var rest := JoinRest(fmt, c[1..]);
      JoinRestEnds(fmt, c[1..]);
      JoinRestSplit(fmt, c[1..]);
      JoinRestCons(fmt, c);
      SplitAfterSpaces(1 + k, t + rest);
      SplitWord(t, rest);
    }
  }

  lemma {:induction false} JoinRestNumText(fmt: real -> string, c: seq<real>)
    requires TokenFormatter(fmt)
    ensures NumText(JoinRest(fmt, c))
  {
    if c != [] {
      var t := fmt(c[0]);
      FieldFacts(fmt, c[0]);
      var k := Pad(t);
      var rest := JoinRest(fmt, c[1..]);
      JoinRestNumText(fmt, c[1..]);
      JoinRestCons(fmt, c);
      NumTextAppend(t, rest);
      NumTextSpaces(1 + k);
      NumTextAppend(Spaces(1 + k), t + rest);
    }
  }

  lemma JoinRestShape(fmt: real -> string, c: seq<real>)
    requires TokenFormatter(fmt)
    ensures var s := JoinRest(fmt, c);
      (s == [] <==> c == []) && (s != [] ==> s[0] == ' ' && !IsSpace(s[|s| - 1]))
    ensures Split(JoinRest(fmt, c)) == Tokens(fmt, c)
    ensures NumText(JoinRest(fmt, c))
  {
    JoinRestEnds(fmt, c);
    JoinRestSplit(fmt, c);
    JoinRestNumText(fmt, c);
  }

  lemma DataLineCons(fmt: real -> string, c: seq<real>)
    requires c != []
    ensures DataLine(fmt, c) == Spaces(Pad(fmt(c[0]))) + (fmt(c[0]) + JoinRest(fmt, c[1..]))
  {
    FieldShape(fmt, c[0]);
    StringAssoc(Spaces(Pad(fmt(c[0]))), fmt(c[0]), JoinRest(fmt, c[1..]));
  }

  /** Stripping a data line removes exactly the pad of its first field. */
  lemma DataLineStrip(fmt: real -> string, c: seq<real>)
    requires TokenFormatter(fmt) && c != []
    ensures Strip(DataLine(fmt, c)) == fmt(c[0]) + JoinRest(fmt, c[1..])
  {
    var t := fmt(c[0]);
    FieldFacts(fmt, c[0]);
    var rest := JoinRest(fmt, c[1..]);
    JoinRestEnds(fmt, c[1..]);
    var l := t + rest;
    DataLineCons(fmt, c);
    assert !IsSpace(l[|l| - 1]) by {
      if rest == [] { assert l[|l| - 1] == t[|t| - 1]; } else { assert l[|l| - 1] == rest[|rest| - 1]; }
    }
    StripLeftSpacesThen(Pad(t), l);
    assert StripRight(l) == l;
  }

  /**
   * A data line, once stripped, is the printed numbers separated by spaces:
   * it splits into exactly the printed numbers of its values.
   */
  lemma DataLineSplit(fmt: real -> string, c: seq<real>)
    requires TokenFormatter(fmt) && c != []
    ensures Split(Strip(DataLine(fmt, c))) == Tokens(fmt, c)
  {
    FieldFacts(fmt, c[0]);
    JoinRestEnds(fmt, c[1..]);
    JoinRestSplit(fmt, c[1..]);
    DataLineStrip(fmt, c);
    SplitWord(fmt(c[0]), JoinRest(fmt, c[1..]));
  }

  /** A data line holds only number characters and spaces, before and after stripping. */
  lemma DataLineNumText(fmt: real -> string, c: seq<real>)
    requires TokenFormatter(fmt) && c != []
    ensures NumText(DataLine(fmt, c)) && NumText(Strip(DataLine(fmt, c)))
  {
    var t := fmt(c[0]);
    FieldFacts(fmt, c[0]);
    var rest := JoinRest(fmt, c[1..]);
    JoinRestNumText(fmt, c[1..]);
    DataLineCons(fmt, c);
    DataLineStrip(fmt, c);
    NumTextAppend(t, rest);
    NumTextSpaces(Pad(t));
    NumTextAppend(Spaces(Pad(t)), t + rest);
  }
}
