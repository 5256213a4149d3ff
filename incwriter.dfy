/**
 * The INCLUDE (`.inc`) text the numpy converters write for PFLOTRAN: a
 * keyword line, then the values, each as three spaces and the printed
 * number, with a line break after every fifth value and one more after a
 * short last line, then (in most converters) a closing `/` line.
 */
module IncWriter {
  import opened Text
  import opened Chunking
  import opened Numbers
  import GrdeclWriter
  import GrdeclRoundTrip
  import P = PlainReader

  /** Why a converter stopped with an exception. */
  datatype PyError = IndexError | ValueError | NameError

  /**
   * What a converter leaves behind: the finished file, or the exception it
   * raised and what the output file then holds (`None` when it was never opened).
   */
  datatype IncOutcome = Written(text: string) | Raised(error: PyError, partial: Option<string>)

  /** `f"   {val:1.6e}"` (or `f"   {value:.6f}"`): three spaces, then the printed number. */
  function Entry(fmt: real -> string, v: real): string {
    "   " + fmt(v)
  }

  /** What the value loop has written after the values `vs`: every entry, and a line break after each fifth one. */
  function ValueText(fmt: real -> string, vs: seq<real>): string
    decreases |vs|
  {
    if vs == [] then ""
    else
      ValueText(fmt, vs[..|vs| - 1]) + Entry(fmt, vs[|vs| - 1])
      + (if |vs| % 5 == 0 then "\n" else "")
  }

  /** The value loop followed by the line break that closes a short last line. */
  function Body(fmt: real -> string, vs: seq<real>): string {
    ValueText(fmt, vs) + (if |vs| % 5 != 0 then "\n" else "")
  }

  /** A keyword block: the keyword line, the values, and the closing `/` line. */
  function Block(keyword: string, fmt: real -> string, vs: seq<real>): string {
    keyword + "\n" + Body(fmt, vs) + "/\n"
  }

  /** The keywords of the permeability file, all three given the same values. */
  const PermKeywords: seq<string> := ["PERMX", "PERMY", "PERMZ"]

  /** The blocks of the `for keyword in [...]` loop over `ks`; every block but the `PERMZ` one is followed by an empty line. */
  function KeywordBlocks(ks: seq<string>, fmt: real -> string, vs: seq<real>): string
    decreases |ks|
  {
    if ks == [] then ""
    else
      var k := ks[|ks| - 1];
      KeywordBlocks(ks[..|ks| - 1], fmt, vs) + Block(k, fmt, vs) + (if k != "PERMZ" then "\n" else "")
  }

  /** The file of one keyword block, or `NameError` without values: an `enumerate` loop that never ran leaves `i` unbound, so `(i + 1)` raises. */
  function KeywordFile(keyword: string, fmt: real -> string, vs: seq<real>): (r: IncOutcome)
    ensures r.Raised? <==> vs == []
  {
    if vs == [] then Raised(NameError, Some(keyword + "\n")) else Written(Block(keyword, fmt, vs))
  }

  /** The file of `convert_npy_to_inc_full` and `convert_npy_to_inc_correct_order` for the (converted) values `vs`. */
  function PermOrPoroFile(perm: bool, fmt: real -> string, vs: seq<real>): (r: IncOutcome)
    ensures r.Raised? <==> vs == []
  {
    if !perm then KeywordFile("PORO", fmt, vs)
    else if vs == [] then Raised(NameError, Some(PermKeywords[0] + "\n"))
    else Written(KeywordBlocks(PermKeywords, fmt, vs))
  }

  // ---------------------------------------------------------------- writers

  /** The `for i, val in enumerate(values)` loop; `i` is `None` while it is unbound. */
  method EnumerateValues(fmt: real -> string, vs: seq<real>, last: Option<nat>)
    returns (written: string, i: Option<nat>)
    ensures written == ValueText(fmt, vs)
    ensures i == if vs == [] then last else Some(|vs| - 1)
  {
    written := "";
    i := last;
    var n := 0;
    while n < |vs|
      invariant 0 <= n <= |vs|
      invariant written == ValueText(fmt, vs[..n])
      invariant i == if n == 0 then last else Some(n - 1)
    {
      assert vs[..n + 1][..n] == vs[..n];
      written := written + Entry(fmt, vs[n]);
      if (n + 1) % 5 == 0 {
        written := written + "\n";
      }
      i := Some(n);
      n := n + 1;
    }
    assert vs[..n] == vs;
  }

  /** One keyword block as the converters write it; `(i + 1) % 5` raises `NameError` while `i` is unbound. */
  method WriteKeywordBlock(keyword: string, fmt: real -> string, vs: seq<real>, last: Option<nat>)
    returns (text: string, i: Option<nat>, raised: bool)
    requires last.Some? ==> last.value + 1 == |vs|
    ensures raised <==> vs == [] && last.None?
    ensures raised ==> text == keyword + "\n"
    ensures !raised ==> text == Block(keyword, fmt, vs) && i == Some(|vs| - 1)
  {
    text := keyword + "\n";
    var written;
    written, i := EnumerateValues(fmt, vs, last);
    text := text + written;
    if i.None? {
      return text, i, true;
    }
    if (i.value + 1) % 5 != 0 {
      text := text + "\n";
    }
    text := text + "/\n";
    raised := false;
  }

  /** `convert_npy_to_inc` of the inverted-Z converter, from the `with open(...)` on. */
  method WriteSingleBlock(keyword: string, fmt: real -> string, vs: seq<real>) returns (r: IncOutcome)
    ensures r == KeywordFile(keyword, fmt, vs)
  {
    var text, _, raised := WriteKeywordBlock(keyword, fmt, vs, None);
    if raised {
      return Raised(NameError, Some(text));
    }
    return Written(text);
  }

  /** The writing part of `convert_npy_to_inc_full` and `convert_npy_to_inc_correct_order` (the same code in both). */
  method WritePermOrPoro(perm: bool, fmt: real -> string, vs: seq<real>) returns (r: IncOutcome)
    ensures r == PermOrPoroFile(perm, fmt, vs)
  {
    if !perm {
      r := WriteSingleBlock("PORO", fmt, vs);
      return;
    }
    var text := "";
    var i: Option<nat> := None;
    var n := 0;
    while n < |PermKeywords|
      invariant 0 <= n <= |PermKeywords|
      invariant text == KeywordBlocks(PermKeywords[..n], fmt, vs)
      invariant i == if n == 0 then None else Some(|vs| - 1)
      invariant n > 0 ==> vs != []
    {
      var keyword := PermKeywords[n];
      var block, raised;
      block, i, raised := WriteKeywordBlock(keyword, fmt, vs, i);
      if raised {
        assert n == 0 && PermKeywords[..0] == [];
        assert text == "" && block == PermKeywords[0] + "\n";
        assert vs == [] && perm;
        assert PermOrPoroFile(perm, fmt, vs) == Raised(NameError, Some(PermKeywords[0] + "\n"));
        assert text + block == PermKeywords[0] + "\n";
        return Raised(NameError, Some(text + block));
      }
      assert PermKeywords[..n + 1][..n] == PermKeywords[..n];
      text := text + block;
      if keyword != "PERMZ" {
        text := text + "\n";
      }
      n := n + 1;
    }
    assert PermKeywords[..n] == PermKeywords;
    return Written(text);
  }

  // ---------------------------------------------------------------- layout

  /** The entries of one line of values. */
  function IncLine(fmt: real -> string, c: seq<real>): string {
    if c == [] then "" else Entry(fmt, c[0]) + IncLine(fmt, c[1..])
  }

  function IncLines(fmt: real -> string, cs: seq<seq<real>>): (ls: seq<string>)
    ensures |ls| == |cs|
  {
    seq(|cs|, m requires 0 <= m < |cs| => IncLine(fmt, cs[m]))
  }

  /** Values on whole lines so far: the largest multiple of five not above `n`. */
  function Whole(n: nat): nat { n - n % 5 }

  lemma WholeFacts(n: nat)
    ensures Whole(n) <= n && Whole(n) % 5 == 0 && Whole(n) % PerLine == 0
    ensures n % 5 != 0 ==> 1 <= n - Whole(n) <= PerLine
    ensures n % 5 == 0 ==> Whole(n) == n
    ensures n > 0 && n % 5 != 0 ==> Whole(n) == Whole(n - 1)
    ensures n > 0 && n % 5 == 0 ==> Whole(n - 1) == n - PerLine
  {
    assert PerLine == 5;
  }

  lemma {:induction false} IncLineSnoc(fmt: real -> string, c: seq<real>, v: real)
    ensures IncLine(fmt, c + [v]) == IncLine(fmt, c) + Entry(fmt, v)
  {
    if c == [] {
      assert IncLine(fmt, [v]) == Entry(fmt, v) + IncLine(fmt, []);
    } else {
      assert (c + [v])[0] == c[0];
      assert (c + [v])[1..] == c[1..] + [v];
      IncLineSnoc(fmt, c[1..], v);
    }
  }

  lemma IncLinesSnoc(fmt: real -> string, cs: seq<seq<real>>, c: seq<real>)
    ensures IncLines(fmt, cs + [c]) == IncLines(fmt, cs) + [IncLine(fmt, c)]
  {
    var a := IncLines(fmt, cs + [c]);
    var b := IncLines(fmt, cs) + [IncLine(fmt, c)];
    forall m | 0 <= m < |a| ensures a[m] == b[m] {
      if m < |cs| { assert (cs + [c])[m] == cs[m]; }
    }
  }

  lemma ValueTextSnoc(fmt: real -> string, pre: seq<real>, v: real)
    ensures ValueText(fmt, pre + [v])
         == ValueText(fmt, pre) + Entry(fmt, v) + (if (|pre| + 1) % 5 == 0 then "\n" else "")
  {
    assert (pre + [v])[..|pre|] == pre;
  }

  /** The entries of the line in progress are followed by one more. */
  lemma LineGoesOn(fmt: real -> string, pre: seq<real>, v: real, w: nat)
    requires w <= |pre|
    ensures IncLine(fmt, pre[w..]) + Entry(fmt, v) == IncLine(fmt, (pre + [v])[w..])
  {
    assert (pre + [v])[w..] == pre[w..] + [v];
    IncLineSnoc(fmt, pre[w..], v);
  }

  /** Closing the line in progress turns it into one more whole line. */
  lemma CloseLine(fmt: real -> string, vs: seq<real>, w: nat)
    requires w <= |vs| && w % PerLine == 0 && 1 <= |vs| - w <= PerLine
    ensures ConcatLines(IncLines(fmt, Chunks(vs[..w]))) + IncLine(fmt, vs[w..]) + "\n"
         == ConcatLines(IncLines(fmt, Chunks(vs)))
  {
    var pre := vs[..w];
    var c := vs[w..];
    assert pre + c == vs;
    ChunksSnoc(pre, c);
    IncLinesSnoc(fmt, Chunks(pre), c);
    ConcatLinesSnoc(IncLines(fmt, Chunks(pre)), IncLine(fmt, c));
  }

  /** One more entry, then the line break the loop writes after it (or none). */
  lemma StepText(fmt: real -> string, pre: seq<real>, v: real, w: nat, head: string, nl: string)
    requires w <= |pre|
    ensures head + IncLine(fmt, pre[w..]) + Entry(fmt, v) + nl == head + IncLine(fmt, (pre + [v])[w..]) + nl
  {
    LineGoesOn(fmt, pre, v, w);
  }

  /** The loop's text is the whole lines so far, then the entries of the line it is on. */
  lemma {:induction false} ValueTextLines(fmt: real -> string, vs: seq<real>)
    ensures Whole(|vs|) <= |vs|
    ensures ValueText(fmt, vs)
         == ConcatLines(IncLines(fmt, Chunks(vs[..Whole(|vs|)]))) + IncLine(fmt, vs[Whole(|vs|)..])
    decreases |vs|
  {
    var n := |vs|;
    WholeFacts(n);
    if n == 0 {
      assert vs[..0] == [] && vs[0..] == [];
    } else {
      var pre := vs[..n - 1];
      var v := vs[n - 1];
      assert vs == pre + [v];
      var w := Whole(n - 1);
      WholeFacts(n - 1);
      var head := ConcatLines(IncLines(fmt, Chunks(pre[..w])));
      var nl := if n % 5 == 0 then "\n" else "";
      assert ValueText(fmt, vs) == head + IncLine(fmt, pre[w..]) + Entry(fmt, v) + nl by {
        ValueTextLines(fmt, pre);
        ValueTextSnoc(fmt, pre, v);
      }
      var tail := IncLine(fmt, vs[w..]);
      assert ValueText(fmt, vs) == head + tail + nl by {
        StepText(fmt, pre, v, w, head, nl);
      }
      PrefixOfPrefix(vs, n - 1, w);
      if n % 5 == 0 {
        assert head + tail + nl == ConcatLines(IncLines(fmt, Chunks(vs))) by {
          CloseLine(fmt, vs, w);
        }
        WholeSlices(vs);
        assert IncLine(fmt, vs[n..]) == "";
      } else {
        assert head + tail + nl == head + tail;
      }
    }
  }

  /** The values after the keyword line are `ceil(n / 5)` lines, line `m` holding entries `5m .. 5m+4`. */
  lemma BodyLines(fmt: real -> string, vs: seq<real>)
    ensures Body(fmt, vs) == ConcatLines(IncLines(fmt, Chunks(vs)))
  {
    ValueTextLines(fmt, vs);
    WholeFacts(|vs|);
    var w := Whole(|vs|);
    if |vs| % 5 == 0 {
      assert vs[..w] == vs && vs[w..] == [];
    } else {
      CloseLine(fmt, vs, w);
    }
  }

  /** The lines of a keyword block. */
  function BlockLines(keyword: string, fmt: real -> string, vs: seq<real>): seq<string> {
    [keyword] + IncLines(fmt, Chunks(vs)) + ["/"]
  }

  /** The text of a keyword line, some lines, and a stop line. */
  lemma FramedLines(k: string, ls: seq<string>, body: string)
    requires body == ConcatLines(ls)
    ensures k + "\n" + body + "/\n" == ConcatLines([k] + ls + ["/"])
  {
    ConcatLinesAppend([k] + ls, ["/"]);
    ConcatLinesAppend([k], ls);
    assert ConcatLines([k]) == k + "\n" + ConcatLines([]);
    assert ConcatLines(["/"]) == "/" + "\n" + ConcatLines([]);
  }

  lemma BlockIsLines(keyword: string, fmt: real -> string, vs: seq<real>)
    ensures Block(keyword, fmt, vs) == ConcatLines(BlockLines(keyword, fmt, vs))
  {
    BodyLines(fmt, vs);
    FramedLines(keyword, IncLines(fmt, Chunks(vs)), Body(fmt, vs));
  }

  // ------------------------------------------------------- the lines as text

  /** A keyword the readers take as a property name: capital letters only. */
  predicate Keyword(k: string) {
    k != [] && forall n :: 0 <= n < |k| ==> 'A' <= k[n] <= 'Z'
  }

  lemma KeywordFacts(k: string)
    requires Keyword(k)
    ensures '\n' !in k && k != "/"
    ensures P.Classify(Strip(k), false) == P.NameLine
  {
    assert !IsSpace(k[0]) && !IsSpace(k[|k| - 1]);
    StripTrimmed(k);
    assert k[0] != '-' && k[0] != '/';
    assert !HasDigit(k);
    forall n | 0 <= n < |k| ensures k[n] != '\n' {
    }
  }

  lemma PermKeywordsAreKeywords()
    ensures forall n :: 0 <= n < |PermKeywords| ==> Keyword(PermKeywords[n])
    ensures PermKeywords[0] == "PERMX" && PermKeywords[1] == "PERMY" && PermKeywords[2] == "PERMZ"
  {
  }

  lemma {:induction false} IncLineFacts(fmt: real -> string, c: seq<real>)
    requires TokenFormatter(fmt)
    ensures '\n' !in IncLine(fmt, c)
    ensures Split(IncLine(fmt, c)) == GrdeclWriter.Tokens(fmt, c)
    ensures IncLine(fmt, c) == [] || IncLine(fmt, c)[0] == ' '
    ensures c != [] ==> IncLine(fmt, c) != [] && !IsSpace(IncLine(fmt, c)[|IncLine(fmt, c)| - 1])
  {
    if c != [] {
      IncLineFacts(fmt, c[1..]);
      FormattedToken(fmt, c[0]);
      EntryThen(fmt(c[0]), IncLine(fmt, c[1..]));
    }
  }

  /** An entry put before a line of entries: the token joins the front of the line. */
  lemma EntryThen(t: string, rest: string)
    requires NumericToken(t) && '\n' !in rest
    requires rest == [] || rest[0] == ' '
    requires rest != [] ==> !IsSpace(rest[|rest| - 1])
    ensures var l := "   " + t + rest;
      && '\n' !in l && l[0] == ' ' && !IsSpace(l[|l| - 1])
      && Split(l) == [t] + Split(rest)
  {
    NumericTokenFacts(t);
    var l := "   " + t + rest;
    assert l == Spaces(3) + (t + rest);
    SplitAfterSpaces(3, t + rest);
    SplitWord(t, rest);
    assert '\n' !in l by {
      forall n | 0 <= n < |l| ensures l[n] != '\n' {
        if n >= 3 + |t| { assert l[n] == rest[n - 3 - |t|]; }
        else if n >= 3 { assert l[n] == t[n - 3]; }
      }
    }
    if rest == [] {
      assert l[|l| - 1] == t[|t| - 1];
    } else {
      assert l[|l| - 1] == rest[|rest| - 1];
    }
  }

  /** A line of values loses its three leading spaces to `strip()`. */
  lemma IncLineStripped(fmt: real -> string, c: seq<real>)
    requires TokenFormatter(fmt) && c != []
    ensures Strip(IncLine(fmt, c)) == fmt(c[0]) + IncLine(fmt, c[1..])
  {
    var t := fmt(c[0]);
    var s := t + IncLine(fmt, c[1..]);
    FormattedToken(fmt, c[0]);
    NumericTokenFacts(t);
    assert s[0] == t[0];
    assert IncLine(fmt, c) == Spaces(3) + s;
    StripLeftSpacesThen(3, s);
    IncLineFacts(fmt, c);
    assert s[|s| - 1] == IncLine(fmt, c)[|IncLine(fmt, c)| - 1];
    assert StripRight(s) == s;
  }

  /** A line of values, once stripped, is a value line whose tokens are the printed values. */
  lemma IncLineRead(fmt: real -> string, c: seq<real>)
    requires TokenFormatter(fmt) && c != []
    ensures P.Classify(Strip(IncLine(fmt, c)), true) == P.ValueLine
    ensures Split(Strip(IncLine(fmt, c))) == GrdeclWriter.Tokens(fmt, c)
  {
    var t := fmt(c[0]);
    var rest := IncLine(fmt, c[1..]);
    IncLineStripped(fmt, c);
    IncLineFacts(fmt, c[1..]);
    FormattedToken(fmt, c[0]);
    NumericTokenFacts(t);
    GrdeclRoundTrip.TokenThenSpace(t, rest);
    SplitWord(t, rest);
  }

  lemma ValueLinesNoBreaks(fmt: real -> string, cs: seq<seq<real>>)
    requires TokenFormatter(fmt)
    ensures NoBreaks(IncLines(fmt, cs))
  {
    forall m | 0 <= m < |cs| ensures '\n' !in IncLines(fmt, cs)[m] {
      IncLineFacts(fmt, cs[m]);
    }
  }

  lemma BlockLinesNoBreaks(keyword: string, fmt: real -> string, vs: seq<real>)
    requires TokenFormatter(fmt) && Keyword(keyword)
    ensures NoBreaks(BlockLines(keyword, fmt, vs))
  {
    var ls := IncLines(fmt, Chunks(vs));
    assert '\n' !in keyword by {
      KeywordFacts(keyword);
    }
    assert NoBreaks(["/"]) by {
      assert ["/"][0] == "/";
    }
    ValueLinesNoBreaks(fmt, Chunks(vs));
    NoBreaksCons(keyword, ls);
    NoBreaksAppend([keyword] + ls, ["/"]);
  }

  /** The line iteration of a keyword block yields the keyword, the value lines and `/`. */
  lemma BlockLayout(keyword: string, fmt: real -> string, vs: seq<real>)
    requires TokenFormatter(fmt) && Keyword(keyword)
    ensures Lines(Block(keyword, fmt, vs)) == BlockLines(keyword, fmt, vs)
    ensures NoBreaks(BlockLines(keyword, fmt, vs))
  {
    BlockLinesNoBreaks(keyword, fmt, vs);
    BlockIsLines(keyword, fmt, vs);
    LinesOfConcat(BlockLines(keyword, fmt, vs));
  }

  /** The value lines after the name line give the values back, as `float()` reads their printed text. */
  lemma ValueLinesReadBack(fmt: real -> string, toFloat: string -> Option<real>, vs: seq<real>, post: seq<string>)
    requires TokenFormatter(fmt) && Readable(fmt, toFloat)
    ensures P.PlainScan(IncLines(fmt, Chunks(vs)) + post, true, toFloat)
         == Reread(fmt, toFloat, vs) + P.PlainScan(post, true, toFloat)
  {
    var cs := Chunks(vs);
    var ls := IncLines(fmt, cs);
    var vss := GrdeclRoundTrip.RereadEach(fmt, toFloat, cs);
    GrdeclRoundTrip.ChunksNonEmpty(vs);
    forall m | 0 <= m < |ls|
      ensures P.Classify(Strip(ls[m]), true) == P.ValueLine
      ensures P.TokenFloats(Split(Strip(ls[m])), toFloat) == vss[m]
    {
      IncLineRead(fmt, cs[m]);
      GrdeclRoundTrip.TokenFloatsRead(fmt, toFloat, cs[m]);
    }
    P.ValueLinesRead(ls, post, toFloat, vss);
    GrdeclRoundTrip.FlattenRereadEach(fmt, toFloat, cs);
    FlattenChunks(vs);
  }

  /** Once the name is found, a `/` line ends the read, whatever follows it. */
  lemma StopLineEnds(post: seq<string>, toFloat: string -> Option<real>)
    ensures P.PlainScan(["/"] + post, true, toFloat) == []
  {
    GrdeclRoundTrip.EndLineRead();
    P.PlainScanStep(["/"] + post, 0, true, toFloat);
    assert (["/"] + post)[0..] == ["/"] + post;
  }

  /** A keyword block followed by any lines reads back as the block's values alone. */
  lemma BlockLinesRead(keyword: string, fmt: real -> string, toFloat: string -> Option<real>, vs: seq<real>, post: seq<string>)
    requires TokenFormatter(fmt) && Readable(fmt, toFloat) && Keyword(keyword)
    ensures P.PlainScan(BlockLines(keyword, fmt, vs) + post, false, toFloat) == Reread(fmt, toFloat, vs)
  {
    var ls := IncLines(fmt, Chunks(vs));
    assert BlockLines(keyword, fmt, vs) + post == [keyword] + (ls + (["/"] + post));
    KeywordFacts(keyword);
    P.NameLineStarts(keyword, ls + (["/"] + post), toFloat);
    ValueLinesReadBack(fmt, toFloat, vs, ["/"] + post);
    StopLineEnds(post, toFloat);
    assert Reread(fmt, toFloat, vs) + [] == Reread(fmt, toFloat, vs);
  }

  /** The name-triggered GRDECL reader takes the keyword as the name and reads the block's values back. */
  lemma BlockReadsBack(keyword: string, fmt: real -> string, toFloat: string -> Option<real>, vs: seq<real>)
    requires TokenFormatter(fmt) && Readable(fmt, toFloat) && Keyword(keyword)
    ensures P.ReadPlainProperty(Block(keyword, fmt, vs), toFloat) == Reread(fmt, toFloat, vs)
  {
    BlockLayout(keyword, fmt, vs);
    BlockLinesRead(keyword, fmt, toFloat, vs, []);
    assert BlockLines(keyword, fmt, vs) + [] == BlockLines(keyword, fmt, vs);
  }

  /** The three permeability blocks, as they follow one another in the file. */
  lemma PermBlocks(fmt: real -> string, vs: seq<real>)
    ensures KeywordBlocks(PermKeywords, fmt, vs)
         == Block("PERMX", fmt, vs) + "\n" + Block("PERMY", fmt, vs) + "\n" + Block("PERMZ", fmt, vs)
  {
    var x, y, z := Block("PERMX", fmt, vs), Block("PERMY", fmt, vs), Block("PERMZ", fmt, vs);
    var k1: seq<string>, k2: seq<string> := ["PERMX"], ["PERMX", "PERMY"];
    assert "PERMX" != "PERMZ" by { assert "PERMX"[4] != "PERMZ"[4]; }
    assert "PERMY" != "PERMZ" by { assert "PERMY"[4] != "PERMZ"[4]; }
    assert k1[..0] == [];
    assert KeywordBlocks(k1, fmt, vs) == x + "\n";
    assert k2[..1] == k1;
    assert KeywordBlocks(k2, fmt, vs) == x + "\n" + y + "\n";
    assert PermKeywords[..2] == k2;
    assert KeywordBlocks(PermKeywords, fmt, vs) == x + "\n" + y + "\n" + z + "";
    assert z + "" == z;
  }

  /** The permeability file's lines: three blocks, an empty line between two, each closed by `/`. */
  function PermLines(fmt: real -> string, vs: seq<real>): seq<string> {
    BlockLines("PERMX", fmt, vs) + [""] + BlockLines("PERMY", fmt, vs) + [""] + BlockLines("PERMZ", fmt, vs)
  }

  /** Three texts of lines with an empty line between two. */
  lemma ThreeParts(a: seq<string>, b: seq<string>, c: seq<string>)
    ensures ConcatLines(a) + "\n" + ConcatLines(b) + "\n" + ConcatLines(c)
         == ConcatLines(a + [""] + b + [""] + c)
  {
    var x := a + [""];
    var y := x + b;
    var z := y + [""];
    assert ConcatLines([""]) == "\n" by {
      assert [""][1..] == [];
    }
    ConcatLinesAppend(a, [""]);
    ConcatLinesAppend(x, b);
    ConcatLinesAppend(y, [""]);
    ConcatLinesAppend(z, c);
  }

  lemma FirstPart(a: seq<string>, b: seq<string>, c: seq<string>)
    ensures a + [""] + b + [""] + c == a + ([""] + b + [""] + c)
  {
  }

  lemma ThreePartsNoBreaks(a: seq<string>, b: seq<string>, c: seq<string>)
    requires NoBreaks(a) && NoBreaks(b) && NoBreaks(c)
    ensures NoBreaks(a + [""] + b + [""] + c)
  {
    assert NoBreaks([""]);
    NoBreaksAppend(a, [""]);
    NoBreaksAppend(a + [""], b);
    NoBreaksAppend(a + [""] + b, [""]);
    NoBreaksAppend(a + [""] + b + [""], c);
  }

  lemma PermLayout(fmt: real -> string, vs: seq<real>)
    requires TokenFormatter(fmt)
    ensures Lines(KeywordBlocks(PermKeywords, fmt, vs)) == PermLines(fmt, vs)
  {
    PermKeywordsAreKeywords();
    PermBlocks(fmt, vs);
    var x := BlockLines("PERMX", fmt, vs);
    var y := BlockLines("PERMY", fmt, vs);
    var z := BlockLines("PERMZ", fmt, vs);
    BlockLinesNoBreaks("PERMX", fmt, vs);
    BlockLinesNoBreaks("PERMY", fmt, vs);
    BlockLinesNoBreaks("PERMZ", fmt, vs);
    BlockIsLines("PERMX", fmt, vs);
    BlockIsLines("PERMY", fmt, vs);
    BlockIsLines("PERMZ", fmt, vs);
    ThreeParts(x, y, z);
    ThreePartsNoBreaks(x, y, z);
    LinesOfConcat(PermLines(fmt, vs));
  }

  /**
   * The name-triggered reader stops at the first `/`: on the permeability
   * file it returns the values of the `PERMX` block once.
   */
  lemma PermFileReadsFirstBlock(fmt: real -> string, toFloat: string -> Option<real>, vs: seq<real>)
    requires TokenFormatter(fmt) && Readable(fmt, toFloat)
    ensures P.ReadPlainProperty(KeywordBlocks(PermKeywords, fmt, vs), toFloat) == Reread(fmt, toFloat, vs)
  {
    PermLayout(fmt, vs);
    PermKeywordsAreKeywords();
    var x, y, z := BlockLines("PERMX", fmt, vs), BlockLines("PERMY", fmt, vs), BlockLines("PERMZ", fmt, vs);
    FirstPart(x, y, z);
    BlockLinesRead("PERMX", fmt, toFloat, vs, [""] + y + [""] + z);
  }
}
