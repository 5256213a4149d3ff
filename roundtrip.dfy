/**
 * Reading back the exported YMFS GRDECL files: both GRDECL readers of the
 * pipeline, applied to the text `WriteYmfsGrdecl` produces, return the
 * values that were written (each as `float()` reads its printed text).
 */
module GrdeclRoundTrip {
  import opened Text
  import opened Chunking
  import opened Numbers
  import opened GrdeclWriter
  import R = RleReader
  import P = PlainReader

  /** Every keyword has an `S`, which no printed number has. */
  predicate KeywordsHaveS(keywords: seq<string>) {
    forall n :: 0 <= n < |keywords| ==> 'S' in keywords[n]
  }

  /** The comment line is skipped by both readers and holds no line break. */
  lemma CommentFacts(i: nat)
    ensures '\n' !in CommentLine(i)
    ensures StartsWith(Strip(CommentLine(i)), "--")
  {
    var d := Decimal(i);
    var c := CommentLine(i);
    CommentPrefixFacts();
    assert c == CommentPrefix + d;
    assert c[0] == '-' && c[1] == '-';
    assert c[|c| - 1] == d[|d| - 1];
    StripTrimmed(c);
    assert c[..2] == "--";
    forall k | 0 <= k < |c| ensures c[k] != '\n' {
      if k >= |CommentPrefix| {
        assert c[k] == d[k - |CommentPrefix|];
      } else {
        assert c[k] == CommentPrefix[k];
      }
    }
  }

  /** What a data line is once stripped: a number token first, then spaces and number tokens. */
  lemma DataLineText(fmt: real -> string, c: seq<real>)
    requires TokenFormatter(fmt) && c != []
    ensures var line := Strip(DataLine(fmt, c));
      line != [] && !StartsWith(line, "--") && !StartsWith(line, "/") && line != "/"
      && '\n' !in DataLine(fmt, c) && '/' !in line && 'S' !in line
      && Split(line) == Tokens(fmt, c)
  {
    var t := fmt(c[0]);
    var rest := JoinRest(fmt, c[1..]);
    FieldFacts(fmt, c[0]);
    JoinRestEnds(fmt, c[1..]);
    DataLineStrip(fmt, c);
    DataLineSplit(fmt, c);
    DataLineNumText(fmt, c);
    NumTextFacts(DataLine(fmt, c));
    NumTextFacts(Strip(DataLine(fmt, c)));
    TokenThenSpace(t, rest);
  }

  /** A number token followed by a space or nothing starts neither a comment nor a stop line. */
  lemma TokenThenSpace(t: string, rest: string)
    requires NumericToken(t) && (rest == [] || rest[0] == ' ')
    ensures !StartsWith(t + rest, "--") && !StartsWith(t + rest, "/")
  {
    var line := t + rest;
    assert line[0] == t[0] && NumChar(t[0]);
    if |t| >= 2 {
      assert line[..2] == t[..2];
    } else if |line| >= 2 {
      assert line[1] == rest[0];
    }
  }

  lemma {:induction false} DataLinesNoBreaks(fmt: real -> string, cs: seq<seq<real>>)
    requires TokenFormatter(fmt)
    requires forall m :: 0 <= m < |cs| ==> cs[m] != []
    ensures NoBreaks(DataLines(fmt, cs))
  {
    if cs != [] {
      DataLineText(fmt, cs[0]);
      DataLinesNoBreaks(fmt, cs[1..]);
      var ls := DataLines(fmt, cs);
      assert ls == [DataLine(fmt, cs[0])] + DataLines(fmt, cs[1..]);
      forall n | 0 <= n < |ls| ensures '\n' !in ls[n] {
        if n > 0 { assert ls[n] == DataLines(fmt, cs[1..])[n - 1]; }
      }
    }
  }

  /** Each chunk's values, as `float()` reads their printed text. */
  function RereadEach(fmt: real -> string, toFloat: string -> Option<real>, cs: seq<seq<real>>): (r: seq<seq<real>>)
    ensures |r| == |cs|
    ensures forall m :: 0 <= m < |cs| ==> r[m] == Reread(fmt, toFloat, cs[m])
  {
    if cs == [] then [] else [Reread(fmt, toFloat, cs[0])] + RereadEach(fmt, toFloat, cs[1..])
  }

  lemma {:induction false} FlattenRereadEach(fmt: real -> string, toFloat: string -> Option<real>, cs: seq<seq<real>>)
    ensures Flatten(RereadEach(fmt, toFloat, cs)) == Reread(fmt, toFloat, Flatten(cs))
  {
    if cs != [] {
      var r := RereadEach(fmt, toFloat, cs);
      assert r[1..] == RereadEach(fmt, toFloat, cs[1..]);
      FlattenRereadEach(fmt, toFloat, cs[1..]);
      RereadAppend(fmt, toFloat, cs[0], Flatten(cs[1..]));
    }
  }

  lemma ChunksNonEmpty(values: seq<real>)
    ensures forall m :: 0 <= m < |Chunks(values)| ==> Chunks(values)[m] != []
  {
    var cs := Chunks(values);
    forall m | 0 <= m < |cs| ensures cs[m] != [] {
      assert cs[m] in cs;
    }
  }

  /** The lines of an exported file carry no line break of their own. */
  lemma GrdeclLinesNoBreaks(i: nat, fmt: real -> string, values: seq<real>)
    requires TokenFormatter(fmt)
    ensures NoBreaks(GrdeclLines(i, fmt, values))
  {
    CommentFacts(i);
    var cs := Chunks(values);
    ChunksNonEmpty(values);
    DataLinesNoBreaks(fmt, cs);
    NoBreaksCons("/", []);
    assert ["/"] + [] == ["/"];
    NoBreaksAppend(DataLines(fmt, cs), ["/"]);
    NoBreaksCons("YMFS", DataLines(fmt, cs) + ["/"]);
    NoBreaksCons(CommentLine(i), ["YMFS"] + (DataLines(fmt, cs) + ["/"]));
    GrdeclLinesCons(i, fmt, values);
  }

  /** The lines the readers see in an exported file. */
  lemma ExportedLines(i: nat, fmt: real -> string, values: seq<real>)
    requires TokenFormatter(fmt)
    ensures Lines(GrdeclText(i, fmt, values))
         == [CommentLine(i)] + (["YMFS"] + (DataLines(fmt, Chunks(values)) + ["/"]))
  {
    GrdeclLinesNoBreaks(i, fmt, values);
    LinesOfConcat(GrdeclLines(i, fmt, values));
    GrdeclLinesCons(i, fmt, values);
  }

  // ------------------------------------------------------ run-length reader

  lemma TokenRead(fmt: real -> string, ps: R.Parsers, v: real)
    requires TokenFormatter(fmt) && Readable(fmt, ps.toFloat)
    ensures R.TokenValues(fmt(v), ps) == Some([ReadBack(fmt, ps.toFloat, v)])
  {
    FormattedToken(fmt, v);
    NumericTokenFacts(fmt(v));
    ReadableAt(fmt, ps.toFloat, v);
  }

  /** The printed numbers of `c`, read token by token, give back `c` as `float()` reads it. */
  lemma {:induction false} TokensRead(fmt: real -> string, ps: R.Parsers, c: seq<real>)
    requires TokenFormatter(fmt) && Readable(fmt, ps.toFloat)
    ensures R.TokensValues(Tokens(fmt, c), ps) == Some(Reread(fmt, ps.toFloat, c))
  {
    if c != [] {
      TokenRead(fmt, ps, c[0]);
      TokensRead(fmt, ps, c[1..]);
      var ts := Tokens(fmt, c);
      assert ts[0] == fmt(c[0]) && ts[1..] == Tokens(fmt, c[1..]);
      assert Reread(fmt, ps.toFloat, c) == [ReadBack(fmt, ps.toFloat, c[0])] + Reread(fmt, ps.toFloat, c[1..]);
    }
  }

  /** A written data line is a data line to the reader, and it yields its values. */
  lemma DataLineRead(fmt: real -> string, ps: R.Parsers, keywords: seq<string>, c: seq<real>)
    requires TokenFormatter(fmt) && Readable(fmt, ps.toFloat) && KeywordsHaveS(keywords) && c != []
    ensures R.Classify(Strip(DataLine(fmt, c)), keywords) == R.DataLine
    ensures R.DataLineValues(Strip(DataLine(fmt, c)), ps) == Some(Reread(fmt, ps.toFloat, c))
  {
    var line := Strip(DataLine(fmt, c));
    DataLineText(fmt, c);
    NoKeywordClassified(line, keywords);
    TokensRead(fmt, ps, c);
  }

  /** A line without `S`, a leading `--` or a leading `/` is a data line to the run-length reader. */
  lemma NoKeywordClassified(line: string, keywords: seq<string>)
    requires KeywordsHaveS(keywords) && line != [] && 'S' !in line
    requires !StartsWith(line, "--") && !StartsWith(line, "/")
    ensures R.Classify(line, keywords) == R.DataLine
  {
    forall n | 0 <= n < |keywords| ensures !Contains(line, keywords[n]) {
      NotContains(line, keywords[n], 'S');
    }
  }

  lemma ChunkLinesRead(fmt: real -> string, ps: R.Parsers, keywords: seq<string>, cs: seq<seq<real>>)
    requires TokenFormatter(fmt) && Readable(fmt, ps.toFloat) && KeywordsHaveS(keywords)
    requires forall m :: 0 <= m < |cs| ==> cs[m] != []
    ensures forall m :: 0 <= m < |cs| ==>
      R.Classify(Strip(DataLines(fmt, cs)[m]), keywords) == R.DataLine
      && R.DataLineValues(Strip(DataLines(fmt, cs)[m]), ps) == Some(RereadEach(fmt, ps.toFloat, cs)[m])
  {
    forall m | 0 <= m < |cs|
      ensures R.Classify(Strip(DataLines(fmt, cs)[m]), keywords) == R.DataLine
      ensures R.DataLineValues(Strip(DataLines(fmt, cs)[m]), ps) == Some(RereadEach(fmt, ps.toFloat, cs)[m])
    {
      DataLinesAt(fmt, cs, m);
      DataLineRead(fmt, ps, keywords, cs[m]);
    }
  }

  /** The closing `/` line is a stop line. */
  lemma ClosingLineRead(keywords: seq<string>)
    requires KeywordsHaveS(keywords)
    ensures R.Classify(Strip("/"), keywords) == R.StopLine
  {
    SlashStripped();
    forall n | 0 <= n < |keywords| ensures !Contains("/", keywords[n]) {
      NotContains("/", keywords[n], 'S');
    }
    StopClassified("/", keywords);
  }

  lemma SlashStripped()
    ensures Strip("/") == "/"
  {
    StripTrimmed("/");
  }

  lemma StopClassified(line: string, keywords: seq<string>)
    requires |line| == 1 && line[0] == '/'
    requires forall n :: 0 <= n < |keywords| ==> !Contains(line, keywords[n])
    ensures R.Classify(line, keywords) == R.StopLine
  {
    NotComment(line);
    assert line[..1] == "/";
  }

  /** The comment line is passed over by the run-length reader. */
  lemma CommentLineSkipped(i: nat, keywords: seq<string>)
    ensures R.Classify(Strip(CommentLine(i)), keywords) == R.Blank
  {
    CommentFacts(i);
  }

  lemma YmfsStripped()
    ensures Strip("YMFS") == "YMFS"
  {
    StripTrimmed("YMFS");
  }

  lemma NotComment(s: string)
    requires s != [] && s[0] != '-'
    ensures !StartsWith(s, "--")
  {
    if |s| >= 2 {
      assert s[..2][0] == s[0];
    }
  }

  lemma KeywordClassified(line: string, keywords: seq<string>)
    requires line != [] && line[0] != '-' && R.MentionsKeyword(line, keywords)
    ensures R.Classify(line, keywords) == R.KeywordLine
  {
    NotComment(line);
  }

  lemma KeywordLineRead(keywords: seq<string>)
    requires R.MentionsKeyword("YMFS", keywords)
    ensures R.Classify(Strip("YMFS"), keywords) == R.KeywordLine
  {
    YmfsStripped();
    KeywordClassified("YMFS", keywords);
  }

  /**
   * The run-length reader returns the written values (as `float()` reads
   * their printed text) for any keyword list that recognises `YMFS` and
   * whose keywords all contain an `S`.
   */
  lemma GrdeclRoundTrip(i: nat, fmt: real -> string, ps: R.Parsers, values: seq<real>, keywords: seq<string>)
    requires TokenFormatter(fmt) && Readable(fmt, ps.toFloat)
    requires KeywordsHaveS(keywords) && R.MentionsKeyword("YMFS", keywords)
    ensures R.ReadProperty(GrdeclText(i, fmt, values), keywords, ps) == R.Values(Reread(fmt, ps.toFloat, values))
  {
    var cs := Chunks(values);
    ExportedLines(i, fmt, values);
    CommentLineSkipped(i, keywords);
    ChunksNonEmpty(values);
    ChunkLinesRead(fmt, ps, keywords, cs);
    KeywordLineRead(keywords);
    ClosingLineRead(keywords);
    ScanLayout(CommentLine(i), "YMFS", DataLines(fmt, cs), "/", keywords, ps, RereadEach(fmt, ps.toFloat, cs));
    FlattenRereadEach(fmt, ps.toFloat, cs);
    FlattenChunks(values);
  }

  /** A skipped line, a keyword line, data lines, a stop line: the data lines' values are the result. */
  lemma ScanLayout(comment: string, keyword: string, data: seq<string>, stop: string,
                   keywords: seq<string>, ps: R.Parsers, vss: seq<seq<real>>)
    requires R.Classify(Strip(comment), keywords) == R.Blank
    requires R.Classify(Strip(keyword), keywords) == R.KeywordLine
    requires R.Classify(Strip(stop), keywords) == R.StopLine
    requires |data| == |vss|
    requires forall m :: 0 <= m < |data| ==>
      R.Classify(Strip(data[m]), keywords) == R.DataLine && R.DataLineValues(Strip(data[m]), ps) == Some(vss[m])
    ensures R.Scan([comment] + ([keyword] + (data + [stop])), false, keywords, ps) == R.Values(Flatten(vss))
  {
    R.SkipLine(comment, [keyword] + (data + [stop]), false, keywords, ps);
    R.KeywordLineStarts(keyword, data + [stop], false, keywords, ps);
    ScanDataThenStop(data, stop, keywords, ps, vss);
  }

  lemma ScanDataThenStop(data: seq<string>, stop: string, keywords: seq<string>, ps: R.Parsers, vss: seq<seq<real>>)
    requires R.Classify(Strip(stop), keywords) == R.StopLine
    requires |data| == |vss|
    requires forall m :: 0 <= m < |data| ==>
      R.Classify(Strip(data[m]), keywords) == R.DataLine && R.DataLineValues(Strip(data[m]), ps) == Some(vss[m])
    ensures R.Scan(data + [stop], true, keywords, ps) == R.Values(Flatten(vss))
  {
    R.DataLinesRead(data, [stop], keywords, ps, vss);
    StopAlone(stop, keywords, ps);
    assert Flatten(vss) + [] == Flatten(vss);
  }

  lemma StopAlone(stop: string, keywords: seq<string>, ps: R.Parsers)
    requires R.Classify(Strip(stop), keywords) == R.StopLine
    ensures R.Scan([stop], true, keywords, ps) == R.Values([])
  {
    assert [stop][0] == stop;
  }

  lemma AppKeywordsFacts()
    ensures KeywordsHaveS(R.AppKeywords) && R.MentionsKeyword("YMFS", R.AppKeywords)
  {
    assert R.AppKeywords[0] == "YMFS";
    assert Contains("YMFS", R.AppKeywords[0]);
    assert 'S' in R.AppKeywords[4];
  }

  lemma YmfsKeywordsFacts()
    ensures KeywordsHaveS(R.YmfsKeywords) && R.MentionsKeyword("YMFS", R.YmfsKeywords)
  {
    assert Contains("YMFS", R.YmfsKeywords[0]);
  }

  /** The web app's reader (keywords YMFS, SOIL, SWAT, SGAS, PRESSURE) reads an exported file back. */
  lemma AppReadsExport(i: nat, fmt: real -> string, ps: R.Parsers, values: seq<real>)
    requires TokenFormatter(fmt) && Readable(fmt, ps.toFloat)
    ensures R.ReadProperty(GrdeclText(i, fmt, values), R.AppKeywords, ps) == R.Values(Reread(fmt, ps.toFloat, values))
  {
    AppKeywordsFacts();
    GrdeclRoundTrip(i, fmt, ps, values, R.AppKeywords);
  }

  /** The VTK converter's reader (keyword YMFS only) reads an exported file back. */
  lemma ConverterReadsExport(i: nat, fmt: real -> string, ps: R.Parsers, values: seq<real>)
    requires TokenFormatter(fmt) && Readable(fmt, ps.toFloat)
    ensures R.ReadProperty(GrdeclText(i, fmt, values), R.YmfsKeywords, ps) == R.Values(Reread(fmt, ps.toFloat, values))
  {
    YmfsKeywordsFacts();
    GrdeclRoundTrip(i, fmt, ps, values, R.YmfsKeywords);
  }

  // ------------------------------------------------------ name-triggered reader

  lemma {:induction false} TokenFloatsRead(fmt: real -> string, toFloat: string -> Option<real>, c: seq<real>)
    requires Readable(fmt, toFloat)
    ensures P.TokenFloats(Tokens(fmt, c), toFloat) == Reread(fmt, toFloat, c)
  {
    if c != [] {
      ReadableAt(fmt, toFloat, c[0]);
      TokenFloatsRead(fmt, toFloat, c[1..]);
      var ts := Tokens(fmt, c);
      assert ts[0] == fmt(c[0]) && ts[1..] == Tokens(fmt, c[1..]);
      assert Reread(fmt, toFloat, c) == [ReadBack(fmt, toFloat, c[0])] + Reread(fmt, toFloat, c[1..]);
    }
  }

  lemma ChunkLinesValues(fmt: real -> string, toFloat: string -> Option<real>, cs: seq<seq<real>>)
    requires TokenFormatter(fmt) && Readable(fmt, toFloat)
    requires forall m :: 0 <= m < |cs| ==> cs[m] != []
    ensures forall m :: 0 <= m < |cs| ==>
      P.Classify(Strip(DataLines(fmt, cs)[m]), true) == P.ValueLine
      && P.TokenFloats(Split(Strip(DataLines(fmt, cs)[m])), toFloat) == RereadEach(fmt, toFloat, cs)[m]
  {
    forall m | 0 <= m < |cs|
      ensures P.Classify(Strip(DataLines(fmt, cs)[m]), true) == P.ValueLine
      ensures P.TokenFloats(Split(Strip(DataLines(fmt, cs)[m])), toFloat) == RereadEach(fmt, toFloat, cs)[m]
    {
      DataLinesAt(fmt, cs, m);
      DataLineText(fmt, cs[m]);
      TokenFloatsRead(fmt, toFloat, cs[m]);
    }
  }

  lemma PlainCommentSkipped(i: nat)
    ensures P.Classify(Strip(CommentLine(i)), false) == P.Blank
  {
    CommentFacts(i);
  }

  lemma NameLineRead()
    ensures P.Classify(Strip("YMFS"), false) == P.NameLine
  {
    YmfsStripped();
    YmfsHasNoDigit();
    NameClassified("YMFS");
  }

  lemma YmfsHasNoDigit()
    ensures !HasDigit("YMFS")
  {
    forall i | 0 <= i < |"YMFS"| ensures !IsDigit("YMFS"[i]) {
      assert "YMFS"[i] in {'Y', 'M', 'F', 'S'};
    }
  }

  lemma NameClassified(line: string)
    requires line != [] && line[0] != '-' && line[0] != '/' && !HasDigit(line)
    ensures P.Classify(line, false) == P.NameLine
  {
    NotComment(line);
  }

  lemma EndLineRead()
    ensures P.Classify(Strip("/"), true) == P.EndLine
  {
    SlashStripped();
    NotComment("/");
  }

  /**
   * The name-triggered reader takes `YMFS` (no digit) as the property name
   * and returns the written values, as `float()` reads their printed text.
   */
  lemma PlainReadsExport(i: nat, fmt: real -> string, toFloat: string -> Option<real>, values: seq<real>)
    requires TokenFormatter(fmt) && Readable(fmt, toFloat)
    ensures P.ReadPlainProperty(GrdeclText(i, fmt, values), toFloat) == Reread(fmt, toFloat, values)
  {
    var cs := Chunks(values);
    ExportedLines(i, fmt, values);
    PlainCommentSkipped(i);
    ChunksNonEmpty(values);
    ChunkLinesValues(fmt, toFloat, cs);
    NameLineRead();
    EndLineRead();
    PlainScanLayout(CommentLine(i), "YMFS", DataLines(fmt, cs), "/", toFloat, RereadEach(fmt, toFloat, cs));
    FlattenRereadEach(fmt, toFloat, cs);
    FlattenChunks(values);
  }

  lemma PlainScanLayout(comment: string, name: string, data: seq<string>, stop: string,
                        toFloat: string -> Option<real>, vss: seq<seq<real>>)
    requires P.Classify(Strip(comment), false) == P.Blank
    requires P.Classify(Strip(name), false) == P.NameLine
    requires P.Classify(Strip(stop), true) == P.EndLine
    requires |data| == |vss|
    requires forall m :: 0 <= m < |data| ==>
      P.Classify(Strip(data[m]), true) == P.ValueLine && P.TokenFloats(Split(Strip(data[m])), toFloat) == vss[m]
    ensures P.PlainScan([comment] + ([name] + (data + [stop])), false, toFloat) == Flatten(vss)
  {
    P.PlainSkipLine(comment, [name] + (data + [stop]), false, toFloat);
    P.NameLineStarts(name, data + [stop], toFloat);
    P.ValueLinesRead(data, [stop], toFloat, vss);
    assert [stop][0] == stop;
    assert Flatten(vss) + [] == Flatten(vss);
  }
}
