/**
 * The keyword-triggered GRDECL property reader with run-length expansion
 * (`read_grdecl_property` in app.py and in the VTK exporter): it waits for a
 * line that mentions one of its keywords, then takes every whitespace token
 * as a value (`N*V` meaning `N` copies of `V`) until a line that starts
 * with `/`.
 */
module RleReader {
  import opened Text
  import opened Chunking

  /** Keywords the visualisation app accepts as the start of the data. */
  const AppKeywords: seq<string> := ["YMFS", "SOIL", "SWAT", "SGAS", "PRESSURE"]

  /** The VTK exporter only looks for the YMFS keyword. */
  const YmfsKeywords: seq<string> := ["YMFS"]

  /**
   * Python's `float()` and `int()` on one token, `None` where they raise.
   * Number syntax is not modelled: the two conversions are inputs.
   */
  datatype Parsers = Parsers(toFloat: string -> Option<real>, toInt: string -> Option<int>)

  /** The array the reader returns, or the `ValueError` of a token with two or more `*`. */
  datatype ReadResult = Values(values: seq<real>) | UnpackRaised

  predicate MentionsKeyword(line: string, keywords: seq<string>) {
    exists n :: 0 <= n < |keywords| && Contains(line, keywords[n])
  }

  /** `[v] * n`: empty for a count that is zero or negative. */
  function Repeat(v: real, n: int): (r: seq<real>)
    ensures |r| == if n > 0 then n else 0
    ensures forall i :: 0 <= i < |r| ==> r[i] == v
  {
    seq(if n > 0 then n else 0, _ => v)
  }

  /** Position of the first `c` in `s`. */
  function IndexOf(s: string, c: char): (r: nat)
    requires c in s
    ensures r < |s| && s[r] == c && c !in s[..r]
  {
    if s[0] == c then 0 else 1 + IndexOf(s[1..], c)
  }

  /**
   * The values one token adds. A token with one `*` is `count*value`; when
   * either side does not parse the token adds nothing. A token with a second
   * `*` makes the unpacking of `p.split('*')` raise (`None`), since that
   * statement sits outside the `try`.
   */
  function TokenValues(p: string, ps: Parsers): Option<seq<real>> {
    if '*' in p then
      var star := IndexOf(p, '*');
      var count, value := p[..star], p[star + 1..];
      if '*' in value then None
      else match (ps.toFloat(value), ps.toInt(count))
        case (Some(v), Some(n)) => Some(Repeat(v, n))
        case _ => Some([])
    else match ps.toFloat(p)
      case Some(v) => Some([v])
      case None => Some([])
  }

  function PrefixedOpt(vs: seq<real>, o: Option<seq<real>>): Option<seq<real>> {
    match o
    case Some(ws) => Some(vs + ws)
    case None => None
  }

  function Prefixed(vs: seq<real>, r: ReadResult): ReadResult {
    match r
    case Values(ws) => Values(vs + ws)
    case UnpackRaised => UnpackRaised
  }

  lemma PrefixedOptAppend(a: seq<real>, b: seq<real>, o: Option<seq<real>>)
    ensures PrefixedOpt(a, PrefixedOpt(b, o)) == PrefixedOpt(a + b, o)
  {
    if o.Some? {
      assert a + (b + o.value) == (a + b) + o.value;
    }
  }

  lemma PrefixedOptEmpty(o: Option<seq<real>>)
    ensures PrefixedOpt([], o) == o
  {
    if o.Some? {
      assert [] + o.value == o.value;
    }
  }

  lemma PrefixedAppend(a: seq<real>, b: seq<real>, r: ReadResult)
    ensures Prefixed(a, Prefixed(b, r)) == Prefixed(a + b, r)
  {
    if r.Values? {
      assert a + (b + r.values) == (a + b) + r.values;
    }
  }

  /** The values the tokens `parts` add, in order; `None` as soon as one raises. */
  function TokensValues(parts: seq<string>, ps: Parsers): Option<seq<real>> {
    if parts == [] then Some([])
    else match TokenValues(parts[0], ps)
      case None => None
      case Some(vs) => PrefixedOpt(vs, TokensValues(parts[1..], ps))
  }

  /** The values of one data line: every `/` removed, then split on whitespace. */
  function DataLineValues(line: string, ps: Parsers): Option<seq<real>> {
    TokensValues(Split(RemoveChar(line, '/')), ps)
  }

  /** How the reader treats a stripped line, in the order of its tests. */
  datatype LineKind = Blank | KeywordLine | StopLine | DataLine

  /**
   * Blank and `--` lines are skipped first; the keyword test comes before the
   * `/` test, so a line such as `/YMFS` starts the data rather than ending it.
   * (`line == '/' or line.startswith('/')` is the same as the second test alone.)
   */
  function Classify(line: string, keywords: seq<string>): LineKind {
    if line == [] || StartsWith(line, "--") then Blank
    else if MentionsKeyword(line, keywords) then KeywordLine
    else if StartsWith(line, "/") then StopLine
    else DataLine
  }

  /**
   * The reader's loop from a given line on, with `reading` recording whether
   * a keyword line has been seen. A stop line ends the read even before any
   * keyword; data lines before the keyword are passed over.
   */
  function Scan(lines: seq<string>, reading: bool, keywords: seq<string>, ps: Parsers): ReadResult
    decreases |lines|
  {
    if lines == [] then Values([])
    else
      var line := Strip(lines[0]);
      match Classify(line, keywords)
      case Blank => Scan(lines[1..], reading, keywords, ps)
      case KeywordLine => Scan(lines[1..], true, keywords, ps)
      case StopLine => Values([])
      case DataLine =>
        if !reading then Scan(lines[1..], reading, keywords, ps)
        else match DataLineValues(line, ps)
          case None => UnpackRaised
          case Some(vs) => Prefixed(vs, Scan(lines[1..], reading, keywords, ps))
  }

  /** What `read_grdecl_property` returns for a file whose text is `content`. */
  function ReadProperty(content: string, keywords: seq<string>, ps: Parsers): ReadResult {
    Scan(Lines(content), false, keywords, ps)
  }

  /**
   * The inner loop over the tokens of one data line, appending to `values`;
   * `None` when a token makes the unpacking raise.
   */
  method AppendLineValues(values: seq<real>, line: string, ps: Parsers) returns (r: Option<seq<real>>)
    ensures r == PrefixedOpt(values, DataLineValues(line, ps))
  {
    var parts := Split(RemoveChar(line, '/'));
    var acc := values;
    var m := 0;
    assert acc[|values|..] == [];
    assert parts[0..] == parts;
    PrefixedOptEmpty(TokensValues(parts, ps));
    while m < |parts|
      invariant 0 <= m <= |parts|
      invariant |values| <= |acc| && acc[..|values|] == values
      invariant TokensValues(parts, ps) == PrefixedOpt(acc[|values|..], TokensValues(parts[m..], ps))
    {
      assert parts[m..][1..] == parts[m + 1..];
      var p := parts[m];
      ghost var done := acc[|values|..];
      ghost var restValues := TokensValues(parts[m + 1..], ps);
      assert parts[m..][0] == p;
      assert TokensValues(parts[m..], ps) ==
        match TokenValues(p, ps)
        case None => None
        case Some(vs) => PrefixedOpt(vs, restValues);
      if '*' in p {
        var star := IndexOf(p, '*');
        var count, value := p[..star], p[star + 1..];
        if '*' in value {
          assert TokensValues(parts[m..], ps) == None;
          return None;
        }
        var v := ps.toFloat(value);
        var c := ps.toInt(count);
        if v.Some? && c.Some? {
          acc := acc + Repeat(v.value, c.value);
          assert acc[|values|..] == done + Repeat(v.value, c.value);
          assert TokenValues(p, ps) == Some(Repeat(v.value, c.value));
          PrefixedOptAppend(done, Repeat(v.value, c.value), restValues);
        } else {
          assert TokenValues(p, ps) == Some([]);
          PrefixedOptEmpty(restValues);
        }
      } else {
        var v := ps.toFloat(p);
        if v.Some? {
          acc := acc + [v.value];
          assert acc[|values|..] == done + [v.value];
          assert TokenValues(p, ps) == Some([v.value]);
          PrefixedOptAppend(done, [v.value], restValues);
        } else {
          assert TokenValues(p, ps) == Some([]);
          PrefixedOptEmpty(restValues);
        }
      }
      m := m + 1;
    }
    assert parts[m..] == [];
    assert acc[|values|..] + [] == acc[|values|..];
    assert acc == values + acc[|values|..];
    r := Some(acc);
  }

  /** One step of `Scan` on the line at position `n`. */
  lemma ScanStep(lines: seq<string>, n: nat, reading: bool, keywords: seq<string>, ps: Parsers)
    requires n < |lines|
    ensures var line := Strip(lines[n]);
      Scan(lines[n..], reading, keywords, ps) ==
        match Classify(line, keywords)
        case Blank => Scan(lines[n + 1..], reading, keywords, ps)
        case KeywordLine => Scan(lines[n + 1..], true, keywords, ps)
        case StopLine => Values([])
        case DataLine =>
          if !reading then Scan(lines[n + 1..], reading, keywords, ps)
          else match DataLineValues(line, ps)
            case None => UnpackRaised
            case Some(vs) => Prefixed(vs, Scan(lines[n + 1..], reading, keywords, ps))
  {
    assert lines[n..][0] == lines[n];
    assert lines[n..][1..] == lines[n + 1..];
  }

  lemma ScanSkips(lines: seq<string>, n: nat, reading: bool, keywords: seq<string>, ps: Parsers)
    requires n < |lines| && (Strip(lines[n]) == [] || StartsWith(Strip(lines[n]), "--"))
    ensures Scan(lines[n..], reading, keywords, ps) == Scan(lines[n + 1..], reading, keywords, ps)
  {
    ScanStep(lines, n, reading, keywords, ps);
  }

  lemma ScanStarts(lines: seq<string>, n: nat, reading: bool, keywords: seq<string>, ps: Parsers)
    requires n < |lines| && Strip(lines[n]) != [] && !StartsWith(Strip(lines[n]), "--")
    requires MentionsKeyword(Strip(lines[n]), keywords)
    ensures Scan(lines[n..], reading, keywords, ps) == Scan(lines[n + 1..], true, keywords, ps)
  {
    ScanStep(lines, n, reading, keywords, ps);
  }

  lemma ScanStops(lines: seq<string>, n: nat, reading: bool, keywords: seq<string>, ps: Parsers)
    requires n < |lines| && Strip(lines[n]) != [] && !StartsWith(Strip(lines[n]), "--")
    requires !MentionsKeyword(Strip(lines[n]), keywords) && StartsWith(Strip(lines[n]), "/")
    ensures Scan(lines[n..], reading, keywords, ps) == Values([])
  {
    ScanStep(lines, n, reading, keywords, ps);
  }

  lemma ScanData(lines: seq<string>, n: nat, reading: bool, keywords: seq<string>, ps: Parsers)
    requires n < |lines| && Strip(lines[n]) != [] && !StartsWith(Strip(lines[n]), "--")
    requires !MentionsKeyword(Strip(lines[n]), keywords) && !StartsWith(Strip(lines[n]), "/")
    ensures !reading ==> Scan(lines[n..], reading, keywords, ps) == Scan(lines[n + 1..], reading, keywords, ps)
    ensures reading && DataLineValues(Strip(lines[n]), ps).None? ==> Scan(lines[n..], reading, keywords, ps) == UnpackRaised
    ensures reading && DataLineValues(Strip(lines[n]), ps).Some? ==>
      Scan(lines[n..], reading, keywords, ps)
        == Prefixed(DataLineValues(Strip(lines[n]), ps).value, Scan(lines[n + 1..], reading, keywords, ps))
  {
    ScanStep(lines, n, reading, keywords, ps);
  }

  method ReadGrdeclProperty(content: string, keywords: seq<string>, ps: Parsers) returns (r: ReadResult)
    ensures r == ReadProperty(content, keywords, ps)
  {
    var lines := Lines(content);
    var values: seq<real> := [];
    var reading := false;
    var n := 0;
    assert lines[0..] == lines;
    while n < |lines|
      invariant 0 <= n <= |lines|
      invariant Scan(lines, false, keywords, ps) == Prefixed(values, Scan(lines[n..], reading, keywords, ps))
    {
      var line := Strip(lines[n]);
      if line == [] || StartsWith(line, "--") {
        ScanSkips(lines, n, reading, keywords, ps);
        n := n + 1;
        continue;
      }
      if MentionsKeyword(line, keywords) {
        ScanStarts(lines, n, reading, keywords, ps);
        reading := true;
        n := n + 1;
        continue;
      }
      if line == "/" || StartsWith(line, "/") {
        ScanStops(lines, n, reading, keywords, ps);
        assert values + [] == values;
        r := Values(values);
        return;
      }
      ScanData(lines, n, reading, keywords, ps);
      if reading {
        var extended := AppendLineValues(values, line, ps);
        if extended.None? {
          r := UnpackRaised;
          return;
        }
        var lineValues := DataLineValues(line, ps).value;
        assert extended.value == values + lineValues;
        PrefixedAppend(values, lineValues, Scan(lines[n + 1..], reading, keywords, ps));
        values := extended.value;
      }
      n := n + 1;
    }
    assert values + [] == values;
    r := Values(values);
  }

  // ---------------------------------------------------------------- lemmas

  /** Nothing after the first stop line is read, whatever came before it. */
  lemma {:induction false} StopLineEndsRead(pre: seq<string>, l: string, post: seq<string>,
                                            reading: bool, keywords: seq<string>, ps: Parsers)
    requires Classify(Strip(l), keywords) == StopLine
    ensures Scan(pre + [l] + post, reading, keywords, ps) == Scan(pre, reading, keywords, ps)
    decreases |pre|
  {
    var all := pre + [l] + post;
    if pre == [] {
      assert all[0] == l;
    } else {
      assert all[0] == pre[0];
      assert all[1..] == pre[1..] + [l] + post;
      match Classify(Strip(pre[0]), keywords)
      case Blank =>
        StopLineEndsRead(pre[1..], l, post, reading, keywords, ps);
      case KeywordLine =>
        StopLineEndsRead(pre[1..], l, post, true, keywords, ps);
      case StopLine =>
      case DataLine =>
        StopLineEndsRead(pre[1..], l, post, reading, keywords, ps);
    }
  }

  /** A file in which no line names a keyword reads as the empty array and never raises. */
  lemma {:induction false} NoKeywordNoValues(lines: seq<string>, keywords: seq<string>, ps: Parsers)
    requires forall n :: 0 <= n < |lines| ==> !MentionsKeyword(Strip(lines[n]), keywords)
    ensures Scan(lines, false, keywords, ps) == Values([])
    decreases |lines|
  {
    if lines != [] {
      NoKeywordNoValues(lines[1..], keywords, ps);
    }
  }

  /** Lines before the keyword line contribute nothing, even ones full of numbers. */
  lemma {:induction false} LinesBeforeKeywordIgnored(pre: seq<string>, rest: seq<string>,
                                                     keywords: seq<string>, ps: Parsers)
    requires forall n :: 0 <= n < |pre| ==>
      Classify(Strip(pre[n]), keywords) == Blank || Classify(Strip(pre[n]), keywords) == DataLine
    ensures Scan(pre + rest, false, keywords, ps) == Scan(rest, false, keywords, ps)
    decreases |pre|
  {
    if pre == [] {
      assert pre + rest == rest;
    } else {
      assert (pre + rest)[0] == pre[0];
      assert (pre + rest)[1..] == pre[1..] + rest;
      LinesBeforeKeywordIgnored(pre[1..], rest, keywords, ps);
    }
  }

  /** Consecutive data lines after the keyword contribute their values in order. */
  lemma {:induction false} DataLinesRead(ls: seq<string>, post: seq<string>, keywords: seq<string>,
                                         ps: Parsers, vss: seq<seq<real>>)
    requires |ls| == |vss|
    requires forall m :: 0 <= m < |ls| ==>
      Classify(Strip(ls[m]), keywords) == DataLine && DataLineValues(Strip(ls[m]), ps) == Some(vss[m])
    ensures Scan(ls + post, true, keywords, ps) == Prefixed(Flatten(vss), Scan(post, true, keywords, ps))
    decreases |ls|
  {
    var tail := Scan(post, true, keywords, ps);
    if ls == [] {
      assert ls + post == post;
      PrefixedEmpty(tail);
    } else {
      DataLinesRead(ls[1..], post, keywords, ps, vss[1..]);
      DataLinesStep(ls, post, keywords, ps, vss);
    }
  }

  /** One data line in front of lines whose values are already known. */
  lemma DataLinesStep(ls: seq<string>, post: seq<string>, keywords: seq<string>, ps: Parsers, vss: seq<seq<real>>)
    requires ls != [] && vss != []
    requires Classify(Strip(ls[0]), keywords) == DataLine && DataLineValues(Strip(ls[0]), ps) == Some(vss[0])
    requires Scan(ls[1..] + post, true, keywords, ps) == Prefixed(Flatten(vss[1..]), Scan(post, true, keywords, ps))
    ensures Scan(ls + post, true, keywords, ps) == Prefixed(Flatten(vss), Scan(post, true, keywords, ps))
  {
    ConcatFirst(ls, post);
    DataLineFirst(ls + post, keywords, ps);
    PrefixedAppend(vss[0], Flatten(vss[1..]), Scan(post, true, keywords, ps));
  }

  lemma DataLineFirst(lines: seq<string>, keywords: seq<string>, ps: Parsers)
    requires lines != [] && Classify(Strip(lines[0]), keywords) == DataLine
    ensures DataLineValues(Strip(lines[0]), ps).None? ==> Scan(lines, true, keywords, ps) == UnpackRaised
    ensures DataLineValues(Strip(lines[0]), ps).Some? ==>
      Scan(lines, true, keywords, ps) == Prefixed(DataLineValues(Strip(lines[0]), ps).value, Scan(lines[1..], true, keywords, ps))
  {
  }

  lemma PrefixedEmpty(r: ReadResult)
    ensures Prefixed([], r) == r
  {
    if r.Values? {
      assert [] + r.values == r.values;
    }
  }

  /** A blank or comment line is passed over. */
  lemma SkipLine(l: string, rest: seq<string>, reading: bool, keywords: seq<string>, ps: Parsers)
    requires Classify(Strip(l), keywords) == Blank
    ensures Scan([l] + rest, reading, keywords, ps) == Scan(rest, reading, keywords, ps)
  {
    assert ([l] + rest)[0] == l;
    assert ([l] + rest)[1..] == rest;
  }

  /** A keyword line starts the data, whatever came before it. */
  lemma KeywordLineStarts(l: string, rest: seq<string>, reading: bool, keywords: seq<string>, ps: Parsers)
    requires Classify(Strip(l), keywords) == KeywordLine
    ensures Scan([l] + rest, reading, keywords, ps) == Scan(rest, true, keywords, ps)
  {
    assert ([l] + rest)[0] == l;
    assert ([l] + rest)[1..] == rest;
  }

  /** `count*value` with a count that reads back as itself expands to `count` copies. */
  lemma RunTokenExpands(count: nat, value: string, ps: Parsers)
    requires '*' !in value
    requires ps.toInt(Decimal(count)) == Some(count)
    requires ps.toFloat(value).Some?
    ensures TokenValues(Decimal(count) + "*" + value, ps) == Some(Repeat(ps.toFloat(value).value, count))
  {
    var d := Decimal(count);
    var p := d + "*" + value;
    forall k | 0 <= k < |d| ensures d[k] != '*' {
      assert IsDigit(d[k]);
    }
    assert p[|d|] == '*';
    assert p[..|d|] == d;
    IndexOfFirst(p, |d|);
    assert p[|d| + 1..] == value;
  }

  lemma {:induction false} IndexOfFirst(s: string, i: nat)
    requires i < |s| && s[i] == '*' && '*' !in s[..i]
    ensures IndexOf(s, '*') == i
  {
    if i > 0 {
      assert s[..i][0] == s[0];
      assert s[1..][..i - 1] == s[..i][1..];
      IndexOfFirst(s[1..], i - 1);
    }
  }

  /**
   * A `count*value` token whose value does not parse, whose count does not
   * parse, or whose count is not positive adds nothing: this covers `*5`,
   * `3*` and `-2*1.0`.
   */
  lemma BadRunTokenSkipped(count: string, value: string, ps: Parsers)
    requires '*' !in count && '*' !in value
    requires ps.toFloat(value).None? || ps.toInt(count).None? || ps.toInt(count).value <= 0
    ensures TokenValues(count + "*" + value, ps) == Some([])
  {
    var p := count + "*" + value;
    assert p[..|count|] == count && p[|count|] == '*';
    IndexOfFirst(p, |count|);
    assert p[|count| + 1..] == value;
  }

  /** A token with a second `*` makes the unpacking raise, whatever the pieces are. */
  lemma TwoStarsRaise(a: string, b: string, c: string, ps: Parsers)
    requires '*' !in a
    ensures TokenValues(a + "*" + b + "*" + c, ps) == None
  {
    var p := a + "*" + b + "*" + c;
    assert p[..|a|] == a && p[|a|] == '*';
    IndexOfFirst(p, |a|);
    assert p[|a| + 1..] == b + "*" + c;
    assert (b + "*" + c)[|b|] == '*';
  }

  /** Once reading, a data line whose tokens raise ends the whole read with the exception. */
  lemma RaiseAbortsRead(l: string, rest: seq<string>, keywords: seq<string>, ps: Parsers)
    requires Classify(Strip(l), keywords) == DataLine && DataLineValues(Strip(l), ps) == None
    ensures Scan([l] + rest, true, keywords, ps) == UnpackRaised
  {
    assert ([l] + rest)[0] == l;
    DataLineFirst([l] + rest, keywords, ps);
  }

  lemma ExampleRunLengthWords()
    ensures Split(RemoveChar("3*0.5 0.2 2*1.0", '/')) == ["3*0.5", "0.2", "2*1.0"]
  {
    var line := "3*0.5 0.2 2*1.0";
    assert '/' !in line;
    var words := ["3*0.5", "0.2", "2*1.0"];
    var s := JoinSpaced(words);
    assert s == " " + line;
    SplitJoinSpaced(words);
    assert s[1..] == line;
  }

  /**
   * The run-length line `3*0.5 0.2 2*1.0` reads as six values, given the
   * conversions of its pieces.
   */
  lemma ExampleRunLengthTokens(ps: Parsers)
    requires ps.toInt("3") == Some(3) && ps.toInt("2") == Some(2)
    requires ps.toFloat("0.5") == Some(0.5) && ps.toFloat("0.2") == Some(0.2)
    requires ps.toFloat("1.0") == Some(1.0)
    ensures TokenValues("3*0.5", ps) == Some([0.5, 0.5, 0.5])
    ensures TokenValues("0.2", ps) == Some([0.2])
    ensures TokenValues("2*1.0", ps) == Some([1.0, 1.0])
  {
    assert Decimal(3) == "3" && Decimal(2) == "2";
    RunTokenExpands(3, "0.5", ps);
    assert "3*0.5" == Decimal(3) + "*" + "0.5";
    assert Repeat(0.5, 3) == [0.5, 0.5, 0.5];
    RunTokenExpands(2, "1.0", ps);
    assert "2*1.0" == Decimal(2) + "*" + "1.0";
    assert Repeat(1.0, 2) == [1.0, 1.0];
    assert '*' !in "0.2";
  }

  lemma ThreeTokens(ps: Parsers, a: string, b: string, c: string)
    requires TokenValues(a, ps) == Some([0.5, 0.5, 0.5])
    requires TokenValues(b, ps) == Some([0.2])
    requires TokenValues(c, ps) == Some([1.0, 1.0])
    ensures TokensValues([a, b, c], ps) == Some([0.5, 0.5, 0.5, 0.2, 1.0, 1.0])
  {
    var x: seq<real> := [1.0, 1.0];
    assert x + [] == x;
    assert [c][1..] == [];
    assert TokensValues([c], ps) == Some(x);
    assert [b, c][1..] == [c];
    var y: seq<real> := [0.2];
    assert y + x == [0.2, 1.0, 1.0];
    assert TokensValues([b, c], ps) == Some([0.2, 1.0, 1.0]);
    assert [a, b, c][1..] == [b, c];
    var z: seq<real> := [0.5, 0.5, 0.5];
    assert z + [0.2, 1.0, 1.0] == [0.5, 0.5, 0.5, 0.2, 1.0, 1.0];
  }

  /**
   * The run-length line `3*0.5 0.2 2*1.0` reads as six values, given the
   * conversions of its pieces.
   */
  lemma ExampleRunLengthLine(ps: Parsers)
    requires ps.toInt("3") == Some(3) && ps.toInt("2") == Some(2)
    requires ps.toFloat("0.5") == Some(0.5) && ps.toFloat("0.2") == Some(0.2)
    requires ps.toFloat("1.0") == Some(1.0)
    ensures DataLineValues("3*0.5 0.2 2*1.0", ps) == Some([0.5, 0.5, 0.5, 0.2, 1.0, 1.0])
  {
    ExampleRunLengthWords();
    ExampleRunLengthTokens(ps);
    ThreeTokens(ps, "3*0.5", "0.2", "2*1.0");
  }
}
