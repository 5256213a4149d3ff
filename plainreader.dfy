/**
 * The name-triggered GRDECL property reader of the grid loading scripts
 * (`read_grdecl_property` in load_grdecl.py and save_vtk.py): the first
 * line without a digit is taken as the property name, every later token
 * that `float()` accepts is a value, and only a line that is exactly `/`
 * ends the read. There is no run-length expansion.
 */
module PlainReader {
  import opened Text
  import opened Chunking

  /** The values `float()` accepts among `parts`, in order; the others are skipped. */
  function TokenFloats(parts: seq<string>, toFloat: string -> Option<real>): seq<real> {
    if parts == [] then []
    else
      (match toFloat(parts[0]) case Some(v) => [v] case None => [])
      + TokenFloats(parts[1..], toFloat)
  }

  /** How the reader treats a stripped line, in the order of its tests. */
  datatype LineKind = Blank | EndLine | NameLine | ValueLine | Ignored

  function Classify(line: string, found: bool): LineKind {
    if line == [] || StartsWith(line, "--") then Blank
    else if line == "/" then EndLine
    else if !found && !HasDigit(line) then NameLine
    else if found then ValueLine
    else Ignored
  }

  /**
   * The reader's loop from a given line on; `found` records whether the name
   * line has been seen. A line that still has a digit before the name is
   * found is passed over.
   */
  function PlainScan(lines: seq<string>, found: bool, toFloat: string -> Option<real>): seq<real>
    decreases |lines|
  {
    if lines == [] then []
    else
      var line := Strip(lines[0]);
      match Classify(line, found)
      case Blank => PlainScan(lines[1..], found, toFloat)
      case EndLine => []
      case NameLine => PlainScan(lines[1..], true, toFloat)
      case ValueLine => TokenFloats(Split(line), toFloat) + PlainScan(lines[1..], found, toFloat)
      case Ignored => PlainScan(lines[1..], found, toFloat)
  }

  /** What the reader returns for a file whose text is `content`. */
  function ReadPlainProperty(content: string, toFloat: string -> Option<real>): seq<real> {
    PlainScan(Lines(content), false, toFloat)
  }

  lemma PlainScanStep(lines: seq<string>, n: nat, found: bool, toFloat: string -> Option<real>)
    requires n < |lines|
    ensures var line := Strip(lines[n]);
      PlainScan(lines[n..], found, toFloat) ==
        match Classify(line, found)
        case Blank => PlainScan(lines[n + 1..], found, toFloat)
        case EndLine => []
        case NameLine => PlainScan(lines[n + 1..], true, toFloat)
        case ValueLine => TokenFloats(Split(line), toFloat) + PlainScan(lines[n + 1..], found, toFloat)
        case Ignored => PlainScan(lines[n + 1..], found, toFloat)
  {
    assert lines[n..][0] == lines[n];
    assert lines[n..][1..] == lines[n + 1..];
  }

  /** The inner loop over the tokens of one data line, appending what `float()` accepts. */
  method AppendFloats(values: seq<real>, parts: seq<string>, toFloat: string -> Option<real>)
    returns (r: seq<real>)
    ensures r == values + TokenFloats(parts, toFloat)
  {
    r := values;
    var m := 0;
    assert parts[0..] == parts;
    while m < |parts|
      invariant 0 <= m <= |parts|
      invariant values + TokenFloats(parts, toFloat) == r + TokenFloats(parts[m..], toFloat)
    {
      assert parts[m..][1..] == parts[m + 1..];
      var v := toFloat(parts[m]);
      if v.Some? {
        r := r + [v.value];
      }
      m := m + 1;
    }
    assert parts[m..] == [];
    assert r + [] == r;
  }

  lemma AppendAssoc(a: seq<real>, b: seq<real>, c: seq<real>)
    ensures a + (b + c) == (a + b) + c
  {
  }

  lemma PlainPasses(lines: seq<string>, n: nat, found: bool, toFloat: string -> Option<real>)
    requires n < |lines| && Classify(Strip(lines[n]), found) in {Blank, Ignored}
    ensures PlainScan(lines[n..], found, toFloat) == PlainScan(lines[n + 1..], found, toFloat)
  {
    PlainScanStep(lines, n, found, toFloat);
  }

  lemma PlainEnds(lines: seq<string>, n: nat, found: bool, toFloat: string -> Option<real>)
    requires n < |lines| && Classify(Strip(lines[n]), found) == EndLine
    ensures PlainScan(lines[n..], found, toFloat) == []
  {
    PlainScanStep(lines, n, found, toFloat);
  }

  lemma PlainNames(lines: seq<string>, n: nat, toFloat: string -> Option<real>)
    requires n < |lines| && Classify(Strip(lines[n]), false) == NameLine
    ensures PlainScan(lines[n..], false, toFloat) == PlainScan(lines[n + 1..], true, toFloat)
  {
    PlainScanStep(lines, n, false, toFloat);
  }

  lemma PlainValues(lines: seq<string>, n: nat, found: bool, toFloat: string -> Option<real>)
    requires n < |lines| && Classify(Strip(lines[n]), found) == ValueLine
    ensures PlainScan(lines[n..], found, toFloat)
         == TokenFloats(Split(Strip(lines[n])), toFloat) + PlainScan(lines[n + 1..], found, toFloat)
  {
    PlainScanStep(lines, n, found, toFloat);
  }

  method ReadGrdeclProperty(content: string, toFloat: string -> Option<real>) returns (values: seq<real>)
    ensures values == ReadPlainProperty(content, toFloat)
  {
    var lines := Lines(content);
    values := [];
    var found := false;
    var n := 0;
    assert lines[0..] == lines;
    while n < |lines|
      invariant 0 <= n <= |lines|
      invariant PlainScan(lines, false, toFloat) == values + PlainScan(lines[n..], found, toFloat)
    {
      var line := Strip(lines[n]);
      ghost var kind := Classify(line, found);
      ghost var next := PlainScan(lines[n + 1..], found, toFloat);
      if line == [] || StartsWith(line, "--") {
        PlainPasses(lines, n, found, toFloat);
        n := n + 1;
        continue;
      }
      if line == "/" {
        assert kind == EndLine;
        PlainEnds(lines, n, found, toFloat);
        assert values + [] == values;
        return;
      }
      if !found {
        if !HasDigit(line) {
          assert kind == NameLine;
          PlainNames(lines, n, toFloat);
          found := true;
          n := n + 1;
          continue;
        }
      }
      if found {
        assert kind == ValueLine;
        PlainValues(lines, n, found, toFloat);
        var extended := AppendFloats(values, Split(line), toFloat);
        AppendAssoc(values, TokenFloats(Split(line), toFloat), next);
        values := extended;
      } else {
        assert kind == Ignored;
        PlainPasses(lines, n, found, toFloat);
      }
      n := n + 1;
    }
    assert values + [] == values;
  }

  // ---------------------------------------------------------------- lemmas

  /** Only a line that is exactly `/` ends the read; nothing after it counts. */
  lemma {:induction false} PlainStopLineEndsRead(pre: seq<string>, l: string, post: seq<string>,
                                                 found: bool, toFloat: string -> Option<real>)
    requires Strip(l) == "/"
    ensures PlainScan(pre + [l] + post, found, toFloat) == PlainScan(pre, found, toFloat)
    decreases |pre|
  {
    var all := pre + [l] + post;
    if pre == [] {
      assert all[0] == l;
    } else {
      assert all[0] == pre[0];
      assert all[1..] == pre[1..] + [l] + post;
      PlainStopLineEndsRead(pre[1..], l, post, true, toFloat);
      PlainStopLineEndsRead(pre[1..], l, post, found, toFloat);
      SameHeadSameScan(all, pre, found, toFloat);
    }
  }

  /** Two line lists with the same first line read alike when what follows it reads alike. */
  lemma SameHeadSameScan(a: seq<string>, b: seq<string>, found: bool, toFloat: string -> Option<real>)
    requires a != [] && b != [] && a[0] == b[0]
    requires PlainScan(a[1..], true, toFloat) == PlainScan(b[1..], true, toFloat)
    requires PlainScan(a[1..], found, toFloat) == PlainScan(b[1..], found, toFloat)
    ensures PlainScan(a, found, toFloat) == PlainScan(b, found, toFloat)
  {
  }

  /**
   * A line with trailing `/` after its values is still data: its values are
   * read (the `/` token itself is skipped when `float()` refuses it) and the
   * read goes on with the next line.
   */
  lemma TrailingSlashLineIsData(l: string, rest: seq<string>, toFloat: string -> Option<real>)
    requires Strip(l) != [] && !StartsWith(Strip(l), "--") && Strip(l) != "/"
    ensures PlainScan([l] + rest, true, toFloat)
         == TokenFloats(Split(Strip(l)), toFloat) + PlainScan(rest, true, toFloat)
  {
    assert ([l] + rest)[0] == l;
    assert ([l] + rest)[1..] == rest;
  }

  /** Before the name line, lines that carry a digit contribute nothing. */
  lemma {:induction false} LinesBeforeNameIgnored(pre: seq<string>, rest: seq<string>,
                                                  toFloat: string -> Option<real>)
    requires forall n :: 0 <= n < |pre| ==> Strip(pre[n]) != "/" && (Strip(pre[n]) == [] || HasDigit(Strip(pre[n])))
    ensures PlainScan(pre + rest, false, toFloat) == PlainScan(rest, false, toFloat)
    decreases |pre|
  {
    if pre == [] {
      assert pre + rest == rest;
    } else {
      assert (pre + rest)[0] == pre[0];
      assert (pre + rest)[1..] == pre[1..] + rest;
      LinesBeforeNameIgnored(pre[1..], rest, toFloat);
    }
  }

  /** Consecutive value lines after the name contribute their values in order. */
  lemma {:induction false} ValueLinesRead(ls: seq<string>, post: seq<string>,
                                          toFloat: string -> Option<real>, vss: seq<seq<real>>)
    requires |ls| == |vss|
    requires forall m :: 0 <= m < |ls| ==>
      Classify(Strip(ls[m]), true) == ValueLine && TokenFloats(Split(Strip(ls[m])), toFloat) == vss[m]
    ensures PlainScan(ls + post, true, toFloat) == Flatten(vss) + PlainScan(post, true, toFloat)
    decreases |ls|
  {
    var tail := PlainScan(post, true, toFloat);
    if ls == [] {
      assert ls + post == post;
      assert [] + tail == tail;
    } else {
      var all := ls + post;
      assert PlainScan(all, true, toFloat) == vss[0] + PlainScan(ls[1..] + post, true, toFloat) by {
        assert all[0] == ls[0];
        assert all[1..] == ls[1..] + post;
        ValueLineFirst(all, toFloat);
      }
      assert PlainScan(ls[1..] + post, true, toFloat) == Flatten(vss[1..]) + tail by {
        ValueLinesRead(ls[1..], post, toFloat, vss[1..]);
      }
      AppendAssoc(vss[0], Flatten(vss[1..]), tail);
    }
  }

  lemma ValueLineFirst(lines: seq<string>, toFloat: string -> Option<real>)
    requires lines != [] && Classify(Strip(lines[0]), true) == ValueLine
    ensures PlainScan(lines, true, toFloat) == TokenFloats(Split(Strip(lines[0])), toFloat) + PlainScan(lines[1..], true, toFloat)
  {
  }

  /** A blank or comment line is passed over. */
  lemma PlainSkipLine(l: string, rest: seq<string>, found: bool, toFloat: string -> Option<real>)
    requires Classify(Strip(l), found) == Blank
    ensures PlainScan([l] + rest, found, toFloat) == PlainScan(rest, found, toFloat)
  {
    assert ([l] + rest)[0] == l;
    assert ([l] + rest)[1..] == rest;
  }

  /** The first line without a digit is taken as the name; the values follow it. */
  lemma NameLineStarts(l: string, rest: seq<string>, toFloat: string -> Option<real>)
    requires Classify(Strip(l), false) == NameLine
    ensures PlainScan([l] + rest, false, toFloat) == PlainScan(rest, true, toFloat)
  {
    assert ([l] + rest)[0] == l;
    assert ([l] + rest)[1..] == rest;
  }

  lemma {:induction false} TokenFloatsAppend(a: seq<string>, b: seq<string>, toFloat: string -> Option<real>)
    ensures TokenFloats(a + b, toFloat) == TokenFloats(a, toFloat) + TokenFloats(b, toFloat)
  {
    if a == [] {
      assert a + b == b;
    } else {
      assert (a + b)[0] == a[0];
      assert (a + b)[1..] == a[1..] + b;
      TokenFloatsAppend(a[1..], b, toFloat);
    }
  }

  /** Tokens that all parse are read one value each, in order: there is no `N*V` expansion. */
  lemma {:induction false} TokenFloatsAllParse(parts: seq<string>, toFloat: string -> Option<real>)
    requires forall n :: 0 <= n < |parts| ==> toFloat(parts[n]).Some?
    ensures |TokenFloats(parts, toFloat)| == |parts|
    ensures forall n :: 0 <= n < |parts| ==> TokenFloats(parts, toFloat)[n] == toFloat(parts[n]).value
  {
    if parts != [] {
      TokenFloatsAllParse(parts[1..], toFloat);
    }
  }
}
