/**
 * Character-level operations the GRDECL readers and writers apply to text:
 * Python's `str.strip()`, `str.split()`, `str.startswith`, the `in` test on
 * strings, `str.replace(c, '')`, iterating over the lines of a text file,
 * `str.isdigit()` and decimal printing of non-negative integers.
 */
module Text {

  datatype Option<+T> = None | Some(value: T)

  /** The characters Python's `str.isspace()` accepts, which `strip()` and `split()` remove. */
  predicate IsSpace(c: char) {
    c == ' ' || c == '\t' || c == '\n' || c == '\r' || c == '\U{0B}' || c == '\U{0C}'
    || ('\U{1C}' <= c <= '\U{1F}') || c == '\U{85}' || c == '\U{A0}' || c == '\U{1680}'
    || ('\U{2000}' <= c <= '\U{200A}') || c == '\U{2028}' || c == '\U{2029}'
    || c == '\U{202F}' || c == '\U{205F}' || c == '\U{3000}'
  }

  predicate IsDigit(c: char) { '0' <= c <= '9' }

  predicate NoSpace(s: string) { forall i :: 0 <= i < |s| ==> !IsSpace(s[i]) }

  predicate AllDigits(s: string) { forall i :: 0 <= i < |s| ==> IsDigit(s[i]) }

  function Spaces(n: nat): (s: string)
    ensures |s| == n
    ensures forall i :: 0 <= i < n ==> s[i] == ' '
  {
    seq(n, _ => ' ')
  }

  /** `s.rjust(width, c)`: the padding a fixed-width format field applies to a shorter text. */
  function LeftPad(s: string, width: nat, c: char): (r: string)
    ensures |r| == if |s| < width then width else |s|
    ensures r[|r| - |s|..] == s
    ensures forall i :: 0 <= i < |r| - |s| ==> r[i] == c
  {
    seq(if |s| < width then width - |s| else 0, _ => c) + s
  }

  predicate StartsWith(s: string, prefix: string) {
    |prefix| <= |s| && s[..|prefix|] == prefix
  }

  predicate EndsWith(s: string, suffix: string) {
    |suffix| <= |s| && s[|s| - |suffix|..] == suffix
  }

  /** Python's `sub in s`. */
  predicate Contains(s: string, sub: string)
    decreases |s|
  {
    StartsWith(s, sub) || (s != [] && Contains(s[1..], sub))
  }

  /** The first element and the rest of a concatenation whose front is not empty. */
  lemma ConcatFirst<T>(a: seq<T>, b: seq<T>)
    requires a != []
    ensures (a + b)[0] == a[0] && (a + b)[1..] == a[1..] + b
  {
  }

  lemma PrefixOfPrefix<T>(s: seq<T>, m: nat, w: nat)
    requires w <= m <= |s|
    ensures s[..m][..w] == s[..w]
  {
  }

  lemma WholeSlices<T>(s: seq<T>)
    ensures s[..|s|] == s && s[|s|..] == []
  {
  }

  /** Python's `s.lstrip()`. */
  function StripLeft(s: string): (r: string)
    ensures |r| <= |s| && r == s[|s| - |r|..]
    ensures r != [] ==> !IsSpace(r[0])
    ensures forall i :: 0 <= i < |s| - |r| ==> IsSpace(s[i])
  {
    if s != [] && IsSpace(s[0]) then StripLeft(s[1..]) else s
  }

  /** Python's `s.rstrip()`. */
  function StripRight(s: string): (r: string)
    ensures |r| <= |s| && r == s[..|r|]
    ensures r != [] ==> !IsSpace(r[|r| - 1])
    ensures forall i :: |r| <= i < |s| ==> IsSpace(s[i])
  {
    if s != [] && IsSpace(s[|s| - 1]) then StripRight(s[..|s| - 1]) else s
  }

  /** Python's `s.strip()`. */
  function Strip(s: string): (r: string)
    ensures r != [] ==> !IsSpace(r[0]) && !IsSpace(r[|r| - 1])
  {
    StripRight(StripLeft(s))
  }

  /** Length of the run of non-whitespace characters that starts `s`. */
  function WordLen(s: string): (n: nat)
    ensures n <= |s|
    ensures forall i :: 0 <= i < n ==> !IsSpace(s[i])
    ensures n < |s| ==> IsSpace(s[n])
  {
    if s == [] || IsSpace(s[0]) then 0 else 1 + WordLen(s[1..])
  }

  /** Python's `s.split()` without a separator: the maximal runs of non-whitespace, in order. */
  function Split(s: string): (ws: seq<string>)
    ensures forall w :: w in ws ==> w != [] && NoSpace(w)
    decreases |s|
  {
    if s == [] then []
    else if IsSpace(s[0]) then Split(s[1..])
    else
      var n := WordLen(s);
      [s[..n]] + Split(s[n..])
  }

  /** Python's `s.replace(c, '')`. */
  function RemoveChar(s: string, c: char): (r: string)
    ensures c !in r
    ensures c !in s ==> r == s
  {
    if s == [] then []
    else (if s[0] == c then [] else [s[0]]) + RemoveChar(s[1..], c)
  }

  /** Whether some character of `s` is a decimal digit (`any(ch.isdigit() for ch in s)`). */
  predicate HasDigit(s: string) {
    exists i :: 0 <= i < |s| && IsDigit(s[i])
  }

  /** Length of the text before the first line break of `s`. */
  function LineLen(s: string): (n: nat)
    ensures n <= |s|
    ensures '\n' !in s[..n]
    ensures n < |s| ==> s[n] == '\n'
  {
    if s == [] || s[0] == '\n' then 0 else 1 + LineLen(s[1..])
  }

  /**
   * The lines a Python `for line in f` loop sees in a text file whose line breaks
   * are all `\n`, each without its line break; a final line break does not start
   * another line.
   */
  function Lines(s: string): (ls: seq<string>)
    ensures forall l :: l in ls ==> '\n' !in l
    decreases |s|
  {
    if s == [] then []
    else
      var n := LineLen(s);
      if n == |s| then [s] else [s[..n]] + Lines(s[n + 1..])
  }

  /** The text of a file whose lines are `ls`, each followed by a line break. */
  function ConcatLines(ls: seq<string>): string {
    if ls == [] then "" else ls[0] + "\n" + ConcatLines(ls[1..])
  }

  predicate NoBreaks(ls: seq<string>) {
    forall n :: 0 <= n < |ls| ==> '\n' !in ls[n]
  }

  function DigitChar(d: nat): char
    requires d < 10
  {
    ('0' as int + d) as char
  }

  function DigitValue(c: char): nat
    requires IsDigit(c)
  {
    c as int - '0' as int
  }

  /** `str(n)` for a non-negative integer. */
  function Decimal(n: nat): (s: string)
    ensures s != [] && AllDigits(s)
  {
    if n < 10 then [DigitChar(n)] else Decimal(n / 10) + [DigitChar(n % 10)]
  }

  /** `int(s)` for a string of decimal digits. */
  function DigitsValue(s: string): nat
    requires AllDigits(s)
  {
    if s == [] then 0 else DigitsValue(s[..|s| - 1]) * 10 + DigitValue(s[|s| - 1])
  }

  /** `f"{n:0{width}d}"` for a non-negative integer. */
  function ZeroPad(n: nat, width: nat): (s: string)
    ensures AllDigits(s)
  {
    LeftPad(Decimal(n), width, '0')
  }

  /** Length of the run of decimal digits that starts `s`. */
  function DigitRun(s: string): (n: nat)
    ensures n <= |s| && AllDigits(s[..n])
    ensures n < |s| ==> !IsDigit(s[n])
  {
    if s == [] || !IsDigit(s[0]) then 0 else 1 + DigitRun(s[1..])
  }

  // ---------------------------------------------------------------- lemmas

  lemma ContainsChar(s: string, sub: string, c: char)
    requires Contains(s, sub) && c in sub
    ensures c in s
    decreases |s|
  {
    if StartsWith(s, sub) {
      assert c in s[..|sub|];
    } else {
      ContainsChar(s[1..], sub, c);
    }
  }

  /** Leading whitespace does not change the words `split()` finds. */
  lemma {:induction false} SplitAfterSpaces(k: nat, t: string)
    ensures Split(Spaces(k) + t) == Split(t)
  {
    if k > 0 {
      var s := Spaces(k) + t;
      assert IsSpace(s[0]);
      assert s[1..] == Spaces(k - 1) + t;
      assert Split(s) == Split(s[1..]);
      SplitAfterSpaces(k - 1, t);
    } else {
      assert Spaces(k) + t == t;
    }
  }

  lemma {:induction false} WordLenOfWord(w: string, t: string)
    requires NoSpace(w)
    requires t == [] || IsSpace(t[0])
    ensures WordLen(w + t) == |w|
  {
    if w != [] {
      assert (w + t)[1..] == w[1..] + t;
      WordLenOfWord(w[1..], t);
    }
  }

  /** A word followed by whitespace or the end of the text is the first word `split()` finds. */
  lemma SplitWord(w: string, t: string)
    requires w != [] && NoSpace(w)
    requires t == [] || IsSpace(t[0])
    ensures Split(w + t) == [w] + Split(t)
  {
    WordLenOfWord(w, t);
    var s := w + t;
    assert s[..|w|] == w;
    assert s[|w|..] == t;
  }

  /** Text made of spaces and the words of `ws` splits back into `ws`. */
  function JoinSpaced(ws: seq<string>): string {
    if ws == [] then "" else " " + ws[0] + JoinSpaced(ws[1..])
  }

  lemma {:induction false} SplitJoinSpaced(ws: seq<string>)
    requires forall n :: 0 <= n < |ws| ==> ws[n] != [] && NoSpace(ws[n])
    ensures Split(JoinSpaced(ws)) == ws
  {
    if ws != [] {
      var rest := JoinSpaced(ws[1..]);
      var s := JoinSpaced(ws);
      assert s == [' '] + (ws[0] + rest);
      assert rest == [] || rest[0] == ' ';
      assert s[1..] == ws[0] + rest;
      assert Split(s) == Split(ws[0] + rest);
      SplitWord(ws[0], rest);
      SplitJoinSpaced(ws[1..]);
    }
  }

  lemma {:induction false} StripLeftSpacesThen(k: nat, t: string)
    requires t != [] && !IsSpace(t[0])
    ensures StripLeft(Spaces(k) + t) == t
  {
    if k > 0 {
      var s := Spaces(k) + t;
      assert s[1..] == Spaces(k - 1) + t;
      StripLeftSpacesThen(k - 1, t);
    } else {
      assert Spaces(k) + t == t;
    }
  }

  /** A text that starts and ends with a non-space character survives `strip()`. */
  lemma StripTrimmed(t: string)
    requires t != [] && !IsSpace(t[0]) && !IsSpace(t[|t| - 1])
    ensures Strip(t) == t
  {
    StripLeftSpacesThen(0, t);
  }

  lemma {:induction false} LineLenOfLine(a: string, b: string)
    requires '\n' !in a
    ensures LineLen(a + "\n" + b) == |a|
  {
    if a != [] {
      assert (a + "\n" + b)[1..] == a[1..] + "\n" + b;
      LineLenOfLine(a[1..], b);
    }
  }

  /** The line iteration of the text `ConcatLines(ls)` yields `ls`. */
  lemma {:induction false} LinesOfConcat(ls: seq<string>)
    requires NoBreaks(ls)
    ensures Lines(ConcatLines(ls)) == ls
  {
    if ls != [] {
      var s := ConcatLines(ls);
      var rest := ConcatLines(ls[1..]);
      assert s == ls[0] + "\n" + rest;
      LineLenOfLine(ls[0], rest);
      assert s[..|ls[0]|] == ls[0];
      assert s[|ls[0]| + 1..] == rest;
      LinesOfConcat(ls[1..]);
    }
  }

  lemma NoBreaksCons(l: string, ls: seq<string>)
    requires '\n' !in l && NoBreaks(ls)
    ensures NoBreaks([l] + ls)
  {
    forall n | 0 <= n < |[l] + ls| ensures '\n' !in ([l] + ls)[n] {
      if n > 0 { assert ([l] + ls)[n] == ls[n - 1]; }
    }
  }

  lemma NoBreaksAppend(a: seq<string>, b: seq<string>)
    requires NoBreaks(a) && NoBreaks(b)
    ensures NoBreaks(a + b)
  {
    forall n | 0 <= n < |a + b| ensures '\n' !in (a + b)[n] {
      if n >= |a| { assert (a + b)[n] == b[n - |a|]; }
    }
  }

  lemma {:induction false} ConcatLinesAppend(a: seq<string>, b: seq<string>)
    ensures ConcatLines(a + b) == ConcatLines(a) + ConcatLines(b)
  {
    if a != [] {
      assert (a + b)[1..] == a[1..] + b;
      ConcatLinesAppend(a[1..], b);
    } else {
      assert a + b == b;
    }
  }

  /** One more line adds that line and its newline to the text. */
  lemma ConcatLinesSnoc(a: seq<string>, l: string)
    ensures ConcatLines(a + [l]) == ConcatLines(a) + l + "\n"
  {
    ConcatLinesAppend(a, [l]);
    assert ConcatLines([l]) == l + "\n" by {
      assert [l][1..] == [];
      assert l + "\n" + "" == l + "\n";
    }
  }

  lemma {:induction false} DigitsValueOfDecimal(n: nat)
    ensures DigitsValue(Decimal(n)) == n
  {
    var s := Decimal(n);
    if n >= 10 {
      assert s[..|s| - 1] == Decimal(n / 10);
      DigitsValueOfDecimal(n / 10);
    } else {
      assert s[..0] == [];
    }
  }

  lemma {:induction false} DigitsValueZeros(k: nat, s: string)
    requires AllDigits(s)
    ensures AllDigits(seq(k, _ => '0') + s)
    ensures DigitsValue(seq(k, _ => '0') + s) == DigitsValue(s)
    decreases k + |s|
  {
    var z := seq(k, _ => '0');
    var t := z + s;
    assert AllDigits(t) by {
      forall i | 0 <= i < |t| ensures IsDigit(t[i]) {
        if i < k { assert t[i] == z[i]; } else { assert t[i] == s[i - k]; }
      }
    }
    if s != [] {
      assert t[..|t| - 1] == z + s[..|s| - 1];
      DigitsValueZeros(k, s[..|s| - 1]);
    } else if k > 0 {
      assert t[..|t| - 1] == seq(k - 1, _ => '0') + s;
      DigitsValueZeros(k - 1, s);
    }
  }

  /** Reading back a zero-padded decimal gives the number printed. */
  lemma ZeroPadValue(n: nat, width: nat)
    ensures DigitsValue(ZeroPad(n, width)) == n
  {
    var d := Decimal(n);
    var k := if |d| < width then width - |d| else 0;
    assert ZeroPad(n, width) == seq(k, _ => '0') + d;
    DigitsValueZeros(k, d);
    DigitsValueOfDecimal(n);
  }

  lemma {:induction false} DigitRunOfDigits(d: string, t: string)
    requires AllDigits(d)
    requires t == [] || !IsDigit(t[0])
    ensures DigitRun(d + t) == |d|
  {
    if d != [] {
      assert (d + t)[1..] == d[1..] + t;
      DigitRunOfDigits(d[1..], t);
    }
  }
}
