/**
 * What the model assumes of number printing. The Python format
 * specifications (`{v:15.6f}`, `{v:.6f}`, `{v:1.6e}`, `{v:.6e}`) are inputs
 * `fmt: real -> string` giving the bare number text; padding and separators
 * around it are modelled where the writers add them.
 */
module Numbers {
  import opened Text

  /** Characters a formatted Python float can contain (digits, sign, point, exponent, `inf`, `nan`). */
  predicate NumChar(c: char) {
    IsDigit(c) || c == '+' || c == '-' || c == '.' || c == 'e' || c == 'i' || c == 'n' || c == 'f' || c == 'a'
  }

  /** A formatted number: non-empty, made of number characters, and not starting like a `--` comment. */
  predicate NumericToken(t: string) {
    t != [] && (forall i :: 0 <= i < |t| ==> NumChar(t[i])) && !StartsWith(t, "--")
  }

  /** Every text the formatter produces is a number token. */
  ghost predicate TokenFormatter(fmt: real -> string) {
    forall v :: NumericToken(fmt(v))
  }

  lemma FormattedToken(fmt: real -> string, v: real)
    requires TokenFormatter(fmt)
    ensures NumericToken(fmt(v))
  {
  }

  /** `float()` accepts every text the formatter produces. */
  ghost predicate Readable(fmt: real -> string, toFloat: string -> Option<real>) {
    forall v :: toFloat(fmt(v)).Some?
  }

  lemma ReadableAt(fmt: real -> string, toFloat: string -> Option<real>, v: real)
    requires Readable(fmt, toFloat)
    ensures toFloat(fmt(v)) == Some(ReadBack(fmt, toFloat, v))
  {
  }

  /** `np.zeros(n)`. */
  function Zeros(n: nat): (z: seq<real>)
    ensures |z| == n && forall k :: 0 <= k < n ==> z[k] == 0.0
  {
    seq(n, _ => 0.0)
  }

  /** The value `float()` gives back for the printed text of `v`. */
  function ReadBack(fmt: real -> string, toFloat: string -> Option<real>, v: real): real {
    match toFloat(fmt(v))
    case Some(x) => x
    case None => 0.0
  }

  /** The values `float()` gives back for the printed texts of `vs`, in order. */
  function Reread(fmt: real -> string, toFloat: string -> Option<real>, vs: seq<real>): (r: seq<real>)
    ensures |r| == |vs|
    ensures forall n :: 0 <= n < |vs| ==> r[n] == ReadBack(fmt, toFloat, vs[n])
  {
    if vs == [] then [] else [ReadBack(fmt, toFloat, vs[0])] + Reread(fmt, toFloat, vs[1..])
  }

  lemma RereadAppend(fmt: real -> string, toFloat: string -> Option<real>, a: seq<real>, b: seq<real>)
    ensures Reread(fmt, toFloat, a + b) == Reread(fmt, toFloat, a) + Reread(fmt, toFloat, b)
  {
  }

  /** When printing is exact (`float(fmt(v)) == v`), reading back gives the values themselves. */
  lemma RereadExact(fmt: real -> string, toFloat: string -> Option<real>, vs: seq<real>)
    requires forall v :: toFloat(fmt(v)) == Some(v)
    ensures Reread(fmt, toFloat, vs) == vs
  {
  }

  lemma NumericTokenFacts(t: string)
    requires NumericToken(t)
    ensures NoSpace(t) && '\n' !in t && '*' !in t && '/' !in t && 'S' !in t
    ensures !IsSpace(t[0]) && !IsSpace(t[|t| - 1])
  {
    forall i | 0 <= i < |t| ensures !IsSpace(t[i]) && t[i] != '\n' && t[i] != '*' && t[i] != '/' && t[i] != 'S' {
      assert NumChar(t[i]);
    }
  }

  /** A text that lacks a character of `sub` does not contain `sub`. */
  lemma {:induction false} NotContains(s: string, sub: string, c: char)
    requires c in sub && c !in s
    ensures !Contains(s, sub)
    decreases |s|
  {
    var k :| 0 <= k < |sub| && sub[k] == c;
    if |sub| <= |s| {
      assert s[..|sub|][k] == s[k];
      assert s[..|sub|] != sub;
    }
    if s != [] {
      assert c !in s[1..];
      NotContains(s[1..], sub, c);
    }
  }
}
