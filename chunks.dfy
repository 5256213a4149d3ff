/**
 * Splitting a value list into the groups of five that the GRDECL and INCLUDE
 * writers put on one line (`values[j:j+5]` for `j` in `range(0, n, 5)`).
 */
module Chunking {

  /** Values per data line in every writer of the pipeline. */
  const PerLine: nat := 5

  function Min(a: int, b: int): int { if a < b then a else b }

  /** The slices `s[j:j+5]` for `j = 0, 5, 10, …` below `|s|`. */
  function Chunks<T>(s: seq<T>): (cs: seq<seq<T>>)
    ensures forall c :: c in cs ==> 1 <= |c| <= PerLine
    decreases |s|
  {
    if s == [] then []
    else if |s| <= PerLine then [s]
    else [s[..PerLine]] + Chunks(s[PerLine..])
  }

  /** The loop counter `j` of `range(0, n, 5)` stays a multiple of five. */
  lemma NextLineStart(j: int)
    requires j % PerLine == 0
    ensures (j + PerLine) % PerLine == 0
  {
  }

  function Flatten<T>(cs: seq<seq<T>>): seq<T> {
    if cs == [] then [] else cs[0] + Flatten(cs[1..])
  }

  /**
   * There are ceil(n / 5) chunks and chunk `m` holds exactly the values at
   * positions 5m .. 5m+4 (fewer only in the last chunk).
   */
  lemma {:induction false} ChunksShape<T>(s: seq<T>)
    ensures |Chunks(s)| == (|s| + PerLine - 1) / PerLine
    ensures forall m :: 0 <= m < |Chunks(s)| ==>
      Chunks(s)[m] == s[PerLine * m .. Min(PerLine * m + PerLine, |s|)]
    decreases |s|
  {
    if |s| > PerLine {
      var rest := s[PerLine..];
      ChunksShape(rest);
      var cs := Chunks(s);
      assert cs == [s[..PerLine]] + Chunks(rest);
      forall m | 0 <= m < |cs|
        ensures cs[m] == s[PerLine * m .. Min(PerLine * m + PerLine, |s|)]
      {
        if m > 0 {
          assert cs[m] == Chunks(rest)[m - 1];
          var a := PerLine * (m - 1);
          var b := Min(a + PerLine, |rest|);
          assert a + PerLine == PerLine * m;
          assert b + PerLine == Min(PerLine * m + PerLine, |s|);
          SliceOfSuffix(s, PerLine, a, b);
        }
      }
    }
  }

  /** A slice of a suffix is the slice of the whole list shifted by the suffix's start. */
  lemma SliceOfSuffix<T>(s: seq<T>, k: nat, a: nat, b: nat)
    requires k <= |s| && a <= b <= |s| - k
    ensures s[k..][a..b] == s[a + k..b + k]
  {
  }

  /** Concatenating the chunks gives the list back: no value is lost, repeated or moved. */
  lemma {:induction false} FlattenChunks<T>(s: seq<T>)
    ensures Flatten(Chunks(s)) == s
    decreases |s|
  {
    if |s| > PerLine {
      var cs := Chunks(s);
      assert cs[1..] == Chunks(s[PerLine..]);
      FlattenChunks(s[PerLine..]);
      assert s == s[..PerLine] + s[PerLine..];
    } else if s != [] {
      assert Flatten(Chunks(s)) == s + Flatten<T>([]);
    }
  }

  /** A prefix whose length is a multiple of five chunks independently of what follows. */
  lemma {:induction false} ChunksAppend<T>(s: seq<T>, t: seq<T>)
    requires |s| % PerLine == 0
    ensures Chunks(s + t) == Chunks(s) + Chunks(t)
    decreases |s|
  {
    if s == [] {
      assert s + t == t;
    } else {
      var u := s + t;
      if |u| <= PerLine {
        assert |s| == PerLine && t == [];
        assert u == s;
      } else {
        var head, tail := s[..PerLine], s[PerLine..];
        assert Chunks(u) == [head] + Chunks(tail + t) by {
          assert u[..PerLine] == head;
          assert u[PerLine..] == tail + t;
        }
        ChunksAppend(tail, t);
        assert Chunks(s) == [head] + Chunks(tail) by {
          if |s| == PerLine {
            assert tail == [] && head == s;
          }
        }
      }
    }
  }

  /** Appending one more line's worth of values after whole lines adds one chunk. */
  lemma ChunksSnoc<T>(s: seq<T>, c: seq<T>)
    requires |s| % PerLine == 0 && 1 <= |c| <= PerLine
    ensures Chunks(s + c) == Chunks(s) + [c]
  {
    ChunksAppend(s, c);
  }
}
