/**
 * The two string operations the game logic leans on: lower-casing one
 * character (`toLowerCase`) and joining a list of one-character pieces with
 * a separator (`split('')` ... `join(sep)`).
 */
module Text {

  /** Lower-cases one character. Only the ASCII capitals change; every other
      character (Arabic letters included) has no case and is returned as is. */
  function Lower(c: char): (r: char)
    ensures 'A' <= c <= 'Z' ==> 'a' <= r <= 'z' && r as int - c as int == 32
    ensures !('A' <= c <= 'Z') ==> r == c
    ensures !('A' <= r <= 'Z')
  {
    if 'A' <= c <= 'Z' then (c as int + 32) as char else c
  }

  /** Lower-casing twice is lower-casing once. */
  lemma LowerIdempotent(c: char)
    ensures Lower(Lower(c)) == Lower(c)
  {
  }

  /** Lower-cases a whole word, character by character. */
  function LowerWord(w: string): (r: string)
    ensures |r| == |w|
    ensures forall i :: 0 <= i < |w| ==> r[i] == Lower(w[i])
    ensures forall i :: 0 <= i < |r| ==> !('A' <= r[i] <= 'Z')
  {
    seq(|w|, i requires 0 <= i < |w| => Lower(w[i]))
  }

  /** The characters of `xs` with `sep` between each two neighbours, as
      JavaScript's `Array.prototype.join` produces for one-character pieces.
      Each piece sits at a multiple of the stride |sep| + 1. */
  function Join(xs: seq<char>, sep: string): (r: string)
    ensures xs == [] ==> r == []
    ensures xs != [] ==> |r| + |sep| == |xs| * (|sep| + 1)
    decreases |xs|
  {
    if |xs| == 0 then []
    else if |xs| == 1 then [xs[0]]
    else [xs[0]] + sep + Join(xs[1..], sep)
  }

  /** Piece `i` of the input can be read back at position `i * (|sep| + 1)`
      of the joined string: joining loses nothing. */
  lemma {:induction false} JoinAt(xs: seq<char>, sep: string, i: nat)
    requires i < |xs|
    ensures i * (|sep| + 1) < |Join(xs, sep)|
    ensures Join(xs, sep)[i * (|sep| + 1)] == xs[i]
    decreases i
  {
    if i > 0 {
      var stride := |sep| + 1;
      var rest := Join(xs[1..], sep);
      JoinAt(xs[1..], sep, i - 1);
      var p, q := i * stride, (i - 1) * stride;
      assert p == q + stride by { MulStep(i, stride); }
      assert Join(xs, sep) == [xs[0]] + sep + rest;
      assert Join(xs, sep)[p] == rest[q];
    }
  }

  /** Between piece `i` and piece `i + 1` the joined string holds exactly
      the separator. */
  lemma {:induction false} JoinSepAt(xs: seq<char>, sep: string, i: nat)
    requires i + 1 < |xs|
    ensures (i + 1) * (|sep| + 1) <= |Join(xs, sep)|
    ensures Join(xs, sep)[i * (|sep| + 1) + 1 .. (i + 1) * (|sep| + 1)] == sep
    decreases i
  {
    var stride := |sep| + 1;
    var rest := Join(xs[1..], sep);
    assert Join(xs, sep) == [xs[0]] + sep + rest;
    MulStep(i + 1, stride);
    if i > 0 {
      JoinSepAt(xs[1..], sep, i - 1);
      var p, q := i * stride, (i - 1) * stride;
      assert p == q + stride by { MulStep(i, stride); }
      assert Join(xs, sep)[p + 1 .. p + stride] == rest[q + 1 .. q + stride];
    } else {
      assert |rest| > 0;
    }
  }

  lemma MulStep(i: int, stride: int)
    ensures i * stride == (i - 1) * stride + stride
  {
  }

  /** A character occurs in the joined string exactly when it is one of the
      pieces, or belongs to the separator and there are at least two pieces. */
  lemma {:induction false} JoinMembers(xs: seq<char>, sep: string, c: char)
    ensures c in Join(xs, sep) <==> c in xs || (|xs| > 1 && c in sep)
    decreases |xs|
  {
    if |xs| > 1 {
      JoinMembers(xs[1..], sep, c);
      assert Join(xs, sep) == [xs[0]] + sep + Join(xs[1..], sep);
      assert xs == [xs[0]] + xs[1..];
      if |xs| > 2 {
        assert |xs[1..]| > 1;
      }
    }
  }
}
