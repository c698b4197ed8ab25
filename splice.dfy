/**
 * `spliceStr` from util.go: concatenate string fragments in order, with no
 * separator, by appending each one to a builder.
 */
module Splice {

  /** The in-order concatenation of `p`, built from the left as the builder does. */
  function Concat(p: seq<string>): string
  {
    if p == [] then "" else Concat(p[..|p| - 1]) + p[|p| - 1]
  }

  /** The sum of the fragment lengths, counted from the front. */
  function TotalLength(p: seq<string>): nat
  {
    if p == [] then 0 else |p[0]| + TotalLength(p[1..])
  }

  /** Concatenation distributes over splitting the fragment list anywhere. */
  lemma {:induction false} ConcatAppend(p: seq<string>, q: seq<string>)
    ensures Concat(p + q) == Concat(p) + Concat(q)
    decreases |q|
  {
    if q == [] {
      assert p + q == p;
    } else {
      var q' := q[..|q| - 1];
      assert (p + q)[..|p + q| - 1] == p + q';
      assert (p + q)[|p + q| - 1] == q[|q| - 1];
      ConcatAppend(p, q');
    }
  }

  /** Putting one fragment in front puts its text in front. */
  lemma ConcatCons(s: string, p: seq<string>)
    ensures Concat([s] + p) == s + Concat(p)
  {
    ConcatAppend([s], p);
    assert [s][..0] == [];
  }

  /** A single fragment is returned unchanged. */
  lemma ConcatSingleton(s: string)
    ensures Concat([s]) == s
  {
    assert [s][..0] == [];
  }

  /** No fragments give the empty string. */
  lemma ConcatEmpty()
    ensures Concat([]) == ""
  {
  }

  /** The result is exactly as long as all fragments together: nothing is added. */
  lemma {:induction false} ConcatLength(p: seq<string>)
    ensures |Concat(p)| == TotalLength(p)
    decreases |p|
  {
    if p != [] {
      assert p == [p[0]] + p[1..];
      ConcatCons(p[0], p[1..]);
      ConcatLength(p[1..]);
    }
  }

  /**
   * Fragment `k` sits in the result exactly where fragments `0..k` end, so
   * every fragment can be read back from the result at a known offset.
   */
  lemma FragmentAt(p: seq<string>, k: nat)
    requires k < |p|
    ensures TotalLength(p[..k]) + |p[k]| <= |Concat(p)|
    ensures Concat(p)[TotalLength(p[..k])..TotalLength(p[..k]) + |p[k]|] == p[k]
  {
    assert p == p[..k] + ([p[k]] + p[k + 1..]);
    ConcatAppend(p[..k], [p[k]] + p[k + 1..]);
    ConcatCons(p[k], p[k + 1..]);
    ConcatLength(p[..k]);
  }

  /** spliceStr: append every fragment to a builder, then read the builder out. */
  method SpliceStr(p: seq<string>) returns (s: string)
    ensures s == Concat(p)
    ensures |s| == TotalLength(p)
  {
    var b := "";
    var l := |p|;
    for i := 0 to l
      invariant b == Concat(p[..i])
    {
      assert p[..i + 1][..i] == p[..i];
      b := b + p[i];
    }
    assert p[..l] == p;
    ConcatLength(p);
    s := b;
  }
}
