/**
 * The element-by-element map that every request builder performs: one output
 * entry per input element, appended in input order (a `for` over the list that
 * calls `addInstruments` once per element).
 */
module Sequences {

  /** Applies `f` to each element of `s`; defined the way the builders' loops run, by appending at the end. */
  function MapSeq<A, B>(s: seq<A>, f: A -> B): (r: seq<B>)
    ensures |r| == |s|
    ensures forall i :: 0 <= i < |s| ==> r[i] == f(s[i])
  {
    if s == [] then [] else MapSeq(s[..|s| - 1], f) + [f(s[|s| - 1])]
  }

  /** One more loop iteration: mapping a prefix one element longer appends exactly that element's image. */
  lemma {:induction false} MapSeqExtend<A, B>(s: seq<A>, i: nat, f: A -> B)
    requires i < |s|
    ensures MapSeq(s[..i + 1], f) == MapSeq(s[..i], f) + [f(s[i])]
  {
    assert s[..i + 1][..i] == s[..i];
  }

  /** Mapping with `f` and then with a left inverse `g` of `f` gives back the input. */
  lemma {:induction false} MapSeqLeftInverse<A, B>(s: seq<A>, f: A -> B, g: B -> A)
    requires forall x :: g(f(x)) == x
    ensures MapSeq(MapSeq(s, f), g) == s
  {
    if s != [] {
      var n := |s| - 1;
      MapSeqLeftInverse(s[..n], f, g);
      assert MapSeq(s, f)[..n] == MapSeq(s[..n], f);
      assert s == s[..n] + [s[n]];
    }
  }
}
