// Types and small sequence facts shared by every module of the model.
module Prelude {

  datatype Option<+T> = None | Some(value: T)

  /** Concatenation of a sequence of segments, in order. */
  function Flatten<T>(segments: seq<seq<T>>): (flat: seq<T>)
  {
    if segments == [] then [] else Flatten(segments[..|segments| - 1]) + segments[|segments| - 1]
  }

  lemma {:induction false} FlattenConcat<T>(a: seq<seq<T>>, b: seq<seq<T>>)
    ensures Flatten(a + b) == Flatten(a) + Flatten(b)
  {
    if b == [] {
      assert a + b == a;
    } else {
      var init := b[..|b| - 1];
      assert (a + b)[..|a + b| - 1] == a + init;
      FlattenConcat(a, init);
    }
  }

  lemma FlattenOne<T>(segment: seq<T>)
    ensures Flatten([segment]) == segment
  {
    assert [segment][..0] == [];
  }

  lemma FlattenSlice<T>(segments: seq<seq<T>>, lo: nat, hi: nat)
    requires lo <= hi < |segments|
    ensures Flatten(segments[lo..hi + 1]) == Flatten(segments[lo..hi]) + segments[hi]
  {
    assert segments[lo..hi + 1][..hi - lo] == segments[lo..hi];
  }

  /** Sum of a sequence of weights. */
  function Sum(weights: seq<nat>): (total: nat)
  {
    if weights == [] then 0 else weights[0] + Sum(weights[1..])
  }

  lemma {:induction false} SumConcat(a: seq<nat>, b: seq<nat>)
    ensures Sum(a + b) == Sum(a) + Sum(b)
  {
    if a == [] {
      assert a + b == b;
    } else {
      assert (a + b)[1..] == a[1..] + b;
      SumConcat(a[1..], b);
    }
  }

  lemma SumSnoc(w: seq<nat>)
    requires w != []
    ensures Sum(w) == Sum(w[..|w| - 1]) + w[|w| - 1]
  {
    var n := |w| - 1;
    SumConcat(w[..n], [w[n]]);
    assert w == w[..n] + [w[n]];
    assert [w[n]][1..] == [];
  }

  lemma SumSlice(w: seq<nat>, lo: nat, hi: nat)
    requires lo <= hi < |w|
    ensures Sum(w[lo..hi + 1]) == Sum(w[lo..hi]) + w[hi]
  {
    assert w[lo..hi + 1][..hi - lo] == w[lo..hi];
    SumSnoc(w[lo..hi + 1]);
  }

  /** Dropping a longer prefix never leaves a larger sum. */
  lemma SumOfSuffixes(w: seq<nat>, i: nat, j: nat)
    requires i <= j <= |w|
    ensures Sum(w[i..]) == Sum(w[i..j]) + Sum(w[j..])
  {
    SumConcat(w[i..j], w[j..]);
    assert w[i..] == w[i..j] + w[j..];
  }
}
