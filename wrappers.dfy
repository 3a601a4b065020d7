/** The optional value used for search results, and the present values
    of a sequence of optional values. */
module Wrappers {
  datatype Option<+T> = None | Some(value: T)

  /** The values of the `Some` entries of `opts`, in order. */
  function Somes<T>(opts: seq<Option<T>>): (vs: seq<T>)
    ensures |vs| <= |opts|
  {
    if opts == [] then []
    else Somes(opts[..|opts| - 1]) + match opts[|opts| - 1] case Some(v) => [v] case None => []
  }

  /** The positions of the `Some` entries of `opts`, in increasing order. */
  function SomeIndices<T>(opts: seq<Option<T>>): (ks: seq<nat>)
  {
    if opts == [] then []
    else SomeIndices(opts[..|opts| - 1]) + if opts[|opts| - 1].Some? then [|opts| - 1] else []
  }

  /** The `k`-th present value is the entry at the `k`-th `Some` position;
      those positions increase, and every `Some` position is among them. */
  lemma {:induction false} SomesAtIndices<T>(opts: seq<Option<T>>)
    ensures var vs, ks := Somes(opts), SomeIndices(opts);
            |vs| == |ks|
            && (forall k :: 0 <= k < |ks| ==> ks[k] < |opts| && opts[ks[k]] == Some(vs[k]))
            && (forall k, m :: 0 <= k < m < |ks| ==> ks[k] < ks[m])
            && (forall j :: 0 <= j < |opts| && opts[j].Some? ==> j in ks)
  {
    if opts != [] {
      var n := |opts| - 1;
      var init := opts[..n];
      SomesAtIndices(init);
      assert forall j :: 0 <= j < n ==> init[j] == opts[j];
    }
  }

  /** Each step of a left-to-right scan adds the entry's value, if any. */
  lemma SomesStep<T>(opts: seq<Option<T>>, i: nat)
    requires i < |opts|
    ensures Somes(opts[..i + 1]) == Somes(opts[..i]) + match opts[i] case Some(v) => [v] case None => []
  {
    assert opts[..i + 1][..i] == opts[..i];
  }

  lemma {:induction false} SomesAll<T>(opts: seq<Option<T>>, P: T -> bool)
    requires forall k :: 0 <= k < |opts| && opts[k].Some? ==> P(opts[k].value)
    ensures forall k :: 0 <= k < |Somes(opts)| ==> P(Somes(opts)[k])
  {
    if opts != [] {
      var n := |opts| - 1;
      assert forall j :: 0 <= j < n ==> opts[..n][j] == opts[j];
      SomesAll(opts[..n], P);
    }
  }
}
