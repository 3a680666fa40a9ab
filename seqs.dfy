/** Sequence helpers for the per-document passes. */
module Seqs {

  /**
   * Concatenates `f(s[0]) + f(s[1]) + ...`: the list a loop builds when, for
   * each element in turn, it appends what `f` produces for it.
   */
  function FilterMap<A, B>(f: A -> seq<B>, s: seq<A>): seq<B> {
    if s == [] then [] else FilterMap(f, s[..|s| - 1]) + f(s[|s| - 1])
  }

  /** The positions of the elements for which `f` produces something, in increasing order. */
  function Producing<A, B>(f: A -> seq<B>, s: seq<A>): seq<nat> {
    if s == [] then []
    else Producing(f, s[..|s| - 1]) + if f(s[|s| - 1]) != [] then [|s| - 1] else []
  }

  lemma {:induction false} ProducingIncreasing<A, B>(f: A -> seq<B>, s: seq<A>)
    ensures forall k :: 0 <= k < |Producing(f, s)| ==> Producing(f, s)[k] < |s|
    ensures forall k, l :: 0 <= k < l < |Producing(f, s)| ==> Producing(f, s)[k] < Producing(f, s)[l]
  {
    if s != [] {
      ProducingIncreasing(f, s[..|s| - 1]);
    }
  }

  lemma {:induction false} ProducingComplete<A, B>(f: A -> seq<B>, s: seq<A>)
    ensures forall j :: 0 <= j < |s| ==> (j in Producing(f, s) <==> f(s[j]) != [])
  {
    if s != [] {
      var n := |s| - 1;
      var p' := Producing(f, s[..n]);
      var tail := if f(s[n]) != [] then [n] else [];
      assert Producing(f, s) == p' + tail;
      ProducingComplete(f, s[..n]);
      ProducingIncreasing(f, s[..n]);
      forall j | 0 <= j < |s|
        ensures j in Producing(f, s) <==> f(s[j]) != []
      {
        assert j in p' + tail <==> j in p' || j in tail;
        if j < n {
          assert s[..n][j] == s[j];
        } else {
          assert j !in p';
        }
      }
    }
  }

  lemma {:induction false} ProducingSelects<A, B>(f: A -> seq<B>, s: seq<A>)
    requires forall k :: 0 <= k < |s| ==> |f(s[k])| <= 1
    ensures |Producing(f, s)| == |FilterMap(f, s)|
    ensures forall k :: 0 <= k < |FilterMap(f, s)| ==>
      Producing(f, s)[k] < |s| && f(s[Producing(f, s)[k]]) == [FilterMap(f, s)[k]]
  {
    if s != [] {
      var n := |s| - 1;
      ProducingSelects(f, s[..n]);
      ProducingIncreasing(f, s[..n]);
      var p', r' := Producing(f, s[..n]), FilterMap(f, s[..n]);
      forall k | 0 <= k < |FilterMap(f, s)|
        ensures Producing(f, s)[k] < |s| && f(s[Producing(f, s)[k]]) == [FilterMap(f, s)[k]]
      {
        if k < |r'| {
          assert s[..n][p'[k]] == s[p'[k]];
        }
      }
    }
  }

  /**
   * When `f` produces at most one result per element, the output of FilterMap
   * is the results of the elements for which `f` produces one, in the order of
   * those elements: `idx` lists their positions.
   */
  lemma FilterMapPositions<A, B>(f: A -> seq<B>, s: seq<A>) returns (idx: seq<nat>)
    requires forall k :: 0 <= k < |s| ==> |f(s[k])| <= 1
    ensures |idx| == |FilterMap(f, s)|
    ensures forall k :: 0 <= k < |idx| ==> idx[k] < |s| && f(s[idx[k]]) == [FilterMap(f, s)[k]]
    ensures forall k, l :: 0 <= k < l < |idx| ==> idx[k] < idx[l]
    ensures forall j :: 0 <= j < |s| ==> (j in idx <==> f(s[j]) != [])
  {
    idx := Producing(f, s);
    ProducingIncreasing(f, s);
    ProducingComplete(f, s);
    ProducingSelects(f, s);
  }
}
