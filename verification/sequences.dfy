/**
 * The loop shapes the services use, stated once over any element type: map
 * every item, map every item and stop at the first failure, or keep only the
 * items a partial step accepts.
 */
module Sequences {
  import opened Wrappers

  /** Apply `f` to every item, in order. */
  function Map<A, B>(items: seq<A>, f: A --> B): (r: seq<B>)
    requires forall i :: 0 <= i < |items| ==> f.requires(items[i])
    ensures |r| == |items|
    ensures forall i :: 0 <= i < |items| ==> r[i] == f(items[i])
  {
    if |items| == 0 then []
    else
      var prefix := items[..|items| - 1];
      assert forall i :: 0 <= i < |prefix| ==> prefix[i] == items[i];
      Map(prefix, f) + [f(items[|items| - 1])]
  }

  /** Apply `f` to every item in order; the first failure aborts with its error and no partial result. */
  function MapUntilFailure<A, B, E>(items: seq<A>, f: A --> Result<B, E>): (r: Result<seq<B>, E>)
    requires forall i :: 0 <= i < |items| ==> f.requires(items[i])
    ensures r.Success? <==> forall i :: 0 <= i < |items| ==> f(items[i]).Success?
    ensures r.Success? ==> |r.value| == |items|
    ensures r.Success? ==> forall i :: 0 <= i < |items| ==> f(items[i]) == Success(r.value[i])
  {
    if |items| == 0 then Success([])
    else
      var prefix := items[..|items| - 1];
      assert forall i :: 0 <= i < |prefix| ==> prefix[i] == items[i];
      match MapUntilFailure(prefix, f)
      case Failure(e) => Failure(e)
      case Success(done) =>
        match f(items[|items| - 1])
        case Failure(e) => Failure(e)
        case Success(b) => Success(done + [b])
  }

  /** The error returned is the one of the first item that fails. */
  lemma {:induction false} FirstFailureWins<A, B, E>(items: seq<A>, f: A --> Result<B, E>, k: nat)
    requires forall i :: 0 <= i < |items| ==> f.requires(items[i])
    requires k < |items| && f(items[k]).Failure?
    requires forall i :: 0 <= i < k ==> f(items[i]).Success?
    ensures MapUntilFailure(items, f) == Failure(f(items[k]).error)
  {
    var prefix := items[..|items| - 1];
    assert forall i :: 0 <= i < |prefix| ==> prefix[i] == items[i];
    if k < |items| - 1 {
      FirstFailureWins(prefix, f, k);
    } else {
      assert MapUntilFailure(prefix, f).Success?;
    }
  }

  /** The positions of the items `f` accepts, in increasing order. */
  function KeptIndices<A, B>(items: seq<A>, f: A --> Option<B>): (idx: seq<nat>)
    requires forall i :: 0 <= i < |items| ==> f.requires(items[i])
    ensures forall j :: 0 <= j < |idx| ==> idx[j] < |items|
  {
    if |items| == 0 then []
    else
      var prefix := items[..|items| - 1];
      assert forall i :: 0 <= i < |prefix| ==> prefix[i] == items[i];
      KeptIndices(prefix, f) + (if f(items[|items| - 1]).Some? then [|items| - 1] else [])
  }

  /** Apply `f` to every item in order and keep the accepted results. */
  function FilterMap<A, B>(items: seq<A>, f: A --> Option<B>): (r: seq<B>)
    requires forall i :: 0 <= i < |items| ==> f.requires(items[i])
    ensures |r| == |KeptIndices(items, f)|
    ensures forall j :: 0 <= j < |r| ==> f(items[KeptIndices(items, f)[j]]) == Some(r[j])
  {
    if |items| == 0 then []
    else
      var prefix := items[..|items| - 1];
      assert forall i :: 0 <= i < |prefix| ==> prefix[i] == items[i];
      FilterMap(prefix, f) + (match f(items[|items| - 1]) case Some(b) => [b] case None => [])
  }

  /** Appending an item appends its accepted result, if any. */
  lemma FilterMapAppend<A, B>(items: seq<A>, x: A, f: A --> Option<B>)
    requires forall i :: 0 <= i < |items| ==> f.requires(items[i])
    requires f.requires(x)
    ensures FilterMap(items + [x], f) == FilterMap(items, f) + (if f(x).Some? then [f(x).value] else [])
  {
    assert (items + [x])[..|items|] == items;
  }

  /** Of three items where only the middle one is rejected, the first and the last results are kept. */
  lemma FilterMapSkipsMiddle<A, B>(x: A, y: A, z: A, f: A --> Option<B>)
    requires f.requires(x) && f.requires(y) && f.requires(z)
    requires f(x).Some? && f(y).None? && f(z).Some?
    ensures FilterMap([x, y, z], f) == [f(x).value, f(z).value]
  {
    FilterMapAppend([], x, f);
    FilterMapAppend([x], y, f);
    FilterMapAppend([x, y], z, f);
    assert [x] + [y] + [z] == [x, y, z];
  }

  predicate StrictlyIncreasing(s: seq<nat>) {
    forall j, j' :: 0 <= j < j' < |s| ==> s[j] < s[j']
  }

  /**
   * The kept positions are strictly increasing and are exactly the accepted
   * items, so the kept results are a subsequence of the input in its order.
   */
  lemma {:induction false} KeptIndicesExactly<A, B>(items: seq<A>, f: A --> Option<B>)
    requires forall i :: 0 <= i < |items| ==> f.requires(items[i])
    ensures StrictlyIncreasing(KeptIndices(items, f))
    ensures forall i :: 0 <= i < |items| ==> (i in KeptIndices(items, f) <==> f(items[i]).Some?)
  {
    if |items| > 0 {
      var prefix := items[..|items| - 1];
      assert forall i :: 0 <= i < |prefix| ==> prefix[i] == items[i];
      KeptIndicesExactly(prefix, f);
      var before := KeptIndices(prefix, f);
      assert forall j :: 0 <= j < |before| ==> before[j] < |items| - 1;
      var tail: seq<nat> := if f(items[|items| - 1]).Some? then [|items| - 1] else [];
      var idx := KeptIndices(items, f);
      assert idx == before + tail;
      assert |tail| <= 1;
      forall j, j' | 0 <= j < j' < |idx|
        ensures idx[j] < idx[j']
      {
        assert idx[j] == before[j];
        if j' < |before| {
          assert idx[j'] == before[j'];
          assert before[j] < before[j'];
        } else {
          assert j < |before|;
          assert before[j] < |items| - 1;
          assert idx[j'] == tail[0] == |items| - 1;
        }
      }
    }
  }
}
