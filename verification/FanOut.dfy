/** The rules engine's fan-out: one job per active strategy on a worker pool, each
    writing its own slot, then an ordered collection.
 */
module FanOut {
  import opened Orders

  /** What `evaluateOne` gives for one strategy. */
  datatype Evaluation<M> = Matched(value: M) | NoMatch | Failed(error: string)

  /** The sequential filter. */
  function Kept<M>(results: seq<Evaluation<M>>): seq<M> {
    if results == [] then []
    else
      var n := |results| - 1;
      Kept(results[..n]) + if results[n].Matched? then [results[n].value] else []
  }

  function Slot<M>(r: Evaluation<M>): Option<M> {
    if r.Matched? then Some(r.value) else None
  }

  /** Each job runs once. */
  ghost predicate EachOnce(order: seq<nat>, n: nat) {
    && (forall k :: 0 <= k < |order| ==> order[k] < n)
    && (forall j, k :: 0 <= j < k < |order| ==> order[j] != order[k])
    && (forall i :: 0 <= i < n ==> i in order)
  }

  /** `EvaluateEvent` with no cancellation or shutdown: `order` is the order in which
      the pool's workers run the jobs. */
  method EvaluateEvent<M(0)>(results: seq<Evaluation<M>>, order: seq<nat>) returns (out: seq<M>, err: Option<string>)
    requires EachOnce(order, |results|)
    ensures out == Kept(results)
    ensures err.Some? <==> exists i :: 0 <= i < |results| && results[i].Failed?
    ensures err.Some? ==> Failed(err.value) in results
  {
    var matches: array<Option<M>> := new Option<M>[|results|](_ => None);
    err := None;
    for k := 0 to |order|
      invariant forall i :: 0 <= i < |results| ==> matches[i] == if i in order[..k] then Slot(results[i]) else None
      invariant err.Some? <==> exists j :: 0 <= j < k && results[order[j]].Failed?
      invariant err.Some? ==> Failed(err.value) in results
    {
      var idx := order[k];
      assert order[..k + 1] == order[..k] + [idx];
      match results[idx]
      case Failed(e) =>
        if err.None? {
          err := Some(e);
        }
      case NoMatch => matches[idx] := None;
      case Matched(m) => matches[idx] := Some(m);
    }
    assert order[..|order|] == order;
    assert forall j :: 0 <= j < |order| ==> results[order[j]] in results;
    out := [];
    for i := 0 to |results|
      invariant out == Kept(results[..i])
    {
      assert results[..i + 1][..i] == results[..i];
      if matches[i].Some? {
        out := out + [matches[i].value];
      }
    }
    assert results[..|results|] == results;
  }

  /** `kept` is the matches of `results` at the increasing positions `at`. */
  ghost predicate Chosen<M>(results: seq<Evaluation<M>>, at: seq<nat>, kept: seq<M>) {
    && |at| == |kept| && (forall j, k :: 0 <= j < k < |at| ==> at[j] < at[k])
    && (forall k :: 0 <= k < |at| ==> at[k] < |results| && results[at[k]] == Matched(kept[k]))
    && (forall i :: 0 <= i < |results| && results[i].Matched? ==> i in at)
  }

  lemma ChosenNext<M>(results: seq<Evaluation<M>>, at: seq<nat>, kept: seq<M>, r: Evaluation<M>)
    requires Chosen(results, at, kept)
    ensures if r.Matched? then Chosen(results + [r], at + [|results|], kept + [r.value]) else Chosen(results + [r], at, kept)
  {
  }

  /** The filter keeps exactly the matches, in the order of their strategies. */
  lemma {:induction false} KeptIsOrdered<M>(results: seq<Evaluation<M>>) returns (at: seq<nat>)
    ensures Chosen(results, at, Kept(results))
  {
    at := [];
    if results != [] {
      var n := |results| - 1;
      at := KeptIsOrdered(results[..n]);
      assert results[..n] + [results[n]] == results;
      hide Chosen;
      ChosenNext(results[..n], at, Kept(results[..n]), results[n]);
      if results[n].Matched? {
        at := at + [n];
      }
    }
  }
}
