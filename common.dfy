/** Shared vocabulary of the model: optional values and results, the outcome of
    processing one item of a batch, and the fail-fast rule that every batch operator
    of the add-on follows (the first exception ends the loop, nothing is rolled back). */
module Common {

  datatype Option<T> = None | Some(value: T)

  /** A value or the error that stopped its computation (a Python exception). */
  datatype Result<T, E> = Ok(value: T) | Err(error: E) {
    predicate IsFailure() { Err? }

    function PropagateFailure<U>(): Result<U, E>
      requires Err?
    {
      Err(error)
    }

    function Extract(): T
      requires Ok?
    {
      value
    }
  }

  /** What processing one item of a batch leaves behind: the item's new state, and
      the host call that raised while the item was processed, if one did. */
  datatype Step<S, E> = Step(after: S, raised: Option<E>)

  /** How far a sequence of host calls gets: the index of the first call that the
      host raises on, or |calls| when none of them raises. */
  function FirstIn<E>(calls: seq<E>, raising: set<E>): (p: nat)
    ensures p <= |calls|
    ensures forall j :: 0 <= j < p ==> calls[j] !in raising
    ensures p < |calls| ==> calls[p] in raising
  {
    if calls == [] then 0
    else if calls[0] in raising then 0
    else 1 + FirstIn(calls[1..], raising)
  }

  /** The index of the first item whose processing raised, or |steps| when none did. */
  function FirstRaise<S, E>(steps: seq<Step<S, E>>): (k: nat)
    ensures k <= |steps|
    ensures forall j :: 0 <= j < k ==> steps[j].raised.None?
    ensures k < |steps| ==> steps[k].raised.Some?
  {
    if steps == [] then 0
    else if steps[0].raised.Some? then 0
    else 1 + FirstRaise(steps[1..])
  }

  /** The collection after a fail-fast batch: every item up to and including the
      first one that raised shows the effect of its own processing (partial for the
      one that raised, with no rollback); the items after it were never touched. */
  function Merge<S, E>(before: seq<S>, steps: seq<Step<S, E>>): (r: seq<S>)
    requires |steps| == |before|
  {
    var k := FirstRaise(steps);
    seq(|before|, j requires 0 <= j < |before| => if j <= k then steps[j].after else before[j])
  }

  /** Fail-fast, stated from the caller's side: the first raising item determines
      which items were processed, which one was cut short, and which were never reached. */
  lemma MergeFailFast<S, E>(before: seq<S>, steps: seq<Step<S, E>>, k: nat)
    requires |steps| == |before|
    requires k <= |steps|
    requires forall j :: 0 <= j < k ==> steps[j].raised.None?
    requires k < |steps| ==> steps[k].raised.Some?
    ensures FirstRaise(steps) == k
    ensures |Merge(before, steps)| == |before|
    ensures forall j :: 0 <= j < |before| && j <= k ==> Merge(before, steps)[j] == steps[j].after
    ensures forall j :: k < j < |before| ==> Merge(before, steps)[j] == before[j]
  {
  }

  /** A batch loop part way: the first i items processed and completed, the rest as
      they were. */
  function Applied<S, E>(before: seq<S>, steps: seq<Step<S, E>>, i: nat): (r: seq<S>)
    requires |steps| == |before| && i <= |before|
    ensures |r| == |before|
  {
    seq(|before|, j requires 0 <= j < |before| => if j < i then steps[j].after else before[j])
  }

  lemma AppliedStep<S, E>(before: seq<S>, steps: seq<Step<S, E>>, i: nat)
    requires |steps| == |before| && i < |before|
    ensures Applied(before, steps, i)[i := steps[i].after] == Applied(before, steps, i + 1)
  {
  }

  /** One more item processed without raising. A helper for the batch loops: it
      only unfolds the definitions, so that the loop invariant is re-established cheaply. */
  lemma NoneRaisedExtends<S, E>(steps: seq<Step<S, E>>, i: nat)
    requires i < |steps|
    requires forall j :: 0 <= j < i ==> steps[j].raised.None?
    requires steps[i].raised.None?
    ensures forall j :: 0 <= j < i + 1 ==> steps[j].raised.None?
  {
  }

  /** The loop ends in the fail-fast result, whether an item raised (the one at k) or
      none did. */
  lemma AppliedIsMerge<S, E>(before: seq<S>, steps: seq<Step<S, E>>, k: nat)
    requires |steps| == |before|
    requires k <= |steps|
    requires forall j :: 0 <= j < k ==> steps[j].raised.None?
    requires k < |steps| ==> steps[k].raised.Some?
    ensures FirstRaise(steps) == k
    ensures Merge(before, steps) == Applied(before, steps, if k < |before| then k + 1 else k)
  {
    MergeFailFast(before, steps, k);
  }

  /** No object occurs twice in a host collection. */
  predicate Distinct<T(==)>(xs: seq<T>) {
    forall i, j :: 0 <= i < j < |xs| ==> xs[i] != xs[j]
  }
}
