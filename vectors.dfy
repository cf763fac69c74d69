/** Row-wise reductions over probability vectors, as numpy computes them:
    `np.argmax(preds, axis=1)` picks, in each row, the FIRST index of the
    row's largest value, and `preds.max(axis=1)` gives that largest value.
    Probabilities are modelled as exact reals; floating-point rounding and
    NaN are not part of the model. */
module Vectors {

  /** `k` is the index numpy's argmax returns for `v`: `v[k]` is a maximum
      of `v` and every earlier entry is strictly smaller. */
  predicate IsFirstMaxIndex(v: seq<real>, k: nat)
  {
    k < |v|
    && (forall j :: 0 <= j < |v| ==> v[j] <= v[k])
    && (forall j :: 0 <= j < k ==> v[j] < v[k])
  }

  /** numpy's argmax of one row; an empty row makes numpy raise, so the
      row must not be empty. */
  function FirstArgMax(v: seq<real>): (k: nat)
    requires |v| > 0
    ensures IsFirstMaxIndex(v, k)
    decreases |v|
  {
    if |v| == 1 then 0
    else
      var k := FirstArgMax(v[..|v| - 1]);
      if v[|v| - 1] > v[k] then |v| - 1 else k
  }

  /** numpy's max of one row. */
  function RowMax(v: seq<real>): (m: real)
    requires |v| > 0
    ensures m in v
    ensures forall j :: 0 <= j < |v| ==> v[j] <= m
    decreases |v|
  {
    if |v| == 1 then v[0]
    else
      var m := RowMax(v[..|v| - 1]);
      if v[|v| - 1] > m then v[|v| - 1] else m
  }

  /** The index numpy's argmax returns is determined by the two properties
      of IsFirstMaxIndex: no other index has them. */
  lemma FirstMaxIndexUnique(v: seq<real>, k: nat)
    requires IsFirstMaxIndex(v, k)
    ensures k == FirstArgMax(v)
  {
  }

  /** The confidence score numpy reports (the row maximum) is the entry at
      the predicted class (the row argmax). */
  lemma RowMaxAtArgMax(v: seq<real>)
    requires |v| > 0
    ensures RowMax(v) == v[FirstArgMax(v)]
  {
  }
}
