// The two list idioms the advisor is built from: Python's `max(xs, key=f)`,
// which scans left to right and keeps the FIRST maximal element, and the
// filtering comprehension `[x for x in xs if p(x)]`, kept as the positions it
// selects so that "earlier in table order" stays expressible.
module Scan {

  /** `i` is the position of the first maximal key. */
  ghost predicate IsFirstMax(keys: seq<int>, i: int) {
    && 0 <= i < |keys|
    && (forall j :: 0 <= j < |keys| ==> keys[j] <= keys[i])
    && (forall j :: 0 <= j < i ==> keys[j] < keys[i])
  }

  /** At most one position is the first maximal one. */
  lemma FirstMaxUnique(keys: seq<int>, i: int, i': int)
    requires IsFirstMax(keys, i) && IsFirstMax(keys, i')
    ensures i == i'
  {
    assert keys[i] <= keys[i'] && keys[i'] <= keys[i];
  }

  /** Python's `max`: the running best is replaced only by a strictly greater key. */
  function FirstMax(keys: seq<int>): (i: nat)
    requires |keys| > 0
    ensures IsFirstMax(keys, i)
  {
    MaxFrom(keys, 0, 1)
  }

  /** The scan from position `k` on, with `best` the first maximum of `keys[..k]`. */
  function MaxFrom(keys: seq<int>, best: nat, k: nat): (i: nat)
    requires best < k <= |keys|
    requires forall j :: 0 <= j < k ==> keys[j] <= keys[best]
    requires forall j :: 0 <= j < best ==> keys[j] < keys[best]
    ensures IsFirstMax(keys, i)
    decreases |keys| - k
  {
    if k == |keys| then best
    else if keys[k] > keys[best] then MaxFrom(keys, k, k + 1)
    else MaxFrom(keys, best, k + 1)
  }

  /** The positions of `s`, in order, whose element satisfies `keep`. */
  ghost predicate Selects<T>(s: seq<T>, keep: T -> bool, from: nat, r: seq<nat>) {
    && (forall m :: 0 <= m < |r| ==> from <= r[m] < |s| && keep(s[r[m]]))
    && (forall j :: from <= j < |s| && keep(s[j]) ==> j in r)
    && (forall m, n :: 0 <= m < n < |r| ==> r[m] < r[n])
  }

  /** `[i for i, x in enumerate(s) if keep(x)]` */
  function Where<T>(s: seq<T>, keep: T -> bool): (r: seq<nat>)
    ensures Selects(s, keep, 0, r)
  {
    WhereFrom(s, keep, 0)
  }

  function WhereFrom<T>(s: seq<T>, keep: T -> bool, from: nat): (r: seq<nat>)
    requires from <= |s|
    ensures Selects(s, keep, from, r)
    decreases |s| - from
  {
    if from == |s| then []
    else if keep(s[from]) then [from] + WhereFrom(s, keep, from + 1)
    else WhereFrom(s, keep, from + 1)
  }

  /** The positions a selection skips before its `m`-th entry do not satisfy `keep`. */
  lemma {:induction false} WhereSkipped<T>(s: seq<T>, keep: T -> bool, r: seq<nat>, m: nat, j: nat)
    requires Selects(s, keep, 0, r)
    requires m < |r| && j < r[m] && keep(s[j])
    ensures exists n :: 0 <= n < m && r[n] == j
  {
    var n :| 0 <= n < |r| && r[n] == j;
    assert n < m;
  }
}
