/**
  The few pieces of Python and numpy behaviour that the bookkeeping relies on:
  an optional value standing for "the call raised", prefix slicing `s[:k]`,
  and `np.add` on one-dimensional integer arrays with broadcasting.
 */
module PyOps {

  /** `None` stands for a Python exception (KeyError, ValueError, ...). */
  datatype Option<+T> = None | Some(value: T)

  function Min(a: int, b: int): int { if a <= b then a else b }

  function Max(a: int, b: int): int { if a <= b then b else a }

  /** Python's `s[:k]`: a non-negative `k` keeps at most `k` entries, a negative
      `k` drops the last `-k` entries (and keeps nothing once `-k >= len(s)`). */
  function PySliceTo<T>(s: seq<T>, k: int): (r: seq<T>)
    ensures |r| == if k >= 0 then Min(k, |s|) else Max(0, |s| + k)
    ensures r <= s
  {
    if k >= 0 then s[..Min(k, |s|)] else s[..Max(0, |s| + k)]
  }

  /** The value `np.add` broadcasts from a one-dimensional array at index `i`. */
  function Broadcast(a: seq<int>, i: nat): int
  {
    if |a| == 1 then a[0] else if i < |a| then a[i] else 0
  }

  /** numpy's rules for broadcasting two one-dimensional shapes: they are
      compatible when equal or when one of them is 1; the result takes the
      other length. */
  predicate Compatible(a: seq<int>, b: seq<int>)
  {
    |a| == |b| || |a| == 1 || |b| == 1
  }

  function BroadcastLength(a: seq<int>, b: seq<int>): nat
  {
    if |a| == 1 then |b| else |a|
  }

  /** `np.add(a, b)` on one-dimensional integer arrays. Incompatible shapes
      raise ValueError, returned here as `None`. */
  function NpAdd(a: seq<int>, b: seq<int>): (r: Option<seq<int>>)
    ensures r.Some? <==> Compatible(a, b)
  {
    if |a| == |b| then Some(seq(|a|, i requires 0 <= i < |a| => a[i] + b[i]))
    else if |a| == 1 then Some(seq(|b|, i requires 0 <= i < |b| => a[0] + b[i]))
    else if |b| == 1 then Some(seq(|a|, i requires 0 <= i < |a| => a[i] + b[0]))
    else None
  }

  /** Every successful `np.add` has the broadcast length and adds the broadcast
      values position by position. */
  lemma NpAddBroadcasts(a: seq<int>, b: seq<int>)
    requires Compatible(a, b)
    ensures NpAdd(a, b).Some?
    ensures |NpAdd(a, b).value| == BroadcastLength(a, b)
    ensures forall i :: 0 <= i < BroadcastLength(a, b) ==>
              NpAdd(a, b).value[i] == Broadcast(a, i) + Broadcast(b, i)
  {
  }
}
