/** Dense tensors as nested sequences, indexed batch-first, and the handful of
    tensor and Python-list operations the decoder's mask code relies on. Shapes
    are carried as explicit dimensions because an axis may follow an empty one
    (a batch of size zero still has a target length). */
module Tensors {
  import opened Outcomes

  type Tensor2<T> = seq<seq<T>>
  type Tensor3<T> = seq<seq<seq<T>>>
  type Tensor4<T> = seq<seq<seq<seq<T>>>>

  predicate Shape2<T>(t: Tensor2<T>, d0: nat, d1: nat) {
    |t| == d0 && forall i :: 0 <= i < d0 ==> |t[i]| == d1
  }

  predicate Shape3<T>(t: Tensor3<T>, d0: nat, d1: nat, d2: nat) {
    |t| == d0 && forall i :: 0 <= i < d0 ==> Shape2(t[i], d1, d2)
  }

  predicate Shape4<T>(t: Tensor4<T>, d0: nat, d1: nat, d2: nat, d3: nat) {
    |t| == d0 && forall i :: 0 <= i < d0 ==> Shape3(t[i], d1, d2, d3)
  }

  /** `x.unsqueeze(1)`: a new axis of size one right after the batch axis,
      whatever the rank of `x`. */
  function Unsqueeze1<X>(t: seq<X>): (r: seq<seq<X>>)
    ensures |r| == |t|
    ensures forall b :: 0 <= b < |t| ==> r[b] == [t[b]]
  {
    seq(|t|, b requires 0 <= b < |t| => [t[b]])
  }

  /** `x.expand(-1, -1, n, -1)` on a tensor of shape (d0, d1, d2, d3): an axis
      of size one is repeated n times, an axis that already has size n is kept,
      and any other size is a runtime error of PyTorch (None here). */
  function ExpandDim2<T>(t: Tensor4<T>, d0: nat, d1: nat, d2: nat, d3: nat, n: nat): (r: Option<Tensor4<T>>)
    requires Shape4(t, d0, d1, d2, d3)
    ensures r.Some? <==> d2 == n || d2 == 1
    ensures r.Some? ==> Shape4(r.value, d0, d1, n, d3)
    ensures r.Some? ==> forall b, h, i :: 0 <= b < d0 && 0 <= h < d1 && 0 <= i < n ==>
      r.value[b][h][i] == t[b][h][if d2 == 1 then 0 else i]
  {
    if d2 == n then Some(t)
    else if d2 == 1 then
      Some(seq(d0, b requires 0 <= b < d0 =>
        seq(d1, h requires 0 <= h < d1 => seq(n, _ => t[b][h][0]))))
    else None
  }

  /** Size of one axis after PyTorch broadcasting of two operands, or None
      when the sizes differ and neither is one. */
  function BroadcastDim(da: nat, db: nat): Option<nat> {
    if da == db then Some(da)
    else if da == 1 then Some(db)
    else if db == 1 then Some(da)
    else None
  }

  /** Index into an operand axis of size `d` for output index `i`: a broadcast
      axis of size one is always read at 0. */
  function BroadcastIndex(d: nat, i: nat): nat {
    if d == 1 then 0 else i
  }

  predicate Broadcastable3(a0: nat, a1: nat, a2: nat, b0: nat, b1: nat, b2: nat) {
    BroadcastDim(a0, b0).Some? && BroadcastDim(a1, b1).Some? && BroadcastDim(a2, b2).Some?
  }

  /** `a + b` for two rank-3 tensors of unsigned integers under PyTorch's
      broadcasting rule, or None when the shapes do not broadcast. */
  function BroadcastAdd3(a: Tensor3<nat>, a0: nat, a1: nat, a2: nat,
                         b: Tensor3<nat>, b0: nat, b1: nat, b2: nat): (r: Option<Tensor3<nat>>)
    requires Shape3(a, a0, a1, a2) && Shape3(b, b0, b1, b2)
    ensures r.Some? <==> Broadcastable3(a0, a1, a2, b0, b1, b2)
    ensures r.Some? ==>
      var n0, n1, n2 := BroadcastDim(a0, b0).value, BroadcastDim(a1, b1).value, BroadcastDim(a2, b2).value;
      && Shape3(r.value, n0, n1, n2)
      && forall i, j, k :: 0 <= i < n0 && 0 <= j < n1 && 0 <= k < n2 ==>
           r.value[i][j][k]
           == a[BroadcastIndex(a0, i)][BroadcastIndex(a1, j)][BroadcastIndex(a2, k)]
            + b[BroadcastIndex(b0, i)][BroadcastIndex(b1, j)][BroadcastIndex(b2, k)]
  {
    if !Broadcastable3(a0, a1, a2, b0, b1, b2) then None
    else
      var n0, n1, n2 := BroadcastDim(a0, b0).value, BroadcastDim(a1, b1).value, BroadcastDim(a2, b2).value;
      Some(seq(n0, i requires 0 <= i < n0 =>
        seq(n1, j requires 0 <= j < n1 =>
          seq(n2, k requires 0 <= k < n2 =>
            a[BroadcastIndex(a0, i)][BroadcastIndex(a1, j)][BroadcastIndex(a2, k)]
            + b[BroadcastIndex(b0, i)][BroadcastIndex(b1, j)][BroadcastIndex(b2, k)]))))
  }

  /** `torch.ones([n, n])` */
  function Ones(n: nat): (r: Tensor2<nat>)
    ensures Shape2(r, n, n)
  {
    seq(n, _ => seq(n, _ => 1))
  }

  /** `m.triu_(k)` on an n x n matrix: entries with column - row >= k are kept,
      all others become zero. */
  function Triu(m: Tensor2<nat>, n: nat, k: int): (r: Tensor2<nat>)
    requires Shape2(m, n, n)
    ensures Shape2(r, n, n)
  {
    seq(n, i requires 0 <= i < n =>
      seq(n, j requires 0 <= j < n => if j - i >= k then m[i][j] else 0))
  }

  /** A boolean tensor read as 0/1 integers, as PyTorch promotes it in `+`. */
  function AsUint8(t: Tensor3<bool>, d0: nat, d1: nat, d2: nat): (r: Tensor3<nat>)
    requires Shape3(t, d0, d1, d2)
    ensures Shape3(r, d0, d1, d2)
    ensures forall i, j, k :: 0 <= i < d0 && 0 <= j < d1 && 0 <= k < d2 ==>
      r[i][j][k] == if t[i][j][k] then 1 else 0
  {
    seq(d0, i requires 0 <= i < d0 =>
      seq(d1, j requires 0 <= j < d1 =>
        seq(d2, k requires 0 <= k < d2 => if t[i][j][k] then 1 else 0)))
  }

  /** `torch.gt(t, 0)` */
  function GtZero3(t: Tensor3<nat>, d0: nat, d1: nat, d2: nat): (r: Tensor3<bool>)
    requires Shape3(t, d0, d1, d2)
    ensures Shape3(r, d0, d1, d2)
    ensures forall i, j, k :: 0 <= i < d0 && 0 <= j < d1 && 0 <= k < d2 ==>
      r[i][j][k] == (t[i][j][k] > 0)
  {
    seq(d0, i requires 0 <= i < d0 =>
      seq(d1, j requires 0 <= j < d1 =>
        seq(d2, k requires 0 <= k < d2 => t[i][j][k] > 0)))
  }

  /** Python's `s[i]` on a list: a negative index counts from the end, and an
      index outside `-len(s) <= i < len(s)` raises IndexError (None here). */
  function PyIndex<X>(s: seq<X>, i: int): (r: Option<X>)
    ensures r.Some? <==> -|s| <= i < |s|
    ensures 0 <= i < |s| ==> r == Some(s[i])
    ensures -|s| <= i < 0 ==> r == Some(s[|s| + i])
  {
    if 0 <= i < |s| then Some(s[i])
    else if -|s| <= i < 0 then Some(s[|s| + i])
    else None
  }
}
