/**
 Tensor shapes and the shape-level meaning of the operators the optimizer
 rewrites: a Transpose permutes the dimensions, the last-two-axes swap that
 a MatMul's `transA`/`transB` flag applies, and ONNX multidirectional
 broadcasting of batch dimensions (numpy rules: align on the right, a
 missing dimension counts as 1, and two dimensions agree when they are equal
 or one of them is 1).
 */
module Shapes {
  import opened Common

  /** `Shape` is a `vector<int>` of dimensions. */
  type Shape = seq<int>

  /** `std::swap(shape[rank - 1], shape[rank - 2])` on a copy. */
  function SwapLast(s: Shape): (r: Shape)
    requires |s| >= 2
    ensures |r| == |s|
    ensures r[..|s| - 2] == s[..|s| - 2]
    ensures r[|s| - 2] == s[|s| - 1] && r[|s| - 1] == s[|s| - 2]
  {
    s[..|s| - 2] + [s[|s| - 1], s[|s| - 2]]
  }

  /** Swapping the last two dimensions twice gives the shape back. */
  lemma SwapLastInvolution(s: Shape)
    requires |s| >= 2
    ensures SwapLast(SwapLast(s)) == s
  {
    var t := SwapLast(SwapLast(s));
    assert forall i :: 0 <= i < |s| - 2 ==> t[i] == s[..|s| - 2][i] == s[i];
  }

  /** Every entry of `perm` names a dimension of a rank-`rank` tensor. */
  predicate IsPermIndex(perm: seq<int>, rank: nat)
  {
    |perm| == rank && forall i :: 0 <= i < |perm| ==> 0 <= perm[i] < rank
  }

  /** The output shape of a Transpose with permutation `perm`: dimension `i` is input dimension `perm[i]`. */
  function PermuteShape(s: Shape, perm: seq<int>): (r: Shape)
    requires IsPermIndex(perm, |s|)
    ensures |r| == |s|
    ensures forall i :: 0 <= i < |s| ==> r[i] == s[perm[i]]
  {
    seq(|s|, i requires 0 <= i < |s| => s[perm[i]])
  }

  /**
   The check of the MatMul fusion: the permutation keeps axes `0 .. rank-3`
   in place and swaps the last two.
   */
  predicate IsTrailingSwap(perm: seq<int>)
  {
    && |perm| >= 2
    && (forall i :: 0 <= i < |perm| - 2 ==> perm[i] == i)
    && perm[|perm| - 2] == |perm| - 1
    && perm[|perm| - 1] == |perm| - 2
  }

  /** A trailing-swap Transpose changes a shape exactly as a MatMul flag does. */
  lemma TrailingSwapIsSwapLast(s: Shape, perm: seq<int>)
    requires IsTrailingSwap(perm) && |perm| == |s|
    ensures IsPermIndex(perm, |s|)
    ensures PermuteShape(s, perm) == SwapLast(s)
  {
    var r := PermuteShape(s, perm);
    forall i | 0 <= i < |s| ensures r[i] == SwapLast(s)[i] {
      if i < |s| - 2 {
        assert SwapLast(s)[i] == s[..|s| - 2][i];
      }
    }
  }

  /**
   Transposing by `p` and then by `q` gives every shape back: `q` undoes
   `p`, that is `p[q[i]] == i` for every axis.
   */
  predicate Cancels(p: seq<int>, q: seq<int>)
  {
    && |p| == |q|
    && IsPermIndex(p, |p|) && IsPermIndex(q, |q|)
    && forall i :: 0 <= i < |q| ==> p[q[i]] == i
  }

  /** Two transposes whose permutations cancel restore the input shape. */
  lemma CancelsRestoresShape(s: Shape, p: seq<int>, q: seq<int>)
    requires Cancels(p, q) && |p| == |s|
    ensures PermuteShape(PermuteShape(s, p), q) == s
  {
  }

  /**
   Equal permutations do not cancel in general: transposing a `[2, 3, 4]`
   tensor by `[1, 2, 0]` twice gives `[4, 2, 3]`, not the input shape.
   */
  lemma EqualPermsMayNotCancel()
    ensures IsPermIndex([1, 2, 0], 3)
    ensures PermuteShape(PermuteShape([2, 3, 4], [1, 2, 0]), [1, 2, 0]) == [4, 2, 3]
    ensures !Cancels([1, 2, 0], [1, 2, 0])
  {
    var once := PermuteShape([2, 3, 4], [1, 2, 0]);
    assert once == [3, 4, 2];
    var twice := PermuteShape(once, [1, 2, 0]);
    assert twice[0] == 4 && twice[1] == 2 && twice[2] == 3;
    var p: seq<int> := [1, 2, 0];
    assert p[p[0]] == 2;
  }

  /** Dimension `i` counted from the right; a missing dimension counts as 1. */
  function FromRight(s: Shape, i: nat): int
  {
    if i < |s| then s[|s| - 1 - i] else 1
  }

  /** Two dimensions broadcast together when they are equal or one of them is 1. */
  predicate DimsAgree(x: int, y: int)
  {
    x == y || x == 1 || y == 1
  }

  /** The broadcast of two agreeing dimensions: the one that is not 1. */
  function BroadcastDim(x: int, y: int): (d: int)
    requires DimsAgree(x, y)
    ensures d == x || d == y
    ensures x != 1 ==> d == x
    ensures y != 1 ==> d == y
  {
    if x == 1 then y else x
  }

  function Max(a: nat, b: nat): nat
  {
    if a < b then b else a
  }

  /** Every pair of right-aligned dimensions agrees. */
  predicate Compatible(a: Shape, b: Shape)
  {
    forall i :: 0 <= i < Max(|a|, |b|) ==> DimsAgree(FromRight(a, i), FromRight(b, i))
  }

  /**
   `infer_broadcast`: right to left, combine the last dimensions and
   broadcast the rest; None when two dimensions disagree (where the source
   stops on an assertion).
   */
  function Broadcast(a: Shape, b: Shape): (r: Option<Shape>)
    ensures r.Some? ==> |r.value| == Max(|a|, |b|)
    decreases |a| + |b|
  {
    if a == [] then Some(b)
    else if b == [] then Some(a)
    else
      var x, y := a[|a| - 1], b[|b| - 1];
      var rest := Broadcast(a[..|a| - 1], b[..|b| - 1]);
      if !DimsAgree(x, y) || rest.None? then None
      else Some(rest.value + [BroadcastDim(x, y)])
  }

  /**
   Broadcasting succeeds exactly on compatible shapes, and then each
   right-aligned dimension of the result is the broadcast of the two
   operands' dimensions.
   */
  lemma {:induction false} BroadcastCorrect(a: Shape, b: Shape)
    ensures Broadcast(a, b).Some? <==> Compatible(a, b)
    ensures Broadcast(a, b).Some? ==> forall i :: 0 <= i < Max(|a|, |b|) ==>
      FromRight(Broadcast(a, b).value, i) == BroadcastDim(FromRight(a, i), FromRight(b, i))
    decreases |a| + |b|
  {
    if a == [] || b == [] {
      assert forall i :: FromRight([], i) == 1;
    } else {
      var a', b' := a[..|a| - 1], b[..|b| - 1];
      BroadcastCorrect(a', b');
      assert forall i :: 0 < i ==> FromRight(a, i) == FromRight(a', i - 1);
      assert forall i :: 0 < i ==> FromRight(b, i) == FromRight(b', i - 1);
      if Compatible(a', b') && DimsAgree(a[|a| - 1], b[|b| - 1]) {
        var r := Broadcast(a, b).value;
        assert forall i :: 0 < i < |r| ==> FromRight(r, i) == FromRight(r[..|r| - 1], i - 1);
        forall i | 0 <= i < Max(|a|, |b|) ensures DimsAgree(FromRight(a, i), FromRight(b, i)) {
          if i > 0 {
            assert DimsAgree(FromRight(a', i - 1), FromRight(b', i - 1));
          }
        }
      } else if !DimsAgree(a[|a| - 1], b[|b| - 1]) {
        assert !DimsAgree(FromRight(a, 0), FromRight(b, 0));
      } else {
        var i :| 0 <= i < Max(|a'|, |b'|) && !DimsAgree(FromRight(a', i), FromRight(b', i));
        assert !DimsAgree(FromRight(a, i + 1), FromRight(b, i + 1));
      }
    }
  }

  /** Broadcasting is symmetric. */
  lemma {:induction false} BroadcastSymmetric(a: Shape, b: Shape)
    ensures Broadcast(a, b) == Broadcast(b, a)
    decreases |a| + |b|
  {
    if a != [] && b != [] {
      BroadcastSymmetric(a[..|a| - 1], b[..|b| - 1]);
    }
  }
}
