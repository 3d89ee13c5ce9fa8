/**
 Shape inference of a MatMul: the last two dimensions of each operand are a
 matrix (swapped first when `transA`/`transB` is set), the leading
 dimensions are batch dimensions broadcast against each other, and the
 output is one tensor of shape `batch ++ [m, n]`.
 */
module MatMul {
  import opened Common
  import opened Shapes

  /** Why inference stops: the batch dimensions do not broadcast, or the inner dimensions differ. */
  datatype InferError = IncompatibleBatch | ContractionMismatch(kA: int, kB: int)

  /** An operand's shape as the product sees it: swapped when its flag is set. */
  function Operand(s: Shape, trans: bool): (r: Shape)
    requires |s| >= 2
    ensures |r| == |s| && r[..|s| - 2] == s[..|s| - 2]
    ensures trans ==> r == SwapLast(s)
    ensures !trans ==> r == s
  {
    if trans then SwapLast(s) else s
  }

  /** Rows of the (possibly transposed) left operand. */
  function Rows(a: Shape, transA: bool): int
    requires |a| >= 2
  {
    if transA then a[|a| - 1] else a[|a| - 2]
  }

  /** Inner dimension of the (possibly transposed) left operand. */
  function InnerA(a: Shape, transA: bool): int
    requires |a| >= 2
  {
    if transA then a[|a| - 2] else a[|a| - 1]
  }

  /** Inner dimension of the (possibly transposed) right operand. */
  function InnerB(b: Shape, transB: bool): int
    requires |b| >= 2
  {
    if transB then b[|b| - 1] else b[|b| - 2]
  }

  /** Columns of the (possibly transposed) right operand. */
  function Cols(b: Shape, transB: bool): int
    requires |b| >= 2
  {
    if transB then b[|b| - 2] else b[|b| - 1]
  }

  /** The batch dimensions: all but the last two. */
  function Batch(s: Shape): Shape
    requires |s| >= 2
  {
    s[..|s| - 2]
  }

  /**
   `MatmulObj::inferShape`: swap the flagged operands, broadcast the batch
   dimensions (an empty batch becomes `[1]`), require matching inner
   dimensions, and answer one shape `batch ++ [m, n]`. Both checks stop the
   source on an assertion; here they are errors, the batch check first.
   */
  function InferShape(a: Shape, b: Shape, transA: bool, transB: bool): (r: Result<seq<Shape>, InferError>)
    requires |a| >= 2 && |b| >= 2
    ensures r.Ok? ==> |r.value| == 1 && |r.value[0]| >= 3
  {
    var sa, sb := Operand(a, transA), Operand(b, transB);
    var rankA, rankB := |sa|, |sb|;
    var batch := Broadcast(sa[..rankA - 2], sb[..rankB - 2]);
    if batch.None? then Err(IncompatibleBatch)
    else
      var ret := if batch.value == [] then [1] else batch.value;
      var kA, kB := sa[rankA - 1], sb[rankB - 2];
      if kA != kB then Err(ContractionMismatch(kA, kB))
      else
        var m, n := sa[rankA - 2], sb[rankB - 1];
        Ok([ret + [m, n]])
  }

  /**
   What inference answers, stated on the original operands: it fails on
   incompatible batches, then on different inner dimensions; otherwise the
   single output has rank `max(rankA, rankB, 3)`, ends in `[m, n]` of the
   (swapped) operands, and each right-aligned batch dimension is the
   broadcast of the operands' batch dimensions (`1` when both have none).
   */
  lemma InferShapeSpec(a: Shape, b: Shape, transA: bool, transB: bool)
    requires |a| >= 2 && |b| >= 2
    ensures !Compatible(Batch(a), Batch(b)) ==> InferShape(a, b, transA, transB) == Err(IncompatibleBatch)
    ensures Compatible(Batch(a), Batch(b)) && InnerA(a, transA) != InnerB(b, transB) ==>
      InferShape(a, b, transA, transB) == Err(ContractionMismatch(InnerA(a, transA), InnerB(b, transB)))
    ensures InferShape(a, b, transA, transB).Ok? <==>
      Compatible(Batch(a), Batch(b)) && InnerA(a, transA) == InnerB(b, transB)
    ensures InferShape(a, b, transA, transB).Ok? ==>
      var out := InferShape(a, b, transA, transB).value[0];
      && |out| == Max(Max(|a|, |b|), 3)
      && out[|out| - 2] == Rows(a, transA)
      && out[|out| - 1] == Cols(b, transB)
      && forall i :: 0 <= i < |out| - 2 ==>
           out[|out| - 3 - i] == BroadcastDim(FromRight(Batch(a), i), FromRight(Batch(b), i))
  {
    var sa, sb := Operand(a, transA), Operand(b, transB);
    assert sa[..|sa| - 2] == Batch(a) && sb[..|sb| - 2] == Batch(b);
    BroadcastCorrect(Batch(a), Batch(b));
    var r := InferShape(a, b, transA, transB);
    if r.Ok? {
      var batch := Broadcast(Batch(a), Batch(b)).value;
      var ret := if batch == [] then [1] else batch;
      var out := r.value[0];
      assert out == ret + [Rows(a, transA), Cols(b, transB)];
      forall i | 0 <= i < |out| - 2
        ensures out[|out| - 3 - i] == BroadcastDim(FromRight(Batch(a), i), FromRight(Batch(b), i))
      {
        assert out[|out| - 3 - i] == ret[|ret| - 1 - i];
        if batch != [] {
          assert ret[|ret| - 1 - i] == FromRight(batch, i);
        }
      }
    }
  }

  /** Two matrices (rank 2) give a rank-3 result `[1, m, n]`. */
  lemma RankTwoOperands(a: Shape, b: Shape, transA: bool, transB: bool)
    requires |a| == 2 && |b| == 2
    requires InnerA(a, transA) == InnerB(b, transB)
    ensures InferShape(a, b, transA, transB) == Ok([[1, Rows(a, transA), Cols(b, transB)]])
  {
    var sa, sb := Operand(a, transA), Operand(b, transB);
    assert sa[..0] == [] && sb[..0] == [];
    assert Broadcast(sa[..0], sb[..0]) == Some([]);
    assert sa[1] == InnerA(a, transA) && sb[0] == InnerB(b, transB);
    assert sa[0] == Rows(a, transA) && sb[1] == Cols(b, transB);
    assert [1] + [sa[0], sb[1]] == [1, Rows(a, transA), Cols(b, transB)];
  }

  /**
   Setting `transA` is the same as feeding A with its last two dimensions
   swapped: the flag can absorb a trailing-swap Transpose of input 0.
   */
  lemma ToggleTransA(a: Shape, b: Shape, transA: bool, transB: bool)
    requires |a| >= 2 && |b| >= 2
    ensures InferShape(a, b, !transA, transB) == InferShape(SwapLast(a), b, transA, transB)
  {
    SwapLastInvolution(a);
    assert Operand(a, !transA) == Operand(SwapLast(a), transA);
  }

  /** The same for `transB` and input 1. */
  lemma ToggleTransB(a: Shape, b: Shape, transA: bool, transB: bool)
    requires |a| >= 2 && |b| >= 2
    ensures InferShape(a, b, transA, !transB) == InferShape(a, SwapLast(b), transA, transB)
  {
    SwapLastInvolution(b);
    assert Operand(b, !transB) == Operand(SwapLast(b), transB);
  }
}
