/**
 Shape inference over the operator list (`shape_infer`): each operator in
 list order infers its output shapes from the current shapes of its inputs,
 and every output whose shape changed gets the new shape, written to the
 tensor the FUID lookup finds. A failed inference, a wrong number of shapes
 or a lookup that finds nothing stops the source on an assertion or a null
 dereference; here each is an error.
 */
module ShapeInference {
  import opened Common
  import opened Shapes
  import MatMul
  import opened Graphs
  import opened Lookup

  /** Inference for the kinds whose `inferShape` is not part of this model. */
  type OtherInference = (OpKind, seq<Shape>) -> Option<seq<Shape>>

  /** The current shapes of the listed tensors. */
  function ShapesOf(ts: map<TensorId, Tensor>, ids: seq<TensorId>): (r: seq<Shape>)
    requires forall t :: t in ids ==> t in ts
    ensures |r| == |ids|
  {
    seq(|ids|, i requires 0 <= i < |ids| => ts[ids[i]].shape)
  }

  /**
   `op->inferShape()`: a MatMul infers from its two input shapes; any other
   kind answers what `other` says. A MatMul operand of rank below 2 fails
   (the source would read outside the shape).
   */
  function InferOp(x: Operator, shapes: seq<Shape>, other: OtherInference): (r: Option<seq<Shape>>)
    ensures x.kind.MatMulOp? && r.Some? ==> |shapes| == 2 && |r.value| == 1
    ensures !x.kind.MatMulOp? ==> r == other(x.kind, shapes)
  {
    match x.kind
    case MatMulOp(transA, transB) =>
      if |shapes| == 2 && |shapes[0]| >= 2 && |shapes[1]| >= 2 then
        match MatMul.InferShape(shapes[0], shapes[1], transA, transB)
        case Ok(v) => Some(v)
        case Err(_) => None
      else None
    case _ => other(x.kind, shapes)
  }

  /** The only records that change are found in `tensors`, and only their shapes change. */
  ghost predicate OnlyShapesChanged(ts: map<TensorId, Tensor>, ts': map<TensorId, Tensor>, tensors: seq<TensorId>)
  {
    && ts'.Keys == ts.Keys
    && (forall t :: t in ts ==> ts'[t] == ts[t].(shape := ts'[t].shape))
    && (forall t :: t in ts && t !in tensors ==> ts'[t] == ts[t])
  }

  lemma OnlyShapesChangedTrans(ts: map<TensorId, Tensor>, ts1: map<TensorId, Tensor>, ts2: map<TensorId, Tensor>, tensors: seq<TensorId>)
    requires OnlyShapesChanged(ts, ts1, tensors) && OnlyShapesChanged(ts1, ts2, tensors)
    ensures OnlyShapesChanged(ts, ts2, tensors)
  {
  }

  /**
   One output of one operator: when its new shape differs, the tensor found
   by the output's FUID takes the new shape.
   */
  function WriteShape(ts: map<TensorId, Tensor>, tensors: seq<TensorId>, out: TensorId, shape: Shape)
    : (r: Result<map<TensorId, Tensor>, GraphError>)
    requires out in ts && forall t :: t in tensors ==> t in ts
    ensures r.Ok? ==> OnlyShapesChanged(ts, r.value, tensors)
    ensures r.Err? ==> r.error == MissingTensor(ts[out].fuid) && out !in tensors
  {
    if shape == ts[out].shape then Ok(ts)
    else
      match GetTensor(ts, tensors, ts[out].fuid)
      case None => Err(MissingTensor(ts[out].fuid))
      case Some(t) => Ok(ts[t := ts[t].(shape := shape)])
  }

  /** The first `n` outputs written in order; the first failure stops the rest. */
  function WriteShapes(ts: map<TensorId, Tensor>, tensors: seq<TensorId>, outs: seq<TensorId>, shapes: seq<Shape>, n: nat)
    : (r: Result<map<TensorId, Tensor>, GraphError>)
    requires n <= |outs| && n <= |shapes|
    requires forall t :: t in outs ==> t in ts
    requires forall t :: t in tensors ==> t in ts
    ensures r.Ok? ==> OnlyShapesChanged(ts, r.value, tensors)
    ensures r.Err? ==> r.error.MissingTensor?
  {
    if n == 0 then Ok(ts)
    else
      match WriteShapes(ts, tensors, outs, shapes, n - 1)
      case Err(e) => Err(e)
      case Ok(ts1) =>
        var r := WriteShape(ts1, tensors, outs[n - 1], shapes[n - 1]);
        if r.Ok? then OnlyShapesChangedTrans(ts, ts1, r.value, tensors); r else r
  }

  /** What the source requires of the operator list and the stores. */
  ghost predicate Inferable(ts: map<TensorId, Tensor>, os: map<OpId, Operator>, tensors: seq<TensorId>, ops: seq<OpId>)
  {
    && (forall t :: t in tensors ==> t in ts)
    && (forall o :: o in ops ==> o in os)
    && (forall o, t :: o in ops && t in os[o].inputs ==> t in ts)
    && (forall o, t :: o in ops && t in os[o].outputs ==> t in ts)
  }

  /** One operator of the loop: infer, check the number of shapes, write the outputs. */
  function InferStep(ts: map<TensorId, Tensor>, tensors: seq<TensorId>, o: OpId, x: Operator, other: OtherInference)
    : (r: Result<map<TensorId, Tensor>, GraphError>)
    requires forall t :: t in x.inputs ==> t in ts
    requires forall t :: t in x.outputs ==> t in ts
    requires forall t :: t in tensors ==> t in ts
    ensures r.Ok? ==> OnlyShapesChanged(ts, r.value, tensors)
    ensures r.Err? && r.error.InferenceFailed? ==> InferOp(x, ShapesOf(ts, x.inputs), other).None?
  {
    var ans := InferOp(x, ShapesOf(ts, x.inputs), other);
    if ans.None? then Err(InferenceFailed(o))
    else if |ans.value| != |x.outputs| then Err(OutputCountMismatch(o))
    else WriteShapes(ts, tensors, x.outputs, ans.value, |ans.value|)
  }

  /** The first `n` operators of the list inferred in order; the first failure stops the rest. */
  function InferOps(ts: map<TensorId, Tensor>, os: map<OpId, Operator>, tensors: seq<TensorId>, ops: seq<OpId>,
                    other: OtherInference, n: nat): (r: Result<map<TensorId, Tensor>, GraphError>)
    requires Inferable(ts, os, tensors, ops) && n <= |ops|
    ensures r.Ok? ==> OnlyShapesChanged(ts, r.value, tensors)
    ensures r.Err? && r.error.InferenceFailed? ==> r.error.op in ops[..n]
  {
    if n == 0 then Ok(ts)
    else
      match InferOps(ts, os, tensors, ops, other, n - 1)
      case Err(e) => assert ops[..n - 1] <= ops[..n]; Err(e)
      case Ok(ts1) =>
        var r := InferStep(ts1, tensors, ops[n - 1], os[ops[n - 1]], other);
        if r.Ok? then OnlyShapesChangedTrans(ts, ts1, r.value, tensors); r else r
  }

  /** Once the writes have failed, writing more outputs keeps the failure. */
  lemma {:induction false} WriteShapesErrSticks(ts: map<TensorId, Tensor>, tensors: seq<TensorId>, outs: seq<TensorId>,
                                                shapes: seq<Shape>, n: nat, m: nat)
    requires n <= m <= |outs| && m <= |shapes|
    requires forall t :: t in outs ==> t in ts
    requires forall t :: t in tensors ==> t in ts
    requires WriteShapes(ts, tensors, outs, shapes, n).Err?
    ensures WriteShapes(ts, tensors, outs, shapes, m) == WriteShapes(ts, tensors, outs, shapes, n)
    decreases m
  {
    if n < m {
      WriteShapesErrSticks(ts, tensors, outs, shapes, n, m - 1);
    }
  }

  /** Once inference has failed, later operators keep the failure. */
  lemma {:induction false} InferOpsErrSticks(ts: map<TensorId, Tensor>, os: map<OpId, Operator>, tensors: seq<TensorId>,
                                             ops: seq<OpId>, other: OtherInference, n: nat, m: nat)
    requires Inferable(ts, os, tensors, ops) && n <= m <= |ops|
    requires InferOps(ts, os, tensors, ops, other, n).Err?
    ensures InferOps(ts, os, tensors, ops, other, m) == InferOps(ts, os, tensors, ops, other, n)
    decreases m
  {
    if n < m {
      InferOpsErrSticks(ts, os, tensors, ops, other, n, m - 1);
    }
  }

  /**
   When every operator already infers exactly the current shapes of its
   outputs, inference succeeds and changes nothing.
   */
  lemma {:induction false} InferOpsStable(ts: map<TensorId, Tensor>, os: map<OpId, Operator>, tensors: seq<TensorId>,
                                          ops: seq<OpId>, other: OtherInference, n: nat)
    requires Inferable(ts, os, tensors, ops) && n <= |ops|
    requires forall o :: o in ops ==> InferOp(os[o], ShapesOf(ts, os[o].inputs), other) == Some(ShapesOf(ts, os[o].outputs))
    ensures InferOps(ts, os, tensors, ops, other, n) == Ok(ts)
  {
    if n > 0 {
      InferOpsStable(ts, os, tensors, ops, other, n - 1);
      var x := os[ops[n - 1]];
      WriteShapesUnchanged(ts, tensors, x.outputs, ShapesOf(ts, x.outputs), |x.outputs|);
    }
  }

  /** Writing the shapes the outputs already have changes nothing. */
  lemma {:induction false} WriteShapesUnchanged(ts: map<TensorId, Tensor>, tensors: seq<TensorId>, outs: seq<TensorId>,
                                                shapes: seq<Shape>, n: nat)
    requires n <= |outs| && n <= |shapes|
    requires forall t :: t in outs ==> t in ts
    requires forall t :: t in tensors ==> t in ts
    requires forall i :: 0 <= i < n ==> shapes[i] == ts[outs[i]].shape
    ensures WriteShapes(ts, tensors, outs, shapes, n) == Ok(ts)
  {
    if n > 0 {
      WriteShapesUnchanged(ts, tensors, outs, shapes, n - 1);
    }
  }

  /**
   An operator with one output on its own: when it infers the single shape
   `s`, inference succeeds and the output tensor, found by its FUID, takes
   `s`; no other record changes.
   */
  lemma SingleOutputInferred(ts: map<TensorId, Tensor>, os: map<OpId, Operator>, tensors: seq<TensorId>, o: OpId,
                             other: OtherInference, s: Shape)
    requires o in os && |os[o].outputs| == 1
    requires Inferable(ts, os, tensors, [o])
    requires DistinctFuids(ts, tensors) && os[o].outputs[0] in tensors
    requires InferOp(os[o], ShapesOf(ts, os[o].inputs), other) == Some([s])
    ensures var c := os[o].outputs[0];
      InferOps(ts, os, tensors, [o], other, 1) == Ok(ts[c := ts[c].(shape := s)])
  {
    var x := os[o];
    var c := x.outputs[0];
    GetTensorOwnFuid(ts, tensors, c);
    var w := WriteShape(ts, tensors, c, s);
    if s == ts[c].shape {
      assert ts[c := ts[c].(shape := s)] == ts;
    }
    assert w == Ok(ts[c := ts[c].(shape := s)]);
    assert WriteShapes(ts, tensors, x.outputs, [s], 1) == w;
    assert InferStep(ts, tensors, o, x, other) == w;
  }

  /** The inner loop of `shape_infer`: the outputs of one operator, in order. */
  method WriteOutputs(ts0: map<TensorId, Tensor>, tensors: seq<TensorId>, outs: seq<TensorId>, shapes: seq<Shape>)
    returns (r: Result<map<TensorId, Tensor>, GraphError>)
    requires |shapes| <= |outs|
    requires forall t :: t in outs ==> t in ts0
    requires forall t :: t in tensors ==> t in ts0
    ensures r == WriteShapes(ts0, tensors, outs, shapes, |shapes|)
  {
    var ts := ts0;
    for i := 0 to |shapes|
      invariant WriteShapes(ts0, tensors, outs, shapes, i) == Ok(ts)
    {
      var w := WriteOutput(ts0, tensors, outs, shapes, i, ts);
      if w.Err? {
        WriteShapesErrSticks(ts0, tensors, outs, shapes, i + 1, |shapes|);
        return w;
      }
      ts := w.value;
    }
    return Ok(ts);
  }

  /** One output: a changed shape goes to the tensor the FUID lookup finds. */
  method WriteOutput(ghost ts0: map<TensorId, Tensor>, tensors: seq<TensorId>, outs: seq<TensorId>, shapes: seq<Shape>,
                     i: nat, ts: map<TensorId, Tensor>) returns (r: Result<map<TensorId, Tensor>, GraphError>)
    requires i < |shapes| && |shapes| <= |outs|
    requires forall t :: t in outs ==> t in ts0
    requires forall t :: t in tensors ==> t in ts0
    requires WriteShapes(ts0, tensors, outs, shapes, i) == Ok(ts)
    ensures r == WriteShapes(ts0, tensors, outs, shapes, i + 1)
  {
    var out := outs[i];
    if shapes[i] == ts[out].shape {
      return Ok(ts);
    }
    var found := GetTensor(ts, tensors, ts[out].fuid);
    if found.None? {
      return Err(MissingTensor(ts[out].fuid));
    }
    return Ok(ts[found.value := ts[found.value].(shape := shapes[i])]);
  }

  /** `shape_infer` as the source loops it, against the list-order definition. */
  method ShapeInfer(ts0: map<TensorId, Tensor>, os: map<OpId, Operator>, tensors: seq<TensorId>, ops: seq<OpId>,
                    other: OtherInference) returns (r: Result<map<TensorId, Tensor>, GraphError>)
    requires Inferable(ts0, os, tensors, ops)
    ensures r == InferOps(ts0, os, tensors, ops, other, |ops|)
  {
    var ts := ts0;
    for k := 0 to |ops|
      invariant InferOps(ts0, os, tensors, ops, other, k) == Ok(ts)
    {
      var w := InferOne(ts0, os, tensors, ops, other, k, ts);
      if w.Err? {
        InferOpsErrSticks(ts0, os, tensors, ops, other, k + 1, |ops|);
        return w;
      }
      ts := w.value;
    }
    return Ok(ts);
  }

  /** One operator of the outer loop: infer, check the count, write the outputs. */
  method InferOne(ghost ts0: map<TensorId, Tensor>, os: map<OpId, Operator>, tensors: seq<TensorId>, ops: seq<OpId>,
                  other: OtherInference, k: nat, ts: map<TensorId, Tensor>) returns (r: Result<map<TensorId, Tensor>, GraphError>)
    requires Inferable(ts0, os, tensors, ops) && k < |ops|
    requires InferOps(ts0, os, tensors, ops, other, k) == Ok(ts)
    ensures r == InferOps(ts0, os, tensors, ops, other, k + 1)
  {
    var o := ops[k];
    var x := os[o];
    var ans := InferOp(x, ShapesOf(ts, x.inputs), other);
    if ans.None? {
      return Err(InferenceFailed(o));
    }
    if |ans.value| != |x.outputs| {
      return Err(OutputCountMismatch(o));
    }
    r := WriteOutputs(ts, tensors, x.outputs, ans.value);
  }

  /** A well-formed graph can be inferred over: every operator's tensors have records. */
  lemma WellFormedInferable(ts: map<TensorId, Tensor>, os: map<OpId, Operator>, tensors: seq<TensorId>, ops: seq<OpId>)
    requires WellFormedGraph(ts, os, tensors, ops)
    ensures Inferable(ts, os, tensors, ops)
  {
    forall o | o in ops ensures OpRecordClosed(os[o], ts, os) {
    }
  }

  /** Writing shapes keeps the graph well-formed: no record's links change. */
  lemma ShapesKeepWellFormed(ts: map<TensorId, Tensor>, ts': map<TensorId, Tensor>, os: map<OpId, Operator>,
                             tensors: seq<TensorId>, ops: seq<OpId>)
    requires WellFormedGraph(ts, os, tensors, ops) && OnlyShapesChanged(ts, ts', tensors)
    ensures WellFormedGraph(ts', os, tensors, ops)
  {
    forall o | o in os ensures OpRecordClosed(os[o], ts', os) {
      assert OpRecordClosed(os[o], ts, os);
    }
    forall t | t in ts' ensures TensorRecordClosed(ts'[t], os) {
      assert TensorRecordClosed(ts[t], os);
    }
  }
}
