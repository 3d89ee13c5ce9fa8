/**
 The two rewrites of the graph optimizer, each applied to a Transpose
 `prev` and one of its live successors:

 - elimination: a Transpose followed by a Transpose that undoes it; both
   leave the graph and the consumers of the second one's output read the
   first one's input instead;
 - fusion: a Transpose that swaps the last two axes feeding a MatMul; the
   Transpose leaves the graph, the MatMul reads its input and the matching
   `transA`/`transB` flag absorbs the swap.

 Edge lists are sets, so each record's new neighbours are written as set
 updates. The source walks the successors and predecessors one by one; the
 result is the same unless `prev` is itself a successor of the second
 operator, a cycle through the pair.
 */
module Rewrites {
  import opened Common
  import opened Shapes
  import MatMul
  import opened Graphs
  import opened ShapeInference

  /** The arena and the two membership lists, as one value. */
  datatype GraphState = GraphState(ts: map<TensorId, Tensor>, os: map<OpId, Operator>, tensors: seq<TensorId>, ops: seq<OpId>)

  /** Every live Transpose has rank at least 2: the fusion test reads `perm[rank - 2]`. */
  ghost predicate TransposeRanks(os: map<OpId, Operator>, ops: seq<OpId>)
  {
    forall o :: o in ops && o in os && os[o].kind.Transpose? ==> |os[o].kind.perm| >= 2
  }

  /** The graph invariant, and live Transposes have rank at least 2. */
  ghost predicate Good(g: GraphState)
  {
    WellFormedGraph(g.ts, g.os, g.tensors, g.ops) && TransposeRanks(g.os, g.ops)
  }

  /**
   The optimizer can rewrite `prev` with its successor `succ`: `prev` is a
   live Transpose, `succ` is live and is either a Transpose that undoes it
   or a MatMul while `prev` swaps the last two axes.
   */
  predicate Applies(g: GraphState, prev: OpId, succ: OpId)
  {
    && prev in g.ops && prev in g.os && g.os[prev].kind.Transpose?
    && succ in g.os[prev].succs && succ in g.ops && succ in g.os
    && (|| (g.os[succ].kind.Transpose? && Cancels(g.os[prev].kind.perm, g.os[succ].kind.perm))
        || (g.os[succ].kind.MatMulOp? && IsTrailingSwap(g.os[prev].kind.perm)))
  }

  /** The trigger as written: rule A fires when the two permutations are equal. */
  predicate AppliesAsWritten(g: GraphState, prev: OpId, succ: OpId)
  {
    && prev in g.ops && prev in g.os && g.os[prev].kind.Transpose?
    && succ in g.os[prev].succs && succ in g.ops && succ in g.os
    && (|| (g.os[succ].kind.Transpose? && g.os[prev].kind.perm == g.os[succ].kind.perm)
        || (g.os[succ].kind.MatMulOp? && IsTrailingSwap(g.os[prev].kind.perm)))
  }

  /** The operators that read tensor `t`, among `cands`. */
  function Readers(os: map<OpId, Operator>, cands: set<OpId>, t: TensorId): set<OpId>
  {
    set o | o in cands && o in os && t in os[o].inputs
  }

  // ---------------------------------------------------------------- elimination

  /**
   An operator record after an elimination: a consumer `o` of the second
   Transpose reads `x` where it read `t`, loses `succ` and gains the live
   predecessors `feeders` of `prev`; a predecessor of `prev` trades `prev`
   for the consumers.
   */
  function RewireA(r: Operator, o: OpId, prev: OpId, succ: OpId, t: TensorId, x: TensorId,
                   consumers: set<OpId>, feeders: set<OpId>): (r': Operator)
    ensures r'.kind == r.kind && r'.outputs == r.outputs
  {
    var r1 := if o in consumers then r.(inputs := ReplaceAll(r.inputs, t, x), preds := (r.preds - {succ}) + feeders) else r;
    if o in feeders && consumers != {} then r1.(succs := (r1.succs - {prev}) + consumers) else r1
  }

  /** A tensor record after an elimination: `t` loses its readers, `x` trades `prev` for them. */
  function RetargetA(y: Tensor, u: TensorId, prev: OpId, t: TensorId, x: TensorId, readers: set<OpId>): (y': Tensor)
    ensures y' == y.(targets := y'.targets)
  {
    var y1 := if u == t then y.(targets := y.targets - readers) else y;
    if u == x && readers != {} then y1.(targets := (y1.targets - {prev}) + readers) else y1
  }

  /** Every operator record rewired for an elimination. */
  function RewiredA(os: map<OpId, Operator>, prev: OpId, succ: OpId, t: TensorId, x: TensorId,
                    consumers: set<OpId>, feeders: set<OpId>): (r: map<OpId, Operator>)
    ensures r.Keys == os.Keys
    ensures forall o :: o in os ==> r[o] == RewireA(os[o], o, prev, succ, t, x, consumers, feeders)
  {
    map o | o in os :: RewireA(os[o], o, prev, succ, t, x, consumers, feeders)
  }

  /** Every tensor record retargeted for an elimination. */
  function RetargetedA(ts: map<TensorId, Tensor>, prev: OpId, t: TensorId, x: TensorId, readers: set<OpId>): (r: map<TensorId, Tensor>)
    ensures r.Keys == ts.Keys
    ensures forall u :: u in ts ==> r[u] == RetargetA(ts[u], u, prev, t, x, readers)
  {
    map u | u in ts :: RetargetA(ts[u], u, prev, t, x, readers)
  }

  /**
   Rule A: `prev` and `succ` are Transposes. Every live successor of `succ`
   is rewired; the output of `succ` leaves `tensors` when someone read it,
   the output of `prev` leaves it always, and both operators leave `ops`.
   */
  function Eliminate(g: GraphState, prev: OpId, succ: OpId): GraphState
    requires prev in g.os && succ in g.os
    requires |g.os[prev].inputs| == 1 && |g.os[prev].outputs| == 1 && |g.os[succ].outputs| == 1
  {
    var t, x, t0 := g.os[succ].outputs[0], g.os[prev].inputs[0], g.os[prev].outputs[0];
    var consumers := LiveAmong(g.os[succ].succs, g.ops);
    var feeders := LiveAmong(g.os[prev].preds, g.ops);
    var readers := Readers(g.os, consumers, t);
    GraphState(
      RetargetedA(g.ts, prev, t, x, readers),
      RewiredA(g.os, prev, succ, t, x, consumers, feeders),
      RemoveFirst(if readers == {} then g.tensors else RemoveFirst(g.tensors, t), t0),
      RemoveFirst(RemoveFirst(g.ops, prev), succ))
  }

  // ---------------------------------------------------------------- fusion

  /** A MatMul's inputs and flags. */
  datatype MatMulAttrs = MatMulAttrs(inputs: seq<TensorId>, transA: bool, transB: bool)

  /**
   One step of the fusion's input loop as written: slot `k` holds `t`, so
   `transA` flips when it equals input 0 and `transB` when it equals input
   1 (compared with the inputs as they are now), then the slot reads `x`.
   */
  function FuseSlotAsWritten(m: MatMulAttrs, k: nat, t: TensorId, x: TensorId): (r: MatMulAttrs)
    requires |m.inputs| == 2 && k < 2
    ensures |r.inputs| == 2
  {
    if m.inputs[k] != t then m
    else MatMulAttrs(m.inputs[k := x],
                     if m.inputs[k] == m.inputs[0] then !m.transA else m.transA,
                     if m.inputs[k] == m.inputs[1] then !m.transB else m.transB)
  }

  /** The fusion's input loop as written: slot 0, then slot 1. */
  function FuseAsWritten(m: MatMulAttrs, t: TensorId, x: TensorId): (r: MatMulAttrs)
    requires |m.inputs| == 2
    ensures |r.inputs| == 2
  {
    FuseSlotAsWritten(FuseSlotAsWritten(m, 0, t, x), 1, t, x)
  }

  /**
   The fusion as intended: every input that is `t` reads `x`, and the flag
   of each such input flips once.
   */
  function Fuse(m: MatMulAttrs, t: TensorId, x: TensorId): (r: MatMulAttrs)
    requires |m.inputs| == 2
    ensures r.inputs == ReplaceAll(m.inputs, t, x)
    ensures r.transA == (m.transA != (m.inputs[0] == t))
    ensures r.transB == (m.transB != (m.inputs[1] == t))
  {
    MatMulAttrs(ReplaceAll(m.inputs, t, x), m.transA != (m.inputs[0] == t), m.transB != (m.inputs[1] == t))
  }

  /** The loop as written agrees with the intended fusion unless both inputs are `t`. */
  lemma FuseAsWrittenAgrees(m: MatMulAttrs, t: TensorId, x: TensorId)
    requires |m.inputs| == 2 && !(m.inputs[0] == t && m.inputs[1] == t)
    ensures FuseAsWritten(m, t, x) == Fuse(m, t, x)
  {
    assert ReplaceAll(m.inputs, t, x) == FuseAsWritten(m, t, x).inputs;
  }

  /**
   When both inputs are the Transpose's output, the loop as written flips
   `transB` twice (once from slot 0, once from slot 1), so it ends unchanged.
   */
  lemma FuseAsWrittenDoubleToggle(m: MatMulAttrs, t: TensorId, x: TensorId)
    requires m.inputs == [t, t] && x != t
    ensures FuseAsWritten(m, t, x) == MatMulAttrs([x, x], !m.transA, m.transB)
    ensures Fuse(m, t, x) == MatMulAttrs([x, x], !m.transA, !m.transB)
  {
    assert ReplaceAll(m.inputs, t, x) == [x, x];
  }

  /**
   The double toggle changes the result: with `x` of shape `[2, 3]`, its
   transpose `t` of shape `[3, 2]`, and `MatMul(t, t, transB)`, inference
   gives `[1, 3, 3]`; the as-written fusion `MatMul(x, x, transA, transB)`
   fails on the inner dimensions, and the intended one gives `[1, 3, 3]`.
   */
  lemma FuseAsWrittenBreaksShape()
    ensures SwapLast([2, 3]) == [3, 2]
    ensures MatMul.InferShape([3, 2], [3, 2], false, true) == Ok([[1, 3, 3]])
    ensures MatMul.InferShape([2, 3], [2, 3], true, true).Err?
    ensures MatMul.InferShape([2, 3], [2, 3], true, false) == Ok([[1, 3, 3]])
  {
    MatMul.RankTwoOperands([3, 2], [3, 2], false, true);
    MatMul.RankTwoOperands([2, 3], [2, 3], true, false);
    MatMul.InferShapeSpec([2, 3], [2, 3], true, true);
  }

  /**
   The intended fusion keeps the MatMul's inferred shape: when `t`'s shape
   is `x`'s with the last two axes swapped, reading `x` with the flipped
   flags infers what reading `t` did.
   */
  lemma FuseKeepsShape(m: MatMulAttrs, t: TensorId, x: TensorId, ts: map<TensorId, Tensor>)
    requires |m.inputs| == 2 && m.inputs[0] in ts && m.inputs[1] in ts && t in ts && x in ts
    requires |ts[m.inputs[0]].shape| >= 2 && |ts[m.inputs[1]].shape| >= 2 && |ts[x].shape| >= 2
    requires ts[t].shape == SwapLast(ts[x].shape)
    ensures var f := Fuse(m, t, x);
      MatMul.InferShape(ts[f.inputs[0]].shape, ts[f.inputs[1]].shape, f.transA, f.transB)
        == MatMul.InferShape(ts[m.inputs[0]].shape, ts[m.inputs[1]].shape, m.transA, m.transB)
  {
    var f := Fuse(m, t, x);
    var a, b := ts[m.inputs[0]].shape, ts[m.inputs[1]].shape;
    var a', b' := ts[f.inputs[0]].shape, ts[f.inputs[1]].shape;
    SwapLastInvolution(ts[x].shape);
    if m.inputs[0] == t {
      MatMul.ToggleTransA(a', b', m.transA, f.transB);
    }
    if m.inputs[1] == t {
      MatMul.ToggleTransB(a, b', m.transA, m.transB);
    }
  }

  /**
   An operator record after a fusion: the MatMul takes the new inputs and
   flags, loses `prev` and gains the live predecessors `feeders` of `prev`;
   each of those trades `prev` for the MatMul.
   */
  function RewireB(r: Operator, o: OpId, prev: OpId, mm: OpId, f: MatMulAttrs, feeders: set<OpId>): (r': Operator)
    ensures r'.outputs == r.outputs
    ensures o != mm ==> r'.kind == r.kind && r'.inputs == r.inputs
  {
    var r1 := if o == mm then r.(kind := MatMulOp(f.transA, f.transB), inputs := f.inputs, preds := (r.preds - {prev}) + feeders) else r;
    if o in feeders then r1.(succs := (r1.succs - {prev}) + {mm}) else r1
  }

  /**
   Rule B with the MatMul's new inputs and flags `f`: `x` trades `prev` for
   the MatMul when the MatMul read `t`; `t` leaves `tensors` and `prev`
   leaves `ops`.
   */
  function FuseInto(g: GraphState, prev: OpId, mm: OpId, f: MatMulAttrs): GraphState
    requires prev in g.os && mm in g.os
    requires |g.os[prev].inputs| == 1 && |g.os[prev].outputs| == 1
  {
    var t, x := g.os[prev].outputs[0], g.os[prev].inputs[0];
    var feeders := LiveAmong(g.os[prev].preds, g.ops);
    GraphState(
      RetargetedB(g.ts, prev, mm, x, t in g.os[mm].inputs),
      RewiredB(g.os, prev, mm, f, feeders),
      RemoveFirst(g.tensors, t),
      RemoveFirst(g.ops, prev))
  }

  /** Every operator record rewired for a fusion. */
  function RewiredB(os: map<OpId, Operator>, prev: OpId, mm: OpId, f: MatMulAttrs, feeders: set<OpId>): (r: map<OpId, Operator>)
    ensures r.Keys == os.Keys
    ensures forall o :: o in os ==> r[o] == RewireB(os[o], o, prev, mm, f, feeders)
  {
    map o | o in os :: RewireB(os[o], o, prev, mm, f, feeders)
  }

  /** The tensor records after a fusion: when the MatMul read the Transpose's output, `x` trades `prev` for it. */
  function RetargetedB(ts: map<TensorId, Tensor>, prev: OpId, mm: OpId, x: TensorId, consumed: bool): (r: map<TensorId, Tensor>)
    ensures r.Keys == ts.Keys
    ensures forall u :: u in ts ==> r[u] == if u == x && consumed then ts[u].(targets := (ts[u].targets - {prev}) + {mm}) else ts[u]
  {
    map u | u in ts :: if u == x && consumed then ts[u].(targets := (ts[u].targets - {prev}) + {mm}) else ts[u]
  }

  /** The MatMul's attributes as a record. */
  function AttrsOf(r: Operator): MatMulAttrs
    requires r.kind.MatMulOp?
  {
    MatMulAttrs(r.inputs, r.kind.transA, r.kind.transB)
  }

  /** Rule B as intended: each input that was the Transpose's output flips its own flag. */
  function FuseTranspose(g: GraphState, prev: OpId, mm: OpId): GraphState
    requires prev in g.os && mm in g.os && g.os[mm].kind.MatMulOp? && |g.os[mm].inputs| == 2
    requires |g.os[prev].inputs| == 1 && |g.os[prev].outputs| == 1
  {
    FuseInto(g, prev, mm, Fuse(AttrsOf(g.os[mm]), g.os[prev].outputs[0], g.os[prev].inputs[0]))
  }

  /** The rewrite the optimizer performs on an applicable pair. */
  function Rewrite(g: GraphState, prev: OpId, succ: OpId): GraphState
    requires Good(g) && Applies(g, prev, succ)
  {
    PairArity(g, prev, succ);
    if g.os[succ].kind.Transpose? then Eliminate(g, prev, succ) else FuseTranspose(g, prev, succ)
  }

  /** The operators a rewrite takes out of `ops`. */
  function Removed(g: GraphState, prev: OpId, succ: OpId): set<OpId>
    requires succ in g.os
  {
    if g.os[succ].kind.Transpose? then {prev, succ} else {prev}
  }

  // ---------------------------------------------------------------- the invariant

  /** Stores whose records were each rebuilt closed over the old keys are closed. */
  lemma ClosedAfterRewiring(ts: map<TensorId, Tensor>, os: map<OpId, Operator>,
                            ts': map<TensorId, Tensor>, os': map<OpId, Operator>)
    requires ts'.Keys == ts.Keys && os'.Keys == os.Keys
    requires forall o :: o in os ==> OpRecordClosed(os'[o], ts, os)
    requires forall u :: u in ts ==> TensorRecordClosed(ts'[u], os)
    ensures StoresClosed(ts', os')
  {
    forall o | o in os' ensures OpRecordClosed(os'[o], ts', os') {
      assert OpRecordClosed(os'[o], ts, os);
    }
  }

  lemma RewireAClosed(r: Operator, o: OpId, prev: OpId, succ: OpId, t: TensorId, x: TensorId,
                      consumers: set<OpId>, feeders: set<OpId>, ts: map<TensorId, Tensor>, os: map<OpId, Operator>)
    requires OpRecordClosed(r, ts, os) && x in ts && consumers <= os.Keys && feeders <= os.Keys
    ensures OpRecordClosed(RewireA(r, o, prev, succ, t, x, consumers, feeders), ts, os)
  {
  }

  lemma RewireBClosed(r: Operator, o: OpId, prev: OpId, mm: OpId, f: MatMulAttrs, feeders: set<OpId>,
                      ts: map<TensorId, Tensor>, os: map<OpId, Operator>)
    requires OpRecordClosed(r, ts, os) && mm in os && feeders <= os.Keys
    requires o == mm ==> |f.inputs| == 2 && |r.outputs| == 1 && forall u :: u in f.inputs ==> u in ts
    ensures OpRecordClosed(RewireB(r, o, prev, mm, f, feeders), ts, os)
  {
  }

  /** The stores after an elimination stay closed. */
  lemma RewiredAClosed(ts: map<TensorId, Tensor>, os: map<OpId, Operator>, prev: OpId, succ: OpId, t: TensorId, x: TensorId,
                       consumers: set<OpId>, feeders: set<OpId>, readers: set<OpId>)
    requires StoresClosed(ts, os) && x in ts && consumers <= os.Keys && feeders <= os.Keys && readers <= os.Keys
    ensures StoresClosed(RetargetedA(ts, prev, t, x, readers), RewiredA(os, prev, succ, t, x, consumers, feeders))
  {
    var os' := RewiredA(os, prev, succ, t, x, consumers, feeders);
    forall o | o in os ensures OpRecordClosed(os'[o], ts, os) {
      RewireAClosed(os[o], o, prev, succ, t, x, consumers, feeders, ts, os);
    }
    ClosedAfterRewiring(ts, os, RetargetedA(ts, prev, t, x, readers), os');
  }

  /** The stores after a fusion stay closed. */
  lemma RewiredBClosed(ts: map<TensorId, Tensor>, os: map<OpId, Operator>, prev: OpId, mm: OpId, x: TensorId,
                       consumed: bool, f: MatMulAttrs, feeders: set<OpId>)
    requires StoresClosed(ts, os) && mm in os && |os[mm].outputs| == 1 && feeders <= os.Keys
    requires |f.inputs| == 2 && forall u :: u in f.inputs ==> u in ts
    ensures StoresClosed(RetargetedB(ts, prev, mm, x, consumed), RewiredB(os, prev, mm, f, feeders))
  {
    var os' := RewiredB(os, prev, mm, f, feeders);
    forall o | o in os ensures OpRecordClosed(os'[o], ts, os) {
      RewireBClosed(os[o], o, prev, mm, f, feeders, ts, os);
    }
    ClosedAfterRewiring(ts, os, RetargetedB(ts, prev, mm, x, consumed), os');
  }

  /** The arities of a Transpose and of its rewrite partner, read off the closed arena. */
  lemma PairArity(g: GraphState, prev: OpId, succ: OpId)
    requires Good(g) && Applies(g, prev, succ)
    ensures OpRecordClosed(g.os[prev], g.ts, g.os) && OpRecordClosed(g.os[succ], g.ts, g.os)
    ensures |g.os[prev].inputs| == 1 && |g.os[prev].outputs| == 1 && |g.os[succ].outputs| == 1
    ensures g.os[succ].kind.MatMulOp? ==> |g.os[succ].inputs| == 2
  {
  }

  /**
   A graph built from a good one by rebuilding records under the same keys,
   closed, and by dropping entries of the duplicate-free lists, is good as
   long as no live operator turns into a Transpose of another permutation.
   */
  lemma GoodAfter(g: GraphState, g': GraphState)
    requires Good(g) && StoresClosed(g'.ts, g'.os)
    requires g'.ts.Keys == g.ts.Keys && g'.os.Keys == g.os.Keys
    requires Distinct(g'.ops) && Distinct(g'.tensors)
    requires forall o :: o in g'.ops ==> o in g.ops
    requires forall u :: u in g'.tensors ==> u in g.tensors
    requires forall o :: o in g.os ==> g'.os[o].kind == g.os[o].kind || g'.os[o].kind.MatMulOp?
    ensures Good(g')
  {
  }

  /** Elimination keeps the graph invariant. */
  lemma EliminateKeepsGood(g: GraphState, prev: OpId, succ: OpId)
    requires Good(g) && Applies(g, prev, succ) && g.os[succ].kind.Transpose?
    ensures Good(Eliminate(g, prev, succ))
  {
    PairArity(g, prev, succ);
    var g' := Eliminate(g, prev, succ);
    var t, x, t0 := g.os[succ].outputs[0], g.os[prev].inputs[0], g.os[prev].outputs[0];
    var consumers := LiveAmong(g.os[succ].succs, g.ops);
    var feeders := LiveAmong(g.os[prev].preds, g.ops);
    var readers := Readers(g.os, consumers, t);
    RewiredAClosed(g.ts, g.os, prev, succ, t, x, consumers, feeders, readers);
    var tensors1 := if readers == {} then g.tensors else RemoveFirst(g.tensors, t);
    RemoveFirstDistinct(g.tensors, t);
    RemoveFirstDistinct(tensors1, t0);
    RemoveFirstDistinct(g.ops, prev);
    RemoveFirstDistinct(RemoveFirst(g.ops, prev), succ);
    GoodAfter(g, g');
  }

  /** Fusion with any two stored inputs keeps the graph invariant. */
  lemma FuseIntoKeepsGood(g: GraphState, prev: OpId, mm: OpId, f: MatMulAttrs)
    requires Good(g) && Applies(g, prev, mm) && g.os[mm].kind.MatMulOp?
    requires |f.inputs| == 2 && forall u :: u in f.inputs ==> u in g.ts
    ensures Good(FuseInto(g, prev, mm, f))
  {
    PairArity(g, prev, mm);
    var g' := FuseInto(g, prev, mm, f);
    var t, x := g.os[prev].outputs[0], g.os[prev].inputs[0];
    var feeders := LiveAmong(g.os[prev].preds, g.ops);
    RewiredBClosed(g.ts, g.os, prev, mm, x, t in g.os[mm].inputs, f, feeders);
    RemoveFirstDistinct(g.tensors, t);
    RemoveFirstDistinct(g.ops, prev);
    GoodAfter(g, g');
  }

  /** The MatMul's inputs and flags after the intended fusion with `prev`. */
  function FusedAttrs(g: GraphState, prev: OpId, mm: OpId): MatMulAttrs
    requires Good(g) && Applies(g, prev, mm) && g.os[mm].kind.MatMulOp?
  {
    PairArity(g, prev, mm);
    Fuse(AttrsOf(g.os[mm]), g.os[prev].outputs[0], g.os[prev].inputs[0])
  }

  /** The intended fusion reads only stored tensors. */
  lemma FuseStored(g: GraphState, prev: OpId, mm: OpId)
    requires Good(g) && Applies(g, prev, mm) && g.os[mm].kind.MatMulOp?
    ensures |FusedAttrs(g, prev, mm).inputs| == 2 && forall u :: u in FusedAttrs(g, prev, mm).inputs ==> u in g.ts
  {
    PairArity(g, prev, mm);
    var f := Fuse(AttrsOf(g.os[mm]), g.os[prev].outputs[0], g.os[prev].inputs[0]);
    assert forall i :: 0 <= i < 2 ==> f.inputs[i] in g.ts;
  }

  /** Every rewrite keeps the graph invariant. */
  lemma RewriteKeepsGood(g: GraphState, prev: OpId, succ: OpId)
    requires Good(g) && Applies(g, prev, succ)
    ensures Good(Rewrite(g, prev, succ))
  {
    PairArity(g, prev, succ);
    if g.os[succ].kind.Transpose? {
      EliminateKeepsGood(g, prev, succ);
    } else {
      FuseStored(g, prev, succ);
      FuseIntoKeepsGood(g, prev, succ, Fuse(AttrsOf(g.os[succ]), g.os[prev].outputs[0], g.os[prev].inputs[0]));
    }
  }

  /**
   Every rewrite takes the rewritten operators, and nothing else, out of
   `ops`, keeping the order of the rest; so `ops` gets shorter.
   */
  lemma RewriteShrinks(g: GraphState, prev: OpId, succ: OpId)
    requires Good(g) && Applies(g, prev, succ)
    ensures Rewrite(g, prev, succ).ops == Without(g.ops, Removed(g, prev, succ))
    ensures |Rewrite(g, prev, succ).ops| < |g.ops|
  {
    RewriteOps(g, prev, succ);
    RemoveBoth(g.ops, prev, succ, g.os[succ].kind.Transpose?);
  }

  /** The list a rewrite leaves in `ops`. */
  lemma RewriteOps(g: GraphState, prev: OpId, succ: OpId)
    requires Good(g) && Applies(g, prev, succ)
    ensures Rewrite(g, prev, succ).ops == if g.os[succ].kind.Transpose? then RemoveFirst(RemoveFirst(g.ops, prev), succ) else RemoveFirst(g.ops, prev)
  {
  }

  lemma RemoveBoth(ops: seq<OpId>, prev: OpId, succ: OpId, both: bool)
    requires Distinct(ops) && prev in ops
    ensures var r := if both then RemoveFirst(RemoveFirst(ops, prev), succ) else RemoveFirst(ops, prev);
      r == Without(ops, if both then {prev, succ} else {prev}) && |r| < |ops|
  {
    RemoveFirstDistinct(ops, prev);
    if both {
      RemoveFirstDistinct(RemoveFirst(ops, prev), succ);
      WithoutWithout(ops, {prev}, {succ});
      assert {prev} + {succ} == {prev, succ};
    }
  }

  // ---------------------------------------------------------------- what a rewrite keeps

  /**
   The shapes around the rewritten pair are the ones shape inference gives:
   `prev`'s output is its input permuted by its `perm`; for an elimination,
   `succ` reads that output and its own output is it permuted in turn.
   */
  ghost predicate PairShapes(g: GraphState, prev: OpId, succ: OpId)
    requires Good(g) && Applies(g, prev, succ)
  {
    PairArity(g, prev, succ);
    var p, x, t0 := g.os[prev].kind.perm, g.os[prev].inputs[0], g.os[prev].outputs[0];
    && IsPermIndex(p, |g.ts[x].shape|) && g.ts[t0].shape == PermuteShape(g.ts[x].shape, p)
    && (g.os[succ].kind.Transpose? ==>
          var q, t := g.os[succ].kind.perm, g.os[succ].outputs[0];
          && g.os[succ].inputs[0] == t0
          && IsPermIndex(q, |g.ts[t0].shape|) && g.ts[t].shape == PermuteShape(g.ts[t0].shape, q))
  }

  /** No tensor's shape changes, and no tensor record appears or disappears. */
  ghost predicate ShapesKept(g: GraphState, g': GraphState)
  {
    g'.ts.Keys == g.ts.Keys && forall u :: u in g.ts ==> g'.ts[u].shape == g.ts[u].shape
  }

  /** Record `r'` over `ts'` writes the same outputs and infers the same shapes as `r` over `ts`. */
  ghost predicate SameRecordInference(r: Operator, ts: map<TensorId, Tensor>, r': Operator, ts': map<TensorId, Tensor>, other: OtherInference)
  {
    && (forall u :: u in r.inputs ==> u in ts)
    && (forall u :: u in r'.inputs ==> u in ts')
    && r'.outputs == r.outputs
    && InferOp(r', ShapesOf(ts', r'.inputs), other) == InferOp(r, ShapesOf(ts, r.inputs), other)
  }

  /** Operator `o` writes the same outputs and infers the same shapes in `g'` as in `g`. */
  ghost predicate SameInference(g: GraphState, g': GraphState, o: OpId, other: OtherInference)
  {
    o in g.os && o in g'.os && SameRecordInference(g.os[o], g.ts, g'.os[o], g'.ts, other)
  }

  /** Reading a tensor of the same shape instead of another gives the same input shapes. */
  lemma ReplaceSameShape(ts: map<TensorId, Tensor>, ts': map<TensorId, Tensor>, ins: seq<TensorId>, t: TensorId, x: TensorId)
    requires forall u :: u in ins ==> u in ts
    requires x in ts && ts'.Keys == ts.Keys && forall u :: u in ts ==> ts'[u].shape == ts[u].shape
    requires t in ins ==> ts[t].shape == ts[x].shape
    ensures forall u :: u in ReplaceAll(ins, t, x) ==> u in ts'
    ensures ShapesOf(ts', ReplaceAll(ins, t, x)) == ShapesOf(ts, ins)
  {
    var r := ReplaceAll(ins, t, x);
    assert forall i :: 0 <= i < |ins| ==> ShapesOf(ts', r)[i] == ts'[r[i]].shape == ts[ins[i]].shape;
  }

  /** Input shapes depend on the shapes of the records only. */
  lemma ShapesOfKept(ts: map<TensorId, Tensor>, ts': map<TensorId, Tensor>, ins: seq<TensorId>)
    requires forall u :: u in ins ==> u in ts
    requires ts'.Keys == ts.Keys && forall u :: u in ts ==> ts'[u].shape == ts[u].shape
    ensures ShapesOf(ts', ins) == ShapesOf(ts, ins)
  {
    assert forall i :: 0 <= i < |ins| ==> ShapesOf(ts', ins)[i] == ShapesOf(ts, ins)[i];
  }

  /** One record under elimination infers what it did, given that `t` and `x` have the same shape. */
  lemma RewireAInference(r: Operator, o: OpId, prev: OpId, succ: OpId, t: TensorId, x: TensorId,
                         consumers: set<OpId>, feeders: set<OpId>,
                         ts: map<TensorId, Tensor>, ts': map<TensorId, Tensor>, other: OtherInference)
    requires forall u :: u in r.inputs ==> u in ts
    requires x in ts && ts'.Keys == ts.Keys && forall u :: u in ts ==> ts'[u].shape == ts[u].shape
    requires t in r.inputs ==> ts[t].shape == ts[x].shape
    ensures SameRecordInference(r, ts, RewireA(r, o, prev, succ, t, x, consumers, feeders), ts', other)
  {
    ReplaceSameShape(ts, ts', r.inputs, t, x);
    ShapesOfKept(ts, ts', r.inputs);
  }

  /**
   Elimination keeps what shape inference computes: the consumers now read
   the first Transpose's input, which has the shape the second one output,
   because the two permutations cancel.
   */
  lemma EliminationKeepsInference(g: GraphState, prev: OpId, succ: OpId, other: OtherInference)
    requires Good(g) && Applies(g, prev, succ) && g.os[succ].kind.Transpose? && PairShapes(g, prev, succ)
    ensures ShapesKept(g, Eliminate(g, prev, succ))
    ensures forall o :: o in Eliminate(g, prev, succ).ops ==> SameInference(g, Eliminate(g, prev, succ), o, other)
  {
    PairArity(g, prev, succ);
    var g' := Eliminate(g, prev, succ);
    var p, q := g.os[prev].kind.perm, g.os[succ].kind.perm;
    var t, x := g.os[succ].outputs[0], g.os[prev].inputs[0];
    CancelsRestoresShape(g.ts[x].shape, p, q);
    var consumers := LiveAmong(g.os[succ].succs, g.ops);
    var feeders := LiveAmong(g.os[prev].preds, g.ops);
    assert ShapesKept(g, g');
    forall o | o in g'.ops ensures SameInference(g, g', o, other) {
      assert o in g.ops;
      assert OpRecordClosed(g.os[o], g.ts, g.os);
      RewireAInference(g.os[o], o, prev, succ, t, x, consumers, feeders, g.ts, g'.ts, other);
    }
  }

  /**
   A MatMul record `r'` that takes the intended fusion's inputs and flags
   infers what `r` did, when `t`'s shape is `x`'s with the last two axes
   swapped.
   */
  lemma FusedInference(r: Operator, r': Operator, t: TensorId, x: TensorId, ts: map<TensorId, Tensor>, other: OtherInference)
    requires r.kind.MatMulOp? && |r.inputs| == 2 && forall u :: u in r.inputs ==> u in ts
    requires t in ts && x in ts && |ts[x].shape| >= 2 && ts[t].shape == SwapLast(ts[x].shape)
    requires r'.kind == MatMulOp(Fuse(AttrsOf(r), t, x).transA, Fuse(AttrsOf(r), t, x).transB)
    requires r'.inputs == Fuse(AttrsOf(r), t, x).inputs
    ensures forall u :: u in r'.inputs ==> u in ts
    ensures InferOp(r', ShapesOf(ts, r'.inputs), other) == InferOp(r, ShapesOf(ts, r.inputs), other)
  {
    var m := AttrsOf(r);
    var f := Fuse(m, t, x);
    assert forall i :: 0 <= i < 2 ==> f.inputs[i] in ts;
    var before, after := ShapesOf(ts, m.inputs), ShapesOf(ts, f.inputs);
    assert before[0] == ts[m.inputs[0]].shape && before[1] == ts[m.inputs[1]].shape;
    assert after[0] == ts[f.inputs[0]].shape && after[1] == ts[f.inputs[1]].shape;
    assert |after[0]| == |before[0]| && |after[1]| == |before[1]|;
    if |before[0]| >= 2 && |before[1]| >= 2 {
      FuseKeepsShape(m, t, x, ts);
      assert MatMul.InferShape(after[0], after[1], f.transA, f.transB) == MatMul.InferShape(before[0], before[1], m.transA, m.transB);
    }
    MatMulSameInference(r, r', before, after, other);
  }

  /** Two MatMul records infer alike from shapes of the same ranks that `inferShape` maps alike. */
  lemma MatMulSameInference(r: Operator, r': Operator, s: seq<Shape>, s': seq<Shape>, other: OtherInference)
    requires r.kind.MatMulOp? && r'.kind.MatMulOp? && |s| == 2 && |s'| == 2
    requires |s'[0]| == |s[0]| && |s'[1]| == |s[1]|
    requires |s[0]| >= 2 && |s[1]| >= 2 ==>
      MatMul.InferShape(s'[0], s'[1], r'.kind.transA, r'.kind.transB) == MatMul.InferShape(s[0], s[1], r.kind.transA, r.kind.transB)
    ensures InferOp(r', s', other) == InferOp(r, s, other)
  {
  }

  /**
   Fusion keeps what shape inference computes: the MatMul infers from the
   Transpose's input with the flipped flags what it inferred from the
   Transpose's output, and every other operator is untouched.
   */
  lemma FusionKeepsInference(g: GraphState, prev: OpId, mm: OpId, other: OtherInference)
    requires Good(g) && Applies(g, prev, mm) && g.os[mm].kind.MatMulOp? && PairShapes(g, prev, mm)
    ensures ShapesKept(g, Rewrite(g, prev, mm))
    ensures forall o :: o in Rewrite(g, prev, mm).ops ==> SameInference(g, Rewrite(g, prev, mm), o, other)
  {
    PairArity(g, prev, mm);
    var g' := Rewrite(g, prev, mm);
    var t, x := g.os[prev].outputs[0], g.os[prev].inputs[0];
    var f := Fuse(AttrsOf(g.os[mm]), t, x);
    var feeders := LiveAmong(g.os[prev].preds, g.ops);
    assert g' == FuseInto(g, prev, mm, f);
    assert ShapesKept(g, g');
    TrailingSwapIsSwapLast(g.ts[x].shape, g.os[prev].kind.perm);
    forall o | o in g'.ops ensures SameInference(g, g', o, other) {
      assert o in g.ops;
      var r := g.os[o];
      assert OpRecordClosed(r, g.ts, g.os);
      if o == mm {
        FusedInference(r, g'.os[o], t, x, g.ts, other);
        ShapesOfKept(g.ts, g'.ts, f.inputs);
      } else {
        ShapesOfKept(g.ts, g'.ts, r.inputs);
      }
    }
  }

  /**
   Every rewrite keeps every tensor's shape and, for every operator left in
   `ops`, its outputs and what shape inference computes for it.
   */
  lemma RewriteKeepsInference(g: GraphState, prev: OpId, succ: OpId, other: OtherInference)
    requires Good(g) && Applies(g, prev, succ) && PairShapes(g, prev, succ)
    ensures ShapesKept(g, Rewrite(g, prev, succ))
    ensures forall o :: o in Rewrite(g, prev, succ).ops ==> SameInference(g, Rewrite(g, prev, succ), o, other)
  {
    if g.os[succ].kind.Transpose? {
      EliminationKeepsInference(g, prev, succ, other);
    } else {
      FusionKeepsInference(g, prev, succ, other);
    }
  }

  // ---------------------------------------------------------------- the trigger as written

  /** An elimination hands each live successor of `succ` a copy of its record reading `x` for `t`, and no shape changes. */
  lemma EliminateRewiresReader(g: GraphState, prev: OpId, succ: OpId, c: OpId)
    requires prev in g.os && succ in g.os && c in g.os
    requires |g.os[prev].inputs| == 1 && |g.os[prev].outputs| == 1 && |g.os[succ].outputs| == 1
    requires c in LiveAmong(g.os[succ].succs, g.ops)
    ensures var h, t, x := Eliminate(g, prev, succ), g.os[succ].outputs[0], g.os[prev].inputs[0];
      && c in h.os && h.os[c].kind == g.os[c].kind
      && h.os[c].inputs == ReplaceAll(g.os[c].inputs, t, x)
      && h.ts.Keys == g.ts.Keys && forall u :: u in g.ts ==> h.ts[u].shape == g.ts[u].shape
  {
  }

  /** What inference computes for a rewired successor of `succ` is what it computes on the old shapes of its new inputs. */
  lemma EliminateRewiresInference(g: GraphState, prev: OpId, succ: OpId, c: OpId, other: OtherInference)
    requires prev in g.os && succ in g.os && c in g.os
    requires |g.os[prev].inputs| == 1 && |g.os[prev].outputs| == 1 && |g.os[succ].outputs| == 1
    requires c in LiveAmong(g.os[succ].succs, g.ops)
    requires forall u :: u in ReplaceAll(g.os[c].inputs, g.os[succ].outputs[0], g.os[prev].inputs[0]) ==> u in g.ts
    ensures var h, ins := Eliminate(g, prev, succ), ReplaceAll(g.os[c].inputs, g.os[succ].outputs[0], g.os[prev].inputs[0]);
      && c in h.os && (forall u :: u in h.os[c].inputs ==> u in h.ts)
      && InferOp(h.os[c], ShapesOf(h.ts, h.os[c].inputs), other) == InferOp(g.os[c], ShapesOf(g.ts, ins), other)
  {
    EliminateRewiresReader(g, prev, succ, c);
    var h, ins := Eliminate(g, prev, succ), ReplaceAll(g.os[c].inputs, g.os[succ].outputs[0], g.os[prev].inputs[0]);
    assert ShapesOf(h.ts, h.os[c].inputs) == ShapesOf(g.ts, ins);
  }

  /**
   Transposes 10 and 11, both `[1, 2, 0]`, in a row on a `[2, 3, 4]` input;
   MatMul 12 reads 11's output with a `[3, 5]` weight.
   */
  function EqualPermGraph(): GraphState
  {
    GraphState(
      map[0 := Tensor(0, [2, 3, 4], 4, None, {10}),
          1 := Tensor(1, [3, 4, 2], 4, Some(10), {11}),
          2 := Tensor(2, [4, 2, 3], 4, Some(11), {12}),
          3 := Tensor(3, [3, 5], 4, None, {12}),
          4 := Tensor(4, [4, 2, 5], 4, Some(12), {})],
      map[10 := Operator(Transpose([1, 2, 0]), [0], [1], {}, {11}),
          11 := Operator(Transpose([1, 2, 0]), [1], [2], {10}, {12}),
          12 := Operator(MatMulOp(false, false), [2, 3], [4], {11}, {})],
      [0, 1, 2, 3, 4],
      [10, 11, 12])
  }

  /**
   The trigger as written fires on two equal permutations that do not undo
   each other; the MatMul rewired by the elimination then reads the
   `[2, 3, 4]` input instead of the `[4, 2, 3]` tensor and its inference
   fails, where before it inferred `[4, 2, 5]`.
   */
  lemma EqualPermsBreakInference(other: OtherInference)
    ensures var g := EqualPermGraph();
      && AppliesAsWritten(g, 10, 11) && !Applies(g, 10, 11)
      && InferOp(g.os[12], ShapesOf(g.ts, g.os[12].inputs), other) == Some([[4, 2, 5]])
      && var h := Eliminate(g, 10, 11);
         12 in h.os && (forall u :: u in h.os[12].inputs ==> u in h.ts)
         && InferOp(h.os[12], ShapesOf(h.ts, h.os[12].inputs), other) == None
  {
    EqualPermTriggers();
    EqualPermInfersBefore(other);
    EqualPermFailsAfter(other);
  }

  /** The equal permutations trigger rule A as written, but do not cancel. */
  lemma EqualPermTriggers()
    ensures var g := EqualPermGraph(); AppliesAsWritten(g, 10, 11) && !Applies(g, 10, 11)
  {
    Shapes.EqualPermsMayNotCancel();
  }

  /** Before the rewrite the MatMul infers `[4, 2, 5]`. */
  lemma EqualPermInfersBefore(other: OtherInference)
    ensures var g := EqualPermGraph(); InferOp(g.os[12], ShapesOf(g.ts, g.os[12].inputs), other) == Some([[4, 2, 5]])
  {
    var g := EqualPermGraph();
    assert ShapesOf(g.ts, g.os[12].inputs) == [[4, 2, 3], [3, 5]];
    BatchedProduct();
  }

  /** A `[4, 2, 3]` batch times a `[3, 5]` matrix is `[4, 2, 5]`. */
  lemma BatchedProduct()
    ensures MatMul.InferShape([4, 2, 3], [3, 5], false, false) == Ok([[4, 2, 5]])
  {
    var sa: Shape, sb: Shape := [4, 2, 3], [3, 5];
    assert MatMul.Operand(sa, false) == sa && MatMul.Operand(sb, false) == sb;
    assert sa[..1] == [4] && sb[..0] == [];
    assert Broadcast([4], []) == Some([4]);
    assert [4] + [2, 5] == [4, 2, 5];
  }

  /** A `[2, 3, 4]` batch cannot multiply a `[3, 5]` matrix: 4 columns against 3 rows. */
  lemma MismatchedProduct()
    ensures MatMul.InferShape([2, 3, 4], [3, 5], false, false).Err?
  {
    MatMul.InferShapeSpec([2, 3, 4], [3, 5], false, false);
  }

  /** After the rewrite as written the MatMul reads `[2, 3, 4]` against `[3, 5]`, and inference fails. */
  lemma EqualPermFailsAfter(other: OtherInference)
    ensures var h := Eliminate(EqualPermGraph(), 10, 11);
      && 12 in h.os && (forall u :: u in h.os[12].inputs ==> u in h.ts)
      && InferOp(h.os[12], ShapesOf(h.ts, h.os[12].inputs), other) == None
  {
    var g := EqualPermGraph();
    assert ReplaceAll([2, 3], 2, 0) == [0, 3];
    EliminateRewiresInference(g, 10, 11, 12, other);
    EqualPermRewiredFails(other);
  }

  /** The MatMul reading the input and the weight fails to infer. */
  lemma EqualPermRewiredFails(other: OtherInference)
    ensures var g := EqualPermGraph(); InferOp(g.os[12], ShapesOf(g.ts, [0, 3]), other) == None
  {
    var g := EqualPermGraph();
    assert ShapesOf(g.ts, [0, 3]) == [[2, 3, 4], [3, 5]];
    MismatchedProduct();
  }
}
