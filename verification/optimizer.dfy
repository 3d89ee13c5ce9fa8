/**
 The optimizer's driver: scan `ops` in order for a Transpose and a
 successor to rewrite with, rewrite the first such pair, and rescan until
 none is left. A pair is rewritten only when the rewrite is safe, so a
 linked graph that passes `checkValid` still does afterwards.
 */
module Optimizer {
  import opened Common
  import opened Shapes
  import opened Graphs
  import opened ShapeInference
  import opened Links
  import opened Rewrites
  import opened RewriteValidity

  /** The optimizer rewrites `prev` with `succ`: the rule applies and the rewrite is safe. */
  predicate Rewritable(g: GraphState, prev: OpId, succ: OpId)
  {
    Applies(g, prev, succ) && Safe(g, prev, succ)
  }

  /** One rewrite the optimizer performed: the Transpose `prev` with its successor `succ`. */
  datatype Step = Step(prev: OpId, succ: OpId)

  /**
   The graph after rewriting `g0` with `steps`, in order, or none when some
   step is not rewritable in the graph it meets.
   */
  ghost function Replay(g0: GraphState, steps: seq<Step>): Option<GraphState>
    decreases |steps|
  {
    if steps == [] then Some(g0)
    else
      match Replay(g0, steps[..|steps| - 1])
      case None => None
      case Some(g) =>
        var st := steps[|steps| - 1];
        if Good(g) && Rewritable(g, st.prev, st.succ) then Some(Rewrite(g, st.prev, st.succ)) else None
  }

  /**
   Inference of the full operator set: a Transpose infers its input permuted
   by its `perm`, and every other kind answers what `other` says.
   */
  function WithTranspose(other: OtherInference): OtherInference
  {
    (k: OpKind, s: seq<Shape>) =>
      if k.Transpose? then
        if |s| == 1 && IsPermIndex(k.perm, |s[0]|) then Some([PermuteShape(s[0], k.perm)]) else None
      else other(k, s)
  }

  /** Every live operator's outputs have the shapes inference gives it, as after `shape_infer`. */
  ghost predicate Inferred(g: GraphState, other: OtherInference)
  {
    forall o :: o in g.ops ==>
      && o in g.os
      && (forall u :: u in g.os[o].inputs ==> u in g.ts)
      && (forall u :: u in g.os[o].outputs ==> u in g.ts)
      && InferOp(g.os[o], ShapesOf(g.ts, g.os[o].inputs), other) == Some(ShapesOf(g.ts, g.os[o].outputs))
  }

  /** A live Transpose of an inferred graph writes its input permuted by its `perm`. */
  lemma InferredTranspose(g: GraphState, o: OpId, other: OtherInference)
    requires Inferred(g, WithTranspose(other)) && o in g.ops && o in g.os && g.os[o].kind.Transpose?
    requires |g.os[o].inputs| == 1 && |g.os[o].outputs| == 1
    ensures var x, t := g.os[o].inputs[0], g.os[o].outputs[0];
      && x in g.ts && t in g.ts && IsPermIndex(g.os[o].kind.perm, |g.ts[x].shape|)
      && g.ts[t].shape == PermuteShape(g.ts[x].shape, g.os[o].kind.perm)
  {
    var x, t := g.os[o].inputs[0], g.os[o].outputs[0];
    assert ShapesOf(g.ts, g.os[o].inputs) == [g.ts[x].shape];
    assert ShapesOf(g.ts, g.os[o].outputs) == [g.ts[t].shape];
  }

  /** In a linked graph whose shapes are inferred, the shapes around an applicable pair are the inferred ones. */
  lemma InferredPairShapes(g: GraphState, prev: OpId, succ: OpId, other: OtherInference)
    requires Good(g) && Linked(g.ts, g.os, g.tensors, g.ops) && Applies(g, prev, succ)
    requires Inferred(g, WithTranspose(other))
    ensures PairShapes(g, prev, succ)
  {
    PairArity(g, prev, succ);
    InferredTranspose(g, prev, other);
    if g.os[succ].kind.Transpose? {
      assert Feeds(g.os, prev, succ);
      assert g.os[succ].inputs[0] == g.os[prev].outputs[0];
      InferredTranspose(g, succ, other);
    }
  }

  /** A rewrite that keeps shapes and each remaining operator's inference keeps the shapes inferred. */
  lemma RewriteKeepsInferred(g: GraphState, prev: OpId, succ: OpId, other: OtherInference)
    requires Good(g) && Applies(g, prev, succ) && PairShapes(g, prev, succ)
    requires Inferred(g, other)
    ensures Inferred(Rewrite(g, prev, succ), other)
  {
    var g' := Rewrite(g, prev, succ);
    RewriteKeepsInference(g, prev, succ, other);
    RewriteShrinks(g, prev, succ);
    forall o | o in g'.ops
      ensures InferOp(g'.os[o], ShapesOf(g'.ts, g'.os[o].inputs), other) == Some(ShapesOf(g'.ts, g'.os[o].outputs))
    {
      assert SameInference(g, g', o, other);
      ShapesOfKept(g.ts, g'.ts, g.os[o].outputs);
    }
  }

  /**
   Replaying rewrites on a linked graph that passes `checkValid` and whose
   shapes are inferred keeps it so, keeps every tensor's shape, and leaves
   every remaining operator writing the same outputs and inferring the same
   shapes as in the original graph.
   */
  lemma {:induction false} ReplayKeepsInference(g0: GraphState, steps: seq<Step>, other: OtherInference)
    requires ValidGraph(g0) && Inferred(g0, WithTranspose(other)) && Replay(g0, steps).Some?
    ensures var g := Replay(g0, steps).value;
      && ValidGraph(g) && Inferred(g, WithTranspose(other)) && ShapesKept(g0, g)
      && forall o :: o in g.ops ==> SameInference(g0, g, o, WithTranspose(other))
    decreases |steps|
  {
    var w := WithTranspose(other);
    if steps == [] {
      forall o | o in g0.ops ensures SameInference(g0, g0, o, w) {
      }
    } else {
      var g1 := Replay(g0, steps[..|steps| - 1]).value;
      ReplayKeepsInference(g0, steps[..|steps| - 1], other);
      var st := steps[|steps| - 1];
      var g := Rewrite(g1, st.prev, st.succ);
      RewriteKeepsValid(g1, st.prev, st.succ);
      InferredPairShapes(g1, st.prev, st.succ, other);
      RewriteKeepsInferred(g1, st.prev, st.succ, w);
      RewriteKeepsInference(g1, st.prev, st.succ, w);
      RewriteShrinks(g1, st.prev, st.succ);
      forall o | o in g.ops ensures SameInference(g0, g, o, w) {
        assert SameInference(g0, g1, o, w) && SameInference(g1, g, o, w);
      }
    }
  }

  /** Rewriting the graph that `steps` reach extends the replay by one step. */
  lemma ReplaySnoc(g0: GraphState, steps: seq<Step>, g: GraphState, prev: OpId, succ: OpId)
    requires Replay(g0, steps) == Some(g) && Good(g) && Rewritable(g, prev, succ)
    ensures Replay(g0, steps + [Step(prev, succ)]) == Some(Rewrite(g, prev, succ))
  {
    assert (steps + [Step(prev, succ)])[..|steps|] == steps;
  }

  /** What a replay keeps, for every inference of the kinds other than Transpose. */
  lemma ReplayKeepsAllInference(g0: GraphState, steps: seq<Step>, g: GraphState)
    requires Replay(g0, steps) == Some(g)
    ensures forall other :: ValidGraph(g0) && Inferred(g0, WithTranspose(other)) ==>
              && ShapesKept(g0, g)
              && forall o :: o in g.ops ==> SameInference(g0, g, o, WithTranspose(other))
  {
    forall other | ValidGraph(g0) && Inferred(g0, WithTranspose(other))
      ensures ShapesKept(g0, g) && forall o :: o in g.ops ==> SameInference(g0, g, o, WithTranspose(other))
    {
      ReplayKeepsInference(g0, steps, other);
    }
  }

  /** A pair to rewrite: the Transpose `ops[at]` and its successor `succ`. */
  datatype Site = Site(at: nat, succ: OpId)

  /** No pair of the graph can be rewritten. */
  ghost predicate Optimized(g: GraphState)
  {
    forall prev, succ :: !Rewritable(g, prev, succ)
  }

  /**
   One scan of the optimizer: the first Transpose of `ops`, in list order,
   that has a successor to rewrite with, and such a successor; or none when
   no pair can be rewritten.
   */
  method FindRewrite(g: GraphState) returns (r: Option<Site>)
    requires Good(g)
    ensures r.Some? ==> r.value.at < |g.ops| && Rewritable(g, g.ops[r.value.at], r.value.succ)
    ensures r.Some? ==> forall k, s :: 0 <= k < r.value.at ==> !Rewritable(g, g.ops[k], s)
    ensures r.None? ==> Optimized(g)
  {
    for i := 0 to |g.ops|
      invariant forall k, s :: 0 <= k < i ==> !Rewritable(g, g.ops[k], s)
    {
      var prev := g.ops[i];
      var partners := set s | s in g.os[prev].succs && Rewritable(g, prev, s);
      if partners != {} {
        var s :| s in partners;
        return Some(Site(i, s));
      }
      assert forall s :: Rewritable(g, prev, s) ==> s in partners;
    }
    forall prev, succ ensures !Rewritable(g, prev, succ) {
      if prev in g.ops {
        var k :| 0 <= k < |g.ops| && g.ops[k] == prev;
      }
    }
    return None;
  }

  /**
   `optimize`: rescan and rewrite until no pair can be rewritten. The result
   is the input rewritten with `steps`, in order; it keeps the invariant and
   has no pair left to rewrite, and its `ops` is the input's with the
   rewritten operators taken out, in the same order. A linked input that
   passes `checkValid` gives a result that does too, and when its shapes
   are inferred, the result keeps every shape and every remaining
   operator's inference.
   */
  method Optimize(g0: GraphState) returns (g: GraphState, ghost steps: seq<Step>, ghost removed: set<OpId>)
    requires Good(g0)
    ensures Replay(g0, steps) == Some(g)
    ensures Good(g) && Optimized(g)
    ensures g.ops == Without(g0.ops, removed)
    ensures ValidGraph(g0) ==> ValidGraph(g)
    ensures forall other :: ValidGraph(g0) && Inferred(g0, WithTranspose(other)) ==>
              && ShapesKept(g0, g)
              && forall o :: o in g.ops ==> SameInference(g0, g, o, WithTranspose(other))
  {
    g, steps, removed := g0, [], {};
    WithoutAbsent(g0.ops, {});
    var finished := false;
    while !finished
      invariant Replay(g0, steps) == Some(g)
      invariant Good(g) && g.ops == Without(g0.ops, removed)
      invariant ValidGraph(g0) ==> ValidGraph(g)
      invariant finished ==> Optimized(g)
      decreases |g.ops| + (if finished then 0 else 1)
    {
      var site := FindRewrite(g);
      if site.None? {
        finished := true;
      } else {
        var prev, succ := g.ops[site.value.at], site.value.succ;
        RewriteShrinks(g, prev, succ);
        RewriteKeepsGood(g, prev, succ);
        if ValidGraph(g) {
          RewriteKeepsValid(g, prev, succ);
        }
        WithoutWithout(g0.ops, removed, Removed(g, prev, succ));
        removed := removed + Removed(g, prev, succ);
        ReplaySnoc(g0, steps, g, prev, succ);
        steps := steps + [Step(prev, succ)];
        g := Rewrite(g, prev, succ);
      }
    }
    ReplayKeepsAllInference(g0, steps, g);
  }
}
