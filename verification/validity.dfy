/**
 When the optimizer's rewrites keep `checkValid` true.

 Both rules take the Transpose's output out of `tensors` and the Transpose
 out of `ops` whatever else reads that output, and rule A also takes out the
 second Transpose's output when someone read it, and leaves it in otherwise.
 So a rewrite can leave a live operator reading a tensor that has left the
 graph, or a tensor with neither a consumer nor a live producer. A rewrite
 is safe when the Transpose's only live successor is its partner, the
 partner does not feed the Transpose back, and, for two Transposes, the
 second one has a live successor. Safe rewrites of a linked, valid graph
 leave it linked and valid.
 */
module RewriteValidity {
  import opened Common
  import opened Shapes
  import opened Graphs
  import opened Links
  import opened Lookup
  import opened Rewrites

  /** A graph the optimizer may work on: good, linked and passing `checkValid`. */
  ghost predicate ValidGraph(g: GraphState)
  {
    && Good(g)
    && Linked(g.ts, g.os, g.tensors, g.ops)
    && CheckValid(g.ts, g.os, g.tensors, g.ops)
  }

  /**
   Rewriting `prev` with `succ` leaves no dangling reader: `succ` is the
   only live successor of `prev`, `prev` does not succeed `succ`, and when
   `succ` is a Transpose it has a live successor to hand its input to.
   */
  predicate Safe(g: GraphState, prev: OpId, succ: OpId)
  {
    && prev in g.os && succ in g.os
    && LiveAmong(g.os[prev].succs, g.ops) == {succ}
    && prev !in g.os[succ].succs
    && (g.os[succ].kind.Transpose? ==> LiveAmong(g.os[succ].succs, g.ops) != {})
  }

  // ---------------------------------------------------------------- elimination

  /**
   An elimination site of a linked graph, with `prev` reading `x` and
   writing `t0`, `succ` reading `t0` and writing `t`, the live successors
   `C` of `succ` and the live predecessors `F` of `prev`, and how the links
   of every live operator touch the pair.
   */
  ghost predicate ElimSite(g: GraphState, prev: OpId, succ: OpId, x: TensorId, t0: TensorId, t: TensorId,
                           C: set<OpId>, F: set<OpId>)
  {
    && prev in g.os && succ in g.os && prev in g.ops && succ in g.ops && prev != succ
    && g.os[prev].inputs == [x] && g.os[prev].outputs == [t0]
    && g.os[succ].inputs == [t0] && g.os[succ].outputs == [t]
    && x != t && x != t0 && t != t0
    && x in g.tensors && t0 in g.tensors && t in g.tensors
    && C == LiveAmong(g.os[succ].succs, g.ops) && F == LiveAmong(g.os[prev].preds, g.ops)
    && C != {} && prev !in C && succ !in C && prev !in F && succ !in F && Readers(g.os, C, t) == C
    && (forall o :: o in g.ops && o in g.os ==>
          && (o in C <==> t in g.os[o].inputs)
          && (o in F <==> x in g.os[o].outputs)
          && (t0 in g.os[o].inputs <==> o == succ)
          && (t in g.os[o].outputs ==> o == succ)
          && (t0 in g.os[o].outputs ==> o == prev)
          && (prev in g.os[o].preds <==> o == succ)
          && (succ in g.os[o].preds <==> o in C)
          && (prev in g.os[o].succs <==> o in F)
          && (succ in g.os[o].succs <==> o == prev))
  }

  /** A safe elimination of a valid graph is an elimination site. */
  lemma ElimSiteHolds(g: GraphState, prev: OpId, succ: OpId)
    returns (x: TensorId, t0: TensorId, t: TensorId, C: set<OpId>, F: set<OpId>)
    requires ValidGraph(g) && Applies(g, prev, succ) && Safe(g, prev, succ) && g.os[succ].kind.Transpose?
    ensures ElimSite(g, prev, succ, x, t0, t, C, F)
    ensures x == g.os[prev].inputs[0] && t0 == g.os[prev].outputs[0] && t == g.os[succ].outputs[0]
  {
    PairArity(g, prev, succ);
    x, t0, t := g.os[prev].inputs[0], g.os[prev].outputs[0], g.os[succ].outputs[0];
    C, F := LiveAmong(g.os[succ].succs, g.ops), LiveAmong(g.os[prev].preds, g.ops);
    var os := g.os;
    assert os[prev].inputs == [x] && os[prev].outputs == [t0] && os[succ].outputs == [t];
    assert prev != succ;
    assert Feeds(os, prev, succ);
    assert os[succ].inputs == [t0];
    assert g.ts[t0].source == Some(prev) && g.ts[t].source == Some(succ);
    assert !Feeds(os, succ, prev) && x != t;
    assert prev !in LiveAmong(os[prev].succs, g.ops);
    assert !Feeds(os, prev, prev) && x != t0;
    forall o | o in g.ops && o in os
      ensures && (o in C <==> t in os[o].inputs)
              && (o in F <==> x in os[o].outputs)
              && (t0 in os[o].inputs <==> o == succ)
              && (t in os[o].outputs ==> o == succ)
              && (t0 in os[o].outputs ==> o == prev)
              && (prev in os[o].preds <==> o == succ)
              && (succ in os[o].preds <==> o in C)
              && (prev in os[o].succs <==> o in F)
              && (succ in os[o].succs <==> o == prev)
    {
      ElimNeighbour(g, prev, succ, x, t0, t, o);
    }
    assert Readers(os, C, t) == C;
    assert x in g.tensors && t0 in g.tensors && t in g.tensors by {
      assert x in Elems(os[prev].inputs) && t0 in Elems(os[prev].outputs) && t in Elems(os[succ].outputs);
    }
  }

  /** How one live operator's links touch a safe elimination pair. */
  lemma ElimNeighbour(g: GraphState, prev: OpId, succ: OpId, x: TensorId, t0: TensorId, t: TensorId, o: OpId)
    requires ValidGraph(g) && Safe(g, prev, succ)
    requires prev in g.os && succ in g.os && prev in g.ops && succ in g.ops && prev != succ
    requires g.os[prev].inputs == [x] && g.os[prev].outputs == [t0]
    requires g.os[succ].inputs == [t0] && g.os[succ].outputs == [t]
    requires o in g.ops && o in g.os
    ensures var os, C, F := g.os, LiveAmong(g.os[succ].succs, g.ops), LiveAmong(g.os[prev].preds, g.ops);
      && (o in C <==> t in os[o].inputs)
      && (o in F <==> x in os[o].outputs)
      && (t0 in os[o].inputs <==> o == succ)
      && (t in os[o].outputs ==> o == succ)
      && (t0 in os[o].outputs ==> o == prev)
      && (prev in os[o].preds <==> o == succ)
      && (succ in os[o].preds <==> o in C)
      && (prev in os[o].succs <==> o in F)
      && (succ in os[o].succs <==> o == prev)
  {
    var os := g.os;
    assert g.ts[t0].source == Some(prev) && g.ts[t].source == Some(succ);
    assert Feeds(os, prev, o) <==> t0 in os[o].inputs;
    assert Feeds(os, succ, o) <==> t in os[o].inputs;
    assert Feeds(os, o, prev) <==> x in os[o].outputs;
    assert Feeds(os, o, succ) <==> t0 in os[o].outputs;
    assert o in LiveAmong(os[prev].succs, g.ops) <==> prev in os[o].preds;
  }

  /**
   The graph `h` an elimination at the site leaves: every record rewired
   and retargeted, `t` and `t0` out of `tensors`, `prev` and `succ` out of
   `ops`.
   */
  ghost predicate ElimAfter(g: GraphState, prev: OpId, succ: OpId, x: TensorId, t0: TensorId, t: TensorId,
                            C: set<OpId>, F: set<OpId>, h: GraphState)
  {
    && h.ts == RetargetedA(g.ts, prev, t, x, C)
    && h.os == RewiredA(g.os, prev, succ, t, x, C, F)
    && Elems(h.tensors) == Elems(g.tensors) - {t, t0}
    && Elems(h.ops) == Elems(g.ops) - {prev, succ}
  }

  /** The safe elimination leaves a graph of that shape. */
  lemma ElimAfterHolds(g: GraphState, prev: OpId, succ: OpId, x: TensorId, t0: TensorId, t: TensorId,
                       C: set<OpId>, F: set<OpId>)
    requires Distinct(g.tensors) && Distinct(g.ops)
    requires prev in g.os && succ in g.os
    requires g.os[prev].inputs == [x] && g.os[prev].outputs == [t0] && g.os[succ].outputs == [t]
    requires C == LiveAmong(g.os[succ].succs, g.ops) && F == LiveAmong(g.os[prev].preds, g.ops)
    requires Readers(g.os, C, t) == C && C != {}
    ensures ElimAfter(g, prev, succ, x, t0, t, C, F, Eliminate(g, prev, succ))
  {
    RemoveTwoElems(g.tensors, t, t0);
    RemoveTwoElems(g.ops, prev, succ);
  }

  /**
   An operator record rewired by an elimination stays inside the graph: its
   tensors avoid `t` and `t0` and its neighbours avoid `prev` and `succ`,
   given how the record touched the pair before.
   */
  lemma RewireAInside(r: Operator, o: OpId, prev: OpId, succ: OpId, t: TensorId, x: TensorId, t0: TensorId,
                      C: set<OpId>, F: set<OpId>, T: set<TensorId>, O: set<OpId>)
    requires Elems(r.inputs) <= T && Elems(r.outputs) <= T && r.preds <= O && r.succs <= O
    requires x in T && x != t && x != t0
    requires C <= O - {prev, succ} && F <= O - {prev, succ} && C != {}
    requires t0 !in r.inputs && (o !in C ==> t !in r.inputs)
    requires t !in r.outputs && t0 !in r.outputs
    requires prev !in r.preds && (succ in r.preds ==> o in C)
    requires (prev in r.succs ==> o in F) && succ !in r.succs
    ensures var r' := RewireA(r, o, prev, succ, t, x, C, F);
      && Elems(r'.inputs) <= T - {t, t0} && Elems(r'.outputs) <= T - {t, t0}
      && r'.preds <= O - {prev, succ} && r'.succs <= O - {prev, succ}
  {
    var r' := RewireA(r, o, prev, succ, t, x, C, F);
    forall u | u in Elems(r'.inputs) ensures u in T - {t, t0} {
      var i :| 0 <= i < |r'.inputs| && r'.inputs[i] == u;
      assert r.inputs[i] in Elems(r.inputs);
    }
    assert Elems(r'.outputs) == Elems(r.outputs);
    if o in F && C != {} {
      assert r'.succs == (r.succs - {prev}) + C;
    }
  }

  /**
   A tensor record retargeted by an elimination stays inside the graph:
   its consumers avoid `prev` and `succ`, and it keeps a consumer or a
   producer that is not one of them.
   */
  lemma RetargetAInside(y: Tensor, u: TensorId, prev: OpId, succ: OpId, t: TensorId, x: TensorId,
                        C: set<OpId>, O: set<OpId>)
    requires y.targets <= O && u != t && (prev in y.targets ==> u == x) && succ !in y.targets
    requires C <= O - {prev, succ} && C != {}
    requires y.targets != {} || u == x || (y.source.Some? && y.source.value in O - {prev, succ})
    ensures var y' := RetargetA(y, u, prev, t, x, C);
      && y'.targets <= O - {prev, succ}
      && (y'.targets != {} || (y'.source.Some? && y'.source.value in O - {prev, succ}))
  {
  }

  /** After a safe elimination every tensor of the graph is still used, by live operators only. */
  lemma ElimTensorsUsed(g: GraphState, prev: OpId, succ: OpId, x: TensorId, t0: TensorId, t: TensorId,
                        C: set<OpId>, F: set<OpId>, h: GraphState)
    requires TensorsUsed(g.ts, g.tensors, g.ops) && TargetsLive(g.ts, g.tensors, g.ops)
    requires TensorsLinked(g.ts, g.os, g.tensors, g.ops)
    requires ElimSite(g, prev, succ, x, t0, t, C, F) && ElimAfter(g, prev, succ, x, t0, t, C, F, h)
    ensures TensorsUsed(h.ts, h.tensors, h.ops) && TargetsLive(h.ts, h.tensors, h.ops)
  {
    forall u | u in h.tensors && u in h.ts
      ensures h.ts[u].targets != {} || SourceIfLive(h.ts, u, h.ops) != {}
      ensures h.ts[u].targets <= Elems(h.ops)
    {
      ElimTensorUsed(g, prev, succ, x, t0, t, C, F, h, u);
    }
  }

  /** One tensor left by a safe elimination: still used, by live operators only. */
  lemma ElimTensorUsed(g: GraphState, prev: OpId, succ: OpId, x: TensorId, t0: TensorId, t: TensorId,
                       C: set<OpId>, F: set<OpId>, h: GraphState, u: TensorId)
    requires TensorsUsed(g.ts, g.tensors, g.ops) && TargetsLive(g.ts, g.tensors, g.ops)
    requires TensorsLinked(g.ts, g.os, g.tensors, g.ops)
    requires ElimSite(g, prev, succ, x, t0, t, C, F) && ElimAfter(g, prev, succ, x, t0, t, C, F, h)
    requires u in h.tensors && u in h.ts
    ensures h.ts[u].targets != {} || SourceIfLive(h.ts, u, h.ops) != {}
    ensures h.ts[u].targets <= Elems(h.ops)
  {
    assert u in Elems(h.tensors);
    var y := g.ts[u];
    assert prev in y.targets ==> u in g.os[prev].inputs;
    assert succ !in y.targets;
    if u != x && y.targets == {} {
      var p := y.source.value;
      assert u in g.os[p].outputs;
    }
    RetargetAInside(y, u, prev, succ, t, x, C, Elems(g.ops));
    if h.ts[u].targets == {} {
      assert h.ts[u].source.value in Elems(h.ops);
    }
  }

  /** After a safe elimination every live operator uses tensors of the graph and links to live operators. */
  lemma ElimOpsInside(g: GraphState, prev: OpId, succ: OpId, x: TensorId, t0: TensorId, t: TensorId,
                      C: set<OpId>, F: set<OpId>, h: GraphState)
    requires OpsInside(g.os, g.tensors, g.ops)
    requires ElimSite(g, prev, succ, x, t0, t, C, F) && ElimAfter(g, prev, succ, x, t0, t, C, F, h)
    ensures OpsInside(h.os, h.tensors, h.ops)
  {
    forall o | o in h.ops && o in h.os
      ensures Elems(h.os[o].inputs) <= Elems(h.tensors) && Elems(h.os[o].outputs) <= Elems(h.tensors)
      ensures h.os[o].preds <= Elems(h.ops) && h.os[o].succs <= Elems(h.ops)
    {
      assert o in Elems(h.ops);
      RewireAInside(g.os[o], o, prev, succ, t, x, t0, C, F, Elems(g.tensors), Elems(g.ops));
    }
  }

  /** After a safe elimination every live operator targets its inputs and is the source of its outputs. */
  lemma ElimOpsLinked(g: GraphState, prev: OpId, succ: OpId, x: TensorId, t0: TensorId, t: TensorId,
                      C: set<OpId>, F: set<OpId>, h: GraphState)
    requires OpsLinked(g.ts, g.os, g.ops)
    requires ElimSite(g, prev, succ, x, t0, t, C, F) && ElimAfter(g, prev, succ, x, t0, t, C, F, h)
    ensures OpsLinked(h.ts, h.os, h.ops)
  {
    forall o, u | o in h.ops && o in h.os && u in h.os[o].inputs
      ensures u in h.ts && o in h.ts[u].targets
    {
      ElimInputTargets(g, prev, succ, x, t0, t, C, F, h, o, u);
    }
    forall o, u | o in h.ops && o in h.os && u in h.os[o].outputs
      ensures u in h.ts && h.ts[u].source == Some(o)
    {
      assert o in Elems(h.ops);
    }
  }

  /** A live operator left by a safe elimination is a target of each of its inputs. */
  lemma ElimInputTargets(g: GraphState, prev: OpId, succ: OpId, x: TensorId, t0: TensorId, t: TensorId,
                         C: set<OpId>, F: set<OpId>, h: GraphState, o: OpId, u: TensorId)
    requires OpsLinked(g.ts, g.os, g.ops)
    requires ElimSite(g, prev, succ, x, t0, t, C, F) && ElimAfter(g, prev, succ, x, t0, t, C, F, h)
    requires o in h.ops && o in h.os && u in h.os[o].inputs
    ensures u in h.ts && o in h.ts[u].targets
  {
    assert o in Elems(h.ops);
    var r := g.os[o];
    if o in C {
      var i :| 0 <= i < |r.inputs| && h.os[o].inputs[i] == u;
      assert r.inputs[i] in r.inputs;
    }
  }

  /** After a safe elimination a live target or source of a tensor of the graph reads or writes it. */
  lemma ElimTensorsLinked(g: GraphState, prev: OpId, succ: OpId, x: TensorId, t0: TensorId, t: TensorId,
                          C: set<OpId>, F: set<OpId>, h: GraphState)
    requires TensorsLinked(g.ts, g.os, g.tensors, g.ops)
    requires ElimSite(g, prev, succ, x, t0, t, C, F) && ElimAfter(g, prev, succ, x, t0, t, C, F, h)
    ensures TensorsLinked(h.ts, h.os, h.tensors, h.ops)
  {
    forall u, o | u in h.tensors && u in h.ts && o in h.ops && o in h.ts[u].targets
      ensures o in h.os && u in h.os[o].inputs
    {
      ElimTargetReads(g, prev, succ, x, t0, t, C, F, h, u, o);
    }
    forall u, o | u in h.tensors && u in h.ts && o in h.ops && h.ts[u].source == Some(o)
      ensures o in h.os && u in h.os[o].outputs
    {
      ElimSourceWrites(g, prev, succ, x, t0, t, C, F, h, u, o);
    }
  }

  /** The live source of a tensor left by a safe elimination writes it. */
  lemma ElimSourceWrites(g: GraphState, prev: OpId, succ: OpId, x: TensorId, t0: TensorId, t: TensorId,
                         C: set<OpId>, F: set<OpId>, h: GraphState, u: TensorId, o: OpId)
    requires TensorsLinked(g.ts, g.os, g.tensors, g.ops)
    requires ElimAfter(g, prev, succ, x, t0, t, C, F, h)
    requires u in h.tensors && u in h.ts && o in h.ops && h.ts[u].source == Some(o)
    ensures o in h.os && u in h.os[o].outputs
  {
    assert u in Elems(h.tensors) && o in Elems(h.ops);
  }

  /** A live target of a tensor left by a safe elimination reads it. */
  lemma ElimTargetReads(g: GraphState, prev: OpId, succ: OpId, x: TensorId, t0: TensorId, t: TensorId,
                        C: set<OpId>, F: set<OpId>, h: GraphState, u: TensorId, o: OpId)
    requires TensorsLinked(g.ts, g.os, g.tensors, g.ops)
    requires ElimSite(g, prev, succ, x, t0, t, C, F) && ElimAfter(g, prev, succ, x, t0, t, C, F, h)
    requires u in h.tensors && u in h.ts && o in h.ops && o in h.ts[u].targets
    ensures o in h.os && u in h.os[o].inputs
  {
    assert u in Elems(h.tensors) && o in Elems(h.ops);
    var r := g.os[o];
    if o in C {
      if u == x {
        var i :| 0 <= i < |r.inputs| && r.inputs[i] == t;
        assert h.os[o].inputs[i] == x;
      } else {
        var i :| 0 <= i < |r.inputs| && r.inputs[i] == u;
        assert h.os[o].inputs[i] == u;
      }
    }
  }

  /** After a safe elimination two live operators are linked exactly when one feeds the other. */
  lemma ElimEdges(g: GraphState, prev: OpId, succ: OpId, x: TensorId, t0: TensorId, t: TensorId,
                  C: set<OpId>, F: set<OpId>, h: GraphState)
    requires EdgesFollowData(g.os, g.ops)
    requires ElimSite(g, prev, succ, x, t0, t, C, F) && ElimAfter(g, prev, succ, x, t0, t, C, F, h)
    ensures EdgesFollowData(h.os, h.ops)
  {
    forall a, b | a in h.ops && b in h.ops && a in h.os && b in h.os
      ensures (b in h.os[a].succs <==> Feeds(h.os, a, b)) && (a in h.os[b].preds <==> Feeds(h.os, a, b))
    {
      assert a in Elems(h.ops) && b in Elems(h.ops);
      ElimFeeds(g, prev, succ, x, t0, t, C, F, h, a, b);
    }
  }

  /** After a safe elimination `a` feeds `b` when it did, or when `a` fed `prev` and `b` read `succ`'s output. */
  lemma ElimFeeds(g: GraphState, prev: OpId, succ: OpId, x: TensorId, t0: TensorId, t: TensorId,
                  C: set<OpId>, F: set<OpId>, h: GraphState, a: OpId, b: OpId)
    requires ElimSite(g, prev, succ, x, t0, t, C, F) && ElimAfter(g, prev, succ, x, t0, t, C, F, h)
    requires a in g.ops && b in g.ops && a in g.os && b in g.os && a != prev && a != succ
    ensures Feeds(h.os, a, b) <==> Feeds(g.os, a, b) || (a in F && b in C)
  {
    var ra, rb := g.os[a], g.os[b];
    if b in C {
      var i :| 0 <= i < |rb.inputs| && rb.inputs[i] == t;
      assert h.os[b].inputs[i] == x;
      if Feeds(h.os, a, b) {
        var u :| u in ra.outputs && u in h.os[b].inputs;
        var j :| 0 <= j < |rb.inputs| && h.os[b].inputs[j] == u;
        if rb.inputs[j] != t {
          assert rb.inputs[j] in rb.inputs;
        }
      }
      if Feeds(g.os, a, b) {
        var u :| u in ra.outputs && u in rb.inputs;
        var j :| 0 <= j < |rb.inputs| && rb.inputs[j] == u;
        assert h.os[b].inputs[j] == u;
      }
    }
  }

  /** A safe elimination of a linked, valid graph leaves it linked and valid. */
  lemma EliminateKeepsValid(g: GraphState, prev: OpId, succ: OpId)
    requires ValidGraph(g) && Applies(g, prev, succ) && Safe(g, prev, succ) && g.os[succ].kind.Transpose?
    ensures ValidGraph(Eliminate(g, prev, succ))
  {
    var x, t0, t, C, F := ElimSiteHolds(g, prev, succ);
    var h := Eliminate(g, prev, succ);
    EliminateKeepsGood(g, prev, succ);
    ElimAfterHolds(g, prev, succ, x, t0, t, C, F);
    ElimTensorsUsed(g, prev, succ, x, t0, t, C, F, h);
    ElimOpsInside(g, prev, succ, x, t0, t, C, F, h);
    ElimOpsLinked(g, prev, succ, x, t0, t, C, F, h);
    ElimTensorsLinked(g, prev, succ, x, t0, t, C, F, h);
    ElimEdges(g, prev, succ, x, t0, t, C, F, h);
    ElimFuids(g, prev, succ, x, t0, t, C, F, h);
  }

  /** The tensors left after an elimination keep their distinct FUIDs. */
  lemma ElimFuids(g: GraphState, prev: OpId, succ: OpId, x: TensorId, t0: TensorId, t: TensorId,
                  C: set<OpId>, F: set<OpId>, h: GraphState)
    requires forall u :: u in g.tensors ==> u in g.ts
    requires Distinct(h.tensors) && DistinctFuids(g.ts, g.tensors)
    requires ElimAfter(g, prev, succ, x, t0, t, C, F, h)
    ensures forall u :: u in h.tensors ==> u in h.ts
    ensures DistinctFuids(h.ts, h.tensors)
  {
    forall u | u in h.tensors ensures u in g.tensors && u in h.ts && h.ts[u].fuid == g.ts[u].fuid {
      assert u in Elems(h.tensors);
    }
    FuidsOfSublist(g.ts, h.ts, g.tensors, h.tensors);
  }

  // ---------------------------------------------------------------- fusion

  /**
   A fusion site of a linked graph: `prev` reads `x` and writes `t0`, the
   MatMul `mm` reads `t0`, `F` holds the live predecessors of `prev`, and
   how the links of every live operator touch the pair.
   */
  ghost predicate FuseSite(g: GraphState, prev: OpId, mm: OpId, x: TensorId, t0: TensorId, F: set<OpId>)
  {
    && prev in g.os && mm in g.os && prev in g.ops && mm in g.ops && prev != mm
    && g.os[prev].inputs == [x] && g.os[prev].outputs == [t0] && x != t0
    && g.os[mm].kind.MatMulOp? && |g.os[mm].inputs| == 2 && t0 in g.os[mm].inputs
    && x in g.tensors && t0 in g.tensors
    && F == LiveAmong(g.os[prev].preds, g.ops) && mm !in F && prev !in F
    && (forall o :: o in g.ops && o in g.os ==>
          && (o in F <==> x in g.os[o].outputs)
          && (t0 in g.os[o].inputs <==> o == mm)
          && (t0 in g.os[o].outputs ==> o == prev)
          && (prev in g.os[o].preds <==> o == mm)
          && (prev in g.os[o].succs <==> o in F))
  }

  /** How one live operator's links touch a safe fusion pair. */
  lemma FuseNeighbour(g: GraphState, prev: OpId, mm: OpId, x: TensorId, t0: TensorId, o: OpId)
    requires ValidGraph(g) && Safe(g, prev, mm)
    requires prev in g.os && mm in g.os && prev in g.ops && mm in g.ops && prev != mm
    requires g.os[prev].inputs == [x] && g.os[prev].outputs == [t0]
    requires o in g.ops && o in g.os
    ensures var os, F := g.os, LiveAmong(g.os[prev].preds, g.ops);
      && (o in F <==> x in os[o].outputs)
      && (t0 in os[o].inputs <==> o == mm)
      && (t0 in os[o].outputs ==> o == prev)
      && (prev in os[o].preds <==> o == mm)
      && (prev in os[o].succs <==> o in F)
  {
    var os := g.os;
    assert g.ts[t0].source == Some(prev);
    assert Feeds(os, prev, o) <==> t0 in os[o].inputs;
    assert Feeds(os, o, prev) <==> x in os[o].outputs;
    assert o in LiveAmong(os[prev].succs, g.ops) <==> prev in os[o].preds;
  }

  /** A safe fusion into a MatMul of a valid graph is a fusion site. */
  lemma FuseSiteHolds(g: GraphState, prev: OpId, mm: OpId) returns (x: TensorId, t0: TensorId, F: set<OpId>)
    requires ValidGraph(g) && Applies(g, prev, mm) && Safe(g, prev, mm) && g.os[mm].kind.MatMulOp?
    ensures FuseSite(g, prev, mm, x, t0, F)
    ensures x == g.os[prev].inputs[0] && t0 == g.os[prev].outputs[0]
  {
    PairArity(g, prev, mm);
    x, t0 := g.os[prev].inputs[0], g.os[prev].outputs[0];
    F := LiveAmong(g.os[prev].preds, g.ops);
    var os := g.os;
    assert os[prev].inputs == [x] && os[prev].outputs == [t0];
    assert prev != mm;
    assert prev !in LiveAmong(os[prev].succs, g.ops);
    assert !Feeds(os, prev, prev) && x != t0;
    assert prev !in os[mm].succs;
    assert !Feeds(os, mm, prev);
    forall o | o in g.ops && o in os
      ensures && (o in F <==> x in os[o].outputs)
              && (t0 in os[o].inputs <==> o == mm)
              && (t0 in os[o].outputs ==> o == prev)
              && (prev in os[o].preds <==> o == mm)
              && (prev in os[o].succs <==> o in F)
    {
      FuseNeighbour(g, prev, mm, x, t0, o);
    }
    assert x in g.tensors && t0 in g.tensors by {
      assert x in Elems(os[prev].inputs) && t0 in Elems(os[prev].outputs);
    }
  }

  /**
   The graph `h` a fusion at the site with new MatMul attributes `f`
   leaves: the MatMul reads `x` wherever it read `t0`, `t0` is out of
   `tensors` and `prev` out of `ops`.
   */
  ghost predicate FuseAfter(g: GraphState, prev: OpId, mm: OpId, x: TensorId, t0: TensorId, F: set<OpId>,
                            f: MatMulAttrs, h: GraphState)
  {
    && mm in g.os && f.inputs == ReplaceAll(g.os[mm].inputs, t0, x)
    && h.ts == RetargetedB(g.ts, prev, mm, x, true)
    && h.os == RewiredB(g.os, prev, mm, f, F)
    && Elems(h.tensors) == Elems(g.tensors) - {t0}
    && Elems(h.ops) == Elems(g.ops) - {prev}
  }

  /** The fusion leaves a graph of that shape. */
  lemma FuseAfterHolds(g: GraphState, prev: OpId, mm: OpId, x: TensorId, t0: TensorId, F: set<OpId>, f: MatMulAttrs)
    requires Distinct(g.tensors) && Distinct(g.ops)
    requires prev in g.os && mm in g.os && g.os[prev].inputs == [x] && g.os[prev].outputs == [t0]
    requires t0 in g.os[mm].inputs && F == LiveAmong(g.os[prev].preds, g.ops)
    requires f.inputs == ReplaceAll(g.os[mm].inputs, t0, x)
    ensures FuseAfter(g, prev, mm, x, t0, F, f, FuseInto(g, prev, mm, f))
  {
    RemoveFirstElems(g.tensors, t0);
    RemoveFirstElems(g.ops, prev);
  }

  /** An operator record rewired by a fusion avoids `t0` and `prev`. */
  lemma RewireBInside(r: Operator, o: OpId, prev: OpId, mm: OpId, x: TensorId, t0: TensorId, f: MatMulAttrs,
                      F: set<OpId>, T: set<TensorId>, O: set<OpId>)
    requires Elems(r.inputs) <= T && Elems(r.outputs) <= T && r.preds <= O && r.succs <= O
    requires x in T && x != t0 && mm in O - {prev} && F <= O - {prev}
    requires o == mm ==> f.inputs == ReplaceAll(r.inputs, t0, x)
    requires o != mm ==> t0 !in r.inputs && prev !in r.preds
    requires t0 !in r.outputs && (prev in r.succs ==> o in F)
    ensures var r' := RewireB(r, o, prev, mm, f, F);
      && Elems(r'.inputs) <= T - {t0} && Elems(r'.outputs) <= T - {t0}
      && r'.preds <= O - {prev} && r'.succs <= O - {prev}
  {
    var r' := RewireB(r, o, prev, mm, f, F);
    forall u | u in Elems(r'.inputs) ensures u in T - {t0} {
      if o == mm {
        ReplaceAllMembers(r.inputs, t0, x, u);
        assert u in r.inputs ==> u in Elems(r.inputs);
      }
    }
    assert Elems(r'.outputs) == Elems(r.outputs);
  }

  /** After a safe fusion every live operator uses tensors of the graph and links to live operators. */
  lemma FuseOpsInside(g: GraphState, prev: OpId, mm: OpId, x: TensorId, t0: TensorId, F: set<OpId>, f: MatMulAttrs, h: GraphState)
    requires OpsInside(g.os, g.tensors, g.ops)
    requires FuseSite(g, prev, mm, x, t0, F) && FuseAfter(g, prev, mm, x, t0, F, f, h)
    ensures OpsInside(h.os, h.tensors, h.ops)
  {
    forall o | o in h.ops && o in h.os
      ensures Elems(h.os[o].inputs) <= Elems(h.tensors) && Elems(h.os[o].outputs) <= Elems(h.tensors)
      ensures h.os[o].preds <= Elems(h.ops) && h.os[o].succs <= Elems(h.ops)
    {
      assert o in Elems(h.ops);
      RewireBInside(g.os[o], o, prev, mm, x, t0, f, F, Elems(g.tensors), Elems(g.ops));
    }
  }

  /** After a safe fusion every tensor of the graph is still used, by live operators only. */
  lemma FuseTensorsUsed(g: GraphState, prev: OpId, mm: OpId, x: TensorId, t0: TensorId, F: set<OpId>, f: MatMulAttrs, h: GraphState)
    requires TensorsUsed(g.ts, g.tensors, g.ops) && TargetsLive(g.ts, g.tensors, g.ops)
    requires TensorsLinked(g.ts, g.os, g.tensors, g.ops)
    requires FuseSite(g, prev, mm, x, t0, F) && FuseAfter(g, prev, mm, x, t0, F, f, h)
    ensures TensorsUsed(h.ts, h.tensors, h.ops) && TargetsLive(h.ts, h.tensors, h.ops)
  {
    forall u | u in h.tensors && u in h.ts
      ensures h.ts[u].targets != {} || SourceIfLive(h.ts, u, h.ops) != {}
      ensures h.ts[u].targets <= Elems(h.ops)
    {
      FuseTensorUsed(g, prev, mm, x, t0, F, f, h, u);
    }
  }

  /** One tensor left by a safe fusion: still used, by live operators only. */
  lemma FuseTensorUsed(g: GraphState, prev: OpId, mm: OpId, x: TensorId, t0: TensorId, F: set<OpId>, f: MatMulAttrs,
                       h: GraphState, u: TensorId)
    requires TensorsUsed(g.ts, g.tensors, g.ops) && TargetsLive(g.ts, g.tensors, g.ops)
    requires TensorsLinked(g.ts, g.os, g.tensors, g.ops)
    requires FuseSite(g, prev, mm, x, t0, F) && FuseAfter(g, prev, mm, x, t0, F, f, h)
    requires u in h.tensors && u in h.ts
    ensures h.ts[u].targets != {} || SourceIfLive(h.ts, u, h.ops) != {}
    ensures h.ts[u].targets <= Elems(h.ops)
  {
    assert u in Elems(h.tensors);
    var y := g.ts[u];
    if u != x {
      assert prev !in y.targets;
      if y.targets == {} {
        var p := y.source.value;
        assert u in g.os[p].outputs;
        assert p in Elems(h.ops);
      }
    }
  }

  /** After a safe fusion every live operator targets its inputs and is the source of its outputs. */
  lemma FuseOpsLinked(g: GraphState, prev: OpId, mm: OpId, x: TensorId, t0: TensorId, F: set<OpId>, f: MatMulAttrs, h: GraphState)
    requires OpsLinked(g.ts, g.os, g.ops)
    requires FuseSite(g, prev, mm, x, t0, F) && FuseAfter(g, prev, mm, x, t0, F, f, h)
    ensures OpsLinked(h.ts, h.os, h.ops)
  {
    forall o, u | o in h.ops && o in h.os && u in h.os[o].inputs
      ensures u in h.ts && o in h.ts[u].targets
    {
      assert o in Elems(h.ops);
      if o == mm {
        ReplaceAllMembers(g.os[mm].inputs, t0, x, u);
      }
    }
    forall o, u | o in h.ops && o in h.os && u in h.os[o].outputs
      ensures u in h.ts && h.ts[u].source == Some(o)
    {
      assert o in Elems(h.ops);
    }
  }

  /** After a safe fusion a live target or source of a tensor of the graph reads or writes it. */
  lemma FuseTensorsLinked(g: GraphState, prev: OpId, mm: OpId, x: TensorId, t0: TensorId, F: set<OpId>, f: MatMulAttrs, h: GraphState)
    requires TensorsLinked(g.ts, g.os, g.tensors, g.ops)
    requires FuseSite(g, prev, mm, x, t0, F) && FuseAfter(g, prev, mm, x, t0, F, f, h)
    ensures TensorsLinked(h.ts, h.os, h.tensors, h.ops)
  {
    forall u, o | u in h.tensors && u in h.ts && o in h.ops && o in h.ts[u].targets
      ensures o in h.os && u in h.os[o].inputs
    {
      FuseTargetReads(g, prev, mm, x, t0, F, f, h, u, o);
    }
    forall u, o | u in h.tensors && u in h.ts && o in h.ops && h.ts[u].source == Some(o)
      ensures o in h.os && u in h.os[o].outputs
    {
      FuseSourceWrites(g, prev, mm, x, t0, F, f, h, u, o);
    }
  }

  /** A live target of a tensor left by a safe fusion reads it. */
  lemma FuseTargetReads(g: GraphState, prev: OpId, mm: OpId, x: TensorId, t0: TensorId, F: set<OpId>, f: MatMulAttrs,
                        h: GraphState, u: TensorId, o: OpId)
    requires TensorsLinked(g.ts, g.os, g.tensors, g.ops)
    requires FuseSite(g, prev, mm, x, t0, F) && FuseAfter(g, prev, mm, x, t0, F, f, h)
    requires u in h.tensors && u in h.ts && o in h.ops && o in h.ts[u].targets
    ensures o in h.os && u in h.os[o].inputs
  {
    assert u in Elems(h.tensors) && o in Elems(h.ops);
    if o == mm {
      ReplaceAllMembers(g.os[mm].inputs, t0, x, u);
    }
  }

  /** The live source of a tensor left by a safe fusion writes it. */
  lemma FuseSourceWrites(g: GraphState, prev: OpId, mm: OpId, x: TensorId, t0: TensorId, F: set<OpId>, f: MatMulAttrs,
                         h: GraphState, u: TensorId, o: OpId)
    requires TensorsLinked(g.ts, g.os, g.tensors, g.ops)
    requires FuseAfter(g, prev, mm, x, t0, F, f, h)
    requires u in h.tensors && u in h.ts && o in h.ops && h.ts[u].source == Some(o)
    ensures o in h.os && u in h.os[o].outputs
  {
    assert u in Elems(h.tensors) && o in Elems(h.ops);
  }

  /** After a safe fusion two live operators are linked exactly when one feeds the other. */
  lemma FuseEdges(g: GraphState, prev: OpId, mm: OpId, x: TensorId, t0: TensorId, F: set<OpId>, f: MatMulAttrs, h: GraphState)
    requires EdgesFollowData(g.os, g.ops)
    requires FuseSite(g, prev, mm, x, t0, F) && FuseAfter(g, prev, mm, x, t0, F, f, h)
    ensures EdgesFollowData(h.os, h.ops)
  {
    forall a, b | a in h.ops && b in h.ops && a in h.os && b in h.os
      ensures (b in h.os[a].succs <==> Feeds(h.os, a, b)) && (a in h.os[b].preds <==> Feeds(h.os, a, b))
    {
      assert a in Elems(h.ops) && b in Elems(h.ops);
      FuseFeeds(g, prev, mm, x, t0, F, f, h, a, b);
    }
  }

  /** After a safe fusion `a` feeds `b` when it did, or when `a` fed `prev` and `b` is the MatMul. */
  lemma FuseFeeds(g: GraphState, prev: OpId, mm: OpId, x: TensorId, t0: TensorId, F: set<OpId>, f: MatMulAttrs,
                  h: GraphState, a: OpId, b: OpId)
    requires FuseSite(g, prev, mm, x, t0, F) && FuseAfter(g, prev, mm, x, t0, F, f, h)
    requires a in g.ops && b in g.ops && a in g.os && b in g.os && a != prev
    ensures Feeds(h.os, a, b) <==> Feeds(g.os, a, b) || (a in F && b == mm)
  {
    if b == mm {
      var ra := g.os[a];
      if Feeds(h.os, a, b) {
        var u :| u in ra.outputs && u in h.os[mm].inputs;
        ReplaceAllMembers(g.os[mm].inputs, t0, x, u);
      }
      if Feeds(g.os, a, b) {
        var u :| u in ra.outputs && u in g.os[mm].inputs;
        ReplaceAllMembers(g.os[mm].inputs, t0, x, u);
        assert u in h.os[mm].inputs;
      }
      if a in F {
        ReplaceAllMembers(g.os[mm].inputs, t0, x, x);
        assert x in ra.outputs && x in h.os[mm].inputs;
      }
    }
  }

  /** The tensors left after a fusion keep their distinct FUIDs. */
  lemma FuseFuids(g: GraphState, prev: OpId, mm: OpId, x: TensorId, t0: TensorId, F: set<OpId>, f: MatMulAttrs, h: GraphState)
    requires forall u :: u in g.tensors ==> u in g.ts
    requires Distinct(h.tensors) && DistinctFuids(g.ts, g.tensors)
    requires FuseAfter(g, prev, mm, x, t0, F, f, h)
    ensures forall u :: u in h.tensors ==> u in h.ts
    ensures DistinctFuids(h.ts, h.tensors)
  {
    forall u | u in h.tensors ensures u in g.tensors && u in h.ts && h.ts[u].fuid == g.ts[u].fuid {
      assert u in Elems(h.tensors);
    }
    FuidsOfSublist(g.ts, h.ts, g.tensors, h.tensors);
  }

  /**
   A safe fusion of a linked, valid graph leaves it linked and valid,
   whatever flags the MatMul ends with, as long as it reads `x` wherever it
   read the Transpose's output.
   */
  lemma FuseIntoKeepsValid(g: GraphState, prev: OpId, mm: OpId, f: MatMulAttrs)
    requires ValidGraph(g) && Applies(g, prev, mm) && Safe(g, prev, mm) && g.os[mm].kind.MatMulOp?
    requires f.inputs == ReplaceAll(g.os[mm].inputs, g.os[prev].outputs[0], g.os[prev].inputs[0])
    ensures ValidGraph(FuseInto(g, prev, mm, f))
  {
    var x, t0, F := FuseSiteHolds(g, prev, mm);
    var h := FuseInto(g, prev, mm, f);
    FuseAfterHolds(g, prev, mm, x, t0, F, f);
    forall u | u in f.inputs ensures u in g.ts {
      ReplaceAllMembers(g.os[mm].inputs, t0, x, u);
    }
    FuseIntoKeepsGood(g, prev, mm, f);
    FuseTensorsUsed(g, prev, mm, x, t0, F, f, h);
    FuseOpsInside(g, prev, mm, x, t0, F, f, h);
    FuseOpsLinked(g, prev, mm, x, t0, F, f, h);
    FuseTensorsLinked(g, prev, mm, x, t0, F, f, h);
    FuseEdges(g, prev, mm, x, t0, F, f, h);
    FuseFuids(g, prev, mm, x, t0, F, f, h);
  }

  // ---------------------------------------------------------------- both rules

  /** Every safe rewrite of a linked, valid graph leaves it linked and valid. */
  lemma RewriteKeepsValid(g: GraphState, prev: OpId, succ: OpId)
    requires ValidGraph(g) && Applies(g, prev, succ) && Safe(g, prev, succ)
    ensures ValidGraph(Rewrite(g, prev, succ))
  {
    PairArity(g, prev, succ);
    if g.os[succ].kind.Transpose? {
      EliminateKeepsValid(g, prev, succ);
    } else {
      FuseIntoKeepsValid(g, prev, succ, Fuse(AttrsOf(g.os[succ]), g.os[prev].outputs[0], g.os[prev].inputs[0]));
    }
  }

  // ---------------------------------------------------------------- unsafe rewrites

  /**
   When an operator `z` other than the pair reads `prev`'s output and is
   neither a successor of `succ` nor a predecessor of `prev`, the
   elimination as written keeps `z` live, reading a tensor that left
   `tensors`, so `checkValid` fails.
   */
  lemma EliminateStrandsReader(g: GraphState, prev: OpId, succ: OpId, z: OpId)
    requires (forall u :: u in g.tensors ==> u in g.ts) && (forall o :: o in g.ops ==> o in g.os)
    requires Distinct(g.tensors) && Distinct(g.ops)
    requires prev in g.os && succ in g.os
    requires |g.os[prev].inputs| == 1 && |g.os[prev].outputs| == 1 && |g.os[succ].outputs| == 1
    requires z in g.ops && z in g.os && z != prev && z != succ
    requires g.os[prev].outputs[0] in g.os[z].inputs
    requires z !in g.os[succ].succs && z !in g.os[prev].preds
    ensures var h, t0 := Eliminate(g, prev, succ), g.os[prev].outputs[0];
      && (forall u :: u in h.tensors ==> u in h.ts) && (forall o :: o in h.ops ==> o in h.os)
      && z in h.ops && t0 in h.os[z].inputs && t0 !in h.tensors
      && !CheckValid(h.ts, h.os, h.tensors, h.ops)
  {
    var h, t0, t := Eliminate(g, prev, succ), g.os[prev].outputs[0], g.os[succ].outputs[0];
    var tensors1 := if Readers(g.os, LiveAmong(g.os[succ].succs, g.ops), t) == {} then g.tensors else RemoveFirst(g.tensors, t);
    RemoveFirstElems(g.tensors, t);
    RemoveFirstElems(tensors1, t0);
    RemoveFirstElems(g.ops, prev);
    RemoveFirstElems(RemoveFirst(g.ops, prev), succ);
    assert z in Elems(h.ops);
    assert h.os[z] == g.os[z];
    assert t0 !in Elems(h.tensors);
  }

  /**
   When an operator `z` other than the pair reads the Transpose's output,
   the fusion as written keeps `z` live, reading a tensor that left
   `tensors`, so `checkValid` fails.
   */
  lemma FuseStrandsReader(g: GraphState, prev: OpId, mm: OpId, f: MatMulAttrs, z: OpId)
    requires (forall u :: u in g.tensors ==> u in g.ts) && (forall o :: o in g.ops ==> o in g.os)
    requires Distinct(g.tensors) && Distinct(g.ops)
    requires prev in g.os && mm in g.os
    requires |g.os[prev].inputs| == 1 && |g.os[prev].outputs| == 1
    requires z in g.ops && z in g.os && z != prev && z != mm
    requires g.os[prev].outputs[0] in g.os[z].inputs
    ensures var h, t0 := FuseInto(g, prev, mm, f), g.os[prev].outputs[0];
      && (forall u :: u in h.tensors ==> u in h.ts) && (forall o :: o in h.ops ==> o in h.os)
      && z in h.ops && t0 in h.os[z].inputs && t0 !in h.tensors
      && !CheckValid(h.ts, h.os, h.tensors, h.ops)
  {
    var h, t0 := FuseInto(g, prev, mm, f), g.os[prev].outputs[0];
    RemoveFirstElems(g.tensors, t0);
    RemoveFirstElems(g.ops, prev);
    assert z in Elems(h.ops);
    assert t0 !in Elems(h.tensors);
  }

  /**
   When no live successor of `succ` reads its output `t`, and nothing else
   reads `t` either, the elimination as written keeps `t` in `tensors`
   with no consumer and a producer that left `ops`, so `checkValid` fails.
   */
  lemma EliminateOrphansOutput(g: GraphState, prev: OpId, succ: OpId)
    requires (forall u :: u in g.tensors ==> u in g.ts) && (forall o :: o in g.ops ==> o in g.os)
    requires Distinct(g.tensors) && Distinct(g.ops)
    requires prev in g.os && succ in g.os
    requires |g.os[prev].inputs| == 1 && |g.os[prev].outputs| == 1 && |g.os[succ].outputs| == 1
    requires var t := g.os[succ].outputs[0];
      && t in g.tensors && t != g.os[prev].outputs[0] && t != g.os[prev].inputs[0]
      && g.ts[t].targets == {} && g.ts[t].source == Some(succ)
      && Readers(g.os, LiveAmong(g.os[succ].succs, g.ops), t) == {}
    ensures var h, t := Eliminate(g, prev, succ), g.os[succ].outputs[0];
      && (forall u :: u in h.tensors ==> u in h.ts) && (forall o :: o in h.ops ==> o in h.os)
      && t in h.tensors && h.ts[t].targets == {} && SourceIfLive(h.ts, t, h.ops) == {}
      && !CheckValid(h.ts, h.os, h.tensors, h.ops)
  {
    var h, t, t0 := Eliminate(g, prev, succ), g.os[succ].outputs[0], g.os[prev].outputs[0];
    RemoveFirstElems(g.tensors, t0);
    RemoveFirstElems(g.ops, prev);
    RemoveFirstElems(RemoveFirst(g.ops, prev), succ);
    assert t in Elems(h.tensors);
    assert succ !in Elems(h.ops);
  }

  /**
   Transposes 10 and 11, both `[1, 0]`, in a row; a third operator 12 also
   reads 10's output 1, and operator 13 reads 11's output 2.
   */
  function SharedTransposeGraph(): GraphState
  {
    GraphState(
      map[0 := Tensor(0, [2, 3], 4, None, {10}),
          1 := Tensor(1, [3, 2], 4, Some(10), {11, 12}),
          2 := Tensor(2, [2, 3], 4, Some(11), {13})],
      map[10 := Operator(Transpose([1, 0]), [0], [1], {}, {11, 12}),
          11 := Operator(Transpose([1, 0]), [1], [2], {10}, {13}),
          12 := Operator(OtherOp("Relu"), [1], [], {10}, {}),
          13 := Operator(OtherOp("Relu"), [2], [], {11}, {})],
      [0, 1, 2],
      [10, 11, 12, 13])
  }

  /**
   The elimination as written turns a graph that passes `checkValid` into
   one that fails it when the first Transpose's output has another reader: that reader keeps reading a
   tensor that left `tensors`. The pair is not `Safe`.
   */
  lemma EliminateBreaksValid()
    ensures var g := SharedTransposeGraph();
      && CheckValid(g.ts, g.os, g.tensors, g.ops) && Applies(g, 10, 11) && !Safe(g, 10, 11)
      && var h := Eliminate(g, 10, 11);
         12 in h.ops && 1 in h.os[12].inputs && 1 !in h.tensors
         && !CheckValid(h.ts, h.os, h.tensors, h.ops)
  {
    SharedTransposeChecked();
    SharedTransposeApplies();
    var g := SharedTransposeGraph();
    EliminateStrandsReader(g, 10, 11, 12);
  }

  /** `SharedTransposeGraph` passes `checkValid`. */
  lemma SharedTransposeChecked()
    ensures var g := SharedTransposeGraph(); CheckValid(g.ts, g.os, g.tensors, g.ops)
  {
    SharedTransposeUsed();
    SharedTransposeInside();
  }

  /** Every live operator of `SharedTransposeGraph` uses its tensors and links to live operators. */
  lemma SharedTransposeInside()
    ensures var g := SharedTransposeGraph(); OpsInside(g.os, g.tensors, g.ops)
  {
  }

  /** Every tensor of `SharedTransposeGraph` is used, by live operators only. */
  lemma SharedTransposeUsed()
    ensures var g := SharedTransposeGraph(); TensorsUsed(g.ts, g.tensors, g.ops) && TargetsLive(g.ts, g.tensors, g.ops)
  {
  }

  /** In `SharedTransposeGraph`, the pair triggers rule A but is not safe: operator 12 also reads tensor 1. */
  lemma SharedTransposeApplies()
    ensures var g := SharedTransposeGraph(); Applies(g, 10, 11) && !Safe(g, 10, 11)
  {
    var g := SharedTransposeGraph();
    assert LiveAmong(g.os[10].succs, g.ops) == {11, 12};
  }

  /** Transpose 10, `[1, 0]`, feeds MatMul 11; operator 12 also reads its output 1. */
  function SharedFusionGraph(): GraphState
  {
    GraphState(
      map[0 := Tensor(0, [2, 3], 4, None, {10}),
          1 := Tensor(1, [3, 2], 4, Some(10), {11, 12}),
          2 := Tensor(2, [1, 3, 3], 4, Some(11), {})],
      map[10 := Operator(Transpose([1, 0]), [0], [1], {}, {11, 12}),
          11 := Operator(MatMulOp(false, true), [1, 1], [2], {10}, {}),
          12 := Operator(OtherOp("Relu"), [1], [], {10}, {})],
      [0, 1, 2],
      [10, 11, 12])
  }

  /**
   The fusion as written turns a graph that passes `checkValid` into one
   that fails it when the Transpose's output has another reader. The pair is not `Safe`.
   */
  lemma FuseBreaksValid()
    ensures var g := SharedFusionGraph();
      && CheckValid(g.ts, g.os, g.tensors, g.ops) && Applies(g, 10, 11) && !Safe(g, 10, 11)
      && var h := FuseTranspose(g, 10, 11);
         12 in h.ops && 1 in h.os[12].inputs && 1 !in h.tensors
         && !CheckValid(h.ts, h.os, h.tensors, h.ops)
  {
    SharedFusionChecked();
    SharedFusionApplies();
    var g := SharedFusionGraph();
    FuseStrandsReader(g, 10, 11, Fuse(AttrsOf(g.os[11]), 1, 0), 12);
  }

  /** `SharedFusionGraph` passes `checkValid`. */
  lemma SharedFusionChecked()
    ensures var g := SharedFusionGraph(); CheckValid(g.ts, g.os, g.tensors, g.ops)
  {
    SharedFusionUsed();
    SharedFusionInside();
  }

  /** Every live operator of `SharedFusionGraph` uses its tensors and links to live operators. */
  lemma SharedFusionInside()
    ensures var g := SharedFusionGraph(); OpsInside(g.os, g.tensors, g.ops)
  {
  }

  /** Every tensor of `SharedFusionGraph` is used, by live operators only. */
  lemma SharedFusionUsed()
    ensures var g := SharedFusionGraph(); TensorsUsed(g.ts, g.tensors, g.ops) && TargetsLive(g.ts, g.tensors, g.ops)
  {
  }

  /** In `SharedFusionGraph`, the pair triggers rule B but is not safe: operator 12 also reads tensor 1. */
  lemma SharedFusionApplies()
    ensures var g := SharedFusionGraph(); Applies(g, 10, 11) && !Safe(g, 10, 11)
  {
    var g := SharedFusionGraph();
    assert LiveAmong(g.os[10].succs, g.ops) == {11, 12};
  }

  /** Transposes 10 and 11, both `[1, 0]`, in a row, and nobody reads 11's output 2. */
  function UnreadTransposeGraph(): GraphState
  {
    GraphState(
      map[0 := Tensor(0, [2, 3], 4, None, {10}),
          1 := Tensor(1, [3, 2], 4, Some(10), {11}),
          2 := Tensor(2, [2, 3], 4, Some(11), {})],
      map[10 := Operator(Transpose([1, 0]), [0], [1], {}, {11}),
          11 := Operator(Transpose([1, 0]), [1], [2], {10}, {})],
      [0, 1, 2],
      [10, 11])
  }

  /**
   The elimination as written turns a graph that passes `checkValid` into
   one that fails it when nobody reads the second Transpose's output: that output stays in `tensors` with neither
   a consumer nor a live producer. The pair is not `Safe`.
   */
  lemma EliminateOrphans()
    ensures var g := UnreadTransposeGraph();
      && CheckValid(g.ts, g.os, g.tensors, g.ops) && Applies(g, 10, 11) && !Safe(g, 10, 11)
      && var h := Eliminate(g, 10, 11);
         2 in h.tensors && h.ts[2].targets == {} && SourceIfLive(h.ts, 2, h.ops) == {}
         && !CheckValid(h.ts, h.os, h.tensors, h.ops)
  {
    UnreadTransposeChecked();
    UnreadTransposeApplies();
    var g := UnreadTransposeGraph();
    assert LiveAmong(g.os[11].succs, g.ops) == {};
    EliminateOrphansOutput(g, 10, 11);
  }

  /** In `UnreadTransposeGraph`, the pair triggers rule A but is not safe: nobody reads tensor 2. */
  lemma UnreadTransposeApplies()
    ensures var g := UnreadTransposeGraph(); Applies(g, 10, 11) && !Safe(g, 10, 11)
  {
    var g := UnreadTransposeGraph();
    assert LiveAmong(g.os[11].succs, g.ops) == {};
  }

  /** `UnreadTransposeGraph` passes `checkValid`. */
  lemma UnreadTransposeChecked()
    ensures var g := UnreadTransposeGraph(); CheckValid(g.ts, g.os, g.tensors, g.ops)
  {
    UnreadTransposeUsed();
    UnreadTransposeInside();
  }

  /** Every live operator of `UnreadTransposeGraph` uses its tensors and links to live operators. */
  lemma UnreadTransposeInside()
    ensures var g := UnreadTransposeGraph(); OpsInside(g.os, g.tensors, g.ops)
  {
  }

  /** Every tensor of `UnreadTransposeGraph` is used, by live operators only. */
  lemma UnreadTransposeUsed()
    ensures var g := UnreadTransposeGraph(); TensorsUsed(g.ts, g.tensors, g.ops) && TargetsLive(g.ts, g.tensors, g.ops)
  {
  }
}
