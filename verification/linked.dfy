/**
 The links of a graph agree with its data flow: the `source` and `targets`
 of each tensor name the live operators that write and read it, and the
 `predecessors` and `successors` of each live operator name exactly the live
 operators it exchanges a tensor with. `addOperatorAndConnect` establishes
 these links for the operator it adds, and the optimizer's rewrites must
 keep them.
 */
module Links {
  import opened Common
  import opened Graphs

  /** `a` writes a tensor that `b` reads. */
  ghost predicate Feeds(os: map<OpId, Operator>, a: OpId, b: OpId)
    requires a in os && b in os
  {
    exists u :: u in os[a].outputs && u in os[b].inputs
  }

  /** Each live operator is a target of each of its inputs and the source of each of its outputs. */
  ghost predicate OpsLinked(ts: map<TensorId, Tensor>, os: map<OpId, Operator>, ops: seq<OpId>)
  {
    && (forall o, u :: o in ops && o in os && u in os[o].inputs ==> u in ts && o in ts[u].targets)
    && (forall o, u :: o in ops && o in os && u in os[o].outputs ==> u in ts && ts[u].source == Some(o))
  }

  /** A live target of a tensor of the graph reads it, and its live source writes it. */
  ghost predicate TensorsLinked(ts: map<TensorId, Tensor>, os: map<OpId, Operator>, tensors: seq<TensorId>, ops: seq<OpId>)
  {
    && (forall u, o :: u in tensors && u in ts && o in ops && o in ts[u].targets ==> o in os && u in os[o].inputs)
    && (forall u, o :: u in tensors && u in ts && o in ops && ts[u].source == Some(o) ==> o in os && u in os[o].outputs)
  }

  /** Between live operators, `b` succeeds `a`, and `a` precedes `b`, exactly when `a` feeds `b`. */
  ghost predicate EdgesFollowData(os: map<OpId, Operator>, ops: seq<OpId>)
  {
    forall a, b :: a in ops && b in ops && a in os && b in os ==>
      (b in os[a].succs <==> Feeds(os, a, b)) && (a in os[b].preds <==> Feeds(os, a, b))
  }

  /** The links of the graph follow its data flow. */
  ghost predicate Linked(ts: map<TensorId, Tensor>, os: map<OpId, Operator>, tensors: seq<TensorId>, ops: seq<OpId>)
  {
    OpsLinked(ts, os, ops) && TensorsLinked(ts, os, tensors, ops) && EdgesFollowData(os, ops)
  }

  /** Links that follow the data flow are symmetric. */
  lemma LinkedSymmetric(ts: map<TensorId, Tensor>, os: map<OpId, Operator>, tensors: seq<TensorId>, ops: seq<OpId>)
    requires Linked(ts, os, tensors, ops)
    ensures EdgesSymmetric(os, ops)
  {
  }

  /**
   `addOperatorAndConnect` keeps the links following the data flow, when
   the new operator reads and writes tensors of the graph and none of its
   outputs has a live producer yet.
   */
  lemma ConnectKeepsLinked(ts: map<TensorId, Tensor>, os: map<OpId, Operator>, tensors: seq<TensorId>, ops: seq<OpId>,
                           op: OpId, kind: OpKind, ins: seq<TensorId>, outs: seq<TensorId>)
    requires WellFormedGraph(ts, os, tensors, ops) && op !in os
    requires forall t :: t in ins ==> t in tensors
    requires forall t :: t in outs ==> t in tensors
    requires forall t :: t in outs ==> ts[t].source.None? || ts[t].source.value !in ops
    requires Linked(ts, os, tensors, ops)
    ensures Linked(ConnectTensors(ts, op, ins, outs), ConnectOps(os, ts, ops, op, kind, ins, outs), tensors, ops + [op])
  {
    ConnectFresh(ts, os, tensors, ops, op);
    ConnectOpsLinked(ts, os, tensors, ops, op, kind, ins, outs);
    ConnectTensorsLinked(ts, os, tensors, ops, op, kind, ins, outs);
    var os' := ConnectOps(os, ts, ops, op, kind, ins, outs);
    forall a, b | a in ops + [op] && b in ops + [op] && a in os' && b in os'
      ensures (b in os'[a].succs <==> Feeds(os', a, b)) && (a in os'[b].preds <==> Feeds(os', a, b))
    {
      ConnectEdge(ts, os, tensors, ops, op, kind, ins, outs, a, b);
    }
  }

  /** No record of a closed arena mentions an operator id without a record. */
  lemma ConnectFresh(ts: map<TensorId, Tensor>, os: map<OpId, Operator>, tensors: seq<TensorId>, ops: seq<OpId>, op: OpId)
    requires WellFormedGraph(ts, os, tensors, ops) && op !in os
    ensures forall t :: t in ts ==> op !in ts[t].targets && ts[t].source != Some(op)
    ensures forall o :: o in os ==> op !in os[o].preds && op !in os[o].succs
  {
    forall t | t in ts ensures op !in ts[t].targets && ts[t].source != Some(op) {
      assert TensorRecordClosed(ts[t], os);
    }
    forall o | o in os ensures op !in os[o].preds && op !in os[o].succs {
      assert OpRecordClosed(os[o], ts, os);
    }
  }

  /** After the connection every live operator targets its inputs and is the source of its outputs. */
  lemma ConnectOpsLinked(ts: map<TensorId, Tensor>, os: map<OpId, Operator>, tensors: seq<TensorId>, ops: seq<OpId>,
                         op: OpId, kind: OpKind, ins: seq<TensorId>, outs: seq<TensorId>)
    requires WellFormedGraph(ts, os, tensors, ops) && op !in os
    requires forall t :: t in ins ==> t in tensors
    requires forall t :: t in outs ==> t in tensors
    requires forall t :: t in outs ==> ts[t].source.None? || ts[t].source.value !in ops
    requires OpsLinked(ts, os, ops)
    ensures OpsLinked(ConnectTensors(ts, op, ins, outs), ConnectOps(os, ts, ops, op, kind, ins, outs), ops + [op])
  {
    ConnectOpsClosed(os, ts, ops, op, kind, ins, outs);
  }

  /** After the connection every live target or source of a tensor of the graph reads or writes it. */
  lemma ConnectTensorsLinked(ts: map<TensorId, Tensor>, os: map<OpId, Operator>, tensors: seq<TensorId>, ops: seq<OpId>,
                             op: OpId, kind: OpKind, ins: seq<TensorId>, outs: seq<TensorId>)
    requires WellFormedGraph(ts, os, tensors, ops) && op !in os
    requires forall t :: t in ts ==> op !in ts[t].targets && ts[t].source != Some(op)
    requires TensorsLinked(ts, os, tensors, ops)
    ensures TensorsLinked(ConnectTensors(ts, op, ins, outs), ConnectOps(os, ts, ops, op, kind, ins, outs), tensors, ops + [op])
  {
    ConnectOpsClosed(os, ts, ops, op, kind, ins, outs);
  }

  /** One pair of operators after the connection: linked exactly when one feeds the other. */
  lemma ConnectEdge(ts: map<TensorId, Tensor>, os: map<OpId, Operator>, tensors: seq<TensorId>, ops: seq<OpId>,
                    op: OpId, kind: OpKind, ins: seq<TensorId>, outs: seq<TensorId>, a: OpId, b: OpId)
    requires WellFormedGraph(ts, os, tensors, ops) && op !in os
    requires forall t :: t in ins ==> t in tensors
    requires forall t :: t in outs ==> t in tensors
    requires forall t :: t in ts ==> op !in ts[t].targets
    requires forall o :: o in os ==> op !in os[o].preds && op !in os[o].succs
    requires Linked(ts, os, tensors, ops)
    requires a in ops + [op] && b in ops + [op]
    ensures var os' := ConnectOps(os, ts, ops, op, kind, ins, outs);
      a in os' && b in os' &&
      (b in os'[a].succs <==> Feeds(os', a, b)) && (a in os'[b].preds <==> Feeds(os', a, b))
  {
    var os' := ConnectOps(os, ts, ops, op, kind, ins, outs);
    var P := LiveSources(ts, ins, ops);
    var S := LiveConsumers(ts, op, ins, outs, ops + [op]);
    ConnectOpsClosed(os, ts, ops, op, kind, ins, outs);
    if a != op && b != op {
      assert a in ops && b in ops;
      assert Feeds(os', a, b) == Feeds(os, a, b);
    } else if a != op {
      // `a` becomes a predecessor of the new operator when it writes one of its inputs
      assert a in ops;
      LiveSourcesMembers(ts, ins, ops, a);
      assert a in P <==> Feeds(os', a, op) by {
        if a in P {
          var t :| t in ins && t in ts && ts[t].source == Some(a) && a in ops;
          assert t in os'[a].outputs;
        }
        if Feeds(os', a, op) {
          var t :| t in os'[a].outputs && t in os'[op].inputs;
          assert ts[t].source == Some(a);
        }
      }
    } else if b != op {
      // `b` becomes a successor of the new operator when it reads one of its outputs
      assert b in ops;
      LiveConsumersMembers(ts, op, ins, outs, ops + [op], b);
      assert b in S <==> Feeds(os', op, b) by {
        if b in S {
          var t :| t in outs && t in ts && b in ops + [op] && (b in ts[t].targets || (b == op && t in ins));
          assert t in os'[b].inputs;
        }
        if Feeds(os', op, b) {
          var t :| t in os'[op].outputs && t in os'[b].inputs;
          assert b in ts[t].targets;
        }
      }
    } else {
      LiveSourcesAlive(ts, ins, ops);
      LiveConsumersMembers(ts, op, ins, outs, ops + [op], op);
      assert op !in P;
      assert op in S <==> Feeds(os', op, op) by {
        if op in S {
          var t :| t in outs && t in ts && (op in ts[t].targets || t in ins);
          assert t in os'[op].outputs && t in os'[op].inputs;
        }
      }
    }
  }
}
