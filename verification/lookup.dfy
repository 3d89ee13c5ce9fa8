/**
 The read-only scans of the graph: finding a tensor by its FUID and the
 well-formedness check.
 */
module Lookup {
  import opened Common
  import opened Graphs

  /** `getTensor`: the first tensor of the list with the given FUID, or none. */
  function GetTensor(ts: map<TensorId, Tensor>, tensors: seq<TensorId>, fuid: int): (r: Option<TensorId>)
    requires forall t :: t in tensors ==> t in ts
    ensures r.Some? ==> r.value in tensors && ts[r.value].fuid == fuid
    ensures r.None? <==> forall t :: t in tensors ==> ts[t].fuid != fuid
  {
    if tensors == [] then None
    else if ts[tensors[0]].fuid == fuid then Some(tensors[0])
    else GetTensor(ts, tensors[1..], fuid)
  }

  /** The tensor found is the earliest one carrying the FUID. */
  lemma {:induction false} GetTensorFirst(ts: map<TensorId, Tensor>, tensors: seq<TensorId>, fuid: int, i: nat)
    requires forall t :: t in tensors ==> t in ts
    requires i < |tensors| && ts[tensors[i]].fuid == fuid
    requires forall j :: 0 <= j < i ==> ts[tensors[j]].fuid != fuid
    ensures GetTensor(ts, tensors, fuid) == Some(tensors[i])
  {
    if i > 0 {
      assert forall j :: 0 <= j < i - 1 ==> tensors[1..][j] == tensors[j + 1];
      GetTensorFirst(ts, tensors[1..], fuid, i - 1);
    }
  }

  /** No two entries of the list carry the same FUID. */
  ghost predicate DistinctFuids(ts: map<TensorId, Tensor>, tensors: seq<TensorId>)
    requires forall t :: t in tensors ==> t in ts
  {
    forall i, j :: 0 <= i < j < |tensors| ==> ts[tensors[i]].fuid != ts[tensors[j]].fuid
  }

  /** Every tensor of the graph has a consumer or a live producer. */
  ghost predicate TensorsUsed(ts: map<TensorId, Tensor>, tensors: seq<TensorId>, ops: seq<OpId>)
  {
    forall t :: t in tensors && t in ts ==> ts[t].targets != {} || SourceIfLive(ts, t, ops) != {}
  }

  /** Every consumer of a tensor of the graph is in `ops`. */
  ghost predicate TargetsLive(ts: map<TensorId, Tensor>, tensors: seq<TensorId>, ops: seq<OpId>)
  {
    forall t :: t in tensors && t in ts ==> ts[t].targets <= Elems(ops)
  }

  /** Every operator of the graph uses tensors of `tensors` and has its neighbours in `ops`. */
  ghost predicate OpsInside(os: map<OpId, Operator>, tensors: seq<TensorId>, ops: seq<OpId>)
  {
    forall o :: o in ops && o in os ==>
      && Elems(os[o].inputs) <= Elems(tensors) && Elems(os[o].outputs) <= Elems(tensors)
      && os[o].preds <= Elems(ops) && os[o].succs <= Elems(ops)
  }

  /**
   `checkValid` succeeds: every tensor of the graph has a consumer or a live
   producer, and every consumer is in `ops`; every operator's inputs and
   outputs are in `tensors` and its neighbours in `ops`; and no two tensors
   share a FUID. (A live producer is in `ops` by definition, so the source's
   producer-membership test always passes here.)
   */
  ghost function CheckValid(ts: map<TensorId, Tensor>, os: map<OpId, Operator>, tensors: seq<TensorId>, ops: seq<OpId>): (r: bool)
    requires forall t :: t in tensors ==> t in ts
    requires forall o :: o in ops ==> o in os
    ensures r ==> Distinct(tensors)
    ensures r ==> forall o :: o in ops ==> os[o].succs <= Elems(ops)
  {
    && TensorsUsed(ts, tensors, ops)
    && TargetsLive(ts, tensors, ops)
    && OpsInside(os, tensors, ops)
    && DistinctFuids(ts, tensors)
  }

  /** With distinct FUIDs, a tensor of the list is found again by its own FUID. */
  lemma GetTensorOwnFuid(ts: map<TensorId, Tensor>, tensors: seq<TensorId>, t: TensorId)
    requires forall u :: u in tensors ==> u in ts
    requires DistinctFuids(ts, tensors) && t in tensors
    ensures GetTensor(ts, tensors, ts[t].fuid) == Some(t)
  {
    var i :| 0 <= i < |tensors| && tensors[i] == t;
    GetTensorFirst(ts, tensors, ts[t].fuid, i);
  }

  /** A valid graph's every tensor is found again by its own FUID. */
  lemma CheckValidLookup(ts: map<TensorId, Tensor>, os: map<OpId, Operator>, tensors: seq<TensorId>, ops: seq<OpId>)
    requires forall t :: t in tensors ==> t in ts
    requires forall o :: o in ops ==> o in os
    requires CheckValid(ts, os, tensors, ops)
    ensures Distinct(tensors)
    ensures forall t :: t in tensors ==> GetTensor(ts, tensors, ts[t].fuid) == Some(t)
  {
    forall t | t in tensors ensures GetTensor(ts, tensors, ts[t].fuid) == Some(t) {
      GetTensorOwnFuid(ts, tensors, t);
    }
  }

  /** A tensor with neither a consumer nor a live producer makes the check fail. */
  lemma IsolatedTensorInvalid(ts: map<TensorId, Tensor>, os: map<OpId, Operator>, tensors: seq<TensorId>, ops: seq<OpId>, t: TensorId)
    requires forall u :: u in tensors ==> u in ts
    requires forall o :: o in ops ==> o in os
    requires t in tensors && ts[t].targets == {} && (ts[t].source.None? || ts[t].source.value !in ops)
    ensures !CheckValid(ts, os, tensors, ops)
  {
    assert SourceIfLive(ts, t, ops) == {};
  }

  /**
   `addOperatorAndConnect` keeps a valid graph valid when the new operator
   reads and writes tensors of the graph: a tensor only gains the new
   operator as a consumer or a producer, and the new operator's neighbours
   are live.
   */
  lemma ConnectKeepsValid(ts: map<TensorId, Tensor>, os: map<OpId, Operator>, tensors: seq<TensorId>, ops: seq<OpId>,
                          op: OpId, kind: OpKind, ins: seq<TensorId>, outs: seq<TensorId>)
    requires WellFormedGraph(ts, os, tensors, ops) && op !in os
    requires forall t :: t in ins ==> t in tensors
    requires forall t :: t in outs ==> t in tensors
    requires CheckValid(ts, os, tensors, ops)
    ensures var ts', os' := ConnectTensors(ts, op, ins, outs), ConnectOps(os, ts, ops, op, kind, ins, outs);
      (forall t :: t in tensors ==> t in ts') && (forall o :: o in ops + [op] ==> o in os') &&
      CheckValid(ts', os', tensors, ops + [op])
  {
    ConnectOpsClosed(os, ts, ops, op, kind, ins, outs);
    ConnectTensorsUsed(ts, tensors, ops, op, ins, outs);
    ConnectOpsInside(ts, os, tensors, ops, op, kind, ins, outs);
    FuidsOfSublist(ts, ConnectTensors(ts, op, ins, outs), tensors, tensors);
  }

  /** Connecting keeps every tensor of the graph used, by live operators only. */
  lemma ConnectTensorsUsed(ts: map<TensorId, Tensor>, tensors: seq<TensorId>, ops: seq<OpId>,
                           op: OpId, ins: seq<TensorId>, outs: seq<TensorId>)
    requires TensorsUsed(ts, tensors, ops) && TargetsLive(ts, tensors, ops)
    ensures var ts' := ConnectTensors(ts, op, ins, outs);
      TensorsUsed(ts', tensors, ops + [op]) && TargetsLive(ts', tensors, ops + [op])
  {
    var ts', live := ConnectTensors(ts, op, ins, outs), ops + [op];
    forall t | t in tensors && t in ts' ensures ts'[t].targets != {} || SourceIfLive(ts', t, live) != {} {
      if ts[t].targets == {} {
        assert ts'[t].source.value in live;
      }
    }
  }

  /** Connecting keeps every live operator inside the graph, the new one included. */
  lemma ConnectOpsInside(ts: map<TensorId, Tensor>, os: map<OpId, Operator>, tensors: seq<TensorId>, ops: seq<OpId>,
                         op: OpId, kind: OpKind, ins: seq<TensorId>, outs: seq<TensorId>)
    requires forall o :: o in ops ==> o in os
    requires op !in os && OpsInside(os, tensors, ops)
    requires forall t :: t in ins ==> t in tensors
    requires forall t :: t in outs ==> t in tensors
    ensures OpsInside(ConnectOps(os, ts, ops, op, kind, ins, outs), tensors, ops + [op])
  {
    var os', live := ConnectOps(os, ts, ops, op, kind, ins, outs), ops + [op];
    ConnectOpsClosed(os, ts, ops, op, kind, ins, outs);
    LiveSourcesAlive(ts, ins, ops);
    LiveConsumersAlive(ts, op, ins, outs, live);
    forall o | o in live && o in os'
      ensures Elems(os'[o].inputs) <= Elems(tensors) && Elems(os'[o].outputs) <= Elems(tensors)
      ensures os'[o].preds <= Elems(live) && os'[o].succs <= Elems(live)
    {
      if o != op {
        assert os[o].preds <= Elems(ops) && os[o].succs <= Elems(ops);
      }
    }
  }

  /** A duplicate-free part of a list with distinct FUIDs, under the same FUIDs, has distinct FUIDs. */
  lemma FuidsOfSublist(ts: map<TensorId, Tensor>, ts': map<TensorId, Tensor>, s: seq<TensorId>, s': seq<TensorId>)
    requires forall t :: t in s ==> t in ts
    requires forall t :: t in s' ==> t in s && t in ts' && ts'[t].fuid == ts[t].fuid
    requires Distinct(s') && DistinctFuids(ts, s)
    ensures DistinctFuids(ts', s')
  {
    forall i, j | 0 <= i < j < |s'| ensures ts'[s'[i]].fuid != ts'[s'[j]].fuid {
      assert s'[i] in s && s'[j] in s;
      var p :| 0 <= p < |s| && s[p] == s'[i];
      var q :| 0 <= q < |s| && s[q] == s'[j];
      if p < q {
        assert ts[s[p]].fuid != ts[s[q]].fuid;
      } else {
        assert ts[s[q]].fuid != ts[s[p]].fuid;
      }
    }
  }
}
