/**
 The graph object: the record stores and membership lists of the graph,
 its allocator, and the operations that change them in place.
 */
module GraphObject {
  import opened Common
  import opened Shapes
  import opened Allocation
  import opened Graphs
  import opened TopoSort
  import opened ShapeInference
  import Links
  import Lookup
  import Rewrites
  import RewriteValidity
  import Optimizer

  /** Connecting an operator over tensors of the list keeps `checkValid`, and keeps the links when its outputs have no live producer. */
  lemma ConnectKeepsChecks(ts: map<TensorId, Tensor>, os: map<OpId, Operator>, tensors: seq<TensorId>, ops: seq<OpId>,
                           op: OpId, kind: OpKind, ins: seq<TensorId>, outs: seq<TensorId>)
    requires WellFormedGraph(ts, os, tensors, ops) && op !in os
    ensures var ts', os' := ConnectTensors(ts, op, ins, outs), ConnectOps(os, ts, ops, op, kind, ins, outs);
      && (forall t :: t in tensors ==> t in ts') && (forall o :: o in ops + [op] ==> o in os')
      && ((forall t :: t in ins + outs ==> t in tensors) && Lookup.CheckValid(ts, os, tensors, ops) ==>
            Lookup.CheckValid(ts', os', tensors, ops + [op]))
      && ((forall t :: t in ins + outs ==> t in tensors) &&
          (forall t :: t in outs ==> ts[t].source.None? || ts[t].source.value !in ops) &&
          Links.Linked(ts, os, tensors, ops) ==>
            Links.Linked(ts', os', tensors, ops + [op]))
  {
    ConnectOpsClosed(os, ts, ops, op, kind, ins, outs);
    if forall t :: t in ins + outs ==> t in tensors {
      if Lookup.CheckValid(ts, os, tensors, ops) {
        Lookup.ConnectKeepsValid(ts, os, tensors, ops, op, kind, ins, outs);
      }
      if (forall t :: t in outs ==> ts[t].source.None? || ts[t].source.value !in ops) && Links.Linked(ts, os, tensors, ops) {
        Links.ConnectKeepsLinked(ts, os, tensors, ops, op, kind, ins, outs);
      }
    }
  }

  /**
   `addOperatorAndConnect` on the stores: the connected stores, which keep
   the graph invariant, keep `checkValid` when the operator's tensors are in
   the list, and keep the links when, besides, its outputs have no live
   producer.
   */
  method ConnectGraph(ts: map<TensorId, Tensor>, os: map<OpId, Operator>, tensors: seq<TensorId>, ops: seq<OpId>,
                      op: OpId, kind: OpKind, ins: seq<TensorId>, outs: seq<TensorId>)
    returns (ts': map<TensorId, Tensor>, os': map<OpId, Operator>)
    requires WellFormedGraph(ts, os, tensors, ops) && op !in os
    requires WellFormedArity(kind, ins, outs)
    requires forall t :: t in ins ==> t in ts
    requires forall t :: t in outs ==> t in ts
    ensures ts' == ConnectTensors(ts, op, ins, outs) && os' == ConnectOps(os, ts, ops, op, kind, ins, outs)
    ensures WellFormedGraph(ts', os', tensors, ops + [op])
    ensures (forall t :: t in ins + outs ==> t in tensors) && Lookup.CheckValid(ts, os, tensors, ops) ==>
      Lookup.CheckValid(ts', os', tensors, ops + [op])
    ensures ((forall t :: t in ins + outs ==> t in tensors) &&
             (forall t :: t in outs ==> ts[t].source.None? || ts[t].source.value !in ops) &&
             Links.Linked(ts, os, tensors, ops)) ==>
              Links.Linked(ts', os', tensors, ops + [op])
  {
    ConnectKeepsWellFormed(ts, os, tensors, ops, op, kind, ins, outs);
    ConnectKeepsChecks(ts, os, tensors, ops, op, kind, ins, outs);
    ts', os' := Connect(ts, os, ops, op, kind, ins, outs);
  }

  class Graph {
    var tensorStore: map<TensorId, Tensor>
    var opStore: map<OpId, Operator>
    var tensors: seq<TensorId>
    var ops: seq<OpId>
    var sorted: bool
    /** The address of each tensor's data blob, once memory is bound. */
    var blobs: map<TensorId, nat>
    const allocator: Allocator

    /**
     The arena is closed (every id a record mentions has a record), the
     lists have no duplicates, every operator has its kind's arity, and the
     allocator is untouched until memory is bound (the graph is its only
     user, and binding materializes it).
     */
    ghost predicate Valid()
      reads this, allocator
    {
      && allocator.Valid()
      && (allocator.ptr.None? ==> Untouched(allocator))
      && WellFormedGraph(tensorStore, opStore, tensors, ops)
    }

    /** An empty graph with a fresh allocator. */
    constructor ()
      ensures Valid() && fresh(allocator)
      ensures tensorStore == map[] && opStore == map[] && tensors == [] && ops == []
      ensures !sorted && blobs == map[]
      ensures allocator.freeBlocks == map[] && allocator.used == 0 && allocator.peak == 0 && allocator.ptr.None?
    {
      tensorStore := map[];
      opStore := map[];
      tensors := [];
      ops := [];
      sorted := false;
      blobs := map[];
      allocator := new Allocator();
    }

    /** `addTensor`: a new tensor with no producer and no consumer joins the graph. */
    method AddTensor(id: TensorId, fuid: int, shape: Shape, elemSize: nat)
      requires Valid() && id !in tensorStore
      modifies this
      ensures Valid()
      ensures tensorStore == old(tensorStore)[id := Tensor(fuid, shape, elemSize, None, {})]
      ensures tensors == old(tensors) + [id]
      ensures opStore == old(opStore) && ops == old(ops) && sorted == old(sorted) && blobs == old(blobs)
    {
      tensorStore := tensorStore[id := Tensor(fuid, shape, elemSize, None, {})];
      tensors := tensors + [id];
    }

    /**
     `addOperatorAndConnect`: the operator joins `ops`, targets each of its
     inputs and is linked after each input's live producer; it becomes the
     source of each output and is linked before each live consumer of it.
     When its tensors are in the list, the graph keeps passing `checkValid`;
     when, besides, none of its outputs has a live producer yet, the links
     keep following the data flow.
     */
    method AddOperatorAndConnect(id: OpId, kind: OpKind, ins: seq<TensorId>, outs: seq<TensorId>)
      requires Valid() && id !in opStore
      requires WellFormedArity(kind, ins, outs)
      requires forall t :: t in ins ==> t in tensorStore
      requires forall t :: t in outs ==> t in tensorStore
      modifies this
      ensures Valid()
      ensures !sorted && ops == old(ops) + [id] && tensors == old(tensors) && blobs == old(blobs)
      ensures tensorStore == ConnectTensors(old(tensorStore), id, ins, outs)
      ensures opStore == ConnectOps(old(opStore), old(tensorStore), old(ops), id, kind, ins, outs)
      ensures (forall t :: t in ins + outs ==> t in tensors) && old(Lookup.CheckValid(tensorStore, opStore, tensors, ops))
        ==> Lookup.CheckValid(tensorStore, opStore, tensors, ops)
      ensures (forall t :: t in ins + outs ==> t in tensors)
        && (forall t :: t in outs ==> old(tensorStore)[t].source.None? || old(tensorStore)[t].source.value !in old(ops))
        && old(Links.Linked(tensorStore, opStore, tensors, ops))
        ==> Links.Linked(tensorStore, opStore, tensors, ops)
    {
      var ts', os' := ConnectGraph(tensorStore, opStore, tensors, ops, id, kind, ins, outs);
      sorted, ops, tensorStore, opStore := false, ops + [id], ts', os';
    }

    /**
     `topo_sort`: a graph already marked sorted answers true and nothing
     changes; otherwise `ops` becomes a topological order of itself and the
     graph is marked sorted, or, when a pass places nothing, `ops` stays as
     it is, the answer is false, and no topological order exists.
     */
    method TopoSort() returns (ok: bool)
      requires Valid()
      modifies this
      ensures Valid()
      ensures tensorStore == old(tensorStore) && opStore == old(opStore)
      ensures tensors == old(tensors) && blobs == old(blobs)
      ensures old(sorted) ==> ok && ops == old(ops) && sorted
      ensures !old(sorted) && ok ==> sorted && IsTopoOrder(tensorStore, opStore, old(ops), ops)
      ensures !ok ==> ops == old(ops) && !sorted && forall r :: !IsTopoOrder(tensorStore, opStore, ops, r)
    {
      if sorted {
        return true;
      }
      var order;
      ok, order := Sort(tensorStore, opStore, ops);
      if ok {
        assert forall o :: o in order ==> o in multiset(ops);
        ops := order;
        sorted := true;
      }
    }
  
    /**
     `removeTensor`: the first occurrence of `t` leaves the tensor list; its
     record stays in the store.
     */
    method RemoveTensor(t: TensorId)
      requires Valid()
      modifies this
      ensures Valid()
      ensures tensors == Without(old(tensors), {t})
      ensures tensorStore == old(tensorStore) && opStore == old(opStore) && ops == old(ops)
      ensures sorted == old(sorted) && blobs == old(blobs)
    {
      EraseTensorKeepsWellFormed(tensorStore, opStore, tensors, ops, t);
      tensors := RemoveFirst(tensors, t);
    }

    /**
     `removeOperator`: the first occurrence of `o` leaves the operator list;
     its record stays in the store.
     */
    method RemoveOperator(o: OpId)
      requires Valid()
      modifies this
      ensures Valid()
      ensures ops == Without(old(ops), {o})
      ensures tensorStore == old(tensorStore) && opStore == old(opStore) && tensors == old(tensors)
      ensures sorted == old(sorted) && blobs == old(blobs)
    {
      EraseOperatorKeepsWellFormed(tensorStore, opStore, tensors, ops, o);
      ops := RemoveFirst(ops, o);
    }

    /**
     `optimize`: the transpose rewrites run until none can be made. The new
     graph is the old one rewritten by `steps`, in order; it keeps its
     invariant, no pair is left to rewrite, and `ops` is the old list with
     the rewritten operators taken out, in the same order. A linked graph
     that passed `checkValid` still does, and when its shapes were inferred,
     every shape and every remaining operator's inference are kept.
     */
    method Optimize() returns (ghost steps: seq<Optimizer.Step>)
      requires Valid() && Rewrites.TransposeRanks(opStore, ops)
      modifies this
      ensures Valid() && Rewrites.TransposeRanks(opStore, ops)
      ensures Optimizer.Replay(old(Rewrites.GraphState(tensorStore, opStore, tensors, ops)), steps)
        == Some(Rewrites.GraphState(tensorStore, opStore, tensors, ops))
      ensures Optimizer.Optimized(Rewrites.GraphState(tensorStore, opStore, tensors, ops))
      ensures exists removed: set<OpId> :: ops == Without(old(ops), removed)
      ensures sorted == old(sorted) && blobs == old(blobs)
      ensures old(RewriteValidity.ValidGraph(Rewrites.GraphState(tensorStore, opStore, tensors, ops)))
        ==> RewriteValidity.ValidGraph(Rewrites.GraphState(tensorStore, opStore, tensors, ops))
      ensures forall other ::
                old(RewriteValidity.ValidGraph(Rewrites.GraphState(tensorStore, opStore, tensors, ops))) &&
                old(Optimizer.Inferred(Rewrites.GraphState(tensorStore, opStore, tensors, ops), Optimizer.WithTranspose(other))) ==>
                  && Rewrites.ShapesKept(old(Rewrites.GraphState(tensorStore, opStore, tensors, ops)),
                                         Rewrites.GraphState(tensorStore, opStore, tensors, ops))
                  && forall o :: o in ops ==>
                       Rewrites.SameInference(old(Rewrites.GraphState(tensorStore, opStore, tensors, ops)),
                                              Rewrites.GraphState(tensorStore, opStore, tensors, ops), o, Optimizer.WithTranspose(other))
    {
      var g;
      ghost var removed;
      g, steps, removed := Optimizer.Optimize(Rewrites.GraphState(tensorStore, opStore, tensors, ops));
      tensorStore, opStore, tensors, ops := g.ts, g.os, g.tensors, g.ops;
    }

    /**
     `shape_infer` with the inference of the kinds outside this model given
     as `other`: on success every output gets the shape its operator infers
     and nothing but shapes changes; on a failure (where the source stops)
     the error is reported and the graph is left as it was.
     */
    method ShapeInfer(other: OtherInference) returns (err: Option<GraphError>)
      requires Valid()
      modifies this
      ensures Valid()
      ensures opStore == old(opStore) && tensors == old(tensors) && ops == old(ops)
      ensures sorted == old(sorted) && blobs == old(blobs)
      ensures OnlyShapesChanged(old(tensorStore), tensorStore, tensors)
      ensures WellFormedGraph(old(tensorStore), opStore, tensors, ops) &&
        match InferOps(old(tensorStore), opStore, tensors, ops, other, |ops|)
        case Ok(ts) => err.None? && tensorStore == ts
        case Err(e) => err == Some(e) && tensorStore == old(tensorStore)
    {
      WellFormedInferable(tensorStore, opStore, tensors, ops);
      var r := ShapeInference.ShapeInfer(tensorStore, opStore, tensors, ops, other);
      if r.Err? {
        return Some(r.error);
      }
      ShapesKeepWellFormed(tensorStore, r.value, opStore, tensors, ops);
      tensorStore := r.value;
      err := None;
    }

    /**
     `dataMalloc`: sorts the operators (an unsortable graph fails), plans
     one request per tensor of the list, in list order, for its byte size,
     materializes the arena (`fromRuntime` is the address the runtime hands
     back) and binds each tensor to the arena's base plus its offset. The
     plan is the corrected one: each request goes at the arena's current
     end, so the tensors' ranges follow one another. Planning on an arena
     that is already materialized fails, as `alloc` refuses it.
     */
    method DataMalloc(fromRuntime: nat) returns (err: Option<GraphError>)
      requires Valid()
      modifies this, allocator
      ensures Valid()
      ensures tensorStore == old(tensorStore) && opStore == old(opStore) && tensors == old(tensors)
      ensures err == Some(NotSortable) ==>
        && !old(sorted) && ops == old(ops) && !sorted && blobs == old(blobs)
        && forall r :: !IsTopoOrder(tensorStore, opStore, ops, r)
      ensures err != Some(NotSortable) ==>
        && sorted
        && (old(sorted) ==> ops == old(ops))
        && (!old(sorted) ==> IsTopoOrder(tensorStore, opStore, old(ops), ops))
      ensures err == Some(ArenaMaterialized) ==>
        |tensors| > 0 && old(allocator.ptr).Some? && blobs == old(blobs) && allocator.ptr == old(allocator.ptr)
      ensures err.None? ==> |tensors| == 0 || old(allocator.ptr).None?
      ensures err.None? && old(allocator.ptr).None? ==>
        allocator.ptr == Some(Arena(fromRuntime, WrappedSum(SizesOf(tensorStore, tensors))))
      ensures err.None? ==>
        && allocator.ptr.Some?
        && blobs.Keys == old(blobs).Keys + Elems(tensors)
        && (forall t :: t in old(blobs) && t !in tensors ==> blobs[t] == old(blobs)[t])
        && (forall i :: 0 <= i < |tensors| ==>
              blobs[tensors[i]] == allocator.ptr.value.base + RunningOffsets(SizesOf(tensorStore, tensors))[i])
    {
      var ok := TopoSort();
      if !ok {
        return Some(NotSortable);
      }
      var n := |tensors|;
      if n > 0 && allocator.ptr.Some? {
        return Some(ArenaMaterialized);
      }
      var sizes := SizesOf(tensorStore, tensors);
      var offsets := [];
      if allocator.ptr.None? {
        offsets := PlanDisjoint(allocator, sizes);
      }
      var base := allocator.GetPtr(fromRuntime);
      var bound := BindBlobs(blobs, tensors, base, offsets);
      blobs := bound;
      err := None;
    }
  }

  /**
   The binding loop of `dataMalloc`: the `i`-th listed tensor is bound to
   `base + offsets[i]`; tensors off the list keep their binding.
   */
  method BindBlobs(blobs0: map<TensorId, nat>, ids: seq<TensorId>, base: nat, offsets: seq<nat>)
    returns (blobs: map<TensorId, nat>)
    requires Distinct(ids) && |offsets| == |ids|
    ensures blobs.Keys == blobs0.Keys + Elems(ids)
    ensures forall t :: t in blobs0 && t !in ids ==> blobs[t] == blobs0[t]
    ensures forall i :: 0 <= i < |ids| ==> blobs[ids[i]] == base + offsets[i]
  {
    blobs := blobs0;
    for i := 0 to |ids|
      invariant blobs.Keys == blobs0.Keys + Elems(ids[..i])
      invariant forall t :: t in blobs0 && t !in ids[..i] ==> blobs[t] == blobs0[t]
      invariant forall k :: 0 <= k < i ==> blobs[ids[k]] == base + offsets[k]
    {
      blobs := blobs[ids[i] := base + offsets[i]];
    }
    assert ids[..|ids|] == ids;
  }

  /** Dropping entries from the lists, keeping them duplicate-free, keeps the graph well-formed. */
  lemma ShrinkListsKeepsWellFormed(ts: map<TensorId, Tensor>, os: map<OpId, Operator>, tensors: seq<TensorId>, ops: seq<OpId>,
                                   tensors': seq<TensorId>, ops': seq<OpId>)
    requires WellFormedGraph(ts, os, tensors, ops)
    requires Distinct(tensors') && (forall t :: t in tensors' ==> t in tensors)
    requires Distinct(ops') && (forall o :: o in ops' ==> o in ops)
    ensures WellFormedGraph(ts, os, tensors', ops')
  {
  }

  /** Erasing a tensor from the list keeps the graph well-formed and erases every occurrence. */
  lemma EraseTensorKeepsWellFormed(ts: map<TensorId, Tensor>, os: map<OpId, Operator>, tensors: seq<TensorId>, ops: seq<OpId>,
                                   t: TensorId)
    requires WellFormedGraph(ts, os, tensors, ops)
    ensures WellFormedGraph(ts, os, RemoveFirst(tensors, t), ops)
    ensures RemoveFirst(tensors, t) == Without(tensors, {t})
  {
    RemoveFirstDistinct(tensors, t);
    ShrinkListsKeepsWellFormed(ts, os, tensors, ops, RemoveFirst(tensors, t), ops);
  }

  /** Erasing an operator from the list keeps the graph well-formed and erases every occurrence. */
  lemma EraseOperatorKeepsWellFormed(ts: map<TensorId, Tensor>, os: map<OpId, Operator>, tensors: seq<TensorId>, ops: seq<OpId>,
                                     o: OpId)
    requires WellFormedGraph(ts, os, tensors, ops)
    ensures WellFormedGraph(ts, os, tensors, RemoveFirst(ops, o))
    ensures RemoveFirst(ops, o) == Without(ops, {o})
  {
    RemoveFirstDistinct(ops, o);
    ShrinkListsKeepsWellFormed(ts, os, tensors, ops, tensors, RemoveFirst(ops, o));
  }

  /** The byte size of each listed tensor, in list order. */
  function SizesOf(ts: map<TensorId, Tensor>, tensors: seq<TensorId>): (r: seq<nat>)
    requires forall t :: t in tensors ==> t in ts
    ensures |r| == |tensors| && forall i :: 0 <= i < |r| ==> r[i] < SizeModulus
  {
    seq(|tensors|, i requires 0 <= i < |tensors| => Bytes(ts[tensors[i]]))
  }
}
