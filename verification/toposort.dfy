/**
 The repeated-pass topological sort of the operator list. Each pass walks
 `ops` in order and places every operator not yet placed whose inputs'
 live producers are all placed; an operator placed earlier in the same pass
 already counts. A pass that places nothing ends the sort with a failure.
 */
module TopoSort {
  import opened Common
  import opened Graphs

  /** Every live producer of a tensor in `ins` is in `placed` (the `all_of` test). */
  predicate ProducersPlaced(ts: map<TensorId, Tensor>, ins: seq<TensorId>, live: seq<OpId>, placed: set<OpId>)
  {
    forall t :: t in ins ==> SourceIfLive(ts, t, live) <= placed
  }

  /** Each operator of `order` comes after the live producers of its inputs. */
  ghost predicate ProducersFirst(ts: map<TensorId, Tensor>, os: map<OpId, Operator>, live: seq<OpId>, order: seq<OpId>)
  {
    forall i :: 0 <= i < |order| ==> order[i] in os && ProducersPlaced(ts, os[order[i]].inputs, live, Elems(order[..i]))
  }

  /** `order` rearranges `ops` so that producers come first. */
  ghost predicate IsTopoOrder(ts: map<TensorId, Tensor>, os: map<OpId, Operator>, ops: seq<OpId>, order: seq<OpId>)
  {
    multiset(order) == multiset(ops) && ProducersFirst(ts, os, ops, order)
  }

  /** Appending an operator whose producers are all placed keeps producers first. */
  lemma ProducersFirstSnoc(ts: map<TensorId, Tensor>, os: map<OpId, Operator>, live: seq<OpId>, order: seq<OpId>, o: OpId)
    requires ProducersFirst(ts, os, live, order)
    requires o in os && ProducersPlaced(ts, os[o].inputs, live, Elems(order))
    ensures ProducersFirst(ts, os, live, order + [o])
  {
    var r := order + [o];
    forall i | 0 <= i < |r| ensures r[i] in os && ProducersPlaced(ts, os[r[i]].inputs, live, Elems(r[..i])) {
      if i < |order| {
        assert r[..i] == order[..i];
      } else {
        assert r[..i] == order;
      }
    }
  }

  /** Placing more operators never unplaces a producer. */
  lemma ProducersPlacedGrows(ts: map<TensorId, Tensor>, ins: seq<TensorId>, live: seq<OpId>, p: set<OpId>, q: set<OpId>)
    requires p <= q && ProducersPlaced(ts, ins, live, p)
    ensures ProducersPlaced(ts, ins, live, q)
  {
  }

  /**
   When every unplaced operator still waits for an unplaced live producer,
   no order of `ops` puts producers first: the first unplaced operator of
   such an order would need one placed before it.
   */
  lemma NoOrderWhenStuck(ts: map<TensorId, Tensor>, os: map<OpId, Operator>, ops: seq<OpId>, flags: set<OpId>, order: seq<OpId>)
    requires flags <= Elems(ops) && flags != Elems(ops)
    requires forall o :: o in ops ==> o in os
    requires forall o :: o in ops && o !in flags ==> !ProducersPlaced(ts, os[o].inputs, ops, flags)
    ensures !IsTopoOrder(ts, os, ops, order)
  {
    if IsTopoOrder(ts, os, ops, order) {
      var i := 0;
      while i < |order|
        invariant 0 <= i <= |order|
        invariant forall j :: 0 <= j < i ==> order[j] in flags
      {
        assert order[i] in multiset(ops);
        assert Elems(order[..i]) <= flags;
        ProducersPlacedGrows(ts, os[order[i]].inputs, ops, Elems(order[..i]), flags);
        i := i + 1;
      }
      forall x | x in Elems(ops) ensures x in flags {
        assert x in multiset(order);
      }
      assert false;
    }
  }

  /**
   One pass of the sort over `ops`: places, in list order, every operator
   that is not yet placed and whose producers are placed. A pass that
   places nothing leaves every unplaced operator waiting.
   */
  method Pass(ts: map<TensorId, Tensor>, os: map<OpId, Operator>, ops: seq<OpId>, placed0: seq<OpId>, flags0: set<OpId>)
    returns (placed: seq<OpId>, flags: set<OpId>, modified: bool)
    requires forall o :: o in ops ==> o in os
    requires Distinct(placed0) && Elems(placed0) == flags0 && flags0 <= Elems(ops)
    requires ProducersFirst(ts, os, ops, placed0)
    ensures Distinct(placed) && Elems(placed) == flags && flags <= Elems(ops)
    ensures ProducersFirst(ts, os, ops, placed)
    ensures placed0 <= placed
    ensures modified <==> |placed| > |placed0|
    ensures !modified ==> forall o :: o in ops && o !in flags ==> !ProducersPlaced(ts, os[o].inputs, ops, flags)
  {
    placed, flags, modified := placed0, flags0, false;
    for i := 0 to |ops|
      invariant Distinct(placed) && Elems(placed) == flags && flags <= Elems(ops)
      invariant ProducersFirst(ts, os, ops, placed)
      invariant placed0 <= placed
      invariant modified <==> |placed| > |placed0|
      invariant !modified ==> placed == placed0 && flags == flags0
      invariant !modified ==> forall k :: 0 <= k < i && ops[k] !in flags ==> !ProducersPlaced(ts, os[ops[k]].inputs, ops, flags)
    {
      var o := ops[i];
      if o !in flags && ProducersPlaced(ts, os[o].inputs, ops, flags) {
        ProducersFirstSnoc(ts, os, ops, placed, o);
        DistinctSnoc(placed, o);
        modified := true;
        placed := placed + [o];
        flags := flags + {o};
      }
    }
  }

  /**
   `topo_sort` on an unsorted graph: passes repeat while operators remain;
   on success the placed list is a topological order of `ops`, and on a
   pass that places nothing no topological order exists.
   */
  method Sort(ts: map<TensorId, Tensor>, os: map<OpId, Operator>, ops: seq<OpId>) returns (ok: bool, order: seq<OpId>)
    requires forall o :: o in ops ==> o in os
    requires Distinct(ops)
    ensures ok ==> IsTopoOrder(ts, os, ops, order) && Distinct(order)
    ensures !ok ==> order == ops && forall r :: !IsTopoOrder(ts, os, ops, r)
  {
    var placed: seq<OpId> := [];
    var flags: set<OpId> := {};
    while |placed| < |ops|
      invariant Distinct(placed) && Elems(placed) == flags && flags <= Elems(ops)
      invariant ProducersFirst(ts, os, ops, placed)
      decreases |ops| - |placed|
    {
      var modified;
      placed, flags, modified := Pass(ts, os, ops, placed, flags);
      DistinctSubsetLength(placed, ops);
      if !modified {
        DistinctCard(placed);
        DistinctCard(ops);
        forall r ensures !IsTopoOrder(ts, os, ops, r) {
          NoOrderWhenStuck(ts, os, ops, flags, r);
        }
        return false, ops;
      }
    }
    DistinctSubsetLength(placed, ops);
    assert forall x :: x in placed <==> x in Elems(ops);
    DistinctSameSetPermutation(placed, ops);
    return true, placed;
  }
}
