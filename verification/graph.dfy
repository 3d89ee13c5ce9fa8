/**
 A computation graph: tensors and operators kept in an arena keyed by ids,
 the membership lists `tensors` and `ops`, edge maintenance when an operator
 is added, the repeated-pass topological sort, the Transpose rewrites of the
 optimizer, shape inference over the operator list and memory planning.

 Pointers become ids. An operator is owned only by the `ops` list, so it is
 alive exactly while it is in `ops`: a weak reference to it "locks" when its
 id is in `ops`. Records of removed operators stay in the arena, unreachable.
 Tensors are shared by the list and the operators that use them, so their
 records stay in the arena too; `tensors` says which belong to the graph.
 Edge lists (`targets`, `predecessors`, `successors`) are sets of ids.
 */
module Graphs {
  import opened Common
  import opened Shapes
  import MatMul
  import opened Allocation

  type TensorId = nat
  type OpId = nat

  /** The operator kinds the optimizer distinguishes; every other kind is opaque. */
  datatype OpKind =
    | Transpose(perm: seq<int>)
    | MatMulOp(transA: bool, transB: bool)
    | OtherOp(name: string)

  /** A tensor: its FUID, dimensions, element size, producer and consumers. */
  datatype Tensor = Tensor(fuid: int, shape: Shape, elemSize: nat, source: Option<OpId>, targets: set<OpId>)

  /** An operator: its kind, input and output tensors, and its neighbours in the graph. */
  datatype Operator = Operator(kind: OpKind, inputs: seq<TensorId>, outputs: seq<TensorId>, preds: set<OpId>, succs: set<OpId>)

  /** Why a graph operation stops where the source fails an assertion. */
  datatype GraphError =
    | NotSortable
    | ArenaMaterialized
    | InferenceFailed(op: OpId)
    | OutputCountMismatch(op: OpId)
    | MissingTensor(fuid: int)

  /** The input/output counts each kind's constructor fixes. */
  predicate WellFormedArity(kind: OpKind, inputs: seq<TensorId>, outputs: seq<TensorId>)
  {
    match kind
    case Transpose(_) => |inputs| == 1 && |outputs| == 1
    case MatMulOp(_, _) => |inputs| == 2 && |outputs| == 1
    case OtherOp(_) => true
  }

  /** Number of elements of a shape. */
  function ElementCount(s: Shape): int
  {
    if s == [] then 1 else s[0] * ElementCount(s[1..])
  }

  /** `getBytes()`: elements times element size, as a `size_t`. */
  function Bytes(t: Tensor): (r: nat)
    ensures r < SizeModulus
    ensures (r - ElementCount(t.shape) * t.elemSize) % SizeModulus == 0
    ensures 0 <= ElementCount(t.shape) * t.elemSize < SizeModulus ==> r == ElementCount(t.shape) * t.elemSize
  {
    (ElementCount(t.shape) * t.elemSize) % SizeModulus
  }

  /** The producer of `t`, when it is alive: what a weak `getSource()` still reaches. */
  function SourceIfLive(ts: map<TensorId, Tensor>, t: TensorId, live: seq<OpId>): set<OpId>
  {
    if t in ts && ts[t].source.Some? && ts[t].source.value in live then {ts[t].source.value} else {}
  }

  /** The members of `c` that are alive. */
  function LiveAmong(c: set<OpId>, live: seq<OpId>): set<OpId>
  {
    set s | s in c && s in live
  }

  /**
   The live consumers of `t` once `op` has been registered as a target of
   each of its inputs (so `op` consumes an output that is also one of its
   inputs).
   */
  function ConsumersIfLive(ts: map<TensorId, Tensor>, op: OpId, ins: seq<TensorId>, t: TensorId, live: seq<OpId>): set<OpId>
  {
    if t in ts then LiveAmong(ts[t].targets + (if t in ins then {op} else {}), live) else {}
  }

  lemma LiveAmongStep(c: set<OpId>, pending: set<OpId>, s: OpId, live: seq<OpId>)
    requires s in pending && pending <= c
    ensures LiveAmong(c - (pending - {s}), live) == LiveAmong(c - pending, live) + (if s in live then {s} else {})
  {
  }

  /** The live producers of `ins`, gathered input by input. */
  function LiveSources(ts: map<TensorId, Tensor>, ins: seq<TensorId>, live: seq<OpId>): set<OpId>
  {
    if ins == [] then {}
    else LiveSources(ts, ins[..|ins| - 1], live) + SourceIfLive(ts, ins[|ins| - 1], live)
  }

  /** The live consumers of `outs`, gathered output by output. */
  function LiveConsumers(ts: map<TensorId, Tensor>, op: OpId, ins: seq<TensorId>, outs: seq<TensorId>, live: seq<OpId>): set<OpId>
  {
    if outs == [] then {}
    else LiveConsumers(ts, op, ins, outs[..|outs| - 1], live) + ConsumersIfLive(ts, op, ins, outs[|outs| - 1], live)
  }

  /** Live producers are alive. */
  lemma {:induction false} LiveSourcesAlive(ts: map<TensorId, Tensor>, ins: seq<TensorId>, live: seq<OpId>)
    ensures forall p :: p in LiveSources(ts, ins, live) ==> p in live
  {
    if ins != [] {
      LiveSourcesAlive(ts, ins[..|ins| - 1], live);
    }
  }

  /** Live consumers are alive. */
  lemma {:induction false} LiveConsumersAlive(ts: map<TensorId, Tensor>, op: OpId, ins: seq<TensorId>, outs: seq<TensorId>, live: seq<OpId>)
    ensures forall s :: s in LiveConsumers(ts, op, ins, outs, live) ==> s in live
  {
    if outs != [] {
      LiveConsumersAlive(ts, op, ins, outs[..|outs| - 1], live);
    }
  }

  /** An operator is a live producer of `ins` exactly when it is alive and produces one of them. */
  lemma {:induction false} LiveSourcesMembers(ts: map<TensorId, Tensor>, ins: seq<TensorId>, live: seq<OpId>, p: OpId)
    ensures p in LiveSources(ts, ins, live) <==> exists t :: t in ins && t in ts && ts[t].source == Some(p) && p in live
  {
    if ins != [] {
      var front, last := ins[..|ins| - 1], ins[|ins| - 1];
      LiveSourcesMembers(ts, front, live, p);
      assert ins == front + [last];
      if p in SourceIfLive(ts, last, live) {
        assert last in ins;
      }
      if exists t :: t in ins && t in ts && ts[t].source == Some(p) && p in live {
        var t :| t in ins && t in ts && ts[t].source == Some(p) && p in live;
        if t != last {
          assert t in front;
        }
      }
    }
  }

  /**
   An operator is a live consumer of `outs` exactly when it is alive and
   consumes one of them, `op` counting as a consumer of each of its inputs.
   */
  lemma {:induction false} LiveConsumersMembers(ts: map<TensorId, Tensor>, op: OpId, ins: seq<TensorId>, outs: seq<TensorId>,
                                                live: seq<OpId>, s: OpId)
    ensures s in LiveConsumers(ts, op, ins, outs, live) <==>
      exists t :: t in outs && t in ts && s in live && (s in ts[t].targets || (s == op && t in ins))
  {
    if outs != [] {
      var front, last := outs[..|outs| - 1], outs[|outs| - 1];
      LiveConsumersMembers(ts, op, ins, front, live, s);
      assert outs == front + [last];
      if s in ConsumersIfLive(ts, op, ins, last, live) {
        assert last in outs;
      }
      if exists t :: t in outs && t in ts && s in live && (s in ts[t].targets || (s == op && t in ins)) {
        var t :| t in outs && t in ts && s in live && (s in ts[t].targets || (s == op && t in ins));
        if t != last {
          assert t in front;
        }
      }
    }
  }

  /** The tensors after `addOperatorAndConnect(op)`: `op` targets its inputs and produces its outputs. */
  ghost function ConnectTensors(ts: map<TensorId, Tensor>, op: OpId, ins: seq<TensorId>, outs: seq<TensorId>): map<TensorId, Tensor>
  {
    map t | t in ts :: ts[t].(
      targets := ts[t].targets + (if t in ins then {op} else {}),
      source := if t in outs then Some(op) else ts[t].source)
  }

  /**
   The operators after `addOperatorAndConnect(op)`: each live producer of an
   input and `op` are linked producer-to-consumer, and so are `op` and each
   live consumer of an output; nothing else changes.
   */
  ghost function ConnectOps(os: map<OpId, Operator>, ts: map<TensorId, Tensor>, live: seq<OpId>, op: OpId,
                            kind: OpKind, ins: seq<TensorId>, outs: seq<TensorId>): map<OpId, Operator>
  {
    var P := LiveSources(ts, ins, live);
    var S := LiveConsumers(ts, op, ins, outs, live + [op]);
    map o | o in os.Keys + {op} ::
      if o == op then Operator(kind, ins, outs, P + (if op in S then {op} else {}), S)
      else os[o].(
        preds := os[o].preds + (if o in S then {op} else {}),
        succs := os[o].succs + (if o in P then {op} else {}))
  }

  /** Producer and consumer links agree: `b` succeeds `a` exactly when `a` precedes `b`. */
  ghost predicate EdgesSymmetric(os: map<OpId, Operator>, live: seq<OpId>)
  {
    forall a, b :: a in live && b in live && a in os && b in os ==> (b in os[a].succs <==> a in os[b].preds)
  }

  /**
   Adding an operator links it symmetrically: when no record mentions the
   new id yet, live edges that were symmetric stay symmetric, the new operator
   follows the live producer of each input and precedes every live consumer
   of each output.
   */
  lemma ConnectKeepsSymmetry(os: map<OpId, Operator>, ts: map<TensorId, Tensor>, live: seq<OpId>, op: OpId,
                             kind: OpKind, ins: seq<TensorId>, outs: seq<TensorId>)
    requires op !in os && op !in live
    requires forall o :: o in os ==> op !in os[o].preds && op !in os[o].succs
    requires forall o :: o in live ==> o in os
    requires EdgesSymmetric(os, live)
    ensures EdgesSymmetric(ConnectOps(os, ts, live, op, kind, ins, outs), live + [op])
  {
    var r := ConnectOps(os, ts, live, op, kind, ins, outs);
    var P := LiveSources(ts, ins, live);
    var S := LiveConsumers(ts, op, ins, outs, live + [op]);
    forall a, b | a in live + [op] && b in live + [op] && a in r && b in r
      ensures b in r[a].succs <==> a in r[b].preds
    {
      if a != op && b != op {
        assert a in live && b in live;
      } else if a == op && b != op {
        assert b in live;
        assert b in r[a].succs <==> b in S;
      } else if a != op && b == op {
        assert a in live;
        assert a in r[b].preds <==> a in P;
      } else {
        LiveSourcesAlive(ts, ins, live);
        assert op !in P;
      }
    }
  }

  /**
   What `addOperatorAndConnect` promises about the new operator: every live
   producer of one of its inputs precedes it, every live consumer of one of
   its outputs follows it, and it is the source of each output and a target
   of each input.
   */
  lemma ConnectLinks(os: map<OpId, Operator>, ts: map<TensorId, Tensor>, live: seq<OpId>, op: OpId,
                     kind: OpKind, ins: seq<TensorId>, outs: seq<TensorId>)
    requires forall t :: t in ins ==> t in ts
    requires forall t :: t in outs ==> t in ts
    requires op !in live
    ensures var r := ConnectOps(os, ts, live, op, kind, ins, outs);
      forall t, p :: t in ins && ts[t].source == Some(p) && p in live && p in os ==>
        p in r[op].preds && op in r[p].succs
    ensures var r := ConnectOps(os, ts, live, op, kind, ins, outs);
      forall t, s :: t in outs && s in ts[t].targets && s in live && s in os ==>
        s in r[op].succs && op in r[s].preds
    ensures var c := ConnectTensors(ts, op, ins, outs);
      forall t :: t in outs ==> c[t].source == Some(op)
    ensures var c := ConnectTensors(ts, op, ins, outs);
      forall t :: t in ins ==> op in c[t].targets
  {
    var r := ConnectOps(os, ts, live, op, kind, ins, outs);
    var P := LiveSources(ts, ins, live);
    var S := LiveConsumers(ts, op, ins, outs, live + [op]);
    forall t, p | t in ins && ts[t].source == Some(p) && p in live && p in os
      ensures p in r[op].preds && op in r[p].succs
    {
      LiveSourcesMembers(ts, ins, live, p);
    }
    forall t, s | t in outs && s in ts[t].targets && s in live && s in os
      ensures s in r[op].succs && op in r[s].preds
    {
      assert s in live + [op];
      LiveConsumersMembers(ts, op, ins, outs, live + [op], s);
    }
  }

  /**
   The operators after the input loop of `addOperatorAndConnect`: `op`
   (already in `os`) has each live producer of `ins` as a predecessor, and
   each of those has `op` as a successor.
   */
  ghost function LinkInputs(os: map<OpId, Operator>, ts: map<TensorId, Tensor>, live: seq<OpId>,
                            op: OpId, ins: seq<TensorId>): map<OpId, Operator>
  {
    var P := LiveSources(ts, ins, live);
    map o | o in os ::
      if o == op then os[o].(preds := os[o].preds + P)
      else os[o].(succs := os[o].succs + (if o in P then {op} else {}))
  }

  /** One operator's record after `op` is linked before each of `consumers`. */
  function LinkRecord(x: Operator, o: OpId, op: OpId, consumers: set<OpId>): Operator
  {
    x.(preds := x.preds + (if o in consumers then {op} else {}),
       succs := x.succs + (if o == op then consumers else {}))
  }

  /**
   The operators after linking `op` before each of `consumers`: each gains
   `op` as a predecessor and `op` gains them as successors.
   */
  ghost function LinkConsumers(os: map<OpId, Operator>, op: OpId, consumers: set<OpId>): map<OpId, Operator>
  {
    map o | o in os :: LinkRecord(os[o], o, op, consumers)
  }

  lemma LinkRecordTwice(x: Operator, o: OpId, op: OpId, c1: set<OpId>, c2: set<OpId>)
    ensures LinkRecord(LinkRecord(x, o, op, c1), o, op, c2) == LinkRecord(x, o, op, c1 + c2)
  {
  }

  lemma LinkInputsSnoc(os: map<OpId, Operator>, ts: map<TensorId, Tensor>, live: seq<OpId>,
                       op: OpId, done: seq<TensorId>, t: TensorId)
    requires op in os && op !in live
    requires forall o :: o in live ==> o in os
    ensures var m := LinkInputs(os, ts, live, op, done);
      LinkInputs(os, ts, live, op, done + [t]) ==
        if t in ts && ts[t].source.Some? && ts[t].source.value in live then
          var p := ts[t].source.value;
          var m' := m[p := m[p].(succs := m[p].succs + {op})];
          m'[op := m'[op].(preds := m'[op].preds + {p})]
        else m
  {
    var P, P' := LiveSources(ts, done, live), LiveSources(ts, done + [t], live);
    LiveSourcesSnoc(ts, done, t, live);
    var m, m2 := LinkInputs(os, ts, live, op, done), LinkInputs(os, ts, live, op, done + [t]);
    if t in ts && ts[t].source.Some? && ts[t].source.value in live {
      var p := ts[t].source.value;
      assert P' == P + {p} && p != op;
      var m' := m[p := m[p].(succs := m[p].succs + {op})];
      var r := m'[op := m'[op].(preds := m'[op].preds + {p})];
      assert m2.Keys == r.Keys;
      forall o | o in m2 ensures m2[o] == r[o] {
        if o == op {
        } else if o == p {
        } else {
          assert o in P' <==> o in P;
        }
      }
    } else {
      assert P' == P;
    }
  }


  lemma LinkConsumersStep(os: map<OpId, Operator>, op: OpId, done: set<OpId>, s: OpId)
    requires op in os && s in os
    ensures var m := LinkConsumers(os, op, done);
      var m' := m[s := m[s].(preds := m[s].preds + {op})];
      LinkConsumers(os, op, done + {s}) == m'[op := m'[op].(succs := m'[op].succs + {s})]
  {
    var m, m2 := LinkConsumers(os, op, done), LinkConsumers(os, op, done + {s});
    var m' := m[s := m[s].(preds := m[s].preds + {op})];
    var r := m'[op := m'[op].(succs := m'[op].succs + {s})];
    assert m2.Keys == r.Keys;
    forall o | o in m2 ensures m2[o] == r[o] {
      LinkRecordAdd(os[o], o, op, done, s);
    }
  }

  lemma LinkRecordAdd(x: Operator, o: OpId, op: OpId, done: set<OpId>, s: OpId)
    ensures var y := LinkRecord(x, o, op, done);
      var y' := if o == s then y.(preds := y.preds + {op}) else y;
      LinkRecord(x, o, op, done + {s}) == if o == op then y'.(succs := y'.succs + {s}) else y'
  {
  }


  /** Linking no consumer changes nothing. */
  lemma LinkConsumersNone(os: map<OpId, Operator>, op: OpId)
    ensures LinkConsumers(os, op, {}) == os
  {
    var m := LinkConsumers(os, op, {});
    assert m.Keys == os.Keys;
    forall o | o in m ensures m[o] == os[o] {
    }
  }

  /** The input loop over no input changes nothing. */
  lemma LinkInputsNone(os: map<OpId, Operator>, ts: map<TensorId, Tensor>, live: seq<OpId>, op: OpId)
    ensures LinkInputs(os, ts, live, op, []) == os
  {
    var m := LinkInputs(os, ts, live, op, []);
    assert LiveSources(ts, [], live) == {};
    assert m.Keys == os.Keys;
    forall o | o in m ensures m[o] == os[o] {
    }
  }

  /** Connecting no input and no output changes no tensor. */
  lemma ConnectTensorsNone(ts: map<TensorId, Tensor>, op: OpId)
    ensures ConnectTensors(ts, op, [], []) == ts
  {
    var m := ConnectTensors(ts, op, [], []);
    assert m.Keys == ts.Keys;
    forall t | t in m ensures m[t] == ts[t] {
    }
  }

  lemma LiveSourcesSnoc(ts: map<TensorId, Tensor>, done: seq<TensorId>, t: TensorId, live: seq<OpId>)
    ensures LiveSources(ts, done + [t], live) == LiveSources(ts, done, live) + SourceIfLive(ts, t, live)
  {
    assert (done + [t])[..|done|] == done;
  }



  lemma LiveConsumersSnoc(ts: map<TensorId, Tensor>, op: OpId, ins: seq<TensorId>, done: seq<TensorId>, t: TensorId, live: seq<OpId>)
    ensures LiveConsumers(ts, op, ins, done + [t], live) == LiveConsumers(ts, op, ins, done, live) + ConsumersIfLive(ts, op, ins, t, live)
  {
    assert (done + [t])[..|done|] == done;
  }



  lemma ConnectTensorsSnoc(ts: map<TensorId, Tensor>, op: OpId, ins: seq<TensorId>, done: seq<TensorId>, t: TensorId)
    requires t in ts
    ensures var m := ConnectTensors(ts, op, ins, done);
      ConnectTensors(ts, op, ins, done + [t]) == m[t := m[t].(source := Some(op))]
  {
    var m, m2 := ConnectTensors(ts, op, ins, done), ConnectTensors(ts, op, ins, done + [t]);
    var r := m[t := m[t].(source := Some(op))];
    assert m2.Keys == r.Keys;
    forall x | x in m2 ensures m2[x] == r[x] {
      assert x in done + [t] <==> x in done || x == t;
    }
  }


  lemma ConnectTensorsSnocIn(ts: map<TensorId, Tensor>, op: OpId, done: seq<TensorId>, t: TensorId)
    requires t in ts
    ensures var m := ConnectTensors(ts, op, done, []);
      ConnectTensors(ts, op, done + [t], []) == m[t := m[t].(targets := m[t].targets + {op})]
  {
    var m, m2 := ConnectTensors(ts, op, done, []), ConnectTensors(ts, op, done + [t], []);
    var r := m[t := m[t].(targets := m[t].targets + {op})];
    assert m2.Keys == r.Keys;
    forall x | x in m2 ensures m2[x] == r[x] {
      assert x in done + [t] <==> x in done || x == t;
    }
  }


  /**
   Connecting keeps the operator records closed: the new operator's links
   point at live operators or at itself, and an old record only gains the
   new operator.
   */
  lemma ConnectOpsClosed(os: map<OpId, Operator>, ts: map<TensorId, Tensor>, live: seq<OpId>, op: OpId,
                         kind: OpKind, ins: seq<TensorId>, outs: seq<TensorId>)
    requires forall o :: o in live ==> o in os
    ensures var r := ConnectOps(os, ts, live, op, kind, ins, outs);
      && r.Keys == os.Keys + {op}
      && r[op] == Operator(kind, ins, outs, r[op].preds, r[op].succs)
      && r[op].preds <= r.Keys && r[op].succs <= r.Keys
      && forall o :: o in os && o != op ==>
           && r[o].kind == os[o].kind && r[o].inputs == os[o].inputs && r[o].outputs == os[o].outputs
           && r[o].preds <= os[o].preds + {op} && r[o].succs <= os[o].succs + {op}
  {
    LiveSourcesAlive(ts, ins, live);
    LiveConsumersAlive(ts, op, ins, outs, live + [op]);
  }

  /** Connecting keeps the tensor records closed: they only gain `op` as source or target. */
  lemma ConnectTensorsClosed(ts: map<TensorId, Tensor>, op: OpId, ins: seq<TensorId>, outs: seq<TensorId>)
    ensures var r := ConnectTensors(ts, op, ins, outs);
      && r.Keys == ts.Keys
      && forall t :: t in ts ==>
           && (r[t].source == ts[t].source || r[t].source == Some(op))
           && (t !in outs ==> r[t].source == ts[t].source)
           && r[t].targets <= ts[t].targets + {op}
  {
  }

  /** Linking the consumers of the outputs one tensor after another. */
  lemma LinkConsumersUnion(os: map<OpId, Operator>, op: OpId, c1: set<OpId>, c2: set<OpId>)
    ensures LinkConsumers(LinkConsumers(os, op, c1), op, c2) == LinkConsumers(os, op, c1 + c2)
  {
    var m1 := LinkConsumers(os, op, c1);
    var m, r := LinkConsumers(m1, op, c2), LinkConsumers(os, op, c1 + c2);
    assert m.Keys == r.Keys;
    forall o | o in m ensures m[o] == r[o] {
      LinkRecordTwice(os[o], o, op, c1, c2);
    }
  }

  /** The two loops of `addOperatorAndConnect` together make `ConnectOps`. */
  lemma ConnectInSteps(os: map<OpId, Operator>, ts: map<TensorId, Tensor>, live: seq<OpId>, op: OpId,
                       kind: OpKind, ins: seq<TensorId>, outs: seq<TensorId>)
    requires op !in os
    ensures ConnectOps(os, ts, live, op, kind, ins, outs) ==
      LinkConsumers(LinkInputs(os[op := Operator(kind, ins, outs, {}, {})], ts, live, op, ins),
                    op, LiveConsumers(ts, op, ins, outs, live + [op]))
  {
    var S := LiveConsumers(ts, op, ins, outs, live + [op]);
    var li := LinkInputs(os[op := Operator(kind, ins, outs, {}, {})], ts, live, op, ins);
    var m, r := ConnectOps(os, ts, live, op, kind, ins, outs), LinkConsumers(li, op, S);
    assert m.Keys == r.Keys;
    forall o | o in m ensures m[o] == r[o] {
      ConnectInStepsAt(os, ts, live, op, kind, ins, outs, o);
    }
  }

  lemma ConnectInStepsAt(os: map<OpId, Operator>, ts: map<TensorId, Tensor>, live: seq<OpId>, op: OpId,
                         kind: OpKind, ins: seq<TensorId>, outs: seq<TensorId>, o: OpId)
    requires op !in os && (o in os || o == op)
    ensures var li := LinkInputs(os[op := Operator(kind, ins, outs, {}, {})], ts, live, op, ins);
      ConnectOps(os, ts, live, op, kind, ins, outs)[o] ==
        LinkConsumers(li, op, LiveConsumers(ts, op, ins, outs, live + [op]))[o]
  {
    var P, S := LiveSources(ts, ins, live), LiveConsumers(ts, op, ins, outs, live + [op]);
    var li := LinkInputs(os[op := Operator(kind, ins, outs, {}, {})], ts, live, op, ins);
    if o == op {
      assert li[o] == Operator(kind, ins, outs, P, {});
      LinkRecordNew(kind, ins, outs, op, P, S);
    } else {
      var x := os[o];
      assert li[o] == x.(succs := x.succs + (if o in P then {op} else {}));
      LinkRecordOld(x, o, op, P, S);
    }
  }


  lemma LinkRecordNew(kind: OpKind, ins: seq<TensorId>, outs: seq<TensorId>, op: OpId, P: set<OpId>, S: set<OpId>)
    ensures LinkRecord(Operator(kind, ins, outs, P, {}), op, op, S) ==
      Operator(kind, ins, outs, P + (if op in S then {op} else {}), S)
  {
  }

  lemma LinkRecordOld(x: Operator, o: OpId, op: OpId, P: set<OpId>, S: set<OpId>)
    requires o != op
    ensures LinkRecord(x.(succs := x.succs + (if o in P then {op} else {})), o, op, S) ==
      x.(preds := x.preds + (if o in S then {op} else {}), succs := x.succs + (if o in P then {op} else {}))
  {
  }

  /**
   The input loop of `addOperatorAndConnect` on the stores `ts0` and `os0`,
   for an operator `id` whose record is already in `os0` and which is not
   among the live operators `live` that were there before it.
   */
  method ConnectInputs(ts0: map<TensorId, Tensor>, os0: map<OpId, Operator>, id: OpId, ins: seq<TensorId>, live: seq<OpId>)
    returns (ts: map<TensorId, Tensor>, os: map<OpId, Operator>)
    requires id in os0 && id !in live
    requires forall o :: o in live ==> o in os0
    requires forall t :: t in ins ==> t in ts0 && ts0[t].source != Some(id)
    ensures ts == ConnectTensors(ts0, id, ins, [])
    ensures os == LinkInputs(os0, ts0, live, id, ins)
  {
    ts, os := ts0, os0;
    ConnectTensorsNone(ts0, id);
    LinkInputsNone(os0, ts0, live, id);
    var i := 0;
    while i < |ins|
      invariant 0 <= i <= |ins|
      invariant ts == ConnectTensors(ts0, id, ins[..i], [])
      invariant os == LinkInputs(os0, ts0, live, id, ins[..i])
    {
      ts, os := ConnectInput(ts, os, id, ins[i], live, ts0, os0, ins[..i]);
      PrefixSnoc(ins, i);
      i := i + 1;
    }
    assert ins[..i] == ins;
  }

  /**
   One pass of the input loop: `id` targets `t`, and when the producer of
   `t` is alive the two are linked.
   */
  method ConnectInput(ts: map<TensorId, Tensor>, os: map<OpId, Operator>, id: OpId, t: TensorId, live: seq<OpId>,
                      ghost ts0: map<TensorId, Tensor>, ghost os0: map<OpId, Operator>, ghost done: seq<TensorId>)
    returns (ts': map<TensorId, Tensor>, os': map<OpId, Operator>)
    requires id in os0 && id !in live
    requires forall o :: o in live ==> o in os0
    requires t in ts0 && ts0[t].source != Some(id)
    requires ts == ConnectTensors(ts0, id, done, [])
    requires os == LinkInputs(os0, ts0, live, id, done)
    ensures ts' == ConnectTensors(ts0, id, done + [t], [])
    ensures os' == LinkInputs(os0, ts0, live, id, done + [t])
  {
    ConnectTensorsSnocIn(ts0, id, done, t);
    LinkInputsSnoc(os0, ts0, live, id, done, t);
    var src := ts[t].source;
    assert src == ts0[t].source by {
      ConnectTensorsClosed(ts0, id, done, []);
    }
    ts' := ts[t := ts[t].(targets := ts[t].targets + {id})];
    os' := os;
    if src.Some? && src.value in live + [id] {
      var p := src.value;
      os' := os'[p := os'[p].(succs := os'[p].succs + {id})];
      os' := os'[id := os'[id].(preds := os'[id].preds + {p})];
    }
  }

  /**
   The output loop of `addOperatorAndConnect`: `id` becomes the source of
   each output and precedes each live (in `live`) target of it, where the
   targets are those of `ts` after the input loop.
   */
  method ConnectOutputs(ts1: map<TensorId, Tensor>, os1: map<OpId, Operator>, id: OpId,
                        ins: seq<TensorId>, outs: seq<TensorId>, ghost ts: map<TensorId, Tensor>, live: seq<OpId>)
    returns (ts2: map<TensorId, Tensor>, os2: map<OpId, Operator>)
    requires ts1 == ConnectTensors(ts, id, ins, [])
    requires id in os1
    requires forall t :: t in outs ==> t in ts
    requires forall t :: t in ts ==> ts[t].targets <= os1.Keys
    ensures ts2 == ConnectTensors(ts, id, ins, outs)
    ensures os2 == LinkConsumers(os1, id, LiveConsumers(ts, id, ins, outs, live))
  {
    ts2, os2 := ts1, os1;
    LinkConsumersNone(os1, id);
    assert LiveConsumers(ts, id, ins, [], live) == {};
    var j := 0;
    while j < |outs|
      invariant 0 <= j <= |outs|
      invariant ts2 == ConnectTensors(ts, id, ins, outs[..j])
      invariant os2 == LinkConsumers(os1, id, LiveConsumers(ts, id, ins, outs[..j], live))
    {
      ts2, os2 := ConnectOutput(ts2, os2, id, ins, outs[j], live, ts, os1, outs[..j]);
      PrefixSnoc(outs, j);
      j := j + 1;
    }
    assert outs[..j] == outs;
  }

  /**
   One pass of the output loop: `id` becomes the source of `t` and precedes
   each live target of `t`.
   */
  method ConnectOutput(ts2: map<TensorId, Tensor>, os2: map<OpId, Operator>, id: OpId, ins: seq<TensorId>, t: TensorId,
                       live: seq<OpId>, ghost ts: map<TensorId, Tensor>, ghost os1: map<OpId, Operator>, ghost done: seq<TensorId>)
    returns (ts3: map<TensorId, Tensor>, os3: map<OpId, Operator>)
    requires id in os1 && t in ts
    requires ts2 == ConnectTensors(ts, id, ins, done)
    requires os2 == LinkConsumers(os1, id, LiveConsumers(ts, id, ins, done, live))
    requires ts[t].targets <= os1.Keys
    ensures ts3 == ConnectTensors(ts, id, ins, done + [t])
    ensures os3 == LinkConsumers(os1, id, LiveConsumers(ts, id, ins, done + [t], live))
  {
    ConnectTensorsSnoc(ts, id, ins, done, t);
    LiveConsumersSnoc(ts, id, ins, done, t, live);
    ts3 := ts2[t := ts2[t].(source := Some(id))];
    var consumers := ts3[t].targets;
    assert consumers == ts[t].targets + (if t in ins then {id} else {}) by {
      ConnectTensorsClosed(ts, id, ins, done);
    }
    os3 := LinkTargets(os2, id, consumers, live);
    LinkConsumersUnion(os1, id, LiveConsumers(ts, id, ins, done, live), LiveAmong(consumers, live));
  }

  /**
   The inner loop over one output's targets: each live one gets `id` as a
   predecessor and becomes a successor of `id`.
   */
  method LinkTargets(os0: map<OpId, Operator>, id: OpId, consumers: set<OpId>, live: seq<OpId>) returns (os: map<OpId, Operator>)
    requires id in os0 && consumers <= os0.Keys
    ensures os == LinkConsumers(os0, id, LiveAmong(consumers, live))
  {
    os := os0;
    var pending := consumers;
    ghost var done: set<OpId> := {};
    LinkConsumersNone(os0, id);
    while pending != {}
      invariant pending <= consumers
      invariant done == LiveAmong(consumers - pending, live)
      invariant os == LinkConsumers(os0, id, done)
      decreases pending
    {
      var s :| s in pending;
      LiveAmongStep(consumers, pending, s, live);
      if s in live {
        LinkConsumersStep(os0, id, done, s);
        os := os[s := os[s].(preds := os[s].preds + {id})];
        os := os[id := os[id].(succs := os[id].succs + {s})];
        done := done + {s};
      }
      pending := pending - {s};
    }
    assert consumers - pending == consumers;
  }

  /** Every id an operator record mentions has a record, and it has its kind's arity. */
  ghost predicate OpRecordClosed(x: Operator, ts: map<TensorId, Tensor>, os: map<OpId, Operator>)
  {
    && WellFormedArity(x.kind, x.inputs, x.outputs)
    && (forall t :: t in x.inputs ==> t in ts)
    && (forall t :: t in x.outputs ==> t in ts)
    && x.preds <= os.Keys
    && x.succs <= os.Keys
  }

  /** Every operator id a tensor record mentions has a record. */
  ghost predicate TensorRecordClosed(x: Tensor, os: map<OpId, Operator>)
  {
    && (x.source.Some? ==> x.source.value in os)
    && x.targets <= os.Keys
  }

  /** The arena is closed: no record mentions an id without a record. */
  ghost predicate StoresClosed(ts: map<TensorId, Tensor>, os: map<OpId, Operator>)
  {
    && (forall o :: o in os ==> OpRecordClosed(os[o], ts, os))
    && (forall t :: t in ts ==> TensorRecordClosed(ts[t], os))
  }

  /**
   The graph's invariant on its stores and lists: neither list has
   duplicates, both lists name stored records, and the arena is closed.
   */
  ghost predicate WellFormedGraph(ts: map<TensorId, Tensor>, os: map<OpId, Operator>,
                                  tensors: seq<TensorId>, ops: seq<OpId>)
  {
    && Distinct(ops)
    && Distinct(tensors)
    && (forall o :: o in ops ==> o in os)
    && (forall t :: t in tensors ==> t in ts)
    && StoresClosed(ts, os)
  }

  /** Connecting a fresh, well-formed operator and appending it to `ops` keeps the invariant. */
  lemma ConnectKeepsWellFormed(ts: map<TensorId, Tensor>, os: map<OpId, Operator>,
                               tensors: seq<TensorId>, ops: seq<OpId>,
                               op: OpId, kind: OpKind, ins: seq<TensorId>, outs: seq<TensorId>)
    requires WellFormedGraph(ts, os, tensors, ops) && op !in os
    requires WellFormedArity(kind, ins, outs)
    requires forall t :: t in ins ==> t in ts
    requires forall t :: t in outs ==> t in ts
    ensures WellFormedGraph(ConnectTensors(ts, op, ins, outs), ConnectOps(os, ts, ops, op, kind, ins, outs),
                            tensors, ops + [op])
  {
    DistinctSnoc(ops, op);
    ConnectKeepsClosed(ts, os, ops, op, kind, ins, outs);
    ConnectOpsClosed(os, ts, ops, op, kind, ins, outs);
    ConnectTensorsClosed(ts, op, ins, outs);
  }

  /** Connecting a fresh, well-formed operator keeps the arena closed. */
  lemma ConnectKeepsClosed(ts: map<TensorId, Tensor>, os: map<OpId, Operator>, live: seq<OpId>, op: OpId,
                           kind: OpKind, ins: seq<TensorId>, outs: seq<TensorId>)
    requires StoresClosed(ts, os) && op !in os
    requires forall o :: o in live ==> o in os
    requires WellFormedArity(kind, ins, outs)
    requires forall t :: t in ins ==> t in ts
    requires forall t :: t in outs ==> t in ts
    ensures StoresClosed(ConnectTensors(ts, op, ins, outs), ConnectOps(os, ts, live, op, kind, ins, outs))
  {
    ConnectOpsClosed(os, ts, live, op, kind, ins, outs);
    ConnectTensorsClosed(ts, op, ins, outs);
    GrownStoresClosed(ts, os, ConnectTensors(ts, op, ins, outs), ConnectOps(os, ts, live, op, kind, ins, outs),
                      op, kind, ins, outs);
  }

  /**
   Stores that only gain records and gain, in old records, only links to the
   new operator stay closed.
   */
  lemma GrownStoresClosed(ts: map<TensorId, Tensor>, os: map<OpId, Operator>,
                          ts': map<TensorId, Tensor>, os': map<OpId, Operator>,
                          op: OpId, kind: OpKind, ins: seq<TensorId>, outs: seq<TensorId>)
    requires StoresClosed(ts, os)
    requires WellFormedArity(kind, ins, outs)
    requires forall t :: t in ins ==> t in ts
    requires forall t :: t in outs ==> t in ts
    requires && os'.Keys == os.Keys + {op}
             && os'[op] == Operator(kind, ins, outs, os'[op].preds, os'[op].succs)
             && os'[op].preds <= os'.Keys && os'[op].succs <= os'.Keys
             && forall o :: o in os && o != op ==>
                  && os'[o].kind == os[o].kind && os'[o].inputs == os[o].inputs && os'[o].outputs == os[o].outputs
                  && os'[o].preds <= os[o].preds + {op} && os'[o].succs <= os[o].succs + {op}
    requires && ts'.Keys == ts.Keys
             && forall t :: t in ts ==>
                  && (ts'[t].source == ts[t].source || ts'[t].source == Some(op))
                  && ts'[t].targets <= ts[t].targets + {op}
    ensures StoresClosed(ts', os')
  {
    forall o | o in os' ensures OpRecordClosed(os'[o], ts', os') {
      if o != op {
        OpRecordGrows(os[o], os'[o], ts, os, ts', os', op);
      }
    }
    forall t | t in ts' ensures TensorRecordClosed(ts'[t], os') {
      assert TensorRecordClosed(ts[t], os);
    }
  }

  lemma OpRecordGrows(x: Operator, x': Operator, ts: map<TensorId, Tensor>, os: map<OpId, Operator>,
                      ts': map<TensorId, Tensor>, os': map<OpId, Operator>, op: OpId)
    requires OpRecordClosed(x, ts, os)
    requires x'.kind == x.kind && x'.inputs == x.inputs && x'.outputs == x.outputs
    requires x'.preds <= x.preds + {op} && x'.succs <= x.succs + {op}
    requires ts.Keys <= ts'.Keys && os.Keys + {op} <= os'.Keys
    ensures OpRecordClosed(x', ts', os')
  {
  }


  /**
   `addOperatorAndConnect` on the stores: the new record for `id`, then the
   input loop, then the output loop. `live` are the operators already in the
   graph.
   */
  method Connect(ts: map<TensorId, Tensor>, os: map<OpId, Operator>, live: seq<OpId>, id: OpId,
                 kind: OpKind, ins: seq<TensorId>, outs: seq<TensorId>)
    returns (ts': map<TensorId, Tensor>, os': map<OpId, Operator>)
    requires StoresClosed(ts, os) && id !in os
    requires forall o :: o in live ==> o in os
    requires forall t :: t in ins ==> t in ts
    requires forall t :: t in outs ==> t in ts
    ensures ts' == ConnectTensors(ts, id, ins, outs)
    ensures os' == ConnectOps(os, ts, live, id, kind, ins, outs)
  {
    var os0 := os[id := Operator(kind, ins, outs, {}, {})];
    forall t | t in ins ensures ts[t].source != Some(id) {
      assert TensorRecordClosed(ts[t], os);
    }
    forall t | t in ts ensures ts[t].targets <= os0.Keys {
      assert TensorRecordClosed(ts[t], os);
    }
    var ts1, os1 := ConnectInputs(ts, os0, id, ins, live);
    ts', os' := ConnectOutputs(ts1, os1, id, ins, outs, ts, live + [id]);
    ConnectInSteps(os, ts, live, id, kind, ins, outs);
  }
}
