/** Who gets what: for every order in which the maps are walked, over whole runs, and from a tree of
    signals to the component that resumes. */
module ResumeDelivery {
  import opened Wrappers
  import opened Resume
  import opened Signals

  // ---- the order of the walk ----

  /** The part of a context a component can read. */
  function Seen(c: Ctx): Ctx { c.(stateId := None) }

  ghost predicate OrderFree(v: Info, here: Address) {
    forall o1, o2 :: Order(v.addr.Keys, o1) && Order(v.addr.Keys, o2) ==>
      Scan(v, here, o1).0 == Scan(v, here, o2).0 && Seen(Scan(v, here, o1).1) == Seen(Scan(v, here, o2).1)
  }

  lemma OrderMembers(keys: set<Id>, order: seq<Id>)
    requires Order(keys, order)
    ensures Members(order) == keys
  {
  }

  /** The record ends up the same in every order. */
  lemma RecordIsOrderFree(v: Info, here: Address, o1: seq<Id>, o2: seq<Id>)
    requires Order(v.addr.Keys, o1) && Order(v.addr.Keys, o2)
    ensures Scan(v, here, o1).0 == Scan(v, here, o2).0 && Scan(v, here, o1).1.target == Scan(v, here, o2).1.target
  {
    OrderMembers(v.addr.Keys, o1);
    OrderMembers(v.addr.Keys, o2);
    ScanTold(v, here, o1);
    ScanTold(v, here, o2);
    assert Scan(v, here, o1).0.stateUsed == Scan(v, here, o2).0.stateUsed;
    assert Scan(v, here, o1).0.dataUsed == Scan(v, here, o2).0.dataUsed;
  }

  lemma {:induction false} OrderOf(keys: set<Id>) returns (order: seq<Id>)
    ensures Order(keys, order)
  {
    order := [];
    var rest := keys;
    while rest != {}
      invariant rest <= keys && Order(keys - rest, order)
      decreases rest
    {
      var id :| id in rest;
      rest := rest - {id};
      order := order + [id];
    }
  }

  lemma OrderEndingWith(keys: set<Id>, last: Id) returns (order: seq<Id>)
    requires last in keys
    ensures Order(keys, order) && |order| > 0 && order[|order| - 1] == last
  {
    var front := OrderOf(keys - {last});
    order := front + [last];
  }

  /** Whatever waits for the interrupt met last is what the context holds. */
  lemma LastTakes(v: Info, here: Address, order: seq<Id>)
    requires Order(v.addr.Keys, order) && |order| > 0
    ensures var id := order[|order| - 1]; var c := Scan(v, here, order).1;
            (StateWaits(v, here, id) ==> c.interruptState == Some(v.state[id]))
            && (DataWaits(v, here, id) ==> c.targetId == Some(id) && c.resumeData == Some(v.data[id]))
  {
    var n := |order| - 1;
    ScanTold(v, here, order[..n]);
    assert order[n] !in Members(order[..n]);
  }

  ghost predicate OneAnswer(v: Info, here: Address) {
    && (forall a, b :: StateWaits(v, here, a) && StateWaits(v, here, b) ==> v.state[a] == v.state[b])
    && (forall a, b :: DataWaits(v, here, a) && DataWaits(v, here, b) ==> a == b)
  }

  lemma OneAnswerSuffices(v: Info, here: Address, o1: seq<Id>, o2: seq<Id>)
    requires OneAnswer(v, here) && Order(v.addr.Keys, o1) && Order(v.addr.Keys, o2)
    ensures Scan(v, here, o1).0 == Scan(v, here, o2).0 && Seen(Scan(v, here, o1).1) == Seen(Scan(v, here, o2).1)
  {
    RecordIsOrderFree(v, here, o1, o2);
    OrderMembers(v.addr.Keys, o1);
    OrderMembers(v.addr.Keys, o2);
    ScanTold(v, here, o1);
    ScanTold(v, here, o2);
  }

  /** What a context shows does not depend on the walk exactly when the states waiting at its address
      are all the same and resume data waits there for at most one interrupt. */
  lemma OrderFreeExactly(v: Info, here: Address)
    ensures OrderFree(v, here) <==> OneAnswer(v, here)
  {
    if OneAnswer(v, here) {
      forall o1, o2 | Order(v.addr.Keys, o1) && Order(v.addr.Keys, o2)
        ensures Scan(v, here, o1).0 == Scan(v, here, o2).0 && Seen(Scan(v, here, o1).1) == Seen(Scan(v, here, o2).1)
      {
        OneAnswerSuffices(v, here, o1, o2);
      }
    }
    if OrderFree(v, here) {
      forall a, b | a in v.addr && b in v.addr
        ensures StateWaits(v, here, a) && StateWaits(v, here, b) ==> v.state[a] == v.state[b]
        ensures DataWaits(v, here, a) && DataWaits(v, here, b) ==> a == b
      {
        var o1 := OrderEndingWith(v.addr.Keys, a);
        var o2 := OrderEndingWith(v.addr.Keys, b);
        LastTakes(v, here, o1);
        LastTakes(v, here, o2);
        assert Seen(Scan(v, here, o1).1) == Seen(Scan(v, here, o2).1);
      }
    }
  }

  // ---- at most once ----

  datatype Op =
    | Append(here: Address, order: seq<Id>)
    | Request(data: map<Id, Any>)

  /** One call on the shared record; concurrent calls take its lock in turn. */
  function Do(v: Info, op: Op): (Info, Ctx) {
    match op
    case Append(here, order) => Scan(v, here, order)
    case Request(data) => (v.(data := v.data + data), Blank([]))
  }

  function Run(v: Info, ops: seq<Op>): Info {
    if ops == [] then v else Do(Run(v, ops[..|ops| - 1]), ops[|ops| - 1]).0
  }

  /** The context the i-th call hands out. */
  function CtxAt(v: Info, ops: seq<Op>, i: nat): Ctx
    requires i < |ops|
  {
    Do(Run(v, ops[..i]), ops[i]).1
  }

  /** Every append walks the whole map, in some order. */
  ghost predicate Legal(v: Info, op: Op) { op.Append? ==> Order(v.addr.Keys, op.order) }

  ghost predicate Legals(v: Info, ops: seq<Op>) {
    forall i {:trigger Legal(v, ops[i])} :: 0 <= i < |ops| ==> Legal(v, ops[i])
  }

  lemma StepUses(v: Info, op: Op)
    requires Legal(v, op)
    ensures var (w, c) := Do(v, op);
            w.addr == v.addr && w.state == v.state
            && v.stateUsed <= w.stateUsed && v.dataUsed <= w.dataUsed
            && (c.stateId.Some? ==> c.stateId.value in w.stateUsed - v.stateUsed)
            && (c.targetId.Some? ==> c.targetId.value in w.dataUsed - v.dataUsed)
  {
    if op.Append? {
      ScanTold(v, op.here, op.order);
    }
  }

  lemma {:induction false} UsesGrow(v: Info, ops: seq<Op>, i: nat)
    requires Legals(v, ops) && i <= |ops|
    ensures Run(v, ops).addr == v.addr && Run(v, ops).state == v.state
    ensures Run(v, ops[..i]).stateUsed <= Run(v, ops).stateUsed
    ensures Run(v, ops[..i]).dataUsed <= Run(v, ops).dataUsed
    decreases |ops|
  {
    if ops != [] {
      var n := |ops| - 1;
      assert Legals(v, ops[..n]) by { forall k | 0 <= k < n ensures Legal(v, ops[..n][k]) { assert Legal(v, ops[k]); } }
      UsesGrow(v, ops[..n], if i < |ops| then i else n);
      assert i < |ops| ==> ops[..n][..i] == ops[..i];
      assert i == |ops| ==> ops[..i] == ops;
      assert Legal(v, ops[n]);
      StepUses(Run(v, ops[..n]), ops[n]);
    }
  }

  /** In any run, whatever is requested in between, an interrupt's state and its data go to one context
      each: being requested again does not deliver again. */
  lemma DeliveredOnce(v: Info, ops: seq<Op>, i: nat, j: nat)
    requires Legals(v, ops) && i < j < |ops|
    ensures var (a, b) := (CtxAt(v, ops, i), CtxAt(v, ops, j));
            !(a.stateId.Some? && a.stateId == b.stateId) && !(a.targetId.Some? && a.targetId == b.targetId)
  {
    assert ops[..i + 1][..i] == ops[..i] && ops[..j][..i + 1] == ops[..i + 1];
    forall k, n | 0 <= k < n <= |ops| ensures Legal(v, ops[..n][k]) { assert Legal(v, ops[k]); }
    UsesGrow(v, ops[..i], 0);
    UsesGrow(v, ops[..j], i + 1);
    assert Legal(v, ops[i]) && Legal(v, ops[j]);
    StepUses(Run(v, ops[..i]), ops[i]);
    StepUses(Run(v, ops[..j]), ops[j]);
  }

  // ---- from the tree to the component ----

  ghost predicate Apart(v: Info) {
    forall a, b {:trigger v.addr[a], v.addr[b]} :: a in v.addr && b in v.addr && v.addr[a] == v.addr[b] ==> a == b
  }

  /** With addresses apart, one context and every order: a target exactly when data waits at its address
      or below, and holding exactly what waits at its address. */
  lemma ContextMeans(v: Info, here: Address, order: seq<Id>)
    requires Apart(v) && Order(v.addr.Keys, order)
    ensures var c := Scan(v, here, order).1;
            && (c.target <==> exists id :: DataWaits(v, here, id) || WaitsBelow(v, here, id))
            && (forall id :: DataWaits(v, here, id) <==> c.targetId == Some(id))
            && (forall id :: StateWaits(v, here, id) <==> c.stateId == Some(id))
            && c.resumeData == (if c.targetId.Some? then Some(v.data[c.targetId.value]) else None)
            && c.interruptState == (if c.stateId.Some? then Some(v.state[c.stateId.value]) else None)
  {
    OrderMembers(v.addr.Keys, order);
    ScanTold(v, here, order);
  }

  /** op neither visits the address of id nor asks for id again. */
  predicate LeavesAlone(v: Info, op: Op, id: Id) {
    id in v.addr && if op.Append? then op.here != v.addr[id] else id !in op.data
  }

  lemma {:induction false} KeepsWaiting(v: Info, ops: seq<Op>, id: Id)
    requires Legals(v, ops) && id in v.addr && DataWaits(v, v.addr[id], id)
    requires forall i :: 0 <= i < |ops| ==> LeavesAlone(v, ops[i], id)
    ensures var w := Run(v, ops);
            w.addr == v.addr && w.state == v.state && DataWaits(w, v.addr[id], id) && w.data[id] == v.data[id]
            && (StateWaits(v, v.addr[id], id) ==> StateWaits(w, v.addr[id], id))
  {
    if ops != [] {
      var n := |ops| - 1;
      forall k | 0 <= k < n ensures Legal(v, ops[..n][k]) { assert Legal(v, ops[k]); }
      KeepsWaiting(v, ops[..n], id);
      assert LeavesAlone(v, ops[n], id) && Legal(v, ops[n]);
      if ops[n].Append? { ScanTold(Run(v, ops[..n]), ops[n].here, ops[n].order); }
    }
  }

  /** The record made from a saved tree, with some of its interrupts asked for. */
  function Resumed(s: Signal, requests: map<Id, Any>): Info {
    Info(Flattened(s).addr, Flattened(s).state, requests, {}, {})
  }

  ghost predicate Resumable(s: Signal) { DistinctIds(Nodes(s)) && DistinctAddresses(Nodes(s)) }

  lemma ResumedHolds(s: Signal, requests: map<Id, Any>, t: nat)
    requires Resumable(s) && t < |Nodes(s)|
    ensures var v := Resumed(s, requests);
            Apart(v) && Holds(Saved(v.addr, v.state), Nodes(s)[t])
  {
    var nodes, v := Nodes(s), Resumed(s, requests);
    FlattenedHolds(nodes);
    forall a, b | a in v.addr && b in v.addr && v.addr[a] == v.addr[b] ensures a == b {
      assert Names(nodes, a) && Names(nodes, b);
      var i :| 0 <= i < |nodes| && nodes[i].id == a;
      var j :| 0 <= j < |nodes| && nodes[j].id == b;
      assert Holds(Saved(v.addr, v.state), nodes[i]) && Holds(Saved(v.addr, v.state), nodes[j]);
    }
  }

  /** Saved, restored and resumed: an interrupt asked for with data reaches the component at its address,
      with its own state and data, whatever other addresses the run visits first, whatever else is asked
      for and however the maps are walked; and until then every component above it is a target. */
  lemma ResumeReaches(s: Signal, requests: map<Id, Any>, t: nat, ops: seq<Op>, here: Address, order: seq<Id>)
    requires Resumable(s) && t < |Nodes(s)| && Nodes(s)[t].id in requests
    requires var v := Resumed(s, requests);
             Legals(v, ops) && Order(v.addr.Keys, order)
             && forall i :: 0 <= i < |ops| ==> LeavesAlone(v, ops[i], Nodes(s)[t].id)
    ensures var n := Nodes(s)[t];
            var c := Scan(Run(Resumed(s, requests), ops), here, order).1;
            && (here <= n.address ==> c.target)
            && (here == n.address ==> c.targetId == Some(n.id) && c.resumeData == Some(requests[n.id])
                                      && c.interruptState == if n.state == Nil then None else Some(n.state))
            && (here != n.address ==> c.targetId != Some(n.id))
  {
    var n, v := Nodes(s)[t], Resumed(s, requests);
    ResumedHolds(s, requests, t);
    KeepsWaiting(v, ops, n.id);
    var w := Run(v, ops);
    ContextMeans(w, here, order);
    assert DataWaits(w, n.address, n.id);
    if here < n.address { assert WaitsBelow(w, here, n.id); }
    if here == n.address && n.state == Nil {
      forall id ensures !StateWaits(w, here, id) { if id in v.addr && v.addr[id] == here { assert id == n.id; } }
    }
  }

  /** The address built up from the root, one segment at a time. */
  function Walk(a: Address, orders: seq<seq<Id>>): seq<Op>
    requires |orders| == |a|
  {
    seq(|a|, i requires 0 <= i < |a| => Append(a[..i + 1], orders[i]))
  }

  lemma WalkFromRoot(s: Signal, requests: map<Id, Any>, t: nat, orders: seq<seq<Id>>, k: nat)
    requires Resumable(s) && t < |Nodes(s)| && Nodes(s)[t].id in requests
    requires |orders| == |Nodes(s)[t].address| && k < |orders|
    requires forall i :: 0 <= i < |orders| ==> Order(Flattened(s).addr.Keys, orders[i])
    ensures var n, v := Nodes(s)[t], Resumed(s, requests);
            var c := CtxAt(v, Walk(n.address, orders), k);
            && c.target
            && (k == |orders| - 1 ==> c.targetId == Some(n.id) && c.resumeData == Some(requests[n.id])
                                      && c.interruptState == if n.state == Nil then None else Some(n.state))
  {
    var n, v := Nodes(s)[t], Resumed(s, requests);
    var ops := Walk(n.address, orders)[..k];
    ResumedHolds(s, requests, t);
    forall i | 0 <= i < k ensures Legal(v, ops[i]) && LeavesAlone(v, ops[i], n.id) {
      assert |ops[i].here| == i + 1;
    }
    ResumeReaches(s, requests, t, ops, n.address[..k + 1], orders[k]);
    assert n.address[..|n.address|] == n.address;
  }

  /** An address with nothing asked for at or below it is no target and gets no data. */
  lemma OthersAreNoTargets(v: Info, here: Address, order: seq<Id>)
    requires Order(v.addr.Keys, order)
    requires forall id :: id in v.data && id in v.addr ==> !(here <= v.addr[id])
    ensures var c := Scan(v, here, order).1; !c.target && c.targetId == None && c.resumeData == None
  {
    OrderMembers(v.addr.Keys, order);
    ScanTold(v, here, order);
  }
}
