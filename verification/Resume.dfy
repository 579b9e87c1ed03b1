/** Resuming an interrupted run: saved states and resume data find their way to the component whose
    address is built up segment by segment. */
module Resume {
  import opened Wrappers

  type Id = string
  datatype Segment = Segment(kind: string, id: string, subId: string)
  type Address = seq<Segment>

  /** A Go value by its dynamic type; Nil is the nil interface. */
  datatype Any = Nil | Held(typ: string, content: string)

  method AddressEquals(a: Address, b: Address) returns (same: bool)
    ensures same <==> a == b
  {
    if |a| != |b| {
      return false;
    }
    for i := 0 to |a|
      invariant a[..i] == b[..i]
    {
      if a[i] != b[i] {
        return false;
      }
    }
    return true;
  }

  /** A descendant is strictly below. */
  method IsDescendantOf(a: Address, ancestor: Address) returns (below: bool)
    ensures below <==> ancestor < a
  {
    if |ancestor| >= |a| {
      return false;
    }
    for i := 0 to |ancestor|
      invariant a[..i] == ancestor[..i]
    {
      if a[i] != ancestor[i] {
        return false;
      }
    }
    return true;
  }

  // ---- the shared record and one context, as values ----

  datatype Info = Info(
    addr: map<Id, Address>, state: map<Id, Any>, data: map<Id, Any>,
    stateUsed: set<Id>, dataUsed: set<Id>)

  /** What a component's context says; stateId names the interrupt the state was saved under. */
  datatype Ctx = Ctx(
    addr: Address, stateId: Option<Id>, interruptState: Option<Any>,
    target: bool, targetId: Option<Id>, resumeData: Option<Any>)

  function Blank(addr: Address): Ctx { Ctx(addr, None, None, false, None, None) }

  predicate StateWaits(v: Info, here: Address, id: Id) {
    id in v.addr && v.addr[id] == here && id in v.state && id !in v.stateUsed
  }

  predicate DataWaits(v: Info, here: Address, id: Id) {
    id in v.addr && v.addr[id] == here && id in v.data && id !in v.dataUsed
  }

  predicate WaitsBelow(v: Info, here: Address, id: Id) {
    id in v.addr && here < v.addr[id] && id in v.data && id !in v.dataUsed
  }

  /** One interrupt met while a segment is appended. */
  function Meet(v: Info, c: Ctx, id: Id): (Info, Ctx) {
    var c1 := if StateWaits(v, c.addr, id) then c.(stateId := Some(id), interruptState := Some(v.state[id])) else c;
    var c2 :=
      if DataWaits(v, c.addr, id) then c1.(target := true, targetId := Some(id), resumeData := Some(v.data[id]))
      else c1;
    var c3 := if WaitsBelow(v, c.addr, id) then c2.(target := true) else c2;
    (v.(stateUsed := if StateWaits(v, c.addr, id) then v.stateUsed + {id} else v.stateUsed,
        dataUsed := if DataWaits(v, c.addr, id) then v.dataUsed + {id} else v.dataUsed),
     c3)
  }

  /** The interrupts met one after the other. */
  function Scan(v: Info, here: Address, order: seq<Id>): (Info, Ctx) {
    if order == [] then (v, Blank(here))
    else
      var (v1, c1) := Scan(v, here, order[..|order| - 1]);
      Meet(v1, c1, order[|order| - 1])
  }

  /** An order in which a map's keys may come up. */
  ghost predicate Order(keys: set<Id>, order: seq<Id>) {
    && (forall i, j :: 0 <= i < j < |order| ==> order[i] != order[j])
    && (forall id :: id in keys <==> id in order)
  }

  // ---- the imperative form ----

  class ResumeInfo {
    var addr: map<Id, Address>
    var state: map<Id, Any>
    var data: map<Id, Any>
    var stateUsed: set<Id>
    var dataUsed: set<Id>

    function View(): Info
      reads this
    {
      Info(addr, state, data, stateUsed, dataUsed)
    }

    /** The record filled from what was saved. */
    constructor Populate(savedAddr: map<Id, Address>, savedState: map<Id, Any>)
      ensures View() == Info(savedAddr, savedState, map[], {}, {})
    {
      addr, state, data := savedAddr, savedState, map[];
      stateUsed, dataUsed := {}, {};
    }

    method Resume(ids: seq<Id>)
      modifies this`data
      ensures data == old(data) + map id | id in ids :: Nil
    {
      for i := 0 to |ids|
        invariant data == old(data) + map id | id in ids[..i] :: Nil
      {
        assert ids[..i + 1] == ids[..i] + [ids[i]];
        data := data[ids[i] := Nil];
      }
      assert ids[..|ids|] == ids;
    }

    method ResumeWithData(id: Id, value: Any)
      modifies this`data
      ensures data == old(data)[id := value]
    {
      data := data[id := value];
    }

    method BatchResumeWithData(resumeData: map<Id, Any>)
      modifies this`data
      ensures data == old(data) + resumeData
    {
      var rest := resumeData.Keys;
      while rest != {}
        invariant rest <= resumeData.Keys
        invariant data == old(data) + map id | id in resumeData && id !in rest :: resumeData[id]
        decreases rest
      {
        var id :| id in rest;
        data := data[id := resumeData[id]];
        rest := rest - {id};
      }
    }

    /** `order` is the order in which the map happened to be walked. */
    method AppendAddressSegment(current: Address, seg: Segment) returns (c: Ctx, ghost order: seq<Id>)
      modifies this`stateUsed, this`dataUsed
      ensures Order(addr.Keys, order)
      ensures (View(), c) == Scan(old(View()), current + [seg], order)
      ensures c.addr == current + [seg]
    {
      var here := current + [seg];
      c := Blank(here);
      order := [];
      var rest := addr.Keys;
      while rest != {}
        invariant rest <= addr.Keys && c.addr == here
        invariant Order(addr.Keys - rest, order)
        invariant (View(), c) == Scan(old(View()), here, order)
        decreases rest
      {
        var id :| id in rest;
        if here == addr[id] {
          if id in state && id !in stateUsed {
            c := c.(stateId := Some(id), interruptState := Some(state[id]));
            stateUsed := stateUsed + {id};
          }
          if id in data && id !in dataUsed {
            c := c.(target := true, targetId := Some(id), resumeData := Some(data[id]));
            dataUsed := dataUsed + {id};
          }
        }
        if id in data && id !in dataUsed && here < addr[id] {
          c := c.(target := true);
        }
        rest := rest - {id};
        assert (order + [id])[..|order|] == order;
        order := order + [id];
      }
    }
  }

  // ---- what a scan comes to ----

  /** One context, told without an order: it takes what waits at its address, and it is a target when
      something waits at or below it. */
  ghost predicate Told(v: Info, here: Address, met: set<Id>, w: Info, c: Ctx) {
    && w == v.(stateUsed := w.stateUsed, dataUsed := w.dataUsed)
    && (forall id :: id in w.stateUsed <==> id in v.stateUsed || (id in met && StateWaits(v, here, id)))
    && (forall id :: id in w.dataUsed <==> id in v.dataUsed || (id in met && DataWaits(v, here, id)))
    && c.addr == here
    && (c.target <==> exists id :: id in met && (DataWaits(v, here, id) || WaitsBelow(v, here, id)))
    && TookState(v, here, met, c) && TookData(v, here, met, c)
  }

  ghost predicate TookState(v: Info, here: Address, met: set<Id>, c: Ctx) {
    if c.stateId.Some? then
      c.stateId.value in met && StateWaits(v, here, c.stateId.value)
      && c.interruptState == Some(v.state[c.stateId.value])
    else c.interruptState == None && forall id :: id in met ==> !StateWaits(v, here, id)
  }

  ghost predicate TookData(v: Info, here: Address, met: set<Id>, c: Ctx) {
    if c.targetId.Some? then
      c.targetId.value in met && DataWaits(v, here, c.targetId.value) && c.resumeData == Some(v.data[c.targetId.value])
    else c.resumeData == None && forall id :: id in met ==> !DataWaits(v, here, id)
  }

  ghost function Members(order: seq<Id>): set<Id> { set id | id in order }

  /** What is asked for at or below an address makes it a target, and what is at it is used up. */
  lemma ScanMarks(v: Info, here: Address, order: seq<Id>)
    requires Order(v.addr.Keys, order)
    ensures var (w, c) := Scan(v, here, order);
            && (c.target <==> exists id :: id in v.addr && here <= v.addr[id] && id in v.data && id !in v.dataUsed)
            && w.stateUsed == v.stateUsed + set id | id in v.addr && v.addr[id] == here && id in v.state
            && w.dataUsed == v.dataUsed + set id | id in v.addr && v.addr[id] == here && id in v.data
  {
    ScanTold(v, here, order);
  }

  lemma {:induction false} ScanTold(v: Info, here: Address, order: seq<Id>)
    requires forall i, j :: 0 <= i < j < |order| ==> order[i] != order[j]
    ensures Told(v, here, Members(order), Scan(v, here, order).0, Scan(v, here, order).1)
  {
    if order != [] {
      var n := |order| - 1;
      var id := order[n];
      ScanTold(v, here, order[..n]);
      assert order == order[..n] + [id];
      assert Members(order) == Members(order[..n]) + {id};
      assert id !in Members(order[..n]);
      MeetTold(v, here, Members(order[..n]), Scan(v, here, order[..n]).0, Scan(v, here, order[..n]).1, id);
    }
  }

  lemma MeetTold(v: Info, here: Address, met: set<Id>, w: Info, c: Ctx, id: Id)
    requires Told(v, here, met, w, c) && id !in met
    ensures Told(v, here, met + {id}, Meet(w, c, id).0, Meet(w, c, id).1)
  {
    assert StateWaits(w, here, id) == StateWaits(v, here, id);
    assert DataWaits(w, here, id) == DataWaits(v, here, id);
    assert WaitsBelow(w, here, id) == WaitsBelow(v, here, id);
    if exists k :: k in met + {id} && (DataWaits(v, here, k) || WaitsBelow(v, here, k)) {
      var k :| k in met + {id} && (DataWaits(v, here, k) || WaitsBelow(v, here, k));
      assert Meet(w, c, id).1.target;
    }
  }
}
