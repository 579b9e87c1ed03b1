/** The tree of interrupt signals and the two maps it is saved as. */
module Signals {
  import opened Resume

  /** Missing is a nil pointer. */
  datatype Signal =
    | Missing
    | Signal(id: Id, address: Address, info: Any, state: Any, subs: seq<Signal>, isRoot: bool)

  predicate Complete(s: Signal) {
    s.Signal? && forall i :: 0 <= i < |s.subs| ==> Complete(s.subs[i])
  }

  /** Every signal of the tree, each before the ones below it. */
  function Nodes(s: Signal): seq<Signal>
    decreases s, 0
  {
    if s.Missing? then [] else [s] + NodesBelow(s, |s.subs|)
  }

  function NodesBelow(s: Signal, n: nat): seq<Signal>
    requires s.Signal? && n <= |s.subs|
    decreases s, 0, n
  {
    if n == 0 then [] else NodesBelow(s, n - 1) + Nodes(s.subs[n - 1])
  }

  datatype Saved = Saved(addr: map<Id, Address>, state: map<Id, Any>)

  function Write(m: Saved, s: Signal): Saved
    requires s.Signal?
  {
    Saved(m.addr[s.id := s.address], if s.state != Nil then m.state[s.id := s.state] else m.state)
  }

  /** The signals written one after the other; a repeated id is overwritten. */
  function WriteAll(m: Saved, nodes: seq<Signal>): Saved
    requires forall i :: 0 <= i < |nodes| ==> nodes[i].Signal?
  {
    if nodes == [] then m else Write(WriteAll(m, nodes[..|nodes| - 1]), nodes[|nodes| - 1])
  }

  lemma {:induction false} NodesAreSignals(s: Signal)
    ensures forall i :: 0 <= i < |Nodes(s)| ==> Nodes(s)[i].Signal?
    decreases s, 0
  {
    if s.Signal? { NodesBelowAreSignals(s, |s.subs|); }
  }

  lemma {:induction false} NodesBelowAreSignals(s: Signal, n: nat)
    requires s.Signal? && n <= |s.subs|
    ensures forall i :: 0 <= i < |NodesBelow(s, n)| ==> NodesBelow(s, n)[i].Signal?
    decreases s, 0, n
  {
    if n > 0 {
      NodesBelowAreSignals(s, n - 1);
      NodesAreSignals(s.subs[n - 1]);
    }
  }

  lemma {:induction false} WriteAllConcat(m: Saved, a: seq<Signal>, b: seq<Signal>)
    requires forall i :: 0 <= i < |a| ==> a[i].Signal?
    requires forall i :: 0 <= i < |b| ==> b[i].Signal?
    ensures WriteAll(m, a + b) == WriteAll(WriteAll(m, a), b)
  {
    if b == [] {
      assert a + b == a;
    } else {
      WriteAllConcat(m, a, b[..|b| - 1]);
      assert (a + b)[..|a + b| - 1] == a + b[..|b| - 1];
    }
  }

  /** The two maps under construction, shared by the whole walk over the tree. */
  class SavedMaps {
    var addr: map<Id, Address>
    var state: map<Id, Any>

    function View(): Saved
      reads this
    {
      Saved(addr, state)
    }

    constructor ()
      ensures View() == Saved(map[], map[])
    {
      addr, state := map[], map[];
    }

    method Flatten(signal: Signal)
      requires Complete(signal)
      modifies this
      ensures forall i :: 0 <= i < |Nodes(signal)| ==> Nodes(signal)[i].Signal?
      ensures View() == WriteAll(old(View()), Nodes(signal))
      decreases signal
    {
      NodesAreSignals(signal);
      addr := addr[signal.id := signal.address];
      if signal.state != Nil {
        state := state[signal.id := signal.state];
      }
      assert [signal][..0] == [];
      assert View() == WriteAll(old(View()), [signal]);
      assert [signal] + NodesBelow(signal, 0) == [signal];
      for n := 0 to |signal.subs|
        invariant forall i :: 0 <= i < |NodesBelow(signal, n)| ==> NodesBelow(signal, n)[i].Signal?
        invariant View() == WriteAll(old(View()), [signal] + NodesBelow(signal, n))
      {
        NodesBelowAreSignals(signal, n + 1);
        NodesAreSignals(signal.subs[n]);
        WriteAllConcat(old(View()), [signal] + NodesBelow(signal, n), Nodes(signal.subs[n]));
        assert [signal] + NodesBelow(signal, n + 1) == ([signal] + NodesBelow(signal, n)) + Nodes(signal.subs[n]);
        Flatten(signal.subs[n]);
      }
    }
  }

  function Flattened(s: Signal): Saved {
    NodesAreSignals(s);
    WriteAll(Saved(map[], map[]), Nodes(s))
  }

  ghost predicate DistinctIds(nodes: seq<Signal>) {
    && (forall i :: 0 <= i < |nodes| ==> nodes[i].Signal?)
    && forall i, j :: 0 <= i < j < |nodes| ==> nodes[i].id != nodes[j].id
  }

  ghost predicate DistinctAddresses(nodes: seq<Signal>) {
    && (forall i :: 0 <= i < |nodes| ==> nodes[i].Signal? && nodes[i].address != [])
    && forall i, j :: 0 <= i < j < |nodes| ==> nodes[i].address != nodes[j].address
  }

  predicate Holds(m: Saved, n: Signal) {
    && n.Signal? && n.id in m.addr && m.addr[n.id] == n.address
    && (n.id in m.state <==> n.state != Nil) && (n.state != Nil ==> m.state[n.id] == n.state)
  }

  predicate Names(nodes: seq<Signal>, id: Id) {
    exists i :: 0 <= i < |nodes| && nodes[i].Signal? && nodes[i].id == id
  }

  /** With distinct ids nothing is lost: the maps hold each signal's address and state, and nothing else. */
  lemma {:induction false} FlattenedHolds(nodes: seq<Signal>)
    requires DistinctIds(nodes)
    ensures var m := WriteAll(Saved(map[], map[]), nodes);
            (forall i :: 0 <= i < |nodes| ==> Holds(m, nodes[i]))
            && (forall id :: id in m.addr <==> Names(nodes, id)) && m.state.Keys <= m.addr.Keys
  {
    if nodes != [] {
      var n := |nodes| - 1;
      FlattenedHolds(nodes[..n]);
      WriteHolds(WriteAll(Saved(map[], map[]), nodes[..n]), nodes, n);
    }
  }

  lemma WriteHolds(m: Saved, nodes: seq<Signal>, n: nat)
    requires DistinctIds(nodes) && |nodes| == n + 1
    requires forall i :: 0 <= i < n ==> Holds(m, nodes[..n][i])
    requires (forall id :: id in m.addr <==> Names(nodes[..n], id)) && m.state.Keys <= m.addr.Keys
    ensures forall i :: 0 <= i < |nodes| ==> Holds(Write(m, nodes[n]), nodes[i])
    ensures forall id :: id in Write(m, nodes[n]).addr <==> Names(nodes, id)
  {
    assert nodes[n].id !in m.addr;
    forall i | 0 <= i < n ensures Holds(Write(m, nodes[n]), nodes[i]) {
      assert nodes[..n][i] == nodes[i];
    }
    forall id ensures Names(nodes, id) <==> Names(nodes[..n], id) || nodes[n].id == id {
      if Names(nodes[..n], id) {
        var i :| 0 <= i < n && nodes[..n][i].id == id;
        assert nodes[i].id == id;
      }
    }
  }

  // ---- which signal of a tree is asked for ----

  /** The id of the first node asked for; the empty id when there is none. */
  function FirstAsked(asked: set<Id>, nodes: seq<Signal>): Id {
    if nodes == [] then ""
    else
      var before, last := FirstAsked(asked, nodes[..|nodes| - 1]), nodes[|nodes| - 1];
      if before != "" then before else if last.Signal? && last.id in asked then last.id else ""
  }

  lemma {:induction false} FirstAskedConcat(asked: set<Id>, a: seq<Signal>, b: seq<Signal>)
    ensures FirstAsked(asked, a + b)
         == if FirstAsked(asked, a) != "" then FirstAsked(asked, a) else FirstAsked(asked, b)
  {
    if b == [] {
      assert a + b == a;
    } else {
      FirstAskedConcat(asked, a, b[..|b| - 1]);
      assert (a + b)[..|a + b| - 1] == a + b[..|b| - 1];
    }
  }

  /** The tree as far as the search goes: asked for under the empty id, a signal ends it without being
      found. */
  function Reached(asked: set<Id>, s: Signal): Signal {
    if s.Missing? then s
    else if s.id == "" && "" in asked then s.(subs := [])
    else s.(subs := seq(|s.subs|, i requires 0 <= i < |s.subs| => Reached(asked, s.subs[i])))
  }

  /** The signal at the end of a path of child numbers. */
  function Below(s: Signal, path: seq<nat>): Signal
    decreases |path|
  {
    if path == [] then s
    else if s.Signal? && path[0] < |s.subs| then Below(s.subs[path[0]], path[1..])
    else Missing
  }

  predicate Stops(asked: set<Id>, s: Signal) { s.Signal? && s.id == "" && "" in asked }

  /** The search comes to a signal exactly when none above it ends the search. */
  lemma {:induction false} ReachedExactly(asked: set<Id>, s: Signal, path: seq<nat>)
    ensures var r := Below(Reached(asked, s), path);
            && (r.Signal? <==>
                  Below(s, path).Signal? && forall k :: 0 <= k < |path| ==> !Stops(asked, Below(s, path[..k])))
            && (r.Signal? ==> r.(subs := []) == Below(s, path).(subs := []))
    decreases |path|
  {
    if path != [] && s.Signal? && path[0] < |s.subs| {
      var child, rest := s.subs[path[0]], path[1..];
      ReachedExactly(asked, child, rest);
      assert path[..0] == [];
      assert forall k :: 0 < k < |path| ==> path[..k][0] == path[0] && path[..k][1..] == rest[..k - 1];
      assert forall k :: 0 < k < |path| ==> Below(s, path[..k]) == Below(child, rest[..k - 1]);
      assert forall k :: 0 <= k < |rest| ==> Below(child, rest[..k]) == Below(s, path[..k + 1]);
    }
  }

  /** Without the empty id the search goes everywhere. */
  lemma {:induction false} ReachesAll(asked: set<Id>, s: Signal)
    requires "" !in asked
    ensures Reached(asked, s) == s
  {
    if s.Signal? {
      forall i | 0 <= i < |s.subs| ensures Reached(asked, s.subs[i]) == s.subs[i] { ReachesAll(asked, s.subs[i]); }
      assert Reached(asked, s).subs == s.subs;
    }
  }

  /** The search down the tree finds the first signal asked for in the tree's order. */
  method RequestedChildInterrupt(asked: set<Id>, signal: Signal) returns (id: Id)
    requires Complete(signal)
    ensures id == FirstAsked(asked, Nodes(Reached(asked, signal)))
    decreases signal
  {
    ghost var all := Reached(asked, signal);
    FirstAskedRoot(asked, all);
    if signal.id in asked {
      return signal.id;
    }
    for n := 0 to |signal.subs|
      invariant FirstAsked(asked, NodesBelow(all, n)) == ""
    {
      FirstAskedConcat(asked, NodesBelow(all, n), Nodes(all.subs[n]));
      id := RequestedChildInterrupt(asked, signal.subs[n]);
      if id != "" {
        FirstAskedStays(asked, all, n + 1, |all.subs|);
        return id;
      }
    }
    return "";
  }

  lemma FirstAskedRoot(asked: set<Id>, s: Signal)
    requires s.Signal?
    ensures FirstAsked(asked, Nodes(s))
            == if s.id != "" && s.id in asked then s.id else FirstAsked(asked, NodesBelow(s, |s.subs|))
  {
    FirstAskedConcat(asked, [s], NodesBelow(s, |s.subs|));
    assert [s][..0] == [];
  }

  lemma {:induction false} FirstAskedStays(asked: set<Id>, s: Signal, m: nat, n: nat)
    requires s.Signal? && m <= n <= |s.subs| && FirstAsked(asked, NodesBelow(s, m)) != ""
    ensures FirstAsked(asked, NodesBelow(s, n)) == FirstAsked(asked, NodesBelow(s, m))
  {
    if m < n {
      FirstAskedStays(asked, s, m, n - 1);
      FirstAskedConcat(asked, NodesBelow(s, n - 1), Nodes(s.subs[n - 1]));
    }
  }

  predicate FirstAt(asked: set<Id>, nodes: seq<Signal>, id: Id, i: int) {
    0 <= i < |nodes| && nodes[i].Signal? && nodes[i].id == id
    && forall j :: 0 <= j < i && nodes[j].Signal? && nodes[j].id != "" ==> nodes[j].id !in asked
  }

  /** It is asked for, it is in the tree, and nothing before it is asked for. */
  lemma {:induction false} FirstAskedMeans(asked: set<Id>, nodes: seq<Signal>)
    ensures var id := FirstAsked(asked, nodes);
            if id == "" then forall i :: 0 <= i < |nodes| && nodes[i].Signal? && nodes[i].id != "" ==>
              nodes[i].id !in asked
            else id in asked && exists i :: FirstAt(asked, nodes, id, i)
  {
    if nodes != [] {
      var n := |nodes| - 1;
      FirstAskedMeans(asked, nodes[..n]);
      if FirstAsked(asked, nodes[..n]) != "" {
        var id := FirstAsked(asked, nodes[..n]);
        var i :| FirstAt(asked, nodes[..n], id, i);
        forall j | 0 <= j < i && nodes[j].Signal? && nodes[j].id != "" ensures nodes[j].id !in asked {
          assert nodes[..n][j] == nodes[j];
        }
        assert FirstAt(asked, nodes, id, i);
      } else {
        forall j | 0 <= j < n && nodes[j].Signal? && nodes[j].id != "" ensures nodes[j].id !in asked {
          assert nodes[..n][j] == nodes[j];
        }
        assert FirstAsked(asked, nodes) != "" ==> FirstAt(asked, nodes, FirstAsked(asked, nodes), n);
      }
    }
  }
}
