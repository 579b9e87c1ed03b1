/** Plugin generations pinned by those that depend on them: counts, rollback, retirement. */
module PluginPins {
  import opened Wrappers

  type Gid = nat

  /** closes counts how often the drained channel was closed; bindings are the pins the generation owns. */
  datatype Gen = Gen(refs: int, retired: bool, forced: bool, closes: nat, bindings: seq<Gid>)

  lemma {:induction false} CountConcat(a: seq<Gid>, b: seq<Gid>, g: Gid)
    ensures Count(a + b, g) == Count(a, g) + Count(b, g)
  {
    if b == [] {
      assert a + b == a;
    } else {
      CountConcat(a, b[..|b| - 1], g);
      assert (a + b)[..|a + b| - 1] == a + b[..|b| - 1];
    }
  }

  lemma CountFirst(gs: seq<Gid>, g: Gid)
    requires gs != []
    ensures Count(gs, g) == Count(gs[1..], g) + if gs[0] == g then 1 else 0
  {
    assert gs == [gs[0]] + gs[1..];
    CountConcat([gs[0]], gs[1..], g);
    assert [gs[0]][..0] == [];
  }

  // ---- one generation's lock ----

  function Pinned(x: Gen): Gen { x.(refs := x.refs + 1) }

  function Released(x: Gen): Gen {
    x.(refs := x.refs - 1, closes := if x.retired && x.refs == 1 then x.closes + 1 else x.closes)
  }

  function Retired(x: Gen): Gen {
    if x.retired then x else x.(retired := true, closes := if x.refs == 0 then x.closes + 1 else x.closes)
  }

  // ---- the calls, one at a time ----

  predicate Free(routes: map<string, Gid>, gens: seq<Gen>, name: string) {
    name in routes && routes[name] < |gens| && !gens[routes[name]].retired && !gens[routes[name]].forced
  }

  /** Each name once, where it first stands. */
  function Distinct(names: seq<string>): seq<string> {
    if names == [] then []
    else
      var front, last := names[..|names| - 1], names[|names| - 1];
      if last in front then Distinct(front) else Distinct(front) + [last]
  }

  /** Where a name first stands. */
  function FirstOf(names: seq<string>, name: string): (i: nat)
    requires name in names
    ensures i < |names| && names[i] == name && name !in names[..i]
  {
    if names[|names| - 1] == name && name !in names[..|names| - 1] then |names| - 1
    else
      assert names == names[..|names| - 1] + [names[|names| - 1]];
      FirstOf(names[..|names| - 1], name)
  }

  /** once holds exactly the names given, no name twice, in the order in which each first stands. */
  ghost predicate EachOnce(names: seq<string>, once: seq<string>) {
    && (forall name :: name in once <==> name in names)
    && (forall i, j :: 0 <= i < j < |once| ==> once[i] != once[j])
    && (forall i, j :: 0 <= i < j < |once| && once[i] in names && once[j] in names ==>
          FirstOf(names, once[i]) < FirstOf(names, once[j]))
  }

  lemma {:induction false} DistinctIsEachOnce(names: seq<string>)
    ensures EachOnce(names, Distinct(names))
  {
    if names != [] {
      var n := |names| - 1;
      var front := names[..n];
      DistinctIsEachOnce(front);
      assert names == front + [names[n]];
      forall name | name in front ensures FirstOf(names, name) == FirstOf(front, name) {
        var i := FirstOf(front, name);
        assert front[..i] == names[..i];
        SameFirst(names, name, i);
      }
    }
  }

  lemma SameFirst(names: seq<string>, name: string, i: nat)
    requires i < |names| && names[i] == name && name !in names[..i]
    ensures FirstOf(names, name) == i
  {
    var j := FirstOf(names, name);
    assert forall k :: 0 <= k < j ==> names[k] in names[..j];
    assert forall k :: 0 <= k < i ==> names[k] in names[..i];
  }

  /** The different names routed to a generation. */
  function RoutedTo(routes: map<string, Gid>, names: seq<string>, g: Gid): set<string> {
    set name | name in names && name in routes && routes[name] == g
  }

  /** Bound one for one, each generation is pinned as often as different names lead to it. */
  lemma {:induction false} PinsCountNames(routes: map<string, Gid>, once: seq<string>, bindings: seq<Gid>, g: Gid)
    requires Bound(routes, once, bindings) && forall i, j :: 0 <= i < j < |once| ==> once[i] != once[j]
    ensures Count(bindings, g) == |RoutedTo(routes, once, g)|
  {
    if once != [] {
      var n := |once| - 1;
      PinsCountNames(routes, once[..n], bindings[..n], g);
      assert once[n] !in once[..n];
      RoutedMore(routes, once, g);
    }
  }

  lemma RoutedMore(routes: map<string, Gid>, once: seq<string>, g: Gid)
    requires once != [] && once[|once| - 1] in routes
    ensures var n := |once| - 1;
            var before := RoutedTo(routes, once[..n], g);
            RoutedTo(routes, once, g) == if routes[once[n]] == g then before + {once[n]} else before
  {
    assert once == once[..|once| - 1] + [once[|once| - 1]];
  }

  /** gens is was with the pins of gs added. */
  ghost predicate WithPins(gens: seq<Gen>, was: seq<Gen>, gs: seq<Gid>) {
    |gens| == |was| && forall g: Gid :: g < |was| ==> gens[g] == was[g].(refs := was[g].refs + Count(gs, g))
  }

  lemma OneMorePin(gens: seq<Gen>, was: seq<Gen>, gs: seq<Gid>, g: Gid)
    requires WithPins(gens, was, gs) && g < |gens|
    ensures WithPins(gens[g := Pinned(gens[g])], was, gs + [g])
  {
    assert (gs + [g])[..|gs|] == gs;
  }

  /** The bindings are where the names lead, one for one. */
  ghost predicate Bound(routes: map<string, Gid>, names: seq<string>, bindings: seq<Gid>) {
    |bindings| == |names| && forall i :: 0 <= i < |names| ==> names[i] in routes && bindings[i] == routes[names[i]]
  }

  datatype Capture = Captured(bindings: seq<Gid>) | NotAvailable(name: string)

  class Registry {
    var routes: map<string, Gid>
    var gens: seq<Gen>

    ghost predicate Valid()
      reads this
    {
      && (forall name :: name in routes ==> routes[name] < |gens|)
      && (forall g :: 0 <= g < |gens| ==> forall i :: 0 <= i < |gens[g].bindings| ==> gens[g].bindings[i] < |gens|)
    }

    constructor (routes: map<string, Gid>, gens: seq<Gen>)
      requires forall name :: name in routes ==> routes[name] < |gens|
      requires forall g :: 0 <= g < |gens| ==> gens[g].bindings == []
      ensures Valid() && this.routes == routes && this.gens == gens
    {
      this.routes, this.gens := routes, gens;
    }

    method ReleaseGeneration(g: Gid)
      requires g < |gens|
      modifies this`gens
      ensures gens == old(gens)[g := Released(old(gens)[g])]
    {
      var x := gens[g];
      x := x.(refs := x.refs - 1);
      if x.retired && x.refs == 0 {
        x := x.(closes := x.closes + 1);
      }
      gens := gens[g := x];
    }

    /** A generation that nothing pins is drained by its first retirement, and by no later one. */
    method RetireGeneration(g: Gid)
      requires g < |gens|
      modifies this`gens
      ensures gens == old(gens)[g := Retired(old(gens)[g])]
      ensures var x, y := old(gens)[g], gens[g];
              y == x.(retired := true, closes := x.closes + if !x.retired && x.refs == 0 then 1 else 0)
    {
      var x := gens[g];
      if !x.retired {
        x := x.(retired := true);
        if x.refs == 0 {
          x := x.(closes := x.closes + 1);
        }
        gens := gens[g := x];
      }
    }

    /** All or nothing: either every distinct name is pinned once, or nothing is changed. Refused is the first name
        that leads nowhere, or to a generation that is retired or being forced down. */
    method CaptureDependencies(names: seq<string>) returns (r: Capture)
      requires Valid()
      modifies this`gens
      ensures Valid()
      ensures r.Captured? <==> forall i :: 0 <= i < |names| ==>
                names[i] in routes && !old(gens)[routes[names[i]]].retired && !old(gens)[routes[names[i]]].forced
      ensures r.Captured? ==> exists once :: EachOnce(names, once) && Bound(routes, once, r.bindings)
      ensures r.Captured? ==> |gens| == |old(gens)| && forall g: Gid :: g < |gens| ==>
                gens[g] == old(gens)[g].(refs := old(gens)[g].refs + |RoutedTo(routes, names, g)|)
      ensures r.NotAvailable? ==>
                && gens == old(gens) && r.name in names
                && (r.name in routes ==> gens[routes[r.name]].retired || gens[routes[r.name]].forced)
                && forall k :: 0 <= k < FirstOf(names, r.name) ==> Free(routes, gens, names[k])
    {
      var bindings: seq<Gid> := [];
      var seen: set<string> := {};
      for i := 0 to |names|
        invariant Valid() && WithPins(gens, old(gens), bindings)
        invariant forall k :: 0 <= k < i ==> Free(routes, old(gens), names[k])
        invariant forall name :: name in seen <==> name in names[..i]
        invariant Bound(routes, Distinct(names[..i]), bindings)
        invariant forall k :: 0 <= k < |bindings| ==> bindings[k] < |gens| && !gens[bindings[k]].retired
      {
        assert names[..i + 1][..i] == names[..i];
        var name := names[i];
        if name in seen {
          continue;
        }
        seen := seen + {name};
        if name !in routes || gens[routes[name]].retired || gens[routes[name]].forced {
          assert !Free(routes, old(gens), name);
          Rollback(bindings, old(gens));
          SameFirst(names, name, i);
          return NotAvailable(name);
        }
        var g := routes[name];
        OneMorePin(gens, old(gens), bindings, g);
        gens := gens[g := Pinned(gens[g])];
        bindings := bindings + [g];
      }
      assert names[..|names|] == names;
      DistinctIsEachOnce(names);
      forall g: Gid | g < |gens| ensures Count(bindings, g) == |RoutedTo(routes, names, g)| {
        PinsCountNames(routes, Distinct(names), bindings, g);
        assert RoutedTo(routes, Distinct(names), g) == RoutedTo(routes, names, g);
      }
      return Captured(bindings);
    }

    method Rollback(bindings: seq<Gid>, ghost was: seq<Gen>)
      requires WithPins(gens, was, bindings)
      requires forall k :: 0 <= k < |bindings| ==> bindings[k] < |gens| && !gens[bindings[k]].retired
      modifies this`gens
      ensures gens == was
    {
      for i := 0 to |bindings|
        invariant WithPins(gens, was, bindings[i..])
        invariant forall k :: i <= k < |bindings| ==> bindings[k] < |gens| && !gens[bindings[k]].retired
      {
        forall g: Gid | g < |gens|
          ensures Count(bindings[i..], g) == Count(bindings[i + 1..], g) + if bindings[i] == g then 1 else 0
        {
          assert bindings[i..][1..] == bindings[i + 1..] && bindings[i..][0] == bindings[i];
          CountFirst(bindings[i..], g);
        }
        ReleaseGeneration(bindings[i]);
      }
      assert bindings[|bindings|..] == [];
      assert gens == was;
    }

    /** The bindings are taken out first, so that a second call finds none. A retired generation is drained
        when it gives back its last pin. */
    method ReleaseDependencyBindings(g: Gid)
      requires Valid() && g < |gens|
      modifies this`gens
      ensures Valid() && |gens| == |old(gens)| && gens[g].bindings == []
      ensures forall k: Gid :: k < |gens| ==>
                GivesBack(old(gens)[k], gens[k], Count(old(gens)[g].bindings, k))
                && (k != g ==> gens[k].bindings == old(gens)[k].bindings)
      ensures old(gens)[g].bindings == [] ==> gens == old(gens)
    {
      var bindings := gens[g].bindings;
      gens := gens[g := gens[g].(bindings := [])];
      ghost var start := gens;
      for i := 0 to |bindings|
        invariant Valid() && GivenBack(start, gens, bindings[..i])
      {
        OneGivenBack(start, gens, bindings[..i], bindings[i]);
        assert bindings[..i + 1] == bindings[..i] + [bindings[i]];
        ReleaseGeneration(bindings[i]);
      }
      assert bindings[..|bindings|] == bindings;
      if bindings == [] { NothingGivenBack(start, gens); }
    }
  }

  /** From x to y, n pins were given back: a retired generation is drained if they were the last. */
  predicate GivesBack(x: Gen, y: Gen, n: nat) {
    && y.refs == x.refs - n && y.retired == x.retired && y.forced == x.forced
    && y.closes == x.closes + if x.retired && 1 <= x.refs <= n then 1 else 0
  }

  ghost predicate GivenBack(was: seq<Gen>, gens: seq<Gen>, gs: seq<Gid>) {
    |gens| == |was|
    && forall k: Gid :: k < |was| ==> GivesBack(was[k], gens[k], Count(gs, k)) && gens[k].bindings == was[k].bindings
  }

  lemma OneGivenBack(was: seq<Gen>, gens: seq<Gen>, gs: seq<Gid>, g: Gid)
    requires GivenBack(was, gens, gs) && g < |gens|
    ensures GivenBack(was, gens[g := Released(gens[g])], gs + [g])
  {
    forall k: Gid | k < |was| ensures Count(gs + [g], k) == Count(gs, k) + if g == k then 1 else 0 {
      CountLast(gs, g, k);
    }
  }

  lemma NothingGivenBack(was: seq<Gen>, gens: seq<Gen>)
    requires GivenBack(was, gens, [])
    ensures gens == was
  {
  }

  // ---- all of them at once ----

  /** One goroutine's pins. A capture takes one name per step, a release gives back one pin per step. */
  datatype Holder =
    | Capturing(todo: seq<string>, seen: set<string>, pins: seq<Gid>)
    | Holding(pins: seq<Gid>)
    | Releasing(pins: seq<Gid>)

  datatype State = State(routes: map<string, Gid>, gens: seq<Gen>, holders: seq<Holder>)

  datatype Action =
    | Open(names: seq<string>)           // captureDependencies is called
    | Advance(h: nat)                    // a holder's next step
    | Bind(h: nat, g: Gid)               // a finished capture becomes a generation's bindings
    | Drop(h: nat)                       // a finished capture is given up
    | Unbind(g: Gid)                     // releaseDependencyBindings takes the bindings out
    | Retire(g: Gid)
    | Force(g: Gid)
    | Load(name: string)                 // a new generation takes over a name

  function With(s: State, h: nat, x: Holder): State
    requires h < |s.holders|
  {
    s.(holders := s.holders[h := x])
  }

  function At(s: State, g: Gid, x: Gen): State
    requires g < |s.gens|
  {
    s.(gens := s.gens[g := x])
  }

  function Forward(s: State, h: nat): State
    requires h < |s.holders|
  {
    match s.holders[h]
    case Capturing(todo, seen, pins) =>
      if todo == [] then With(s, h, Holding(pins))
      else
        var name, rest := todo[0], todo[1..];
        if name in seen then With(s, h, Capturing(rest, seen, pins))
        else if !Free(s.routes, s.gens, name) then With(s, h, Releasing(pins))
        else
          var g := s.routes[name];
          With(At(s, g, Pinned(s.gens[g])), h, Capturing(rest, seen + {name}, pins + [g]))
    case Holding(_) => s
    case Releasing(pins) =>
      if pins == [] || pins[0] >= |s.gens| then s
      else With(At(s, pins[0], Released(s.gens[pins[0]])), h, Releasing(pins[1..]))
  }

  function Step(s: State, a: Action): State {
    match a
    case Open(names) => s.(holders := s.holders + [Capturing(names, {}, [])])
    case Advance(h) => if h < |s.holders| then Forward(s, h) else s
    case Bind(h, g) =>
      if h < |s.holders| && s.holders[h].Holding? && g < |s.gens| && s.gens[g].bindings == [] then
        With(At(s, g, s.gens[g].(bindings := s.holders[h].pins)), h, Releasing([]))
      else s
    case Drop(h) => if h < |s.holders| && s.holders[h].Holding? then With(s, h, Releasing(s.holders[h].pins)) else s
    case Unbind(g) =>
      if g < |s.gens| then
        At(s, g, s.gens[g].(bindings := [])).(holders := s.holders + [Releasing(s.gens[g].bindings)])
      else s
    case Retire(g) => if g < |s.gens| then At(s, g, Retired(s.gens[g])) else s
    case Force(g) => if g < |s.gens| then At(s, g, s.gens[g].(forced := true)) else s
    case Load(name) => s.(routes := s.routes[name := |s.gens|], gens := s.gens + [Gen(0, false, false, 0, [])])
  }

  function Run(actions: seq<Action>): State {
    if actions == [] then State(map[], [], []) else Step(Run(actions[..|actions| - 1]), actions[|actions| - 1])
  }

  function Held(hs: seq<Holder>, g: Gid): nat {
    if hs == [] then 0 else Held(hs[..|hs| - 1], g) + Count(hs[|hs| - 1].pins, g)
  }

  function Owned(gens: seq<Gen>, g: Gid): nat {
    if gens == [] then 0 else Owned(gens[..|gens| - 1], g) + Count(gens[|gens| - 1].bindings, g)
  }

  lemma {:induction false} HeldUpdate(hs: seq<Holder>, i: nat, x: Holder, g: Gid)
    requires i < |hs|
    ensures Held(hs[i := x], g) + Count(hs[i].pins, g) == Held(hs, g) + Count(x.pins, g)
    ensures Held(hs, g) >= Count(hs[i].pins, g)
  {
    var n := |hs| - 1;
    if i < n {
      HeldUpdate(hs[..n], i, x, g);
      assert hs[i := x][..n] == hs[..n][i := x];
    } else {
      assert hs[i := x][..n] == hs[..n];
    }
  }

  lemma {:induction false} OwnedUpdate(gens: seq<Gen>, i: nat, x: Gen, g: Gid)
    requires i < |gens|
    ensures Owned(gens[i := x], g) + Count(gens[i].bindings, g) == Owned(gens, g) + Count(x.bindings, g)
  {
    var n := |gens| - 1;
    if i < n {
      OwnedUpdate(gens[..n], i, x, g);
      assert gens[i := x][..n] == gens[..n][i := x];
    } else {
      assert gens[i := x][..n] == gens[..n];
    }
  }

  /** A generation's count is the number of pins on it, and its drained channel was closed once if it is
      retired and free of pins, and otherwise never. */
  ghost predicate Balanced(s: State, g: Gid)
    requires g < |s.gens|
  {
    && s.gens[g].refs == Held(s.holders, g) + Owned(s.gens, g)
    && s.gens[g].closes == if s.gens[g].retired && s.gens[g].refs == 0 then 1 else 0
  }

  ghost predicate Sound(s: State) {
    && (forall g :: 0 <= g < |s.gens| ==> Balanced(s, g))
    && (forall h, i {:trigger s.holders[h].pins[i]} :: 0 <= h < |s.holders| && 0 <= i < |s.holders[h].pins| ==>
         s.holders[h].pins[i] < |s.gens|)
    && (forall g, i {:trigger s.gens[g].bindings[i]} :: 0 <= g < |s.gens| && 0 <= i < |s.gens[g].bindings| ==>
         s.gens[g].bindings[i] < |s.gens|)
  }

  lemma {:induction false} NoneBeyond(gs: seq<Gid>, g: Gid)
    requires forall i :: 0 <= i < |gs| ==> gs[i] != g
    ensures Count(gs, g) == 0
  {
    if gs != [] { NoneBeyond(gs[..|gs| - 1], g); }
  }

  lemma {:induction false} NoneHeldBeyond(hs: seq<Holder>, g: Gid)
    requires forall h, i {:trigger hs[h].pins[i]} :: 0 <= h < |hs| && 0 <= i < |hs[h].pins| ==> hs[h].pins[i] < g
    ensures Held(hs, g) == 0
  {
    if hs != [] {
      var last := hs[|hs| - 1];
      forall i | 0 <= i < |last.pins| ensures last.pins[i] != g { assert hs[|hs| - 1].pins[i] < g; }
      NoneBeyond(last.pins, g);
      NoneHeldBeyond(hs[..|hs| - 1], g);
    }
  }

  lemma {:induction false} NoneOwnedBeyond(gens: seq<Gen>, g: Gid)
    requires forall k, i {:trigger gens[k].bindings[i]} :: 0 <= k < |gens| && 0 <= i < |gens[k].bindings| ==>
               gens[k].bindings[i] < g
    ensures Owned(gens, g) == 0
  {
    if gens != [] {
      var last := gens[|gens| - 1];
      forall i | 0 <= i < |last.bindings| ensures last.bindings[i] != g { assert gens[|gens| - 1].bindings[i] < g; }
      NoneBeyond(last.bindings, g);
      NoneOwnedBeyond(gens[..|gens| - 1], g);
    }
  }

  /** Changing one generation and one holder. */
  lemma Change(s: State, k: Gid, x: Gen, h: nat, y: Holder, g: Gid)
    requires k < |s.gens| && h < |s.holders| && g < |s.gens|
    ensures var t := With(At(s, k, x), h, y);
            Held(t.holders, g) + Owned(t.gens, g) + Count(s.holders[h].pins, g) + Count(s.gens[k].bindings, g)
            == Held(s.holders, g) + Owned(s.gens, g) + Count(y.pins, g) + Count(x.bindings, g)
    ensures Held(s.holders, g) >= Count(s.holders[h].pins, g)
  {
    HeldUpdate(s.holders, h, y, g);
    OwnedUpdate(s.gens, k, x, g);
  }

  lemma PinIsSound(s: State, h: nat, todo: seq<string>, seen: set<string>, k: Gid)
    requires Sound(s) && h < |s.holders| && s.holders[h].Capturing? && k < |s.gens| && !s.gens[k].retired
    ensures Sound(With(At(s, k, Pinned(s.gens[k])), h, Capturing(todo, seen, s.holders[h].pins + [k])))
  {
    var y := Capturing(todo, seen, s.holders[h].pins + [k]);
    var t := With(At(s, k, Pinned(s.gens[k])), h, y);
    forall g: Gid | g < |t.gens| ensures Balanced(t, g) {
      assert Balanced(s, g);
      Change(s, k, Pinned(s.gens[k]), h, y, g);
      CountLast(s.holders[h].pins, k, g);
    }
  }

  lemma CountLast(gs: seq<Gid>, k: Gid, g: Gid)
    ensures Count(gs + [k], g) == Count(gs, g) + if k == g then 1 else 0
  {
    assert (gs + [k])[..|gs|] == gs;
  }

  lemma UnpinIsSound(s: State, h: nat)
    requires Sound(s) && h < |s.holders| && s.holders[h].Releasing? && s.holders[h].pins != []
    ensures Sound(Forward(s, h))
  {
    var pins := s.holders[h].pins;
    var t := Forward(s, h);
    forall g: Gid | g < |t.gens| ensures Balanced(t, g) {
      assert Balanced(s, g);
      CountFirst(pins, g);
      if pins[0] < |s.gens| { Change(s, pins[0], Released(s.gens[pins[0]]), h, Releasing(pins[1..]), g); }
    }
  }

  lemma SamePins(s: State, h: nat, y: Holder)
    requires Sound(s) && h < |s.holders| && y.pins == s.holders[h].pins
    ensures Sound(With(s, h, y))
  {
    var t := With(s, h, y);
    forall g: Gid | g < |t.gens| ensures Balanced(t, g) {
      assert Balanced(s, g);
      HeldUpdate(s.holders, h, y, g);
    }
  }

  lemma ForwardIsSound(s: State, h: nat)
    requires Sound(s) && h < |s.holders|
    ensures Sound(Forward(s, h))
  {
    match s.holders[h] {
      case Capturing(todo, seen, pins) =>
        if todo != [] && todo[0] !in seen && Free(s.routes, s.gens, todo[0]) {
          PinIsSound(s, h, todo[1..], seen + {todo[0]}, s.routes[todo[0]]);
        } else {
          SamePins(s, h, Forward(s, h).holders[h]);
        }
      case Holding(_) =>
      case Releasing(pins) => if pins != [] { UnpinIsSound(s, h); }
    }
  }

  lemma StepIsSound(s: State, a: Action)
    requires Sound(s)
    ensures Sound(Step(s, a))
  {
    var t := Step(s, a);
    match a {
      case Open(names) =>
        assert t.holders[..|s.holders|] == s.holders;
        forall g | 0 <= g < |t.gens| ensures Balanced(t, g) { assert Balanced(s, g); }
      case Advance(h) => if h < |s.holders| { ForwardIsSound(s, h); }
      case Bind(h, g) =>
        if t != s {
          forall k | 0 <= k < |t.gens| ensures Balanced(t, k) {
            assert Balanced(s, k);
            Change(s, g, s.gens[g].(bindings := s.holders[h].pins), h, Releasing([]), k);
          }
        }
      case Drop(h) =>
        if t != s { SamePins(s, h, Releasing(s.holders[h].pins)); }
      case Unbind(g) => if g < |s.gens| { UnbindIsSound(s, g); }
      case Retire(g) => if g < |s.gens| { assert Balanced(s, g); SameBindings(s, g, Retired(s.gens[g])); }
      case Force(g) => if g < |s.gens| { assert Balanced(s, g); SameBindings(s, g, s.gens[g].(forced := true)); }
      case Load(name) => LoadIsSound(s, name);
    }
  }

  lemma UnbindIsSound(s: State, g: Gid)
    requires Sound(s) && g < |s.gens|
    ensures Sound(Step(s, Unbind(g)))
  {
    var t := Step(s, Unbind(g));
    assert t.holders[..|s.holders|] == s.holders;
    forall k | 0 <= k < |t.gens| ensures Balanced(t, k) {
      assert Balanced(s, k);
      OwnedUpdate(s.gens, g, t.gens[g], k);
    }
    forall i | 0 <= i < |s.gens[g].bindings| ensures t.holders[|s.holders|].pins[i] < |t.gens| {
      assert s.gens[g].bindings[i] < |s.gens|;
    }
  }

  lemma SameBindings(s: State, g: Gid, x: Gen)
    requires Sound(s) && g < |s.gens| && x.bindings == s.gens[g].bindings && x.refs == s.gens[g].refs
    requires x.closes == if x.retired && x.refs == 0 then 1 else 0
    ensures Sound(At(s, g, x))
  {
    forall k | 0 <= k < |s.gens| ensures Balanced(At(s, g, x), k) {
      assert Balanced(s, k);
      OwnedUpdate(s.gens, g, x, k);
    }
  }

  lemma LoadIsSound(s: State, name: string)
    requires Sound(s)
    ensures Sound(Step(s, Load(name)))
  {
    var t := Step(s, Load(name));
    assert t.gens[..|s.gens|] == s.gens;
    forall g | 0 <= g < |t.gens| ensures Balanced(t, g) {
      if g < |s.gens| { assert Balanced(s, g); }
      else {
        NoneHeldBeyond(s.holders, g);
        NoneOwnedBeyond(s.gens, g);
      }
    }
  }

  /** In every run: counts are the outstanding pins, and the drained channel of a generation is closed at
      most once, exactly when it is retired and nothing pins it. */
  lemma {:induction false} AlwaysBalanced(actions: seq<Action>, g: Gid)
    requires g < |Run(actions).gens|
    ensures Balanced(Run(actions), g)
  {
    AlwaysSound(actions);
  }

  lemma {:induction false} AlwaysSound(actions: seq<Action>)
    ensures Sound(Run(actions))
  {
    if actions != [] {
      AlwaysSound(actions[..|actions| - 1]);
      StepIsSound(Run(actions[..|actions| - 1]), actions[|actions| - 1]);
    }
  }

  /** A generation is pinned exactly by a capture that comes to a new name leading to it, and only while it is
      neither retired nor being forced down. */
  lemma PinnedExactly(s: State, a: Action, g: Gid)
    requires g < |s.gens|
    ensures var t := Step(s, a);
            |t.gens| >= |s.gens| && (t.gens[g].refs > s.gens[g].refs <==>
              && a.Advance? && a.h < |s.holders| && s.holders[a.h].Capturing? && s.holders[a.h].todo != []
              && (var name := s.holders[a.h].todo[0];
                  name !in s.holders[a.h].seen && name in s.routes && s.routes[name] == g)
              && !s.gens[g].retired && !s.gens[g].forced)
  {
  }

  lemma RetiredTakesNoPins(s: State, a: Action, g: Gid)
    requires g < |s.gens| && s.gens[g].retired
    ensures var t := Step(s, a); g < |t.gens| && t.gens[g].retired && t.gens[g].refs <= s.gens[g].refs
  {
    if a.Advance? && a.h < |s.holders| && s.holders[a.h].Capturing? && s.holders[a.h].todo != [] {
      var name := s.holders[a.h].todo[0];
      assert Free(s.routes, s.gens, name) ==> s.routes[name] != g;
    }
  }

  /** A generation nobody pins any more stays that way once it is retired: a closed drained channel is
      true for good. */
  lemma DrainedStays(actions: seq<Action>, a: Action, g: Gid)
    requires g < |Run(actions).gens| && Run(actions).gens[g].closes == 1
    ensures var t := Step(Run(actions), a);
            g < |t.gens| && t.gens[g].closes == 1 && t.gens[g].refs == 0 && t.gens[g].retired
  {
    var s := Run(actions);
    AlwaysSound(actions);
    assert Balanced(s, g);
    RetiredTakesNoPins(s, a, g);
    StepIsSound(s, a);
    assert Balanced(Step(s, a), g);
  }
}
