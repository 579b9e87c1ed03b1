/** The message router's queue and the nodes' inboxes: sending, closing and receiving, one lock operation,
    field access or channel operation at a time, in any interleaving. */
module Network {
  import opened Wrappers

  datatype Once = Unused | Busy | Done

  /** A channel with the lock and the flags beside it; port 0 is the router's queue, the others are
      inboxes. A message is named by the call that sends it. sent and received are the whole history of
      the channel, closes and panics count what must not happen twice or at all. */
  datatype Port = Port(
    capacity: nat, running: bool, offline: bool, closed: bool, once: Once,
    open: bool, sent: seq<nat>, received: seq<nat>, closes: nat, panics: nat)

  datatype Pc =
    | Send | SendHeld | Sending                              // Route and deliver
    | Close | CloseClaimed | CloseHeld | CloseFlagged | CloseClosed   // Stop and CloseInbox
    | Start | StartHeld | Receive                            // the router's consumer
    | Over

  /** slot is where the call's message went, if it went anywhere. */
  datatype Call = Call(port: nat, pc: Pc, slot: Option<(nat, nat)>)

  datatype State = State(ports: seq<Port>, calls: seq<Call>)

  /** How a select ends. */
  datatype Outcome = Through | Full | Cancelled

  datatype Action =
    | Begin(port: nat, pc: Pc)
    | Next(call: nat, outcome: Outcome, target: nat)
    | SetOffline(port: nat, offline: bool)
    | Take(port: nat)                                        // whoever reads an inbox

  // ---- who holds the lock of a port ----

  predicate Reads(c: Call, p: nat) { c.port == p && c.pc in {SendHeld, Sending} }

  /** Stop gives the lock back before it closes the queue; CloseInbox keeps it. */
  predicate Writes(c: Call, p: nat) {
    c.port == p && (c.pc == CloseHeld || c.pc == StartHeld || (p > 0 && c.pc in {CloseFlagged, CloseClosed}))
  }

  predicate MayRead(s: State, p: nat) { forall i :: 0 <= i < |s.calls| ==> !Writes(s.calls[i], p) }
  predicate MayWrite(s: State, p: nat) {
    forall i :: 0 <= i < |s.calls| ==> !Writes(s.calls[i], p) && !Reads(s.calls[i], p)
  }

  // ---- one step of a call ----

  function Goto(s: State, i: nat, pc: Pc): State
    requires i < |s.calls|
  {
    s.(calls := s.calls[i := s.calls[i].(pc := pc)])
  }

  function At(s: State, p: nat, x: Port): State
    requires p < |s.ports|
  {
    s.(ports := s.ports[p := x])
  }

  /** A send on a closed channel panics. */
  function Put(x: Port, i: nat): Port {
    if x.open then x.(sent := x.sent + [i]) else x.(panics := x.panics + 1)
  }

  /** Closing a closed channel panics. */
  function Shut(x: Port): Port {
    x.(open := false, closes := x.closes + 1, panics := if x.open then x.panics else x.panics + 1)
  }

  function Advance(s: State, i: nat, outcome: Outcome, target: nat): State
    requires i < |s.calls| && s.calls[i].port < |s.ports|
  {
    var p := s.calls[i].port;
    var x := s.ports[p];
    match s.calls[i].pc
    case Send => if MayRead(s, p) then Goto(s, i, SendHeld) else s
    case SendHeld =>
      if x.closed then Goto(s, i, Over)
      else if p == 0 && !x.running then
        // the router does not run: the message goes to its target directly, or nowhere without one
        if 0 < target < |s.ports| then s.(calls := s.calls[i := Call(target, Send, None)]) else Goto(s, i, Over)
      else if p > 0 && x.offline then Goto(s, i, Over)
      else Goto(s, i, Sending)
    case Sending =>
      if outcome == Through then
        if |x.sent| - |x.received| < x.capacity || !x.open then
          At(s, p, Put(x, i)).(calls := s.calls[i := Call(p, Over, if x.open then Some((p, |x.sent|)) else None)])
        else s
      else if outcome == Full && (p == 0 || |x.sent| - |x.received| < x.capacity) then s
      else Goto(s, i, Over)
    case Close =>
      if x.once == Unused then Goto(At(s, p, x.(once := Busy)), i, CloseClaimed)
      else if x.once == Done then Goto(s, i, Over)
      else s
    case CloseClaimed => if MayWrite(s, p) then Goto(s, i, CloseHeld) else s
    case CloseHeld => Goto(At(s, p, x.(running := false, closed := true)), i, CloseFlagged)
    case CloseFlagged => Goto(At(s, p, Shut(x)), i, CloseClosed)
    case CloseClosed => Goto(At(s, p, x.(once := Done)), i, Over)
    case Start => if p == 0 && MayWrite(s, p) then Goto(s, i, StartHeld) else s
    case StartHeld => Goto(At(s, p, x.(running := true)), i, Receive)
    case Receive =>
      if outcome == Cancelled then Goto(s, i, Over)
      else if |x.received| < |x.sent| then At(s, p, x.(received := x.received + [x.sent[|x.received|]]))
      else if !x.open then Goto(s, i, Over)
      else s
    case Over => s
  }

  function Step(s: State, a: Action): State {
    match a
    case Begin(p, pc) =>
      if p < |s.ports| && (pc == Send || pc == Close || (pc == Start && p == 0))
      then s.(calls := s.calls + [Call(p, pc, None)]) else s
    case Next(i, outcome, target) =>
      if i < |s.calls| && s.calls[i].port < |s.ports| then Advance(s, i, outcome, target) else s
    case SetOffline(p, b) => if p < |s.ports| then At(s, p, s.ports[p].(offline := b)) else s
    case Take(p) =>
      if p < |s.ports| && |s.ports[p].received| < |s.ports[p].sent| then
        var x := s.ports[p];
        At(s, p, x.(received := x.received + [x.sent[|x.received|]]))
      else s
  }

  function Fresh(capacity: nat): Port { Port(capacity, false, false, false, Unused, true, [], [], 0, 0) }

  /** Every channel open and empty, and nothing under way. */
  predicate Initial(s: State) {
    s.calls == [] && forall p :: 0 <= p < |s.ports| ==> s.ports[p] == Fresh(s.ports[p].capacity)
  }

  function Run(s: State, actions: seq<Action>): State {
    if actions == [] then s else Step(Run(s, actions[..|actions| - 1]), actions[|actions| - 1])
  }

  // ---- what every step keeps ----

  predicate Claimed(c: Call, p: nat) { c.port == p && c.pc in {CloseClaimed, CloseHeld, CloseFlagged, CloseClosed} }

  ghost predicate LocksExclude(s: State) {
    forall i, j {:trigger s.calls[i], s.calls[j]} :: 0 <= i < |s.calls| && 0 <= j < |s.calls| && i != j ==>
      (Writes(s.calls[i], s.calls[i].port) ==>
         !Writes(s.calls[j], s.calls[i].port) && !Reads(s.calls[j], s.calls[i].port))
      && !(Claimed(s.calls[i], s.calls[i].port) && Claimed(s.calls[j], s.calls[i].port))
  }

  /** What a call's place says about its port. */
  predicate PlaceOk(s: State, c: Call) {
    && c.port < |s.ports|
    && var x := s.ports[c.port];
       && (c.pc == Sending ==> !x.closed)
       && (Claimed(c, c.port) ==> x.once == Busy)
       && (c.pc in {CloseClaimed, CloseHeld} ==> !x.closed && x.open)
       && (c.pc == CloseFlagged ==> x.closed && x.open)
       && (c.pc == CloseClosed ==> x.closed && !x.open)
       && (c.pc in {Start, StartHeld, Receive} ==> c.port == 0)
  }

  predicate PortOk(x: Port) {
    && x.panics == 0 && x.closes == (if x.open then 0 else 1)
    && (x.once == Unused ==> !x.closed && x.open) && (x.once == Done ==> x.closed && !x.open)
    && (!x.open ==> x.closed)
    && x.received <= x.sent
    && |x.sent| - |x.received| <= x.capacity
  }

  /** Every message in a channel is where its call says, so no message is anywhere twice. */
  ghost predicate SlotsOk(s: State) {
    forall p, k {:trigger s.ports[p].sent[k]} :: 0 <= p < |s.ports| && 0 <= k < |s.ports[p].sent| ==>
      var i := s.ports[p].sent[k];
      i < |s.calls| && s.calls[i].slot == Some((p, k)) && s.calls[i].pc == Over
  }

  ghost predicate Sound(s: State) {
    && LocksExclude(s) && SlotsOk(s)
    && (forall i {:trigger PlaceOk(s, s.calls[i])} :: 0 <= i < |s.calls| ==> PlaceOk(s, s.calls[i]))
    && (forall p {:trigger PortOk(s.ports[p])} :: 0 <= p < |s.ports| ==> PortOk(s.ports[p]))
  }

  /** Call i becomes c and its port becomes x; everyone else stays put. */
  function Moved(s: State, i: nat, c: Call, p: nat, x: Port): State
    requires i < |s.calls| && p < |s.ports|
  {
    State(s.ports[p := x], s.calls[i := c])
  }

  /** The others at the port find it as their place says. */
  ghost predicate OthersStay(s: State, i: nat, p: nat, x: Port)
    requires p < |s.ports|
  {
    forall j {:trigger PlaceOk(At(s, p, x), s.calls[j])} :: 0 <= j < |s.calls| && j != i ==>
      PlaceOk(At(s, p, x), s.calls[j])
  }

  ghost predicate MayClaim(s: State, i: nat, p: nat) {
    forall j :: 0 <= j < |s.calls| && j != i ==> !Claimed(s.calls[j], p)
  }

  lemma CallMoves(s: State, i: nat, c: Call, p: nat, x: Port)
    requires Sound(s) && i < |s.calls| && s.calls[i].port == p && c.port < |s.ports|
    requires p < |s.ports| && PortOk(x) && x.sent == s.ports[p].sent && PlaceOk(Moved(s, i, c, p, x), c)
    requires OthersStay(s, i, p, x)
    requires s.calls[i].pc != Over && (c.pc != Over ==> c.slot == s.calls[i].slot || c.slot == None)
    requires Reads(c, c.port) ==> Reads(s.calls[i], c.port) || MayRead(s, c.port)
    requires Writes(c, c.port) ==> Writes(s.calls[i], c.port) || MayWrite(s, c.port)
    requires Claimed(c, c.port) ==> MayClaim(s, i, c.port)
    ensures Sound(Moved(s, i, c, p, x))
  {
    var t := Moved(s, i, c, p, x);
    forall j | 0 <= j < |t.calls| ensures PlaceOk(t, t.calls[j]) {
      if j != i { assert PlaceOk(At(s, p, x), s.calls[j]); }
    }
    forall q | 0 <= q < |t.ports| ensures PortOk(t.ports[q]) {
      if q != p { assert PortOk(s.ports[q]); }
    }
    forall q, k | 0 <= q < |t.ports| && 0 <= k < |t.ports[q].sent|
      ensures var j := t.ports[q].sent[k]; j < |t.calls| && t.calls[j].slot == Some((q, k)) && t.calls[j].pc == Over
    {
      assert s.ports[q].sent[k] == t.ports[q].sent[k];
    }
    LocksMove(s, i, c, p, x);
  }

  lemma LocksMove(s: State, i: nat, c: Call, p: nat, x: Port)
    requires LocksExclude(s) && i < |s.calls| && p < |s.ports|
    requires Reads(c, c.port) ==> Reads(s.calls[i], c.port) || MayRead(s, c.port)
    requires Writes(c, c.port) ==> Writes(s.calls[i], c.port) || MayWrite(s, c.port)
    requires Claimed(c, c.port) ==> MayClaim(s, i, c.port)
    ensures LocksExclude(Moved(s, i, c, p, x))
  {
    var t := Moved(s, i, c, p, x);
    forall j, k | 0 <= j < |t.calls| && 0 <= k < |t.calls| && j != k
      ensures Writes(t.calls[j], t.calls[j].port) ==>
                !Writes(t.calls[k], t.calls[j].port) && !Reads(t.calls[k], t.calls[j].port)
      ensures !(Claimed(t.calls[j], t.calls[j].port) && Claimed(t.calls[k], t.calls[j].port))
    {
      var x, y := s.calls[j], s.calls[k];
    }
  }

  lemma OneClaims(s: State, i: nat)
    requires Sound(s) && i < |s.calls|
    ensures Claimed(s.calls[i], s.calls[i].port) ==> MayClaim(s, i, s.calls[i].port)
    ensures Writes(s.calls[i], s.calls[i].port) ==>
      (forall j :: 0 <= j < |s.calls| && j != i ==>
        !Writes(s.calls[j], s.calls[i].port) && !Reads(s.calls[j], s.calls[i].port))
  {
    forall j | 0 <= j < |s.calls| && j != i
      ensures Claimed(s.calls[i], s.calls[i].port) ==> !Claimed(s.calls[j], s.calls[i].port)
      ensures Writes(s.calls[i], s.calls[i].port) ==>
                !Writes(s.calls[j], s.calls[i].port) && !Reads(s.calls[j], s.calls[i].port)
    {
      var x, y := s.calls[i], s.calls[j];
    }
  }

  lemma SamePort(s: State, i: nat, p: nat, x: Port)
    requires Sound(s) && p < |s.ports| && x.closed == s.ports[p].closed && x.open == s.ports[p].open
    requires x.once == s.ports[p].once
    ensures OthersStay(s, i, p, x)
  {
    forall j | 0 <= j < |s.calls| && j != i ensures PlaceOk(At(s, p, x), s.calls[j]) { assert PlaceOk(s, s.calls[j]); }
  }

  lemma SendSteps(s: State, i: nat, outcome: Outcome, target: nat)
    requires Sound(s) && i < |s.calls| && s.calls[i].port < |s.ports|
    requires s.calls[i].pc in {Send, SendHeld} || (s.calls[i].pc == Sending && outcome != Through)
    ensures Sound(Advance(s, i, outcome, target))
  {
    var p := s.calls[i].port;
    var t := Advance(s, i, outcome, target);
    assert PlaceOk(s, s.calls[i]) && PortOk(s.ports[p]);
    if t != s {
      SamePort(s, i, p, s.ports[p]);
      assert s.ports[p := s.ports[p]] == s.ports;
      CallMoves(s, i, t.calls[i], p, s.ports[p]);
    }
  }

  lemma SendGoesThrough(s: State, i: nat)
    requires Sound(s) && i < |s.calls| && s.calls[i].pc == Sending && s.calls[i].port < |s.ports|
    ensures Sound(Advance(s, i, Through, 0))
  {
    var p := s.calls[i].port;
    var t := Advance(s, i, Through, 0);
    var x := s.ports[p];
    assert PlaceOk(s, s.calls[i]) && PortOk(x);
    if t != s {
      var y := t.ports[p];
      assert y.received <= y.sent;
      forall j | 0 <= j < |t.calls| ensures PlaceOk(t, t.calls[j]) { assert PlaceOk(s, s.calls[j]); }
      forall q | 0 <= q < |t.ports| ensures PortOk(t.ports[q]) { if q != p { assert PortOk(s.ports[q]); } }
      forall q, k | 0 <= q < |t.ports| && 0 <= k < |t.ports[q].sent|
        ensures var j := t.ports[q].sent[k]; j < |t.calls| && t.calls[j].slot == Some((q, k)) && t.calls[j].pc == Over
      {
        if q != p || k < |x.sent| { assert s.ports[q].sent[k] == t.ports[q].sent[k]; }
      }
      LocksMove(s, i, t.calls[i], p, y);
      assert t == Moved(s, i, t.calls[i], p, y);
    }
  }

  lemma CloseSteps(s: State, i: nat, outcome: Outcome, target: nat)
    requires Sound(s) && i < |s.calls| && s.calls[i].port < |s.ports|
    requires s.calls[i].pc in {Close, CloseClaimed, CloseHeld, CloseFlagged, CloseClosed}
    ensures Sound(Advance(s, i, outcome, target))
  {
    var c := s.calls[i];
    var p := c.port;
    var t := Advance(s, i, outcome, target);
    assert PlaceOk(s, c) && PortOk(s.ports[p]);
    OneClaims(s, i);
    if t != s {
      forall j | 0 <= j < |s.calls| && j != i ensures PlaceOk(At(s, p, t.ports[p]), s.calls[j]) {
        assert PlaceOk(s, s.calls[j]);
      }
      assert MayClaim(s, i, p) by {
        if c.pc == Close && s.ports[p].once == Unused {
          forall j | 0 <= j < |s.calls| && j != i ensures !Claimed(s.calls[j], p) { assert PlaceOk(s, s.calls[j]); }
        }
      }
      CallMoves(s, i, t.calls[i], p, t.ports[p]);
      assert t == Moved(s, i, t.calls[i], p, t.ports[p]);
    }
  }

  lemma ConsumerSteps(s: State, i: nat, outcome: Outcome, target: nat)
    requires Sound(s) && i < |s.calls| && s.calls[i].port < |s.ports| && s.calls[i].pc in {Start, StartHeld, Receive}
    ensures Sound(Advance(s, i, outcome, target))
  {
    var p := s.calls[i].port;
    var t := Advance(s, i, outcome, target);
    assert PlaceOk(s, s.calls[i]) && PortOk(s.ports[p]);
    if t != s {
      SamePort(s, i, p, t.ports[p]);
      assert t.ports[p].received <= t.ports[p].sent;
      assert t == Moved(s, i, t.calls[i], p, t.ports[p]);
      CallMoves(s, i, t.calls[i], p, t.ports[p]);
    }
  }

  lemma PortSteps(s: State, p: nat, x: Port)
    requires Sound(s) && p < |s.ports| && PortOk(x) && x.sent == s.ports[p].sent
    requires x.closed == s.ports[p].closed && x.open == s.ports[p].open && x.once == s.ports[p].once
    ensures Sound(At(s, p, x))
  {
    var t := At(s, p, x);
    forall j | 0 <= j < |t.calls| ensures PlaceOk(t, t.calls[j]) { assert PlaceOk(s, s.calls[j]); }
    forall q | 0 <= q < |t.ports| ensures PortOk(t.ports[q]) { if q != p { assert PortOk(s.ports[q]); } }
    forall q, k | 0 <= q < |t.ports| && 0 <= k < |t.ports[q].sent|
      ensures var j := t.ports[q].sent[k]; j < |t.calls| && t.calls[j].slot == Some((q, k)) && t.calls[j].pc == Over
    {
      assert s.ports[q].sent[k] == t.ports[q].sent[k];
    }
  }

  lemma BeginSteps(s: State, p: nat, pc: Pc)
    requires Sound(s)
    ensures Sound(Step(s, Begin(p, pc)))
  {
    var t := Step(s, Begin(p, pc));
    forall j | 0 <= j < |t.calls| ensures PlaceOk(t, t.calls[j]) { if j < |s.calls| { assert PlaceOk(s, s.calls[j]); } }
    forall q | 0 <= q < |t.ports| ensures PortOk(t.ports[q]) { assert PortOk(s.ports[q]); }
    forall q, k | 0 <= q < |t.ports| && 0 <= k < |t.ports[q].sent|
      ensures var j := t.ports[q].sent[k]; j < |t.calls| && t.calls[j].slot == Some((q, k)) && t.calls[j].pc == Over
    {
      assert s.ports[q].sent[k] == t.ports[q].sent[k];
    }
    forall j, k | 0 <= j < |t.calls| && 0 <= k < |t.calls| && j != k
      ensures Writes(t.calls[j], t.calls[j].port) ==>
                !Writes(t.calls[k], t.calls[j].port) && !Reads(t.calls[k], t.calls[j].port)
      ensures !(Claimed(t.calls[j], t.calls[j].port) && Claimed(t.calls[k], t.calls[j].port))
    {
      if j < |s.calls| && k < |s.calls| { assert s.calls[j] == t.calls[j] && s.calls[k] == t.calls[k]; }
    }
  }

  lemma StepIsSound(s: State, a: Action)
    requires Sound(s)
    ensures Sound(Step(s, a))
  {
    match a
    case Begin(p, pc) => BeginSteps(s, p, pc);
    case SetOffline(p, b) => if p < |s.ports| { assert PortOk(s.ports[p]); PortSteps(s, p, s.ports[p].(offline := b)); }
    case Take(p) =>
      if p < |s.ports| && |s.ports[p].received| < |s.ports[p].sent| {
        var x := s.ports[p];
        assert PortOk(x);
        PortSteps(s, p, x.(received := x.received + [x.sent[|x.received|]]));
      }
    case Next(i, outcome, target) =>
      if i < |s.calls| && s.calls[i].port < |s.ports| {
        match s.calls[i].pc {
          case Send => SendSteps(s, i, outcome, target);
          case SendHeld => SendSteps(s, i, outcome, target);
          case Sending => if outcome == Through { SendGoesThrough(s, i); } else { SendSteps(s, i, outcome, target); }
          case Start => ConsumerSteps(s, i, outcome, target);
          case StartHeld => ConsumerSteps(s, i, outcome, target);
          case Receive => ConsumerSteps(s, i, outcome, target);
          case Over =>
          case _ => CloseSteps(s, i, outcome, target);
        }
      }
  }

  lemma {:induction false} AlwaysSound(s: State, actions: seq<Action>)
    requires Initial(s)
    ensures Sound(Run(s, actions))
  {
    if actions != [] {
      AlwaysSound(s, actions[..|actions| - 1]);
      StepIsSound(Run(s, actions[..|actions| - 1]), actions[|actions| - 1]);
    } else {
      forall p | 0 <= p < |s.ports| ensures PortOk(s.ports[p]) { assert s.ports[p] == Fresh(s.ports[p].capacity); }
    }
  }

  // ---- what holds in every run ----

  /** No message is sent on a closed channel and no channel is closed twice. */
  lemma NeverPanics(s: State, actions: seq<Action>, p: nat)
    requires Initial(s) && p < |Run(s, actions).ports|
    ensures Run(s, actions).ports[p].panics == 0 && Run(s, actions).ports[p].closes <= 1
  {
    AlwaysSound(s, actions);
    assert PortOk(Run(s, actions).ports[p]);
  }

  /** A channel delivers what was sent, in order, and never holds more than it has room for. */
  lemma DeliversInOrder(s: State, actions: seq<Action>, p: nat)
    requires Initial(s) && p < |Run(s, actions).ports|
    ensures var x := Run(s, actions).ports[p]; x.received <= x.sent && |x.sent| - |x.received| <= x.capacity
  {
    AlwaysSound(s, actions);
    assert PortOk(Run(s, actions).ports[p]);
  }

  /** A call's message is in one channel at most, and there once. */
  lemma SentOnce(s: State, actions: seq<Action>, p: nat, k: nat, q: nat, l: nat)
    requires Initial(s)
    requires var t := Run(s, actions);
             p < |t.ports| && k < |t.ports[p].sent| && q < |t.ports| && l < |t.ports[q].sent|
             && t.ports[p].sent[k] == t.ports[q].sent[l]
    ensures p == q && k == l
  {
    AlwaysSound(s, actions);
    var t := Run(s, actions);
    assert t.calls[t.ports[p].sent[k]].slot == Some((p, k)) && t.calls[t.ports[q].sent[l]].slot == Some((q, l));
  }

  /** Once the closing section has run, nothing more gets in, though what is there can still be received. */
  lemma ClosedTakesNothing(s: State, actions: seq<Action>, a: Action, p: nat)
    requires Initial(s) && p < |Run(s, actions).ports| && Run(s, actions).ports[p].closed
    ensures var before, after := Run(s, actions), Step(Run(s, actions), a);
            p < |after.ports| && after.ports[p].closed && after.ports[p].sent == before.ports[p].sent
  {
    AlwaysSound(s, actions);
    var t := Run(s, actions);
    if a.Next? && a.call < |t.calls| { assert PlaceOk(t, t.calls[a.call]); }
  }
}
