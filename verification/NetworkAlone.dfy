/** What each call on the network comes to when nothing else happens at its port meanwhile, and what each step
    may change. */
module NetworkAlone {
  import opened Wrappers
  import opened Network

  datatype Pick = Pick(outcome: Outcome, target: nat)

  /** The call takes its next steps. */
  function Alone(s: State, i: nat, es: seq<Pick>): State
    decreases |es|
  {
    if es == [] then s else Alone(Step(s, Next(i, es[0].outcome, es[0].target)), i, es[1..])
  }

  lemma {:induction false} AloneOver(s: State, i: nat, es: seq<Pick>)
    requires i < |s.calls| && s.calls[i].pc == Over
    ensures Alone(s, i, es) == s
    decreases |es|
  {
    if es != [] { AloneOver(s, i, es[1..]); }
  }

  function With(s: State, c: Call): State { s.(calls := s.calls + [c]) }

  /** Nobody is between taking and giving back the port's lock, or between claiming and closing it. */
  ghost predicate Quiet(s: State, p: nat) {
    && p < |s.ports| && PortOk(s.ports[p]) && s.ports[p].once != Busy
    && forall j :: 0 <= j < |s.calls| && s.calls[j].port == p ==> s.calls[j].pc in {Send, Close, Start, Receive, Over}
  }

  predicate Room(x: Port) { |x.sent| - |x.received| < x.capacity }

  /** The call is at another place. */
  lemma Elsewhere(s: State, c: Call, d: Call)
    ensures With(s, c).calls[|s.calls| := d] == With(s, d).calls
  {
  }

  lemma QuietWith(s: State, p: nat, c: Call)
    requires Quiet(s, p) && c.pc in {Send, Close, Start, CloseClaimed}
    ensures MayWrite(With(s, c), p) && MayRead(With(s, c), p)
  {
    var t := With(s, c);
    forall j | 0 <= j < |t.calls| ensures !Writes(t.calls[j], p) && !Reads(t.calls[j], p) {
      if j < |s.calls| { assert t.calls[j] == s.calls[j]; }
    }
  }

  // ---- sending ----

  /** The message is in the channel. */
  function Delivered(s: State, p: nat): State
    requires p < |s.ports|
  {
    var x := s.ports[p];
    At(With(s, Call(p, Over, Some((p, |x.sent|)))), p, x.(sent := x.sent + [|s.calls|]))
  }

  /** How a select ends: a message goes in where there is room, an inbox without room refuses, a context that is
      over refuses, and otherwise the sender waits. */
  function Selected(s: State, p: nat, outcome: Outcome, waiting: State): State
    requires p < |s.ports|
  {
    var room := Room(s.ports[p]);
    if outcome == Through && room then Delivered(s, p)
    else if outcome == Cancelled || (outcome == Full && p > 0 && !room) then With(s, Call(p, Over, None))
    else waiting
  }

  lemma SelectAlone(s: State, p: nat, es: seq<Pick>)
    requires p < |s.ports| && s.ports[p].open && |es| >= 1
    ensures var waits := With(s, Call(p, Sending, None));
            Alone(waits, |s.calls|, es) == Selected(s, p, es[0].outcome, Alone(waits, |s.calls|, es[1..]))
  {
    var i, e, x := |s.calls|, es[0], s.ports[p];
    var g := With(s, Call(p, Sending, None));
    var t := Step(g, Next(i, e.outcome, e.target));
    if e.outcome == Through && Room(x) {
      Elsewhere(s, Call(p, Sending, None), Call(p, Over, Some((p, |x.sent|))));
      assert t == Delivered(s, p);
      AloneOver(t, i, es[1..]);
    } else if e.outcome == Cancelled || (e.outcome == Full && p > 0 && !Room(x)) {
      Elsewhere(s, Call(p, Sending, None), Call(p, Over, None));
      assert t == With(s, Call(p, Over, None));
      AloneOver(t, i, es[1..]);
    }
  }

  /** Delivery to a node, es[2] being what its select meets first: a closed or offline node takes nothing. */
  lemma DeliverAlone(s: State, p: nat, es: seq<Pick>)
    requires Quiet(s, p) && p > 0 && |es| >= 3
    ensures Alone(Step(s, Begin(p, Send)), |s.calls|, es)
         == if s.ports[p].closed || s.ports[p].offline then With(s, Call(p, Over, None))
            else Selected(s, p, es[2].outcome, Alone(With(s, Call(p, Sending, None)), |s.calls|, es[3..]))
  {
    var i, x := |s.calls|, s.ports[p];
    assert Step(s, Begin(p, Send)) == With(s, Call(p, Send, None));
    Locks(s, p, es);
    assert es[1..][1..] == es[2..] && es[2..][1..] == es[3..];
    if x.closed || x.offline {
      Elsewhere(s, Call(p, SendHeld, None), Call(p, Over, None));
      AloneOver(With(s, Call(p, Over, None)), i, es[2..]);
    } else {
      Elsewhere(s, Call(p, SendHeld, None), Call(p, Sending, None));
      SelectAlone(s, p, es[2..]);
    }
  }

  lemma Locks(s: State, p: nat, es: seq<Pick>)
    requires Quiet(s, p) && |es| >= 1
    ensures Alone(With(s, Call(p, Send, None)), |s.calls|, es)
         == Alone(With(s, Call(p, SendHeld, None)), |s.calls|, es[1..])
  {
    QuietWith(s, p, Call(p, Send, None));
    Elsewhere(s, Call(p, Send, None), Call(p, SendHeld, None));
  }

  /** Route: a stopped router refuses, one that runs queues the message or waits for room, and one that does not
      run yet delivers it itself. */
  lemma RouteAlone(s: State, es: seq<Pick>)
    requires Quiet(s, 0) && |es| >= 3
    ensures Alone(Step(s, Begin(0, Send)), |s.calls|, es)
         == if s.ports[0].closed then With(s, Call(0, Over, None))
            else if s.ports[0].running then
              Selected(s, 0, es[2].outcome, Alone(With(s, Call(0, Sending, None)), |s.calls|, es[3..]))
            else if 0 < es[1].target < |s.ports| then Alone(Step(s, Begin(es[1].target, Send)), |s.calls|, es[2..])
            else With(s, Call(0, Over, None))
  {
    var i, x := |s.calls|, s.ports[0];
    assert Step(s, Begin(0, Send)) == With(s, Call(0, Send, None));
    Locks(s, 0, es);
    assert es[1..][1..] == es[2..] && es[2..][1..] == es[3..];
    Elsewhere(s, Call(0, SendHeld, None), Call(0, Over, None));
    Elsewhere(s, Call(0, SendHeld, None), Call(0, Sending, None));
    Elsewhere(s, Call(0, SendHeld, None), Call(es[1].target, Send, None));
    if !x.closed && x.running {
      SelectAlone(s, 0, es[2..]);
    } else if x.closed || !(0 < es[1].target < |s.ports|) {
      AloneOver(With(s, Call(0, Over, None)), i, es[2..]);
    }
  }

  // ---- closing ----

  function Shutdown(x: Port): Port {
    x.(running := false, closed := true, open := false, once := Done, closes := x.closes + 1)
  }

  /** Stop and CloseInbox close the channel once; the messages in it stay. */
  lemma CloseAlone(s: State, p: nat, es: seq<Pick>)
    requires Quiet(s, p) && |es| >= 5
    ensures Alone(Step(s, Begin(p, Close)), |s.calls|, es)
         == if s.ports[p].once == Done then With(s, Call(p, Over, None))
            else Here(s, p, Over, Shutdown(s.ports[p]))
  {
    var i, x := |s.calls|, s.ports[p];
    assert Step(s, Begin(p, Close)) == With(s, Call(p, Close, None));
    if x.once == Done {
      Elsewhere(s, Call(p, Close, None), Call(p, Over, None));
      AloneOver(With(s, Call(p, Over, None)), i, es[1..]);
    } else {
      Claims(s, p, es);
      ClosesClaimed(s, p, x.(once := Busy), es[2..]);
    }
  }

  lemma ClosesClaimed(s: State, p: nat, x: Port, es: seq<Pick>)
    requires p < |s.ports| && x.open && |es| >= 3
    ensures Alone(Here(s, p, CloseHeld, x), |s.calls|, es) == Here(s, p, Over, Shutdown(x))
  {
    Flags(s, p, x, es);
    AloneOver(Here(s, p, Over, Shutdown(x)), |s.calls|, es[3..]);
  }

  lemma Claims(s: State, p: nat, es: seq<Pick>)
    requires Quiet(s, p) && s.ports[p].once == Unused && |es| >= 2
    ensures Alone(With(s, Call(p, Close, None)), |s.calls|, es)
         == Alone(Here(s, p, CloseHeld, s.ports[p].(once := Busy)), |s.calls|, es[2..])
  {
    var x := s.ports[p].(once := Busy);
    Elsewhere(s, Call(p, Close, None), Call(p, CloseClaimed, None));
    Elsewhere(s, Call(p, CloseClaimed, None), Call(p, CloseHeld, None));
    QuietWith(s, p, Call(p, CloseClaimed, None));
    var t := Here(s, p, CloseClaimed, x);
    assert t.calls == With(s, Call(p, CloseClaimed, None)).calls;
    assert es[1..][1..] == es[2..];
  }

  /** The call at place pc of a port that is as x. */
  function Here(s: State, p: nat, pc: Pc, x: Port): State
    requires p < |s.ports|
  {
    At(With(s, Call(p, pc, None)), p, x)
  }

  lemma Goes(s: State, p: nat, pc: Pc, x: Port, next: Pc, y: Port)
    requires p < |s.ports|
    ensures Goto(At(Here(s, p, pc, x), p, y), |s.calls|, next) == Here(s, p, next, y)
  {
    Elsewhere(s, Call(p, pc, None), Call(p, next, None));
    Overwritten(s.ports, p, x, y);
  }

  lemma Flags(s: State, p: nat, x: Port, es: seq<Pick>)
    requires p < |s.ports| && x.open && |es| >= 3
    ensures Alone(Here(s, p, CloseHeld, x), |s.calls|, es) == Alone(Here(s, p, Over, Shutdown(x)), |s.calls|, es[3..])
  {
    var i, y := |s.calls|, x.(running := false, closed := true);
    Raises(s, p, x, es[0]);
    Shuts(s, p, y, es[1]);
    Marks(s, p, Shut(y), es[2]);
    Once(Here(s, p, CloseHeld, x), i, es);
    Once(Here(s, p, CloseFlagged, y), i, es[1..]);
    assert es[1..][1..] == es[2..] && es[2..][1..] == es[3..];
    Once(Here(s, p, CloseClosed, Shut(y)), i, es[2..]);
    assert Shut(y).(once := Done) == Shutdown(x);
  }

  lemma Raises(s: State, p: nat, x: Port, e: Pick)
    requires p < |s.ports|
    ensures Step(Here(s, p, CloseHeld, x), Next(|s.calls|, e.outcome, e.target))
         == Here(s, p, CloseFlagged, x.(running := false, closed := true))
  {
    Goes(s, p, CloseHeld, x, CloseFlagged, x.(running := false, closed := true));
  }

  lemma Shuts(s: State, p: nat, x: Port, e: Pick)
    requires p < |s.ports|
    ensures Step(Here(s, p, CloseFlagged, x), Next(|s.calls|, e.outcome, e.target)) == Here(s, p, CloseClosed, Shut(x))
  {
    Goes(s, p, CloseFlagged, x, CloseClosed, Shut(x));
  }

  lemma Marks(s: State, p: nat, x: Port, e: Pick)
    requires p < |s.ports|
    ensures Step(Here(s, p, CloseClosed, x), Next(|s.calls|, e.outcome, e.target)) == Here(s, p, Over, x.(once := Done))
  {
    Goes(s, p, CloseClosed, x, Over, x.(once := Done));
  }

  lemma Once(s: State, i: nat, es: seq<Pick>)
    requires es != []
    ensures Alone(s, i, es) == Alone(Step(s, Next(i, es[0].outcome, es[0].target)), i, es[1..])
  {
  }

  lemma Overwritten(ports: seq<Port>, p: nat, x: Port, y: Port)
    requires p < |ports|
    ensures ports[p := x][p := y] == ports[p := y]
  {
  }

  // ---- the router's consumer ----

  /** Start marks the router as running and then receives. */
  lemma StartAlone(s: State, es: seq<Pick>)
    requires Quiet(s, 0) && |es| >= 2
    ensures Alone(Step(s, Begin(0, Start)), |s.calls|, es)
         == Alone(Here(s, 0, Receive, s.ports[0].(running := true)), |s.calls|, es[2..])
  {
    assert Step(s, Begin(0, Start)) == With(s, Call(0, Start, None));
    QuietWith(s, 0, Call(0, Start, None));
    Elsewhere(s, Call(0, Start, None), Call(0, StartHeld, None));
    Elsewhere(s, Call(0, StartHeld, None), Call(0, Receive, None));
    var t := With(s, Call(0, StartHeld, None));
    assert Step(t, Next(|s.calls|, es[1].outcome, es[1].target)) == Here(s, 0, Receive, s.ports[0].(running := true));
    assert es[1..][1..] == es[2..];
  }

  /** It takes what is there, message by message in the order of sending, ... */
  lemma {:induction false} ReceivesInOrder(s: State, i: nat, es: seq<Pick>)
    requires i < |s.calls| && s.calls[i].pc == Receive && s.calls[i].port < |s.ports|
    requires var x := s.ports[s.calls[i].port]; x.received <= x.sent && |es| <= |x.sent| - |x.received|
    requires forall k :: 0 <= k < |es| ==> es[k].outcome != Cancelled
    ensures var p := s.calls[i].port;
            var x := s.ports[p];
            Alone(s, i, es) == At(s, p, x.(received := x.sent[..|x.received| + |es|]))
    decreases |es|
  {
    var p := s.calls[i].port;
    var x := s.ports[p];
    if es == [] {
      assert x.sent[..|x.received|] == x.received && s.ports[p := x] == s.ports;
    } else {
      var y := x.(received := x.received + [x.sent[|x.received|]]);
      assert Step(s, Next(i, es[0].outcome, es[0].target)) == At(s, p, y);
      assert y.received == x.sent[..|x.received| + 1];
      ReceivesInOrder(At(s, p, y), i, es[1..]);
      Overwritten(s.ports, p, y, x.(received := x.sent[..|x.received| + |es|]));
    }
  }

  /** ... and ends with its context, or when the queue is closed and empty; an empty open queue keeps it waiting. */
  lemma ReceiveEnds(s: State, i: nat, e: Pick)
    requires i < |s.calls| && s.calls[i].pc == Receive && s.calls[i].port < |s.ports|
    requires var x := s.ports[s.calls[i].port]; e.outcome == Cancelled || |x.received| == |x.sent|
    ensures var x := s.ports[s.calls[i].port];
            Step(s, Next(i, e.outcome, e.target))
            == if e.outcome == Cancelled || !x.open then s.(calls := s.calls[i := s.calls[i].(pc := Over)]) else s
  {
  }

  /** Whoever reads an inbox gets the oldest message that is left; a status is set for that node alone. */
  lemma InboxMeans(s: State, p: nat, offline: bool)
    requires p < |s.ports| && s.ports[p].received <= s.ports[p].sent
    ensures var x := s.ports[p];
            Step(s, Take(p)) == if x.received == x.sent then s
                                else At(s, p, x.(received := x.sent[..|x.received| + 1]))
    ensures Step(s, SetOffline(p, offline)) == At(s, p, s.ports[p].(offline := offline))
  {
    var x := s.ports[p];
    if |x.received| < |x.sent| {
      assert x.received + [x.sent[|x.received|]] == x.sent[..|x.received| + 1];
    }
  }

  // ---- what every step may change ----

  /** While a call holds a port's lock for writing - Stop until its flags are set, CloseInbox until its channel is
      closed - no other call gets hold of the lock; and while one sends, none gets to write. */
  lemma LockedOut(s: State, a: Action, i: nat, j: nat)
    requires Sound(s) && i < |s.calls| && j < |s.calls| && i != j && s.calls[i].port == s.calls[j].port
    requires a.Next? && a.call == j
    ensures var c, d := s.calls[i], Step(s, a).calls[j];
            && (c.pc in {CloseHeld, StartHeld} || (c.port > 0 && c.pc in {CloseFlagged, CloseClosed}) ==>
                  s.calls[j].pc !in {SendHeld, Sending, CloseHeld, StartHeld}
                  && (d.port == c.port ==> d.pc !in {SendHeld, Sending, CloseHeld, StartHeld}))
            && (c.pc in {SendHeld, Sending} ==> d.port == c.port ==> d.pc !in {CloseHeld, StartHeld})
  {
    assert PlaceOk(s, s.calls[i]) && PlaceOk(s, s.calls[j]);
    var x, y := s.calls[i], s.calls[j];
  }

  /** A channel's messages grow by exactly the message of a call whose select goes through while there is room,
      and shrink by being received only. */
  lemma SentExactly(s: State, a: Action, p: nat)
    requires Sound(s) && p < |s.ports|
    ensures var x, t := s.ports[p], Step(s, a);
            && p < |t.ports|
            && t.ports[p].sent
               == (if a.Next? && a.call < |s.calls| && s.calls[a.call].port == p && s.calls[a.call].pc == Sending
                      && a.outcome == Through && Room(x)
                   then x.sent + [a.call] else x.sent)
            && x.received <= t.ports[p].received <= x.sent
  {
    assert PortOk(s.ports[p]);
    if a.Next? && a.call < |s.calls| && s.calls[a.call].port < |s.ports| {
      AdvanceSends(s, a.call, a.outcome, a.target, p);
    }
  }

  lemma AdvanceSends(s: State, i: nat, outcome: Outcome, target: nat, p: nat)
    requires Sound(s) && p < |s.ports| && i < |s.calls| && s.calls[i].port < |s.ports|
    ensures var x, t := s.ports[p], Advance(s, i, outcome, target);
            && p < |t.ports|
            && t.ports[p].sent == (if s.calls[i].port == p && s.calls[i].pc == Sending && outcome == Through && Room(x)
                                   then x.sent + [i] else x.sent)
            && x.received <= t.ports[p].received <= x.sent
  {
    assert PlaceOk(s, s.calls[i]) && PortOk(s.ports[p]);
  }
}
