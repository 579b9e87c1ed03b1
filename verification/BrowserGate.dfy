/** Token conservation: who may run on a profile, who may operate a lease, who may replace a session. */
module BrowserGate {
  import opened Wrappers
  import opened BrowserState
  import opened BrowserSteps

  // ---- what a program point holds ----

  predicate InReplacement(after: After) {
    (after.Drain? || after.Abort?) && after.repl
  }

  /** The call has taken the gate token of its profile and not yet passed it on. */
  predicate CarriesGate(pc: Pc) {
    pc.Run? || (pc.Close? && pc.z.CloseDrained?) || (pc.Using? && (pc.u.RelActive? || pc.u.RelGate?))
  }

  /** The call has taken the transition token of its profile. */
  predicate CarriesTransition(pc: Pc) {
    if pc.Close? then pc.repl
    else if pc.Replace? then true
    else if pc.Ask? then ForReplacement(pc.op)
    else pc.Using? && UseForReplacement(pc.u)
  }

  predicate ForReplacement(op: Op) {
    op.Release? && InReplacement(op.after)
  }

  predicate UseForReplacement(u: Use) {
    if u.Held? then ForReplacement(u.op)
    else (u.Return? || u.RelMark? || u.RelActive? || u.RelGate?) && InReplacement(u.after)
  }

  /** The lease whose operation token the call has taken. */
  function Operating(pc: Pc): Option<nat> {
    if pc.Using? then Some(pc.l) else None
  }

  /** The call is in the middle of using an unreleased lease. */
  predicate Working(u: Use) {
    !(u.Held? || u.Return? || u.RelActive? || u.RelGate?)
  }

  /** `h` is in possession of the right to run on profile `p`, read off the real state. */
  ghost predicate Holds(s: State, p: string, h: Holder)
    requires p in s.profiles
  {
    match h
    case InGate => s.profiles[p].gate > 0
    case ByCall(c) => c in s.calls && s.calls[c].p == p && CarriesGate(s.calls[c].pc)
    case ByLease(l) => l in s.leases && s.leases[l].profile == p && !s.leases[l].released
    case Lost => s.profiles[p].stranded
  }

  ghost predicate Operates(s: State, l: nat, c: nat) {
    c in s.calls && Operating(s.calls[c].pc) == Some(l)
  }

  ghost predicate Replaces(s: State, p: string, c: nat) {
    c in s.calls && s.calls[c].p == p && CarriesTransition(s.calls[c].pc)
  }

  // ---- the invariant ----

  ghost predicate CallShape(s: State, k: Call) {
    k.p in s.profiles
    && match k.pc
       case Ask(l, op) => OnLease(s, l, k.p) && OpShape(op)
       case Using(l, u) =>
         OnLease(s, l, k.p) && UseShape(u)
         && (Working(u) ==> !s.leases[l].released)
         && (u.RelActive? || u.RelGate? ==> s.leases[l].released)
       case Close(z, _) => (z.CloseStop? || z.CloseConfirm?) && z.active.Some? ==> OnLease(s, z.active.value, k.p)
       case _ => true
  }

  ghost predicate OnLease(s: State, l: nat, p: string) {
    l in s.leases && s.leases[l].profile == p
  }

  /** A Release is asked for by a caller, after a FinishTask, or by a CloseSession that then drains. */
  predicate OpShape(op: Op) {
    op.Release? ==> op.after.Stop? || op.after.Drain?
  }

  predicate UseShape(u: Use) {
    (u.MarkLease? || u.MarkTask? ==> u.next == Return(Stop) || u.next == Return(ReleaseNext) || u.next.ExecDone?)
    && (u.Held? ==> OpShape(u.op))
    && (u.RelMark? || u.RelActive? || u.RelGate? ==> u.after.Stop? || u.after.Drain?)
  }

  ghost predicate ProfileShape(s: State, p: string)
    requires p in s.profiles
  {
    var f := s.profiles[p];
    f.gate <= 1 && f.transition == (if f.replacer.None? then 1 else 0)
    && (f.active.Some? ==> OnLease(s, f.active.value, p))
  }

  ghost predicate LeaseShape(s: State, l: nat)
    requires l in s.leases
  {
    l < s.next && s.leases[l].profile in s.profiles
    && s.leases[l].op == if s.leases[l].worker.None? then 1 else 0
  }

  ghost predicate Shape(s: State) {
    (forall c {:trigger CallShape(s, s.calls[c])} :: c in s.calls ==> CallShape(s, s.calls[c]))
    && (forall l {:trigger LeaseShape(s, l)} :: l in s.leases ==> LeaseShape(s, l))
    && (forall p {:trigger ProfileShape(s, p)} :: p in s.profiles ==> ProfileShape(s, p))
  }

  ghost predicate GateInv(s: State) {
    forall p, h {:trigger Holds(s, p, h)} :: p in s.profiles ==> (Holds(s, p, h) <==> h == s.profiles[p].holder)
  }

  ghost predicate OperationInv(s: State) {
    forall l: nat, c: nat {:trigger Operates(s, l, c)} :: l in s.leases ==>
      (Operates(s, l, c) <==> s.leases[l].worker == Some(c))
  }

  ghost predicate TransitionInv(s: State) {
    forall p: string, c: nat {:trigger Replaces(s, p, c)} :: p in s.profiles ==>
      (Replaces(s, p, c) <==> s.profiles[p].replacer == Some(c))
  }

  ghost predicate TokenInv(s: State) {
    Shape(s) && GateInv(s) && OperationInv(s) && TransitionInv(s)
  }

  // ---- what one step may touch ----

  ghost predicate SameBut<K(!new), V>(m: map<K, V>, n: map<K, V>, k: K) {
    forall x :: x != k ==> (x in m <==> x in n) && (x in m && x in n ==> m[x] == n[x])
  }

  /** Beginning a call moves nobody else and changes no lease. */
  lemma BeginFrame(s: State, a: Move)
    requires Begins(a) && a.c !in s.calls
    ensures var t := Begin(s, a);
            && t.leases == s.leases && SameBut(s.calls, t.calls, a.c) && t.created == s.created
            && (a.c in t.calls ==> !t.calls[a.c].pc.Using? && !t.calls[a.c].pc.Run?)
            && (!a.StartFinish? ==> t.owned == s.owned)
  {
    if a.StartFinish? {
      BeginFinishFrame(s, a);
    } else if a.StartAcquire? || a.StartInspect? {
      BeginQueueFrame(s, a);
    }
  }

  lemma BeginFinishFrame(s: State, a: Move)
    requires a.StartFinish? && a.c !in s.calls
    ensures var t := Begin(s, a);
            && t.leases == s.leases && SameBut(s.calls, t.calls, a.c) && t.created == s.created
            && (a.c in t.calls ==> !t.calls[a.c].pc.Using? && !t.calls[a.c].pc.Run?)
  {
  }

  lemma BeginQueueFrame(s: State, a: Move)
    requires (a.StartAcquire? || a.StartInspect?) && a.c !in s.calls
    ensures var t := Begin(s, a);
            && t.leases == s.leases && SameBut(s.calls, t.calls, a.c) && t.created == s.created && t.owned == s.owned
            && (a.c in t.calls ==> !t.calls[a.c].pc.Using? && !t.calls[a.c].pc.Run?)
  {
  }

  /** From `s` to `t` only call `c` moves, and besides it only profile `p` and lease `l` change. */
  ghost predicate Local(s: State, t: State, c: nat, p: string, l: nat) {
    SameBut(s.calls, t.calls, c) && SameBut(s.profiles, t.profiles, p) && SameBut(s.leases, t.leases, l)
    && (c in s.calls ==> s.calls[c].p == p) && (c in t.calls ==> t.calls[c].p == p)
    && p in s.profiles && p in t.profiles
    && (l in s.leases ==> OnLease(s, l, p) && l in t.leases) && (l in t.leases ==> OnLease(t, l, p))
    && s.next <= t.next
  }

  /** What the step owes for the call, the profile and the lease it touches. */
  ghost predicate Accounted(s: State, t: State, c: nat, p: string, l: nat)
    requires p in s.profiles && p in t.profiles
  {
    var hs, ht := s.profiles[p].holder, t.profiles[p].holder;
    var rs, rt := s.profiles[p].replacer, t.profiles[p].replacer;
    ProfileShape(t, p)
    && (c in t.calls ==> CallShape(t, t.calls[c]))
    && (l in t.leases ==> LeaseShape(t, l))
    // the gate token
    && (ht == hs || (Touched(hs, c, l) && Touched(ht, c, l)))
    && (t.profiles[p].gate > 0 <==> ht == InGate)
    && (t.profiles[p].stranded <==> ht == Lost)
    && (c in t.calls && CarriesGate(t.calls[c].pc) <==> ht == ByCall(c))
    && (l in t.leases && !t.leases[l].released <==> ht == ByLease(l))
    // the transition token
    && (rt == rs || (NoneOr(rs, c) && NoneOr(rt, c)))
    && (c in t.calls && CarriesTransition(t.calls[c].pc) <==> rt == Some(c))
    // the operation token
    && (WorksOn(s, c) == WorksOn(t, c) || (NoneOr(WorksOn(s, c), l) && NoneOr(WorksOn(t, c), l)))
    && (l in t.leases ==>
          (WorksOn(t, c) == Some(l) <==> t.leases[l].worker == Some(c))
          && ((l in s.leases && t.leases[l].worker == s.leases[l].worker)
              || (NoneOr(t.leases[l].worker, c) && (l in s.leases ==> NoneOr(s.leases[l].worker, c))))
          && (l in s.leases && t.leases[l].released != s.leases[l].released ==> WorksOn(s, c) == Some(l)))
  }

  predicate SameBurden(a: Pc, b: Pc) {
    CarriesGate(a) == CarriesGate(b) && CarriesTransition(a) == CarriesTransition(b) && Operating(a) == Operating(b)
  }

  predicate Unburdened(pc: Pc) {
    !CarriesGate(pc) && !CarriesTransition(pc) && Operating(pc) == None
  }

  predicate NoneOr(x: Option<nat>, n: nat) {
    x == None || x == Some(n)
  }

  predicate Touched(h: Holder, c: nat, l: nat) {
    h == InGate || h == Lost || h == ByCall(c) || h == ByLease(l)
  }

  function WorksOn(s: State, c: nat): Option<nat> {
    if c in s.calls then Operating(s.calls[c].pc) else None
  }

  lemma ShapeKept(s: State, t: State, c: nat, p: string, l: nat)
    requires TokenInv(s) && Local(s, t, c, p, l) && Accounted(s, t, c, p, l)
    ensures Shape(t)
  {
    forall d | d in t.calls ensures CallShape(t, t.calls[d]) {
      if d != c {
        assert CallShape(s, s.calls[d]);
        assert l in s.leases ==> (Operates(s, l, d) <==> s.leases[l].worker == Some(d));
        assert l in s.leases ==> (Operates(s, l, c) <==> s.leases[l].worker == Some(c));
      }
    }
    forall m | m in t.leases ensures LeaseShape(t, m) {
      assert m != l ==> LeaseShape(s, m);
    }
    forall q | q in t.profiles ensures ProfileShape(t, q) {
      assert q != p ==> ProfileShape(s, q);
    }
  }

  lemma GateKept(s: State, t: State, c: nat, p: string, l: nat)
    requires GateInv(s) && Local(s, t, c, p, l) && Accounted(s, t, c, p, l)
    ensures GateInv(t)
  {
    forall q, h | q in t.profiles ensures Holds(t, q, h) <==> h == t.profiles[q].holder {
      assert Holds(s, q, h) <==> h == s.profiles[q].holder;
    }
  }

  lemma OperationKept(s: State, t: State, c: nat, p: string, l: nat)
    requires TokenInv(s) && Local(s, t, c, p, l) && Accounted(s, t, c, p, l)
    ensures OperationInv(t)
  {
    forall m: nat, d: nat | m in t.leases ensures Operates(t, m, d) <==> t.leases[m].worker == Some(d) {
      if m in s.leases {
        assert Operates(s, m, d) <==> s.leases[m].worker == Some(d);
      } else if d != c && d in s.calls {
        assert CallShape(s, s.calls[d]);
      }
    }
  }

  lemma TransitionKept(s: State, t: State, c: nat, p: string, l: nat)
    requires TransitionInv(s) && Local(s, t, c, p, l) && Accounted(s, t, c, p, l)
    ensures TransitionInv(t)
  {
    forall q: string, d: nat | q in t.profiles ensures Replaces(t, q, d) <==> t.profiles[q].replacer == Some(d) {
      assert Replaces(s, q, d) <==> s.profiles[q].replacer == Some(d);
    }
  }

  lemma TokensKept(s: State, t: State, c: nat, p: string, l: nat)
    requires TokenInv(s) && Local(s, t, c, p, l) && Accounted(s, t, c, p, l)
    ensures TokenInv(t)
  {
    ShapeKept(s, t, c, p, l);
    GateKept(s, t, c, p, l);
    OperationKept(s, t, c, p, l);
    TransitionKept(s, t, c, p, l);
  }

  /** What the invariant says about the call, profile and lease a step is about to touch. */
  lemma BeforeAt(s: State, c: nat, p: string, l: nat)
    requires TokenInv(s) && p in s.profiles && (c in s.calls ==> s.calls[c].p == p)
    ensures c in s.calls ==> CallShape(s, s.calls[c])
    ensures ProfileShape(s, p) && (l in s.leases ==> LeaseShape(s, l)) && s.next !in s.leases
    ensures s.profiles[p].gate > 0 <==> s.profiles[p].holder == InGate
    ensures s.profiles[p].stranded <==> s.profiles[p].holder == Lost
    ensures c in s.calls && CarriesGate(s.calls[c].pc) <==> s.profiles[p].holder == ByCall(c)
    ensures c in s.calls && CarriesTransition(s.calls[c].pc) <==> s.profiles[p].replacer == Some(c)
    ensures l in s.leases ==> (WorksOn(s, c) == Some(l) <==> s.leases[l].worker == Some(c))
    ensures OnLease(s, l, p) && !s.leases[l].released <==> s.profiles[p].holder == ByLease(l)
  {
    assert c in s.calls ==> CallShape(s, s.calls[c]);
    assert s.next in s.leases ==> LeaseShape(s, s.next);
    assert Holds(s, p, InGate) <==> InGate == s.profiles[p].holder;
    assert Holds(s, p, Lost) <==> Lost == s.profiles[p].holder;
    assert Holds(s, p, ByCall(c)) <==> ByCall(c) == s.profiles[p].holder;
    assert Holds(s, p, ByLease(l)) <==> ByLease(l) == s.profiles[p].holder;
    assert Replaces(s, p, c) <==> s.profiles[p].replacer == Some(c);
    assert l in s.leases ==> (Operates(s, l, c) <==> s.leases[l].worker == Some(c));
  }

  lemma Before(s: State, c: nat, l: nat) returns (p: string)
    requires TokenInv(s) && c in s.calls
    ensures p == s.calls[c].p && p in s.profiles
    ensures CallShape(s, s.calls[c]) && ProfileShape(s, p) && (l in s.leases ==> LeaseShape(s, l))
    ensures s.next !in s.leases
    ensures s.profiles[p].gate > 0 <==> s.profiles[p].holder == InGate
    ensures s.profiles[p].stranded <==> s.profiles[p].holder == Lost
    ensures CarriesGate(s.calls[c].pc) <==> s.profiles[p].holder == ByCall(c)
    ensures CarriesTransition(s.calls[c].pc) <==> s.profiles[p].replacer == Some(c)
    ensures l in s.leases ==> (WorksOn(s, c) == Some(l) <==> s.leases[l].worker == Some(c))
    ensures OnLease(s, l, p) && !s.leases[l].released <==> s.profiles[p].holder == ByLease(l)
  {
    p := s.calls[c].p;
    assert CallShape(s, s.calls[c]);
    BeforeAt(s, c, p, l);
  }

  /** Where a call stands. */
  lemma Placed(s: State, c: nat) returns (p: string)
    requires TokenInv(s) && c in s.calls
    ensures p == s.calls[c].p && p in s.profiles && CallShape(s, s.calls[c]) && ProfileShape(s, p)
  {
    p := s.calls[c].p;
    assert CallShape(s, s.calls[c]);
  }

  /** A move between program points that hold the same tokens. */
  lemma Moves(s: State, c: nat, pc: Pc)
    requires TokenInv(s) && c in s.calls && SameBurden(s.calls[c].pc, pc) && CallShape(s, Call(s.calls[c].p, pc))
    ensures TokenInv(Goto(s, c, s.calls[c].p, pc))
  {
    var l := if pc.Using? then pc.l else s.next;
    var p := Before(s, c, l);
    TokensKept(s, Goto(s, c, p, pc), c, p, l);
  }

  lemma Ends(s: State, c: nat)
    requires TokenInv(s) && c in s.calls && Unburdened(s.calls[c].pc)
    ensures TokenInv(End(s, c))
  {
    var p := Before(s, c, s.next);
    TokensKept(s, End(s, c), c, p, s.next);
  }

  lemma Takes(s: State, c: nat, pc: Pc)
    requires TokenInv(s) && c in s.calls
    requires Unburdened(s.calls[c].pc) || (s.calls[c].pc.Close? && !CarriesGate(s.calls[c].pc))
    requires CarriesGate(pc) && CarriesTransition(pc) == CarriesTransition(s.calls[c].pc) && Operating(pc) == None
    requires CallShape(s, Call(s.calls[c].p, pc))
    ensures TokenInv(TakeGate(s, c, s.calls[c].p, pc))
  {
    var p := Before(s, c, s.next);
    TokensKept(s, TakeGate(s, c, p, pc), c, p, s.next);
  }

  lemma QueueKeeps(s: State, c: nat, e: Choice, q: Queued)
    requires TokenInv(s) && c in s.calls && s.calls[c].pc == Queue(q)
    ensures TokenInv(QueueStep(s, c, e, q))
  {
    var p := Placed(s, c);
    if !e.ok {
      Ends(s, c);
    } else {
      match q
      case AcqWait(task, wish, ref) => Takes(s, c, Run(AcqGot(task, wish, ref)));
      case InspWait(ref) => Takes(s, c, Run(InspGot(ref)));
      case FinWait(task, ref, retain) => Takes(s, c, Run(FinGot(task, ref, retain)));
    }
  }

  lemma Lends(s: State, c: nat, lease: Lease, pc: Option<Pc>)
    requires TokenInv(s) && c in s.calls && s.calls[c].pc.Run?
    requires lease.profile == s.calls[c].p && lease.op == 1 && !lease.released && lease.worker == None
    requires pc.Some? ==> pc.value.Ask? && pc.value.l == s.next && pc.value.op.Finish?
    ensures TokenInv(Lend(if pc.Some? then Goto(s, c, s.calls[c].p, pc.value) else End(s, c), s.calls[c].p, lease))
  {
    var p := Before(s, c, s.next);
    TokensKept(s, Lend(if pc.Some? then Goto(s, c, p, pc.value) else End(s, c), p, lease), c, p, s.next);
  }

  /** The invariant reads profiles, leases and calls only. */
  lemma Elsewhere(s: State, t: State)
    requires TokenInv(s)
    requires t.profiles == s.profiles && t.leases == s.leases && t.calls == s.calls && t.next == s.next
    ensures TokenInv(t)
  {
    forall c | c in t.calls ensures CallShape(t, t.calls[c]) {
      assert CallShape(s, s.calls[c]);
    }
    forall l | l in t.leases ensures LeaseShape(t, l) {
      assert LeaseShape(s, l);
    }
    forall p | p in t.profiles ensures ProfileShape(t, p) {
      assert ProfileShape(s, p);
    }
    forall p, h | p in t.profiles ensures Holds(t, p, h) <==> h == t.profiles[p].holder {
      assert Holds(s, p, h) <==> h == s.profiles[p].holder;
    }
    forall l: nat, d: nat | l in t.leases ensures Operates(t, l, d) <==> t.leases[l].worker == Some(d) {
      assert Operates(s, l, d) <==> s.leases[l].worker == Some(d);
    }
    forall q: string, d: nat | q in t.profiles ensures Replaces(t, q, d) <==> t.profiles[q].replacer == Some(d) {
      assert Replaces(s, q, d) <==> s.profiles[q].replacer == Some(d);
    }
  }

  lemma PublishKeeps(s: State, c: nat, e: Choice, r: Running)
    requires TokenInv(s) && c in s.calls && s.calls[c].pc == Run(r) && r.AcqPublish?
    ensures TokenInv(RunningStep(s, c, e, r))
  {
    var p := Placed(s, c);
    if !s.profiles[p].live || s.profiles[p].ref.gen != r.ref.gen {
      Moves(s, c, Run(GateReturn));
    } else {
      var lease := Lease(p, r.ref, r.task, 1, false, KeyOf(r.task) in s.unknown, false, None);
      Lends(s, c, lease, None);
      Elsewhere(Lend(End(s, c), p, lease), RunningStep(s, c, e, r));
    }
  }

  lemma LendingKeeps(s: State, c: nat, e: Choice, r: Running)
    requires TokenInv(s) && c in s.calls && s.calls[c].pc == Run(r) && (r.FinGot? || r.GateReturn? || r.AcqUnknown?)
    ensures TokenInv(RunningStep(s, c, e, r))
  {
    var p := Placed(s, c);
    match r
    case AcqUnknown(ref) =>
      if ref.gen in s.profiles[p].stopped { Moves(s, c, Run(GateReturn)); } else { Strands(s, c, ref.gen); }
    case FinGot(task, ref, retain) =>
      var lease := Lease(p, ref, task, 1, false, KeyOf(task) in s.unknown, true, None);
      Lends(s, c, lease, Some(Ask(s.next, Finish(retain, true))));
    case GateReturn => SendsAway(s, c);
  }

  lemma RunningKeeps(s: State, c: nat, e: Choice, r: Running)
    requires TokenInv(s) && c in s.calls && s.calls[c].pc == Run(r)
    ensures TokenInv(RunningStep(s, c, e, r))
  {
    var p := Placed(s, c);
    match r
    case AcqGot(_, _, _) => Moves(s, c, Run(AfterGate(s.profiles[p], e, r)));
    case AcqBind(_, _, _, _, _, _) =>
      Moves(s, c, Run(AfterBind(e, r)));
      Elsewhere(Goto(s, c, p, Run(AfterBind(e, r))), RunningStep(s, c, e, r));
    case InspGot(_) => Moves(s, c, Run(GateReturn));
    case AcqPublish(_, _, _, _) => PublishKeeps(s, c, e, r);
    case _ => LendingKeeps(s, c, e, r);
  }

  lemma Strands(s: State, c: nat, gen: Generation)
    requires TokenInv(s) && c in s.calls && s.calls[c].pc.Run?
    ensures TokenInv(WithProfile(End(s, c), s.calls[c].p,
              ProfileOf(s, s.calls[c].p).(stranded := true, strandedGen := gen, holder := Lost)))
  {
    var p := Before(s, c, s.next);
    TokensKept(s, WithProfile(End(s, c), p, s.profiles[p].(stranded := true, strandedGen := gen, holder := Lost)),
               c, p, s.next);
  }

  /** A call that carries the gate token sends it back. */
  lemma SendsAway(s: State, c: nat)
    requires TokenInv(s) && c in s.calls && CarriesGate(s.calls[c].pc)
    requires Operating(s.calls[c].pc) == None && !CarriesTransition(s.calls[c].pc)
    ensures TokenInv(SendGate(End(s, c), s.calls[c].p))
  {
    var p := Before(s, c, s.next);
    TokensKept(s, SendGate(End(s, c), p), c, p, s.next);
  }

  lemma SendsOn(s: State, c: nat, pc: Pc)
    requires TokenInv(s) && c in s.calls && CarriesGate(s.calls[c].pc)
    requires !CarriesGate(pc) && Operating(pc) == Operating(s.calls[c].pc)
    requires CarriesTransition(pc) == CarriesTransition(s.calls[c].pc) && CallShape(s, Call(s.calls[c].p, pc))
    ensures TokenInv(SendGate(Goto(s, c, s.calls[c].p, pc), s.calls[c].p))
  {
    var l := if pc.Using? then pc.l else s.next;
    var p := Before(s, c, l);
    TokensKept(s, SendGate(Goto(s, c, p, pc), p), c, p, l);
  }

  /** A profile update that leaves every token and the active lease alone. */
  predicate Tuned(f: Profile, g: Profile) {
    g.gate == f.gate && g.holder == f.holder && g.stranded == f.stranded
    && g.transition == f.transition && g.replacer == f.replacer && (g.active.None? || g.active == f.active)
  }

  lemma Fresh(taken: set<nat>) returns (n: nat)
    ensures forall m :: m in taken ==> m < n
  {
    if taken == {} {
      n := 0;
    } else {
      var m :| m in taken;
      var k := Fresh(taken - {m});
      n := if k <= m then m + 1 else k;
      assert forall j :: j in taken ==> j == m || j in taken - {m};
    }
  }

  lemma Tunes(s: State, p: string, g: Profile)
    requires TokenInv(s) && p in s.profiles && Tuned(s.profiles[p], g)
    ensures TokenInv(WithProfile(s, p, g))
  {
    var c := Fresh(s.calls.Keys);
    BeforeAt(s, c, p, s.next);
    TokensKept(s, WithProfile(s, p, g), c, p, s.next);
  }

  /** A confirmed stop gives a stranded token back to the gate and otherwise moves none. */
  lemma Confirms(s: State, p: string, gen: Generation)
    requires TokenInv(s)
    ensures TokenInv(s.(profiles := ConfirmIn(s.profiles, p, gen)))
  {
    if p in s.profiles {
      var c := Fresh(s.calls.Keys);
      BeforeAt(s, c, p, s.next);
      TokensKept(s, s.(profiles := ConfirmIn(s.profiles, p, gen)), c, p, s.next);
    } else {
      Elsewhere(s, s.(profiles := ConfirmIn(s.profiles, p, gen)));
    }
  }

  /** A profile that enters the map has its tokens in its channels. */
  lemma Enters(s: State, p: string, g: Profile)
    requires TokenInv(s) && p !in s.profiles && Tuned(FreshProfile(EMPTY_REF), g)
    ensures TokenInv(WithProfile(s, p, g))
  {
    var t := WithProfile(s, p, g);
    forall c | c in t.calls ensures CallShape(t, t.calls[c]) {
      assert CallShape(s, s.calls[c]);
    }
    forall l | l in t.leases ensures LeaseShape(t, l) {
      assert LeaseShape(s, l);
    }
    forall q | q in t.profiles ensures ProfileShape(t, q) {
      assert q != p ==> ProfileShape(s, q);
    }
    forall q, h | q in t.profiles ensures Holds(t, q, h) <==> h == t.profiles[q].holder {
      if q != p {
        assert Holds(s, q, h) <==> h == s.profiles[q].holder;
      } else {
        assert h.ByCall? && h.call in s.calls ==> CallShape(s, s.calls[h.call]);
        assert h.ByLease? && h.lease in s.leases ==> LeaseShape(s, h.lease);
      }
    }
    forall l: nat, d: nat | l in t.leases ensures Operates(t, l, d) <==> t.leases[l].worker == Some(d) {
      assert Operates(s, l, d) <==> s.leases[l].worker == Some(d);
    }
    forall q: string, d: nat | q in t.profiles ensures Replaces(t, q, d) <==> t.profiles[q].replacer == Some(d) {
      if q != p {
        assert Replaces(s, q, d) <==> s.profiles[q].replacer == Some(d);
      } else {
        assert d in s.calls ==> CallShape(s, s.calls[d]);
      }
    }
  }

  lemma Registers(s: State, ref: Ref)
    requires TokenInv(s)
    ensures TokenInv(s.(profiles := RegisterIn(s.profiles, ref)))
  {
    var p, t := ref.profile, s.(profiles := RegisterIn(s.profiles, ref));
    if RegisterOutcome(s.profiles, ref) != Registered {
      Elsewhere(s, t);
    } else if p in s.profiles {
      Tunes(s, p, t.profiles[p]);
    } else {
      Enters(s, p, t.profiles[p]);
    }
  }

  lemma CloseBegins(s: State, c: nat, p: string, repl: bool)
    requires TokenInv(s) && p in s.profiles
    requires c in s.calls ==> s.calls[c] == Call(p, Replace(ReplStart)) && repl
    requires c !in s.calls ==> !repl
    ensures TokenInv(CloseBegin(s, c, p, repl))
  {
    BeforeAt(s, c, p, s.next);
    TokensKept(s, CloseBegin(s, c, p, repl), c, p, s.next);
  }

  lemma Aborts(s: State, c: nat, repl: bool)
    requires TokenInv(s) && c in s.calls && !CarriesGate(s.calls[c].pc) && Operating(s.calls[c].pc) == None
    requires CarriesTransition(s.calls[c].pc) == repl
    ensures TokenInv(CloseAbort(s, c, s.calls[c].p, repl))
  {
    if repl { Moves(s, c, Replace(ReplEnd)) by { var _ := Before(s, c, s.next); } } else { Ends(s, c); }
  }

  lemma CloseKeeps(s: State, c: nat, e: Choice, z: Closing, repl: bool)
    requires TokenInv(s) && c in s.calls && s.calls[c].pc == Close(z, repl)
    ensures TokenInv(CloseStep(s, c, e, z, repl))
  {
    var p := Placed(s, c);
    match z
    case CloseStop(gen, active) =>
      if !e.ok { Aborts(s, c, repl); } else { Moves(s, c, Close(CloseConfirm(gen, active), repl)); }
    case CloseConfirm(gen, active) =>
      Confirms(s, p, gen);
      Moves(s.(profiles := ConfirmIn(s.profiles, p, gen)), c,
            if active.Some? then Ask(active.value, Release(Drain(gen, repl))) else Close(CloseDrain(gen), repl));
    case CloseDrain(gen) =>
      if !e.ok { Aborts(s, c, repl); }
      else if s.profiles[p].gate > 0 {
        Takes(s, c, Close(CloseDrained(gen), repl));
        var t := TakeGate(s, c, p, Close(CloseDrained(gen), repl));
        Tunes(t, p, t.profiles[p].(drained := t.profiles[p].drained + {gen}));
      }
    case CloseDrained(gen) =>
      if repl { SendsOn(s, c, Replace(ReplReady(gen))); } else { SendsAway(s, c); }
  }

  lemma ReplaceKeeps(s: State, c: nat, e: Choice, y: Replacing)
    requires TokenInv(s) && c in s.calls && s.calls[c].pc == Replace(y)
    ensures TokenInv(ReplaceStep(s, c, e, y))
  {
    var p := Before(s, c, s.next);
    match y
    case ReplStart => CloseBegins(s, c, p, true);
    case ReplReady(gen) =>
      Registers(s, e.ref);
      var t := if e.ok && e.ref.profile == p then s.(profiles := RegisterIn(s.profiles, e.ref)) else s;
      Moves(t, c, Replace(ReplEnd));
    case ReplEnd =>
      TokensKept(s, ReplaceStep(s, c, e, y), c, p, s.next);
  }

  // ---- operations on a lease ----

  /** A lease update that leaves its tokens alone. */
  predicate Retouched(v: Lease, w: Lease) {
    w.profile == v.profile && w.op == v.op && w.released == v.released && w.worker == v.worker
  }

  lemma Retouches(s: State, l: nat, w: Lease)
    requires TokenInv(s) && l in s.leases && Retouched(s.leases[l], w)
    ensures TokenInv(WithLease(s, l, w))
  {
    var c := Fresh(s.calls.Keys);
    var p := s.leases[l].profile;
    assert LeaseShape(s, l);
    BeforeAt(s, c, p, l);
    TokensKept(s, WithLease(s, l, w), c, p, l);
  }

  lemma Continues(s: State, c: nat, l: nat, after: After)
    requires TokenInv(s) && c in s.calls && !CarriesGate(s.calls[c].pc) && Operating(s.calls[c].pc) == None
    requires CarriesTransition(s.calls[c].pc) == InReplacement(after) && OnLease(s, l, s.calls[c].p)
    ensures TokenInv(Continue(s, c, s.calls[c].p, l, after))
  {
    var p := Placed(s, c);
    match after
    case Stop => Ends(s, c);
    case ReleaseNext => Moves(s, c, Ask(l, Release(Stop)));
    case Drain(gen, repl) => Moves(s, c, Close(CloseDrain(gen), repl));
    case Abort(repl) => Aborts(s, c, repl);
  }

  lemma Locks(s: State, c: nat, l: nat, op: Op)
    requires TokenInv(s) && c in s.calls && s.calls[c].pc == Ask(l, op) && LeaseOf(s, l).op > 0
    ensures TokenInv(Goto(WithLease(s, l, LeaseOf(s, l).(op := LeaseOf(s, l).op - 1, worker := Some(c))),
                          c, s.calls[c].p, Using(l, Held(op))))
  {
    var p := Before(s, c, l);
    TokensKept(s, Goto(WithLease(s, l, s.leases[l].(op := s.leases[l].op - 1, worker := Some(c))),
                       c, p, Using(l, Held(op))), c, p, l);
  }

  lemma AskKeeps(s: State, c: nat, e: Choice, l: nat, op: Op)
    requires TokenInv(s) && c in s.calls && s.calls[c].pc == Ask(l, op)
    ensures TokenInv(AskStep(s, c, e, l, op))
  {
    var p := Placed(s, c);
    if !e.ok {
      Continues(s, c, l, AfterCancel(op));
    } else if s.leases[l].op > 0 {
      Locks(s, c, l, op);
    }
  }

  function Unlocked(s: State, c: nat, l: nat): State {
    WithLease(s, l, LeaseOf(s, l).(op := LeaseOf(s, l).op + 1, worker := None))
  }

  /** A point that holds no more than the transition token of a replacement under way. */
  function Paused(after: After): Pc {
    if InReplacement(after) then Replace(ReplEnd) else Queue(InspWait(EMPTY_REF))
  }

  lemma Unlocks(s: State, c: nat, l: nat, after: After)
    requires TokenInv(s) && c in s.calls && s.calls[c].pc == Using(l, Return(after))
    ensures TokenInv(Goto(Unlocked(s, c, l), c, s.calls[c].p, Paused(after)))
  {
    var p := Before(s, c, l);
    TokensKept(s, Goto(Unlocked(s, c, l), c, p, Paused(after)), c, p, l);
  }

  lemma Rewinds(s: State, c: nat, p: string, pc: Pc, l: nat, after: After)
    ensures Continue(Goto(s, c, p, pc), c, p, l, after) == Continue(s, c, p, l, after)
  {
    assert Goto(s, c, p, pc).calls - {c} == s.calls - {c};
    assert forall other :: Goto(Goto(s, c, p, pc), c, p, other) == Goto(s, c, p, other);
  }

  lemma ReturnKeeps(s: State, c: nat, l: nat, after: After)
    requires TokenInv(s) && c in s.calls && s.calls[c].pc == Using(l, Return(after))
    ensures TokenInv(ReturnStep(s, c, l, after))
  {
    var p := Placed(s, c);
    Unlocks(s, c, l, after);
    Continues(Goto(Unlocked(s, c, l), c, p, Paused(after)), c, l, after);
    Rewinds(Unlocked(s, c, l), c, p, Paused(after), l, after);
  }

  /** Going on under the lease's token, where the call goes on using an unreleased lease or returns. */
  lemma Proceeds(s: State, c: nat, l: nat, u: Use)
    requires TokenInv(s) && c in s.calls && s.calls[c].pc.Using? && s.calls[c].pc.l == l
    requires !CarriesGate(s.calls[c].pc) && UseForReplacement(s.calls[c].pc.u) == UseForReplacement(u)
    requires UseShape(u) && (Working(u) ==> l in s.leases && !s.leases[l].released)
    requires !u.RelActive? && !u.RelGate?
    ensures TokenInv(Proceed(s, c, l, u))
  {
    var p := Placed(s, c);
    Moves(s, c, Using(l, u));
    Elsewhere(Goto(s, c, p, Using(l, u)), Proceed(s, c, l, u));
  }

  lemma HeldKeeps(s: State, c: nat, e: Choice, l: nat, op: Op)
    requires TokenInv(s) && c in s.calls && s.calls[c].pc == Using(l, Held(op))
    ensures TokenInv(HeldStep(s, c, e, l, op))
  {
    var p := Placed(s, c);
    Proceeds(s, c, l, HeldNext(s, p, e, l, op));
  }

  lemma ExecuteKeeps(s: State, c: nat, e: Choice, l: nat, u: Use)
    requires TokenInv(s) && c in s.calls && s.calls[c].pc == Using(l, u) && Executing(u)
    ensures TokenInv(ExecuteStep(s, c, e, l, u))
  {
    var p := Placed(s, c);
    var t := ExecuteEffect(s, p, e, l, u);
    if u.ExecRecord? {
      Tunes(s, p, t.profiles[p]);
    } else if u.ExecConfirm? {
      Confirms(s, p, s.leases[l].ref.gen);
    } else {
      Elsewhere(s, t);
    }
    Proceeds(t, c, l, ExecuteNext(s, p, e, l, u));
  }

  lemma PageKeeps(s: State, c: nat, l: nat, u: Use)
    requires TokenInv(s) && c in s.calls && s.calls[c].pc == Using(l, u) && Paging(u)
    ensures TokenInv(PageStep(s, c, l, u))
  {
    var p := Placed(s, c);
    var t := PageEffect(s, l, u);
    if u.SetPage? {
      Retouches(s, l, t.leases[l]);
    } else {
      Elsewhere(s, t);
    }
    Proceeds(t, c, l, PageNext(s, p, l, u));
  }

  lemma MarkKeeps(s: State, c: nat, l: nat, u: Use)
    requires TokenInv(s) && c in s.calls && s.calls[c].pc == Using(l, u) && Marking(u)
    ensures TokenInv(MarkStep(s, c, l, u))
  {
    var p := Placed(s, c);
    var t := MarkEffect(s, l, u);
    if u.MarkLease? || u.ClearLease? {
      Retouches(s, l, t.leases[l]);
      Elsewhere(WithLease(s, l, t.leases[l]), t);
    } else {
      Elsewhere(s, t);
    }
    Proceeds(t, c, l, MarkNext(u));
  }

  lemma CleanupKeeps(s: State, c: nat, e: Choice, l: nat, u: Use)
    requires TokenInv(s) && c in s.calls && s.calls[c].pc == Using(l, u) && Cleaning(u)
    ensures TokenInv(CleanupStep(s, c, e, l, u))
  {
    var p := Placed(s, c);
    var t := CleanupEffect(s, p, e, l, u);
    if u.FinClear? {
      Tunes(s, p, t.profiles[p]);
    } else {
      Elsewhere(s, t);
    }
    Proceeds(t, c, l, CleanupNext(s, p, e, l, u));
  }

  lemma ReleaseMarks(s: State, c: nat, l: nat, u: Use)
    requires TokenInv(s) && c in s.calls && s.calls[c].pc == Using(l, u) && u.RelMark?
    ensures TokenInv(ReleaseStep(s, c, l, u))
  {
    var p := Before(s, c, l);
    TokensKept(s, ReleaseStep(s, c, l, u), c, p, l);
  }

  lemma ReleaseKeeps(s: State, c: nat, l: nat, u: Use)
    requires TokenInv(s) && c in s.calls && s.calls[c].pc == Using(l, u) && (u.RelActive? || u.RelGate?)
    ensures TokenInv(ReleaseStep(s, c, l, u))
  {
    var p := Placed(s, c);
    if u.RelActive? {
      var g := ReleaseStep(s, c, l, u).profiles[p];
      Tunes(s, p, g);
      Moves(WithProfile(s, p, g), c, Using(l, RelGate(u.after)));
    } else {
      SendsOn(s, c, Using(l, Return(u.after)));
    }
  }

  lemma UseKeeps(s: State, c: nat, e: Choice, l: nat, u: Use)
    requires TokenInv(s) && c in s.calls && s.calls[c].pc == Using(l, u)
    ensures TokenInv(UseStep(s, c, e, l, u))
  {
    if u.Held? {
      HeldKeeps(s, c, e, l, u.op);
    } else if u.Return? {
      ReturnKeeps(s, c, l, u.after);
    } else if Executing(u) {
      ExecuteKeeps(s, c, e, l, u);
    } else if Paging(u) {
      PageKeeps(s, c, l, u);
    } else if Marking(u) {
      MarkKeeps(s, c, l, u);
    } else if Releasing(u) {
      if u.RelMark? { ReleaseMarks(s, c, l, u); } else { ReleaseKeeps(s, c, l, u); }
    } else {
      CleanupKeeps(s, c, e, l, u);
    }
  }

  lemma FinishBegins(s: State, a: Move)
    requires TokenInv(s) && a.StartFinish? && a.c !in s.calls
    ensures TokenInv(Begin(s, a))
  {
    var key := KeyOf(a.task);
    if key in s.bindings && s.bindings[key].profile in s.profiles {
      assert ProfileShape(s, s.bindings[key].profile);
      Starts(s, a.c, Begin(s, a).calls[a.c]);
    } else {
      Elsewhere(s, Begin(s, a));
    }
  }

  lemma BeginKeeps(s: State, a: Move)
    requires TokenInv(s)
    requires Begins(a) && a.c !in s.calls
    ensures TokenInv(Begin(s, a))
  {
    var t := Begin(s, a);
    if t == s {
    } else if a.StartClose? {
      CloseBegins(s, a.c, a.p, false);
    } else if a.StartReplacement? {
      ReplacementBegins(s, a.c, a.p);
    } else if a.StartFinish? {
      FinishBegins(s, a);
    } else {
      assert a.StartInspect? ==> ProfileShape(s, a.p);
      assert a.StartOp? ==> LeaseShape(s, a.l);
      Starts(s, a.c, t.calls[a.c]);
    }
  }

  lemma ReplacementBegins(s: State, c: nat, p: string)
    requires TokenInv(s) && c !in s.calls && p in s.profiles && s.profiles[p].transition > 0
    ensures TokenInv(Begin(s, StartReplacement(c, p)))
  {
    BeforeAt(s, c, p, s.next);
    TokensKept(s, Begin(s, StartReplacement(c, p)), c, p, s.next);
  }

  /** A call that begins without taking anything. */
  lemma Starts(s: State, c: nat, k: Call)
    requires TokenInv(s) && c !in s.calls && CallShape(s, k) && Unburdened(k.pc)
    ensures TokenInv(Goto(s, c, k.p, k.pc))
  {
    BeforeAt(s, c, k.p, s.next);
    TokensKept(s, Goto(s, c, k.p, k.pc), c, k.p, s.next);
  }

  /** Every step of every call keeps every token accounted for. */
  lemma StepKeepsTokens(s: State, a: Move)
    requires TokenInv(s)
    ensures TokenInv(Step(s, a))
  {
    match a
    case Prepare(ref) =>
      if PrepareIn(s.profiles, ref) == s.profiles { Elsewhere(s, Step(s, a)); }
      else { Enters(s, ref.profile, FreshProfile(ref)); }
    case Register(ref) => Registers(s, ref);
    case ConfirmStopped(p, gen) => Confirms(s, p, gen);
    case Retain(_, _) => Elsewhere(s, Step(s, a));
    case Advance(c, e) =>
      if c in s.calls {
        match s.calls[c].pc
        case Queue(q) => QueueKeeps(s, c, e, q);
        case Run(r) => RunningKeeps(s, c, e, r);
        case Close(z, repl) => CloseKeeps(s, c, e, z, repl);
        case Replace(y) => ReplaceKeeps(s, c, e, y);
        case Ask(l, op) => AskKeeps(s, c, e, l, op);
        case Using(l, u) => UseKeeps(s, c, e, l, u);
      }
    case _ => if a.c !in s.calls { BeginKeeps(s, a); }
  }

  lemma {:induction false} TokensAlways(actions: seq<Move>)
    ensures TokenInv(Runs(INITIAL, actions))
  {
    if actions != [] {
      TokensAlways(actions[..|actions| - 1]);
      StepKeepsTokens(Runs(INITIAL, actions[..|actions| - 1]), actions[|actions| - 1]);
    }
  }

  // ---- what it means ----

  /** In every run, exactly one of these has the right to run on a profile: its gate, one in-flight
      call, one unreleased lease, or nobody because a bind of unknown outcome lost it. */
  lemma ExactlyOneHolder(actions: seq<Move>, p: string)
    requires p in Runs(INITIAL, actions).profiles
    ensures var s := Runs(INITIAL, actions);
            exists h :: Holds(s, p, h) && forall other :: Holds(s, p, other) ==> other == h
  {
    TokensAlways(actions);
    var s := Runs(INITIAL, actions);
    assert Holds(s, p, s.profiles[p].holder) <==> s.profiles[p].holder == s.profiles[p].holder;
  }

  lemma LeasesExclude(actions: seq<Move>, l: nat, m: nat)
    ensures var s := Runs(INITIAL, actions);
            (l in s.leases && m in s.leases && s.leases[l].profile == s.leases[m].profile
             && !s.leases[l].released && !s.leases[m].released) ==> l == m
  {
    TokensAlways(actions);
    var s := Runs(INITIAL, actions);
    if l in s.leases && m in s.leases && s.leases[l].profile == s.leases[m].profile {
      var p := s.leases[l].profile;
      assert LeaseShape(s, l);
      assert Holds(s, p, ByLease(l)) <==> ByLease(l) == s.profiles[p].holder;
      assert Holds(s, p, ByLease(m)) <==> ByLease(m) == s.profiles[p].holder;
    }
  }

  /** The points at which a call puts a token back into a channel of capacity one. */
  predicate SendsGate(pc: Pc) {
    pc == Run(GateReturn) || (pc.Close? && pc.z.CloseDrained?) || (pc.Using? && pc.u.RelGate?)
  }

  /** No send into a gate, an operation lock or a transition channel ever finds it full. */
  lemma SendsNeverBlock(actions: seq<Move>, c: nat)
    requires c in Runs(INITIAL, actions).calls
    ensures var s := Runs(INITIAL, actions);
            var k := s.calls[c];
            k.p in s.profiles
            && (SendsGate(k.pc) ==> s.profiles[k.p].gate == 0)
            && (k.pc.Using? ==> k.pc.l in s.leases && s.leases[k.pc.l].op == 0)
            && (k.pc.Replace? ==> s.profiles[k.p].transition == 0)
  {
    TokensAlways(actions);
    var s := Runs(INITIAL, actions);
    var l := if s.calls[c].pc.Using? then s.calls[c].pc.l else s.next;
    var p := Before(s, c, l);
  }

  /** A confirmed stop that finds the profile stranded sends under the coordinator's lock, so the gate
      must be empty then as well. */
  lemma StrandedGateIsEmpty(actions: seq<Move>, p: string)
    requires p in Runs(INITIAL, actions).profiles && Runs(INITIAL, actions).profiles[p].stranded
    ensures Runs(INITIAL, actions).profiles[p].gate == 0
  {
    TokensAlways(actions);
    var s := Runs(INITIAL, actions);
    assert Holds(s, p, Lost) <==> Lost == s.profiles[p].holder;
    assert Holds(s, p, InGate) <==> InGate == s.profiles[p].holder;
  }

  /** One operation at a time on a lease, one replacement at a time on a profile. */
  lemma OperationsAndReplacementsExclude(actions: seq<Move>, c: nat, d: nat)
    ensures var s := Runs(INITIAL, actions);
            (c in s.calls && d in s.calls && s.calls[c].pc.Using? && s.calls[d].pc.Using?
             && s.calls[c].pc.l == s.calls[d].pc.l) ==> c == d
    ensures var s := Runs(INITIAL, actions);
            (c in s.calls && d in s.calls && s.calls[c].p == s.calls[d].p
             && CarriesTransition(s.calls[c].pc) && CarriesTransition(s.calls[d].pc)) ==> c == d
  {
    TokensAlways(actions);
    var s := Runs(INITIAL, actions);
    if c in s.calls && d in s.calls {
      var p := Placed(s, c);
      assert Replaces(s, p, c) <==> s.profiles[p].replacer == Some(c);
      assert Replaces(s, p, d) <==> s.profiles[p].replacer == Some(d);
      if s.calls[c].pc.Using? {
        var l := s.calls[c].pc.l;
        assert Operates(s, l, c) <==> s.leases[l].worker == Some(c);
        assert Operates(s, l, d) <==> s.leases[l].worker == Some(d);
      }
    }
  }
}
