/** What Acquire and Inspect do when nothing else happens meanwhile. */
module BrowserAloneSession {
  import opened Wrappers
  import opened BrowserState
  import opened BrowserSteps
  import opened BrowserAlone
  import opened BrowserMade

  /** The profile's gate is open, and the call has not begun. */
  predicate Open(s: State, c: nat, p: string) {
    c !in s.calls && p in s.profiles && s.profiles[p].gate == 1 && s.profiles[p].holder == InGate
  }

  /** As s, but the call has the gate's token. */
  function Taken(s: State, c: nat, p: string, pc: Pc): State {
    Goto(WithProfile(s, p, ProfileOf(s, p).(gate := 0, holder := ByCall(c))), c, p, pc)
  }

  lemma GateTaken(s: State, c: nat, p: string, before: Pc, pc: Pc)
    requires Open(s, c, p)
    ensures TakeGate(Goto(s, c, p, before), c, p, pc) == Taken(s, c, p, pc)
  {
    Rewritten(s.calls, c, Call(p, before), Call(p, pc));
  }

  /** The call is over, and the token is back. */
  lemma TokenBack(s: State, c: nat, p: string, pc: Pc)
    requires Open(s, c, p)
    ensures SendGate(End(Taken(s, c, p, pc), c), p) == s
  {
    var f := s.profiles[p];
    assert s.calls[c := Call(p, pc)] - {c} == s.calls;
    assert f.(gate := 0, holder := ByCall(c)).(gate := 1, holder := InGate) == f;
    Rewritten(s.profiles, p, f.(gate := 0, holder := ByCall(c)), f);
    assert s.profiles[p := f] == s.profiles;
  }

  lemma ReturnsGate(s: State, c: nat, p: string, es: seq<Choice>)
    requires Open(s, c, p) && |es| >= 1
    ensures Alone(Taken(s, c, p, Run(GateReturn)), c, es) == s
  {
    var g := Taken(s, c, p, Run(GateReturn));
    assert Step(g, Advance(c, es[0])) == RunningStep(g, c, es[0], GateReturn);
    TokenBack(s, c, p, Run(GateReturn));
    AloneOver(s, c, es[1..]);
  }

  // ---- Acquire ----

  /** A task that comes back without naming anything is on its own page of the session that lives. */
  predicate Reuses(s: State, p: string, task: Task, wish: Wish) {
    var key := KeyOf(task);
    key in s.bindings && s.bindings[key].profile == p && s.bindings[key].page == wish.page
    && s.bindings[key].gen == ProfileOf(s, p).ref.gen && !wish.useCurrent
  }

  predicate MayStart(s: State, p: string, task: Task, wish: Wish) {
    p in s.profiles && s.profiles[p].live && (wish.reuse ==> Reuses(s, p, task, wish))
  }

  lemma AcquireStarts(s: State, c: nat, p: string, task: Task, wish: Wish, es: seq<Choice>)
    requires c !in s.calls && |es| >= 1 && (p in s.profiles ==> Open(s, c, p))
    ensures Alone(Step(s, StartAcquire(c, p, task, wish)), c, es)
         == if MayStart(s, p, task, wish) && es[0].ok
            then Alone(Taken(s, c, p, Run(AcqGot(task, wish, s.profiles[p].ref))), c, es[1..]) else s
  {
    var t := Step(s, StartAcquire(c, p, task, wish));
    if MayStart(s, p, task, wish) {
      var q := AcqWait(task, wish, s.profiles[p].ref);
      assert t == Goto(s, c, p, Queue(q));
      assert Step(t, Advance(c, es[0])) == QueueStep(t, c, es[0], q);
      GateTaken(s, c, p, Queue(q), Run(AcqGot(task, wish, s.profiles[p].ref)));
      if !es[0].ok {
        assert s.calls[c := Call(p, Queue(q))] - {c} == s.calls;
        AloneOver(s, c, es[1..]);
      }
    } else {
      assert t == s;
      AloneOver(s, c, es);
    }
  }

  /** The page asked for: by name, or the one whose chooser is pending where the current page is asked for. */
  function AskedPage(f: Profile, wish: Wish): string {
    if f.chooser.Some? && wish.useCurrent && wish.page == "" then f.chooser.value.ref.page else wish.page
  }

  /** A pending chooser lets only its own owner go on, and only on its own page. */
  predicate LetIn(f: Profile, ref: Ref, owner: string) { f.chooser.Some? ==> Stands(f.chooser, ref, owner) }

  /** Behind the gate the session is looked at again: it may have died or been replaced during the wait. */
  lemma GotAlone(s: State, c: nat, p: string, task: Task, wish: Wish, asked: Ref, es: seq<Choice>)
    requires Open(s, c, p) && |es| >= 2
    ensures var f := s.profiles[p];
            var ref := asked.(page := AskedPage(f, wish));
            Alone(Taken(s, c, p, Run(AcqGot(task, wish, asked))), c, es)
            == if es[0].ok && f.live && f.ref.gen == asked.gen && LetIn(f, ref, task.owner)
               then Alone(Taken(s, c, p, Run(AcqBind(task, wish, ref, MayCreate(wish, ref), f.chooser.Some?,
                                                      wish.useCurrent && ref.page == ""))), c, es[1..])
               else s
  {
    var r := AcqGot(task, wish, asked);
    var g := Taken(s, c, p, Run(r));
    var next := AfterGate(g.profiles[p], es[0], r);
    assert Step(g, Advance(c, es[0])) == Goto(g, c, p, Run(next));
    Rewritten(s.calls, c, Call(p, Run(r)), Call(p, Run(next)));
    if next.GateReturn? { ReturnsGate(s, c, p, es[1..]); }
  }

  /** The profile is lost to a bind of unknown outcome until its generation is confirmed stopped. */
  function Stranded(s: State, p: string, gen: Generation): State {
    WithProfile(s, p, ProfileOf(s, p).(gate := 0, stranded := true, strandedGen := gen, holder := Lost))
  }

  /** The task has a lease on the page, is bound to it, and owns it if it was made for it; the lease refuses
      actions from the start if the task has an unknown outcome. */
  function Lent(s: State, p: string, task: Task, ref: Ref, newPage: bool): State {
    var key, f := KeyOf(task), ProfileOf(s, p);
    var t := s.(profiles := s.profiles[p := f.(gate := 0, active := Some(s.next), holder := ByLease(s.next))],
                leases := s.leases[s.next := Lease(p, ref, task, 1, false, key in s.unknown, false, None)],
                bindings := s.bindings[key := ref], next := s.next + 1);
    if newPage then Own(t, key, ref) else t
  }

  function Making(s: State, task: Task, ref: Ref, newPage: bool): State {
    if newPage then s.(made := s.made + {Creation(KeyOf(task), ref.page, ref.server, ref.gen)}) else s
  }

  /** From the bind on. A bind of unknown outcome strands the profile unless its generation was confirmed
      stopped; one that fails for certain changes nothing; and one that gives no page lends nothing. */
  lemma BindAlone(s: State, c: nat, p: string, r: Running, es: seq<Choice>)
    requires Open(s, c, p) && |es| >= 3 && r.AcqBind? && s.profiles[p].live && r.ref.gen == s.profiles[p].ref.gen
    ensures var e, f := es[0], s.profiles[p];
            var ref := if r.continuing then r.ref else r.ref.(page := e.page);
            var w := Making(s, r.task, ref, r.newPage && !r.continuing);
            Alone(Taken(s, c, p, Run(r)), c, es)
            == if !e.ok then
                 if e.unknown && (r.inspect || !r.continuing) && r.ref.gen !in f.stopped
                 then Stranded(s, p, r.ref.gen) else s
               else if ref.page == "" then w
               else Lent(w, p, r.task, ref, r.newPage)
  {
    var e := es[0];
    var ref := if r.continuing then r.ref else r.ref.(page := e.page);
    var w := Making(s, r.task, ref, r.newPage && !r.continuing);
    Binds(s, c, p, r, e);
    if !e.ok {
      if e.unknown && (r.inspect || !r.continuing) {
        Strands(s, c, p, r.ref, es[1..]);
      } else {
        ReturnsGate(s, c, p, es[1..]);
      }
    } else if ref.page == "" {
      ReturnsGate(w, c, p, es[1..]);
    } else {
      Lends(w, c, p, AcqPublish(r.task, r.wish, ref, r.newPage), es[1..]);
    }
  }

  lemma Binds(s: State, c: nat, p: string, r: Running, e: Choice)
    requires Open(s, c, p) && r.AcqBind?
    ensures var ref := if r.continuing then r.ref else r.ref.(page := e.page);
            var w := if e.ok then Making(s, r.task, ref, r.newPage && !r.continuing) else s;
            Step(Taken(s, c, p, Run(r)), Advance(c, e)) == Taken(w, c, p, Run(AfterBind(e, r)))
  {
    var g := Taken(s, c, p, Run(r));
    assert Step(g, Advance(c, e)) == RunningStep(g, c, e, r);
    Rewritten(s.calls, c, Call(p, Run(r)), Call(p, Run(AfterBind(e, r))));
    assert s.made + {} == s.made;
  }

  lemma Strands(s: State, c: nat, p: string, ref: Ref, es: seq<Choice>)
    requires Open(s, c, p) && |es| >= 2
    ensures Alone(Taken(s, c, p, Run(AcqUnknown(ref))), c, es)
         == if ref.gen in s.profiles[p].stopped then s else Stranded(s, p, ref.gen)
  {
    var g := Taken(s, c, p, Run(AcqUnknown(ref)));
    assert Step(g, Advance(c, es[0])) == RunningStep(g, c, es[0], AcqUnknown(ref));
    if ref.gen in s.profiles[p].stopped {
      Rewritten(s.calls, c, Call(p, Run(AcqUnknown(ref))), Call(p, Run(GateReturn)));
      ReturnsGate(s, c, p, es[1..]);
    } else {
      assert s.calls[c := Call(p, Run(AcqUnknown(ref)))] - {c} == s.calls;
      Rewritten(s.profiles, p, s.profiles[p].(gate := 0, holder := ByCall(c)),
                s.profiles[p].(gate := 0, stranded := true, strandedGen := ref.gen, holder := Lost));
      AloneOver(Stranded(s, p, ref.gen), c, es[1..]);
    }
  }

  lemma Lends(s: State, c: nat, p: string, r: Running, es: seq<Choice>)
    requires Open(s, c, p) && |es| >= 1 && r.AcqPublish? && s.profiles[p].live && s.profiles[p].ref.gen == r.ref.gen
    ensures Alone(Taken(s, c, p, Run(r)), c, es) == Lent(s, p, r.task, r.ref, r.newPage)
  {
    Publishes(s, c, p, r, es[0]);
    AloneOver(Lent(s, p, r.task, r.ref, r.newPage), c, es[1..]);
  }

  lemma Publishes(s: State, c: nat, p: string, r: Running, e: Choice)
    requires Open(s, c, p) && r.AcqPublish? && s.profiles[p].live && s.profiles[p].ref.gen == r.ref.gen
    ensures Step(Taken(s, c, p, Run(r)), Advance(c, e)) == Lent(s, p, r.task, r.ref, r.newPage)
  {
    var g, f := Taken(s, c, p, Run(r)), s.profiles[p];
    assert Step(g, Advance(c, e)) == RunningStep(g, c, e, r);
    assert s.calls[c := Call(p, Run(r))] - {c} == s.calls;
    Rewritten(s.profiles, p, f.(gate := 0, holder := ByCall(c)),
              f.(gate := 0, active := Some(s.next), holder := ByLease(s.next)));
  }

  // ---- Inspect ----

  lemma LooksAndReturns(s: State, c: nat, p: string, ref: Ref, es: seq<Choice>)
    requires Open(s, c, p) && |es| >= 2
    ensures Alone(Taken(s, c, p, Run(InspGot(ref))), c, es) == s
  {
    var g := Taken(s, c, p, Run(InspGot(ref)));
    assert Step(g, Advance(c, es[0])) == RunningStep(g, c, es[0], InspGot(ref));
    Rewritten(s.calls, c, Call(p, Run(InspGot(ref))), Call(p, Run(GateReturn)));
    ReturnsGate(s, c, p, es[1..]);
  }

  /** Looking at the page that is shown changes nothing. */
  lemma InspectAlone(s: State, c: nat, p: string, task: Task, es: seq<Choice>)
    requires Open(s, c, p) && |es| >= 3
    requires s.profiles[p].active.Some? ==> LeaseKey(s, s.profiles[p].active.value) != KeyOf(task)
    ensures Alone(Step(s, StartInspect(c, p, task)), c, es) == s
  {
    var t, f := Step(s, StartInspect(c, p, task)), s.profiles[p];
    if !f.live {
      assert t == s;
      AloneOver(s, c, es);
    } else {
      var q := InspWait(f.ref);
      assert t == Goto(s, c, p, Queue(q));
      assert Step(t, Advance(c, es[0])) == QueueStep(t, c, es[0], q);
      assert s.calls[c := Call(p, Queue(q))] - {c} == s.calls;
      if es[0].ok {
        GateTaken(s, c, p, Queue(q), Run(InspGot(f.ref)));
        LooksAndReturns(s, c, p, f.ref, es[1..]);
      } else {
        AloneOver(s, c, es[1..]);
      }
    }
  }
}
