/** Where a task's pages come from: what is recorded as created by a task, and may be closed for it, was made
    by the driver because that task asked for a new page. */
module BrowserMade {
  import opened Wrappers
  import opened BrowserState
  import opened BrowserSteps
  import opened BrowserGate
  import opened BrowserFrame
  import opened BrowserCleanup

  /** An Acquire makes a page of its own only in a browser the framework owns, where the caller named no
      page, is bound to none, and asked neither for an existing session nor for the page that is shown. */
  predicate MayCreate(wish: Wish, ref: Ref) {
    && ref.owns && !ref.ext
    && wish.page == "" && !wish.reuse && !wish.requireExisting && !wish.useCurrent
  }

  /** The answer of an action that opens a tab, with the page it opened. */
  predicate Opens(action: Action, answer: Answer) { action == Mcp(Tabs(true)) && answer.observed.Some? }

  // ---- the invariant ----

  ghost predicate RunMade(s: State, r: Running) {
    && (r.AcqBind? ==> (r.newPage <==> MayCreate(r.wish, r.ref)) && (r.newPage ==> r.ref.page == ""))
    && (r.AcqPublish? ==>
          && (r.newPage <==> MayCreate(r.wish, r.ref))
          && (r.newPage ==> Creation(KeyOf(r.task), r.ref.page, r.ref.server, r.ref.gen) in s.made))
  }

  /** The page an operation is about to take over as the task's own was made for the task. */
  ghost predicate UseMade(s: State, l: nat, u: Use)
    decreases u
  {
    if u.PageBound? || u.SetPage? then u.own ==> AsCreated(s, l, u.page) in s.made
    else if u.BindPage? then u.own ==> AsCreated(s, l, LeaseOf(s, l).ref.page) in s.made
    else if u.OwnPage? then AsCreated(s, l, LeaseOf(s, l).ref.page) in s.made
    else if u.ExecDone? || u.ExecRecord? then
      Opens(u.action, u.answer) ==> AsCreated(s, l, u.answer.observed.value) in s.made
    else if u.MarkLease? || u.MarkTask? then UseMade(s, l, u.next)
    else true
  }

  ghost predicate CallMade(s: State, k: Call) {
    if k.pc.Run? then RunMade(s, k.pc.r) else k.pc.Using? ==> UseMade(s, k.pc.l, k.pc.u)
  }

  ghost predicate MadeInv(s: State) {
    && s.created <= s.made
    && forall c {:trigger CallMade(s, s.calls[c])} :: c in s.calls ==> CallMade(s, s.calls[c])
  }

  /** A use keeps what it relies on while its lease stays on its page and more pages are made. */
  lemma UseMadeKept(s: State, t: State, l: nat, u: Use)
    requires UseMade(s, l, u) && s.made <= t.made && l in s.leases && l in t.leases
    requires t.leases[l].task == s.leases[l].task && t.leases[l].ref == s.leases[l].ref
    ensures UseMade(t, l, u)
    decreases u
  {
    if u.MarkLease? || u.MarkTask? { UseMadeKept(s, t, l, u.next); }
  }

  lemma MadeKept(s: State, t: State, c: nat)
    requires TokenInv(s) && MadeInv(s) && Still(s, t, c) && s.made <= t.made && t.created <= t.made
    requires c in t.calls ==> CallMade(t, t.calls[c])
    ensures MadeInv(t)
  {
    forall d | d in t.calls ensures CallMade(t, t.calls[d]) {
      if d != c { OtherMade(s, t, c, d); }
    }
  }

  lemma OtherMade(s: State, t: State, c: nat, d: nat)
    requires TokenInv(s) && MadeInv(s) && Still(s, t, c) && s.made <= t.made && d in s.calls && d in t.calls && d != c
    ensures CallMade(t, t.calls[d])
  {
    var k := s.calls[d];
    assert CallMade(s, k) && CallShape(s, k);
    if k.pc.Using? {
      var l := k.pc.l;
      assert Operates(s, l, c) <==> s.leases[l].worker == Some(c);
      assert Operates(s, l, d) <==> s.leases[l].worker == Some(d);
      UseMadeKept(s, t, l, k.pc.u);
    }
  }

  // ---- the steps ----

  lemma RunningMade(s: State, c: nat, e: Choice, r: Running)
    requires TokenInv(s) && MadeInv(s) && c in s.calls && s.calls[c].pc == Run(r)
    ensures MadeInv(RunningStep(s, c, e, r))
  {
    var t := RunningStep(s, c, e, r);
    assert CallMade(s, s.calls[c]);
    RunningStill(s, c, e, r);
    if r.AcqPublish? {
      PublishMade(s, c, e, r);
    } else {
      RunningMakes(s, c, e, r);
    }
    MadeKept(s, t, c);
  }

  lemma RunningMakes(s: State, c: nat, e: Choice, r: Running)
    requires c in s.calls && s.calls[c].pc == Run(r) && RunMade(s, r) && !r.AcqPublish?
    ensures var t := RunningStep(s, c, e, r);
            s.made <= t.made && t.created == s.created && (c in t.calls ==> CallMade(t, t.calls[c]))
  {
  }

  lemma PublishMade(s: State, c: nat, e: Choice, r: Running)
    requires c in s.calls && s.calls[c].pc == Run(r) && RunMade(s, r) && r.AcqPublish? && s.created <= s.made
    ensures var t := RunningStep(s, c, e, r);
            t.made == s.made && t.created <= t.made && (c in t.calls ==> CallMade(t, t.calls[c]))
  {
  }

  /** The call goes on under its lease. */
  lemma ProceedMade(s: State, t: State, c: nat, l: nat, u: Use)
    requires TokenInv(s) && MadeInv(s) && c in s.calls && c in t.calls && s.made <= t.made && t.created <= t.made
    requires Still(s, Proceed(t, c, l, u), c) && UseMade(t, l, u)
    ensures MadeInv(Proceed(t, c, l, u))
  {
    var v := Proceed(t, c, l, u);
    SameUseMade(t, v, l, u);
    MadeKept(s, v, c);
  }

  lemma SameUseMade(s: State, t: State, l: nat, u: Use)
    requires t.made == s.made && t.leases == s.leases
    ensures UseMade(t, l, u) <==> UseMade(s, l, u)
    decreases u
  {
    if u.MarkLease? || u.MarkTask? { SameUseMade(s, t, l, u.next); }
  }

  lemma ExecuteMade(s: State, c: nat, e: Choice, l: nat, u: Use)
    requires TokenInv(s) && MadeInv(s) && c in s.calls && s.calls[c].pc == Using(l, u) && Executing(u)
    ensures MadeInv(ExecuteStep(s, c, e, l, u))
  {
    var p := Placed(s, c);
    assert CallMade(s, s.calls[c]);
    ExecuteStill(s, c, e, l, u);
    ExecuteMakes(s, p, e, l, u);
    ProceedMade(s, ExecuteEffect(s, p, e, l, u), c, l, ExecuteNext(s, p, e, l, u));
  }

  lemma ExecuteMakes(s: State, p: string, e: Choice, l: nat, u: Use)
    requires Executing(u) && UseMade(s, l, u)
    ensures var t := ExecuteEffect(s, p, e, l, u);
            s.made <= t.made && t.created == s.created && t.leases == s.leases && t.calls == s.calls
            && UseMade(t, l, ExecuteNext(s, p, e, l, u))
  {
    if u.ExecReady? || u.ExecDispatch? {
      DriverAnswers(s, p, e, l, u);
    }
  }

  lemma DriverAnswers(s: State, p: string, e: Choice, l: nat, u: Use)
    requires u.ExecReady? || u.ExecDispatch?
    ensures var t := ExecuteEffect(s, p, e, l, u);
            s.made <= t.made && t.created == s.created && t.leases == s.leases && t.calls == s.calls
            && UseMade(t, l, ExecuteNext(s, p, e, l, u))
  {
    if u.ExecReady? { ReadyAnswers(s, p, e, l, u); } else { DispatchAnswers(s, p, e, l, u); }
  }

  lemma ReadyAnswers(s: State, p: string, e: Choice, l: nat, u: Use)
    requires u.ExecReady?
    ensures var t := ExecuteEffect(s, p, e, l, u);
            s.made <= t.made && t.created == s.created && t.leases == s.leases && t.calls == s.calls
            && UseMade(t, l, ExecuteNext(s, p, e, l, u))
  {
  }

  lemma DispatchAnswers(s: State, p: string, e: Choice, l: nat, u: Use)
    requires u.ExecDispatch?
    ensures var t := ExecuteEffect(s, p, e, l, u);
            s.made <= t.made && t.created == s.created && t.leases == s.leases && t.calls == s.calls
            && UseMade(t, l, ExecuteNext(s, p, e, l, u))
  {
  }

  lemma PageMade(s: State, c: nat, l: nat, u: Use)
    requires TokenInv(s) && MadeInv(s) && c in s.calls && s.calls[c].pc == Using(l, u) && Paging(u)
    ensures MadeInv(PageStep(s, c, l, u))
  {
    var p := Placed(s, c);
    assert CallMade(s, s.calls[c]);
    PageStill(s, c, l, u);
    PageMakes(s, p, l, u);
    ProceedMade(s, PageEffect(s, l, u), c, l, PageNext(s, p, l, u));
  }

  lemma PageMakes(s: State, p: string, l: nat, u: Use)
    requires Paging(u) && UseMade(s, l, u) && l in s.leases && s.created <= s.made
    ensures var t := PageEffect(s, l, u);
            t.made == s.made && t.created <= t.made && t.calls == s.calls && UseMade(t, l, PageNext(s, p, l, u))
  {
  }

  /** Checking, marking, cleaning up and giving back make no page. */
  lemma QuietMade(s: State, c: nat, e: Choice, l: nat, u: Use)
    requires TokenInv(s) && MadeInv(s) && c in s.calls && s.calls[c].pc == Using(l, u) && !Executing(u) && !Paging(u)
    ensures MadeInv(UseStep(s, c, e, l, u))
  {
    var p := Placed(s, c);
    assert CallMade(s, s.calls[c]);
    UseStill(s, c, e, l, u);
    if u.Held? {
      HeldMakes(s, c, e, l, u.op);
    } else if Marking(u) {
      MarkMakes(s, c, l, u);
    } else if Cleaning(u) {
      CleanupMakes(s, c, e, l, u);
    } else if u.Return? {
      ReturnMakes(s, c, l, u.after);
    } else {
      ReleaseMakes(s, c, l, u);
    }
    MadeKept(s, UseStep(s, c, e, l, u), c);
  }

  ghost predicate MakesNone(s: State, t: State, c: nat) {
    t.made == s.made && t.created == s.created && (c in t.calls ==> CallMade(t, t.calls[c]))
  }

  lemma HeldMakes(s: State, c: nat, e: Choice, l: nat, op: Op)
    requires MadeInv(s) && c in s.calls && s.calls[c].pc == Using(l, Held(op))
    ensures MakesNone(s, HeldStep(s, c, e, l, op), c)
  {
    assert CallMade(s, s.calls[c]);
  }

  lemma MarkMakes(s: State, c: nat, l: nat, u: Use)
    requires c in s.calls && s.calls[c].pc == Using(l, u) && Marking(u) && UseMade(s, l, u) && l in s.leases
    ensures MakesNone(s, MarkStep(s, c, l, u), c)
  {
    var t := MarkEffect(s, l, u);
    UseMadeKept(s, t, l, MarkNext(u));
    SameUseMade(t, MarkStep(s, c, l, u), l, MarkNext(u));
  }

  lemma CleanupMakes(s: State, c: nat, e: Choice, l: nat, u: Use)
    requires c in s.calls && s.calls[c].pc == Using(l, u) && Cleaning(u)
    ensures MakesNone(s, CleanupStep(s, c, e, l, u), c)
  {
    var p := s.calls[c].p;
    var t := CleanupEffect(s, p, e, l, u);
    assert t.made == s.made && t.created == s.created;
    assert UseMade(Proceed(t, c, l, CleanupNext(s, p, e, l, u)), l, CleanupNext(s, p, e, l, u));
  }

  lemma ReturnMakes(s: State, c: nat, l: nat, after: After)
    requires c in s.calls && s.calls[c].pc == Using(l, Return(after))
    ensures MakesNone(s, ReturnStep(s, c, l, after), c)
  {
  }

  lemma ReleaseMakes(s: State, c: nat, l: nat, u: Use)
    requires c in s.calls && s.calls[c].pc == Using(l, u) && Releasing(u)
    ensures MakesNone(s, ReleaseStep(s, c, l, u), c)
  {
  }

  lemma WaitingMade(s: State, c: nat, e: Choice)
    requires TokenInv(s) && MadeInv(s) && c in s.calls && !s.calls[c].pc.Run? && !s.calls[c].pc.Using?
    ensures MadeInv(Progress(s, c, e))
  {
    ProgressStill(s, c, e);
    match s.calls[c].pc {
      case Ask(l, op) => AskMakes(s, c, e, l, op);
      case Queue(q) => QueueMakes(s, c, e, q);
      case Close(z, repl) => CloseMakes(s, c, e, z, repl);
      case Replace(y) => ReplaceMakes(s, c, e, y);
    }
    MadeKept(s, Progress(s, c, e), c);
  }

  lemma AskMakes(s: State, c: nat, e: Choice, l: nat, op: Op)
    requires c in s.calls && s.calls[c].pc == Ask(l, op)
    ensures MakesNone(s, AskStep(s, c, e, l, op), c)
  {
  }

  lemma QueueMakes(s: State, c: nat, e: Choice, q: Queued)
    requires c in s.calls && s.calls[c].pc == Queue(q)
    ensures MakesNone(s, QueueStep(s, c, e, q), c)
  {
  }

  lemma CloseMakes(s: State, c: nat, e: Choice, z: Closing, repl: bool)
    requires c in s.calls && s.calls[c].pc == Close(z, repl)
    ensures MakesNone(s, CloseStep(s, c, e, z, repl), c)
  {
  }

  lemma ReplaceMakes(s: State, c: nat, e: Choice, y: Replacing)
    requires c in s.calls && s.calls[c].pc == Replace(y)
    ensures MakesNone(s, ReplaceStep(s, c, e, y), c)
  {
  }

  lemma BeginMakes(s: State, a: Move)
    requires Begins(a) && a.c !in s.calls
    ensures MakesNone(s, Begin(s, a), a.c)
  {
  }

  lemma StepKeepsMade(s: State, a: Move)
    requires TokenInv(s) && MadeInv(s)
    ensures MadeInv(Step(s, a))
  {
    if Outside(a) {
      var c := Fresh(s.calls.Keys);
      OutsideStill(s, a);
      MadeKept(s, Step(s, a), c);
    } else if Begins(a) {
      if a.c !in s.calls {
        StepStill(s, a);
        BeginMakes(s, a);
        MadeKept(s, Step(s, a), a.c);
      }
    } else if a.c in s.calls {
      var pc := s.calls[a.c].pc;
      if pc.Run? { RunningMade(s, a.c, a.e, pc.r); }
      else if !pc.Using? { WaitingMade(s, a.c, a.e); }
      else if Executing(pc.u) { ExecuteMade(s, a.c, a.e, pc.l, pc.u); }
      else if Paging(pc.u) { PageMade(s, a.c, pc.l, pc.u); }
      else { QuietMade(s, a.c, a.e, pc.l, pc.u); }
    }
  }

  /** In every run, whatever is recorded as created was made by the driver on the task's request. */
  lemma {:induction false} MadeAlways(actions: seq<Move>)
    ensures MadeInv(Runs(INITIAL, actions))
  {
    if actions != [] {
      var before := actions[..|actions| - 1];
      MadeAlways(before);
      TokensAlways(before);
      StepKeepsMade(Runs(INITIAL, before), actions[|actions| - 1]);
    }
  }

  // ---- what it means ----

  /** In every run, a page about to be closed was made by the driver for that very task, on the lease's server
      and generation. */
  lemma ClosesOnlyMadePages(actions: seq<Move>, c: nat)
    requires var s := Runs(INITIAL, actions); c in s.calls && s.calls[c].pc.Using? && s.calls[c].pc.u.FinClose?
    ensures var s := Runs(INITIAL, actions);
            var l, work := s.calls[c].pc.l, s.calls[c].pc.u.work;
            work.ids != [] && AsCreated(s, l, work.ids[0]) in s.made
  {
    MadeAlways(actions);
    ClosesOnlyOwnPages(actions, c);
  }

  /** The driver makes a page for the task: bound by an Acquire that may create one, by the action that asks
      for a new page, or opened by the browser's own tab action. */
  predicate DriverMakes(s: State, a: Move, x: Creation) {
    a.Advance? && a.c in s.calls
    && (var pc, e := s.calls[a.c].pc, a.e;
        if pc.Run? then
          pc.r.AcqBind? && MayCreate(pc.r.wish, pc.r.ref) && !pc.r.continuing && e.ok
          && x == Creation(KeyOf(pc.r.task), e.page, pc.r.ref.server, pc.r.ref.gen)
        else
          pc.Using?
          && ((pc.u.ExecReady? && pc.u.action == NewPage && e.ok && x == AsCreated(s, pc.l, e.page))
              || (pc.u.ExecDispatch? && Opens(pc.u.action, e.answer)
                  && x == AsCreated(s, pc.l, e.answer.observed.value))))
  }

  lemma MadeExactly(s: State, a: Move, x: Creation)
    requires TokenInv(s) && MadeInv(s)
    ensures x in Step(s, a).made <==> x in s.made || DriverMakes(s, a, x)
  {
    if a.Advance? && a.c in s.calls {
      var c, e, pc := a.c, a.e, s.calls[a.c].pc;
      var p := Placed(s, c);
      assert CallMade(s, s.calls[c]);
      if pc.Run? {
        BoundExactly(s, c, e, pc.r, x);
      } else if pc.Using? {
        UsedExactly(s, c, e, pc.l, pc.u, x);
      } else {
        WaitedExactly(s, c, e);
      }
    } else if Begins(a) && a.c !in s.calls {
      BeginMakes(s, a);
    }
  }

  lemma BoundExactly(s: State, c: nat, e: Choice, r: Running, x: Creation)
    requires c in s.calls && s.calls[c].pc == Run(r) && RunMade(s, r)
    ensures x in RunningStep(s, c, e, r).made <==> x in s.made || DriverMakes(s, Advance(c, e), x)
  {
  }

  lemma WaitedExactly(s: State, c: nat, e: Choice)
    requires c in s.calls && !s.calls[c].pc.Run? && !s.calls[c].pc.Using?
    ensures Progress(s, c, e).made == s.made
  {
    match s.calls[c].pc
    case Ask(l, op) => AskMakes(s, c, e, l, op);
    case Queue(q) => QueueMakes(s, c, e, q);
    case Close(z, repl) => CloseMakes(s, c, e, z, repl);
    case Replace(y) => ReplaceMakes(s, c, e, y);
  }

  lemma UsedExactly(s: State, c: nat, e: Choice, l: nat, u: Use, x: Creation)
    requires TokenInv(s) && MadeInv(s) && c in s.calls && s.calls[c].pc == Using(l, u)
    ensures x in UseStep(s, c, e, l, u).made <==> x in s.made || DriverMakes(s, Advance(c, e), x)
  {
    var p := Placed(s, c);
    assert CallMade(s, s.calls[c]);
    if Executing(u) {
      assert ExecuteStep(s, c, e, l, u).made == ExecuteEffect(s, p, e, l, u).made;
    } else if Paging(u) {
      assert PageStep(s, c, l, u).made == PageEffect(s, l, u).made;
    } else if u.Held? {
      HeldMakes(s, c, e, l, u.op);
    } else if Marking(u) {
      MarkMakes(s, c, l, u);
    } else if Cleaning(u) {
      CleanupMakes(s, c, e, l, u);
    } else if u.Return? {
      ReturnMakes(s, c, l, u.after);
    } else {
      ReleaseMakes(s, c, l, u);
    }
  }

  /** A task becomes the owner of a page: an Acquire that may create one is handed its lease while the session
      is live, or an operation takes over the page it made. */
  predicate BecomesOwner(s: State, a: Move, x: Creation) {
    a.Advance? && a.c in s.calls
    && (var pc, f := s.calls[a.c].pc, ProfileOf(s, s.calls[a.c].p);
        if pc.Run? then
          pc.r.AcqPublish? && MayCreate(pc.r.wish, pc.r.ref) && f.live && f.ref.gen == pc.r.ref.gen
          && x == Creation(KeyOf(pc.r.task), pc.r.ref.page, pc.r.ref.server, pc.r.ref.gen)
        else pc.Using? && pc.u.OwnPage? && x == AsCreated(s, pc.l, LeaseOf(s, pc.l).ref.page))
  }

  /** Creations are recorded exactly then, and the page recorded is owned from then on. */
  lemma CreatedExactly(s: State, a: Move, x: Creation)
    requires TokenInv(s) && MadeInv(s)
    ensures x in Step(s, a).created <==> x in s.created || BecomesOwner(s, a, x)
    ensures BecomesOwner(s, a, x) ==>
              x in s.made && x.page in OwnedBy(Step(s, a), x.key)
              && OwnedBy(Step(s, a), x.key)[x.page].server == x.server
              && OwnedBy(Step(s, a), x.key)[x.page].gen == x.gen
  {
    if a.Advance? && a.c in s.calls {
      var c, e, pc := a.c, a.e, s.calls[a.c].pc;
      var p := Placed(s, c);
      assert CallMade(s, s.calls[c]);
      if pc.Run? {
        PublishedExactly(s, c, e, pc.r, x);
      } else if pc.Using? {
        OwnedExactly(s, c, e, pc.l, pc.u, x);
      } else {
        WaitedCreates(s, c, e);
      }
    } else if Begins(a) && a.c !in s.calls {
      BeginMakes(s, a);
    }
  }

  lemma PublishedExactly(s: State, c: nat, e: Choice, r: Running, x: Creation)
    requires c in s.calls && s.calls[c].pc == Run(r) && RunMade(s, r)
    ensures var t, a := RunningStep(s, c, e, r), Advance(c, e);
            && (x in t.created <==> x in s.created || BecomesOwner(s, a, x))
            && (BecomesOwner(s, a, x) ==>
                  x in s.made && x.page in OwnedBy(t, x.key)
                  && OwnedBy(t, x.key)[x.page].server == x.server && OwnedBy(t, x.key)[x.page].gen == x.gen)
  {
  }

  lemma WaitedCreates(s: State, c: nat, e: Choice)
    requires c in s.calls && !s.calls[c].pc.Run? && !s.calls[c].pc.Using?
    ensures Progress(s, c, e).created == s.created
  {
    match s.calls[c].pc
    case Ask(l, op) => AskMakes(s, c, e, l, op);
    case Queue(q) => QueueMakes(s, c, e, q);
    case Close(z, repl) => CloseMakes(s, c, e, z, repl);
    case Replace(y) => ReplaceMakes(s, c, e, y);
  }

  lemma OwnedExactly(s: State, c: nat, e: Choice, l: nat, u: Use, x: Creation)
    requires TokenInv(s) && MadeInv(s) && c in s.calls && s.calls[c].pc == Using(l, u)
    ensures var t, a := UseStep(s, c, e, l, u), Advance(c, e);
            && (x in t.created <==> x in s.created || BecomesOwner(s, a, x))
            && (BecomesOwner(s, a, x) ==>
                  x in s.made && x.page in OwnedBy(t, x.key)
                  && OwnedBy(t, x.key)[x.page].server == x.server && OwnedBy(t, x.key)[x.page].gen == x.gen)
  {
    var p := Placed(s, c);
    assert CallMade(s, s.calls[c]);
    if u.OwnPage? {
      OwnPageOwns(s, c, e, l, x);
    } else if Executing(u) {
      ExecuteMakes(s, p, e, l, u);
      assert ExecuteStep(s, c, e, l, u).created == s.created;
    } else if Paging(u) {
      assert PageStep(s, c, l, u).created == s.created;
    } else if u.Held? {
      HeldMakes(s, c, e, l, u.op);
    } else if Marking(u) {
      MarkMakes(s, c, l, u);
    } else if Cleaning(u) {
      CleanupMakes(s, c, e, l, u);
    } else if u.Return? {
      ReturnMakes(s, c, l, u.after);
    } else {
      ReleaseMakes(s, c, l, u);
    }
  }

  lemma OwnPageOwns(s: State, c: nat, e: Choice, l: nat, x: Creation)
    requires c in s.calls && s.calls[c].pc == Using(l, OwnPage) && UseMade(s, l, OwnPage) && l in s.leases
    ensures var t, a := PageStep(s, c, l, OwnPage), Advance(c, e);
            && (x in t.created <==> x in s.created || BecomesOwner(s, a, x))
            && (BecomesOwner(s, a, x) ==>
                  x in s.made && x.page in OwnedBy(t, x.key)
                  && OwnedBy(t, x.key)[x.page].server == x.server && OwnedBy(t, x.key)[x.page].gen == x.gen)
  {
  }

  /** What the caller of an Acquire asked for. */
  function WishOf(pc: Pc): Option<Wish> {
    if pc.Queue? && pc.q.AcqWait? then Some(pc.q.wish)
    else if pc.Run? && (pc.r.AcqGot? || pc.r.AcqBind? || pc.r.AcqPublish?) then Some(pc.r.wish)
    else None
  }

  /** It never changes on the way, so that what decides is what was asked at the start. */
  lemma WishStays(s: State, a: Move, c: nat)
    requires TokenInv(s) && c in Step(s, a).calls && WishOf(Step(s, a).calls[c].pc).Some?
    ensures var w := WishOf(Step(s, a).calls[c].pc);
            if c in s.calls then WishOf(s.calls[c].pc) == w else a.StartAcquire? && a.c == c && w == Some(a.wish)
  {
    if Outside(a) {
      OutsideStill(s, a);
    } else {
      StepStill(s, a);
      if a.c == c && a.Advance? && c in s.calls {
        WishGoes(s, c, a.e);
      } else if a.c == c && c !in s.calls && Begins(a) {
        WishBegins(s, a);
      }
    }
  }

  lemma WishBegins(s: State, a: Move)
    requires Begins(a) && a.c !in s.calls
    ensures var t := Begin(s, a);
            a.c in t.calls && WishOf(t.calls[a.c].pc).Some? ==>
              a.StartAcquire? && WishOf(t.calls[a.c].pc) == Some(a.wish)
  {
  }

  lemma WishGoes(s: State, c: nat, e: Choice)
    requires TokenInv(s) && c in s.calls
    ensures var t := Progress(s, c, e);
            c in t.calls && WishOf(t.calls[c].pc).Some? ==> WishOf(t.calls[c].pc) == WishOf(s.calls[c].pc)
  {
    var p := Placed(s, c);
    match s.calls[c].pc
    case Ask(l, op) => WishAsks(s, c, e, l, op);
    case Queue(q) => WishQueues(s, c, e, q);
    case Run(r) => WishRuns(s, c, e, r);
    case Close(z, repl) => WishCloses(s, c, e, z, repl);
    case Replace(y) => WishReplaces(s, c, e, y);
    case Using(l, u) => WishUses(s, c, e, l, u);
  }

  lemma WishAsks(s: State, c: nat, e: Choice, l: nat, op: Op)
    requires c in s.calls && s.calls[c].pc == Ask(l, op)
    ensures var t := AskStep(s, c, e, l, op); c in t.calls ==> WishOf(t.calls[c].pc) == None
  {
  }

  lemma WishQueues(s: State, c: nat, e: Choice, q: Queued)
    requires c in s.calls && s.calls[c].pc == Queue(q)
    ensures var t := QueueStep(s, c, e, q); c in t.calls ==> WishOf(t.calls[c].pc) == WishOf(s.calls[c].pc)
  {
  }

  lemma WishRuns(s: State, c: nat, e: Choice, r: Running)
    requires c in s.calls && s.calls[c].pc == Run(r)
    ensures var t := RunningStep(s, c, e, r);
            c in t.calls && WishOf(t.calls[c].pc).Some? ==> WishOf(t.calls[c].pc) == WishOf(s.calls[c].pc)
  {
  }

  lemma WishCloses(s: State, c: nat, e: Choice, z: Closing, repl: bool)
    requires c in s.calls && s.calls[c].pc == Close(z, repl)
    ensures var t := CloseStep(s, c, e, z, repl); c in t.calls ==> WishOf(t.calls[c].pc) == None
  {
  }

  lemma WishReplaces(s: State, c: nat, e: Choice, y: Replacing)
    requires c in s.calls && s.calls[c].pc == Replace(y)
    ensures var t := ReplaceStep(s, c, e, y); c in t.calls ==> WishOf(t.calls[c].pc) == None
  {
  }

  lemma WishUses(s: State, c: nat, e: Choice, l: nat, u: Use)
    requires c in s.calls && s.calls[c].pc == Using(l, u)
    ensures var t := UseStep(s, c, e, l, u); c in t.calls ==> WishOf(t.calls[c].pc) == None
  {
    if u.Return? { WishReturns(s, c, l, u.after); }
    else if Releasing(u) { WishReleases(s, c, l, u); }
    else { WorksOn(s, c, e, l, u); }
  }

  /** Within an operation the call stays under its lease. */
  lemma WorksOn(s: State, c: nat, e: Choice, l: nat, u: Use)
    requires c in s.calls && s.calls[c].pc == Using(l, u) && !u.Return? && !Releasing(u)
    ensures var t := UseStep(s, c, e, l, u); c in t.calls && t.calls[c].pc.Using?
  {
    var p := s.calls[c].p;
    if Executing(u) { Stays(ExecuteEffect(s, p, e, l, u), c, l, ExecuteNext(s, p, e, l, u)); }
    else if Paging(u) { Stays(PageEffect(s, l, u), c, l, PageNext(s, p, l, u)); }
    else if Marking(u) { Stays(MarkEffect(s, l, u), c, l, MarkNext(u)); }
    else if Cleaning(u) { Stays(CleanupEffect(s, p, e, l, u), c, l, CleanupNext(s, p, e, l, u)); }
  }

  lemma Stays(t: State, c: nat, l: nat, u: Use)
    requires c in t.calls
    ensures var v := Proceed(t, c, l, u); c in v.calls && v.calls[c].pc == Using(l, u)
  {
  }

  lemma WishReturns(s: State, c: nat, l: nat, after: After)
    requires c in s.calls && s.calls[c].pc == Using(l, Return(after))
    ensures var t := ReturnStep(s, c, l, after); c in t.calls ==> WishOf(t.calls[c].pc) == None
  {
  }

  lemma WishReleases(s: State, c: nat, l: nat, u: Use)
    requires c in s.calls && s.calls[c].pc == Using(l, u) && Releasing(u)
    ensures var t := ReleaseStep(s, c, l, u); c in t.calls ==> WishOf(t.calls[c].pc) == None
  {
  }
}
