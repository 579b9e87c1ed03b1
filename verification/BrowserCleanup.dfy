/** Cleanup closes only pages the task created on this server and generation and did not hand over. */
module BrowserCleanup {
  import opened Wrappers
  import opened BrowserState
  import opened BrowserSteps
  import opened BrowserGate
  import opened BrowserFrame

  /** Each page in the map is filed under its own identity and was recorded as created by the task. */
  ghost predicate Recorded(created: set<Creation>, key: Key, pages: map<string, Ref>) {
    forall id :: id in pages ==> pages[id].page == id && Creation(key, id, pages[id].server, pages[id].gen) in created
  }

  /** The work list of a FinishTask in progress. */
  function WorkOf(pc: Pc): Option<Cleanup> {
    if pc.Using?
       && (pc.u.FinSnapped? || pc.u.FinCancel? || pc.u.FinClear? || pc.u.FinLoop? || pc.u.FinClose? || pc.u.FinDrop?)
    then Some(pc.u.work) else None
  }

  ghost predicate CallPages(s: State, k: Call) {
    WorkOf(k.pc).Some? ==>
      Recorded(s.created, LeaseKey(s, k.pc.l), WorkOf(k.pc).value.owned)
      && (k.pc.u.FinClose? ==>
            var work := k.pc.u.work; work.ids != [] && Closable(work, LeaseOf(s, k.pc.l).ref, work.ids[0]))
  }

  ghost predicate PagesInv(s: State) {
    (forall key {:trigger OwnedBy(s, key)} :: Recorded(s.created, key, OwnedBy(s, key)))
    && (forall c {:trigger CallPages(s, s.calls[c])} :: c in s.calls ==> CallPages(s, s.calls[c]))
  }

  // ---- what touches no pages ----

  /** No page is touched, and the call has no work list. */
  ghost predicate Pageless(s: State, t: State, c: nat)
    requires c in s.calls
  {
    && t.owned == s.owned && t.closed == s.closed && t.created == s.created
    && (c in t.calls ==> t.calls[c] == s.calls[c] || WorkOf(t.calls[c].pc) == None)
  }

  /** The program points that touch no pages. */
  predicate ForPageless(pc: Pc) { !pc.Run? && (pc.Using? ==> !pc.u.Held? && !pc.u.OwnPage? && !Cleaning(pc.u)) }

  lemma ProgressPageless(s: State, c: nat, e: Choice)
    requires TokenInv(s) && c in s.calls && ForPageless(s.calls[c].pc)
    ensures Pageless(s, Progress(s, c, e), c)
  {
    match s.calls[c].pc
    case Ask(l, op) => AskPageless(s, c, e, l, op);
    case Close(z, repl) => ClosePageless(s, c, e, z, repl);
    case Replace(y) => ReplacePageless(s, c, e, y);
    case Queue(q) => QueuePageless(s, c, e, q);
    case Using(l, u) => UsePageless(s, c, e, l, u);
  }

  lemma AskPageless(s: State, c: nat, e: Choice, l: nat, op: Op)
    requires c in s.calls && s.calls[c].pc == Ask(l, op)
    ensures Pageless(s, AskStep(s, c, e, l, op), c)
  {
  }

  lemma ClosePageless(s: State, c: nat, e: Choice, z: Closing, repl: bool)
    requires c in s.calls && s.calls[c].pc == Close(z, repl)
    ensures Pageless(s, CloseStep(s, c, e, z, repl), c)
  {
  }

  lemma ReplacePageless(s: State, c: nat, e: Choice, y: Replacing)
    requires c in s.calls && s.calls[c].pc == Replace(y)
    ensures Pageless(s, ReplaceStep(s, c, e, y), c)
  {
  }

  lemma QueuePageless(s: State, c: nat, e: Choice, q: Queued)
    requires c in s.calls && s.calls[c].pc == Queue(q)
    ensures Pageless(s, QueueStep(s, c, e, q), c)
  {
  }

  lemma UsePageless(s: State, c: nat, e: Choice, l: nat, u: Use)
    requires TokenInv(s) && c in s.calls && s.calls[c].pc == Using(l, u) && ForPageless(s.calls[c].pc)
    ensures Pageless(s, UseStep(s, c, e, l, u), c)
  {
    var p := Placed(s, c);
    if u.Return? { ReturnPageless(s, c, l, u.after); }
    else if Executing(u) { ExecutePageless(s, c, e, l, u); }
    else if Paging(u) { PagePageless(s, c, l, u); }
    else if Marking(u) { MarkPageless(s, c, l, u); }
    else { ReleasePageless(s, c, l, u); }
  }

  lemma ReturnPageless(s: State, c: nat, l: nat, after: After)
    requires c in s.calls
    ensures Pageless(s, ReturnStep(s, c, l, after), c)
  {
  }

  lemma ReleasePageless(s: State, c: nat, l: nat, u: Use)
    requires c in s.calls && Releasing(u)
    ensures Pageless(s, ReleaseStep(s, c, l, u), c)
  {
  }

  lemma ProceedPageless(s: State, t: State, c: nat, l: nat, u: Use)
    requires c in s.calls && t.owned == s.owned && t.closed == s.closed && t.created == s.created
    requires WorkOf(Using(l, u)) == None
    ensures c in t.calls ==> Pageless(s, Proceed(t, c, l, u), c)
  {
  }

  lemma ExecutePageless(s: State, c: nat, e: Choice, l: nat, u: Use)
    requires c in s.calls && Executing(u)
    ensures Pageless(s, ExecuteStep(s, c, e, l, u), c)
  {
    var p := s.calls[c].p;
    var t := ExecuteEffect(s, p, e, l, u);
    assert t.owned == s.owned && t.calls == s.calls && t.closed == s.closed && t.created == s.created;
    ProceedPageless(s, t, c, l, ExecuteNext(s, p, e, l, u));
  }

  lemma PagePageless(s: State, c: nat, l: nat, u: Use)
    requires c in s.calls && Paging(u) && !u.OwnPage?
    ensures Pageless(s, PageStep(s, c, l, u), c)
  {
    var t := PageEffect(s, l, u);
    assert t.owned == s.owned && t.calls == s.calls && t.closed == s.closed && t.created == s.created;
    ProceedPageless(s, t, c, l, PageNext(s, s.calls[c].p, l, u));
  }

  lemma MarkPageless(s: State, c: nat, l: nat, u: Use)
    requires c in s.calls && Marking(u) && UseShape(u)
    ensures Pageless(s, MarkStep(s, c, l, u), c)
  {
    var t := MarkEffect(s, l, u);
    assert t.owned == s.owned && t.calls == s.calls && t.closed == s.closed && t.created == s.created;
    ProceedPageless(s, t, c, l, MarkNext(u));
  }

  lemma HeldGoes(s: State, c: nat, e: Choice, l: nat, op: Op)
    requires c in s.calls && s.calls[c].pc == Using(l, Held(op))
    ensures var t := HeldStep(s, c, e, l, op);
            t.owned == s.owned && t.closed == s.closed && t.created == s.created && t.leases == s.leases
            && (t == s || (c in t.calls && t.calls[c].pc == Using(l, HeldNext(s, s.calls[c].p, e, l, op))))
  {
  }

  lemma RunningIdle(s: State, c: nat, e: Choice, r: Running)
    requires c in s.calls && s.calls[c].pc == Run(r)
    ensures var t := RunningStep(s, c, e, r); c in t.calls ==> WorkOf(t.calls[c].pc) == None
  {
  }

  // ---- elementary changes ----

  /** Ownership records are only added to, and leases in use keep their task, server and generation. */
  lemma PagesKept(s: State, t: State, c: nat)
    requires TokenInv(s) && PagesInv(s) && Still(s, t, c) && s.created <= t.created
    requires forall key :: Recorded(t.created, key, OwnedBy(t, key))
    requires c in t.calls ==> CallPages(t, t.calls[c])
    ensures PagesInv(t)
  {
    forall d | d in t.calls ensures CallPages(t, t.calls[d]) {
      if d != c {
        assert CallPages(s, s.calls[d]) && CallShape(s, s.calls[d]);
      }
    }
  }

  lemma SamePages(s: State, t: State)
    requires PagesInv(s) && t.owned == s.owned && s.created <= t.created
    ensures forall key :: Recorded(t.created, key, OwnedBy(t, key))
  {
    forall key ensures Recorded(t.created, key, OwnedBy(t, key)) {
      assert Recorded(s.created, key, OwnedBy(s, key));
    }
  }

  lemma OwnRecords(s: State, key: Key, ref: Ref)
    requires PagesInv(s)
    ensures forall k :: Recorded(Own(s, key, ref).created, k, OwnedBy(Own(s, key, ref), k))
  {
    forall k ensures Recorded(Own(s, key, ref).created, k, OwnedBy(Own(s, key, ref), k)) {
      assert Recorded(s.created, k, OwnedBy(s, k));
    }
  }

  lemma LessRecords(s: State, owned: map<Key, map<string, Ref>>)
    requires PagesInv(s)
    requires forall key, id :: key in owned && id in owned[key] ==>
               id in OwnedBy(s, key) && owned[key][id] == OwnedBy(s, key)[id]
    ensures forall key :: Recorded(s.created, key, OwnedBy(s.(owned := owned), key))
  {
    forall key ensures Recorded(s.created, key, OwnedBy(s.(owned := owned), key)) {
      assert Recorded(s.created, key, OwnedBy(s, key));
    }
  }

  // ---- the steps ----

  lemma PagelessPages(s: State, c: nat, e: Choice)
    requires TokenInv(s) && PagesInv(s) && c in s.calls && ForPageless(s.calls[c].pc)
    ensures PagesInv(Progress(s, c, e))
  {
    ProgressStill(s, c, e);
    ProgressPageless(s, c, e);
    SamePages(s, Progress(s, c, e));
    PagesKept(s, Progress(s, c, e), c);
  }

  lemma RunningRecords(s: State, c: nat, e: Choice, r: Running)
    requires PagesInv(s) && c in s.calls && s.calls[c].pc == Run(r)
    ensures var t := RunningStep(s, c, e, r);
            s.created <= t.created && forall key :: Recorded(t.created, key, OwnedBy(t, key))
  {
    var t := RunningStep(s, c, e, r);
    RunningCloses(s, c, e, r);
    if t.owned == s.owned && t.created == s.created {
      SamePages(s, t);
    } else {
      OwnRecords(s, KeyOf(r.task), r.ref);
      forall key ensures OwnedBy(t, key) == OwnedBy(Own(s, KeyOf(r.task), r.ref), key) {}
    }
  }

  lemma RunningCloses(s: State, c: nat, e: Choice, r: Running)
    requires c in s.calls && s.calls[c].pc == Run(r)
    ensures var t := RunningStep(s, c, e, r);
            (t.closed == s.closed && t.owned == s.owned && t.created == s.created)
            || (r.AcqPublish? && r.newPage && t.closed == Own(s, KeyOf(r.task), r.ref).closed
                && t.owned == Own(s, KeyOf(r.task), r.ref).owned && t.created == Own(s, KeyOf(r.task), r.ref).created)
  {
  }

  lemma RunningPages(s: State, c: nat, e: Choice, r: Running)
    requires TokenInv(s) && PagesInv(s) && c in s.calls && s.calls[c].pc == Run(r)
    ensures PagesInv(RunningStep(s, c, e, r))
  {
    RunningStill(s, c, e, r);
    RunningIdle(s, c, e, r);
    RunningRecords(s, c, e, r);
    PagesKept(s, RunningStep(s, c, e, r), c);
  }

  lemma HeldPages(s: State, c: nat, e: Choice, l: nat, op: Op)
    requires TokenInv(s) && PagesInv(s) && c in s.calls && s.calls[c].pc == Using(l, Held(op))
    ensures PagesInv(HeldStep(s, c, e, l, op))
  {
    var t := HeldStep(s, c, e, l, op);
    HeldStill(s, c, e, l, op);
    HeldGoes(s, c, e, l, op);
    SamePages(s, t);
    assert CallPages(s, s.calls[c]);
    HeldWork(s, s.calls[c], e, l, op);
    PagesKept(s, t, c);
  }

  lemma HeldWork(s: State, k: Call, e: Choice, l: nat, op: Op)
    requires PagesInv(s)
    ensures CallPages(s, Call(k.p, Using(l, HeldNext(s, k.p, e, l, op))))
  {
    assert Recorded(s.created, LeaseKey(s, l), OwnedBy(s, LeaseKey(s, l)));
  }

  lemma OwnPagePages(s: State, c: nat, l: nat)
    requires TokenInv(s) && PagesInv(s) && c in s.calls && s.calls[c].pc == Using(l, OwnPage)
    ensures PagesInv(PageStep(s, c, l, OwnPage))
  {
    var p := Placed(s, c);
    var t := PageStep(s, c, l, OwnPage);
    PageStill(s, c, l, OwnPage);
    OwnRecords(s, LeaseKey(s, l), s.leases[l].ref);
    forall key ensures OwnedBy(t, key) == OwnedBy(Own(s, LeaseKey(s, l), s.leases[l].ref), key) {}
    PagesKept(s, t, c);
  }

  lemma CleanupPages(s: State, c: nat, e: Choice, l: nat, u: Use)
    requires TokenInv(s) && PagesInv(s) && c in s.calls && s.calls[c].pc == Using(l, u) && Cleaning(u)
    ensures PagesInv(CleanupStep(s, c, e, l, u))
  {
    var p := Placed(s, c);
    var t := CleanupStep(s, c, e, l, u);
    assert CallPages(s, s.calls[c]);
    CleanupStill(s, c, e, l, u);
    CleanupGoes(s, c, e, l, u);
    LessRecords(s, t.owned);
    forall key ensures OwnedBy(t, key) == OwnedBy(s.(owned := t.owned), key) {}
    PagesKept(s, t, c);
  }

  lemma CleanupGoes(s: State, c: nat, e: Choice, l: nat, u: Use)
    requires c in s.calls && s.calls[c].pc == Using(l, u) && Cleaning(u) && CallPages(s, s.calls[c])
    ensures var t := CleanupStep(s, c, e, l, u);
            && t.created == s.created && t.leases == s.leases
            && (forall key, id :: key in t.owned && id in t.owned[key] ==>
                  id in OwnedBy(s, key) && t.owned[key][id] == OwnedBy(s, key)[id])
            && (c in t.calls ==> CallPages(t, t.calls[c]))
  {
    var p := s.calls[c].p;
    CleanupTakes(s, p, e, l, u);
    CleanupWork(s, s.calls[c], e, l, u);
    var t, next := CleanupEffect(s, p, e, l, u), CleanupNext(s, p, e, l, u);
    assert Proceed(t, c, l, next).calls == t.calls[c := Call(p, Using(l, next))];
  }

  lemma CleanupTakes(s: State, p: string, e: Choice, l: nat, u: Use)
    requires Cleaning(u)
    ensures var t := CleanupEffect(s, p, e, l, u);
            && t.created == s.created && t.leases == s.leases && t.calls == s.calls
            && (forall key, id :: key in t.owned && id in t.owned[key] ==>
                  id in OwnedBy(s, key) && t.owned[key][id] == OwnedBy(s, key)[id])
  {
  }

  lemma CleanupWork(s: State, k: Call, e: Choice, l: nat, u: Use)
    requires k.pc == Using(l, u) && Cleaning(u) && CallPages(s, k)
    ensures CallPages(s, Call(k.p, Using(l, CleanupNext(s, k.p, e, l, u))))
  {
  }

  lemma OutsidePages(s: State, a: Move)
    requires TokenInv(s) && PagesInv(s) && Outside(a)
    ensures PagesInv(Step(s, a))
  {
    var t := Step(s, a);
    var c := Fresh(s.calls.Keys);
    OutsideStill(s, a);
    if a.Retain? { LessRecords(s, t.owned); } else { SamePages(s, t); }
    PagesKept(s, t, c);
  }

  lemma BeginPages(s: State, a: Move)
    requires TokenInv(s) && PagesInv(s) && Begins(a) && a.c !in s.calls
    ensures PagesInv(Begin(s, a))
  {
    var t := Begin(s, a);
    BeginFrame(s, a);
    if a.StartFinish? {
      LessRecords(s, t.owned);
      forall key ensures OwnedBy(t, key) == OwnedBy(s.(owned := t.owned), key) {}
    } else {
      SamePages(s, t);
    }
    PagesKept(s, t, a.c);
  }

  lemma StepKeepsPages(s: State, a: Move)
    requires TokenInv(s) && PagesInv(s)
    ensures PagesInv(Step(s, a))
  {
    if Outside(a) {
      OutsidePages(s, a);
    } else if !a.Advance? {
      if a.c !in s.calls { BeginPages(s, a); }
    } else if a.c in s.calls {
      var pc := s.calls[a.c].pc;
      if ForPageless(pc) { PagelessPages(s, a.c, a.e); }
      else if pc.Run? { RunningPages(s, a.c, a.e, pc.r); }
      else if pc.u.Held? { HeldPages(s, a.c, a.e, pc.l, pc.u.op); }
      else if pc.u.OwnPage? { OwnPagePages(s, a.c, pc.l); }
      else { CleanupPages(s, a.c, a.e, pc.l, pc.u); }
    }
  }

  lemma {:induction false} PagesAlways(actions: seq<Move>)
    ensures PagesInv(Runs(INITIAL, actions))
  {
    if actions != [] {
      PagesAlways(actions[..|actions| - 1]);
      TokensAlways(actions[..|actions| - 1]);
      StepKeepsPages(Runs(INITIAL, actions[..|actions| - 1]), actions[|actions| - 1]);
    }
  }

  // ---- what it means ----

  /** A page about to be closed was recorded as created by the very task, on the lease's own server and
      generation, and was not among the pages to retain; nor had that generation been confirmed stopped
      at the snapshot. */
  lemma ClosesOnlyOwnPages(actions: seq<Move>, c: nat)
    requires var s := Runs(INITIAL, actions); c in s.calls && s.calls[c].pc.Using? && s.calls[c].pc.u.FinClose?
    ensures var s := Runs(INITIAL, actions);
            var l, work := s.calls[c].pc.l, s.calls[c].pc.u.work;
            work.ids != []
            && Creation(LeaseKey(s, l), work.ids[0], LeaseOf(s, l).ref.server, LeaseOf(s, l).ref.gen) in s.created
            && work.ids[0] !in work.retain && !work.stopped
  {
    PagesAlways(actions);
    var s := Runs(INITIAL, actions);
    assert CallPages(s, s.calls[c]);
  }

  predicate Treats(s: State, a: Move, key: Key, id: string) {
    a == Retain(key, id)
    || (a.StartFinish? && KeyOf(a.task) == key)
    || (a.Advance? && a.c in s.calls && s.calls[a.c].pc.Using? && LeaseKey(s, s.calls[a.c].pc.l) == key
        && (s.calls[a.c].pc.u.FinEnd?
            || (s.calls[a.c].pc.u.FinDrop? && s.calls[a.c].pc.u.work.ids != [] && s.calls[a.c].pc.u.work.ids[0] == id)))
  }

  /** A page leaves a task's ownership only when it is retained, when the task is removed, or as the page
      a cleanup of this task has just treated; a close that fails takes nothing away. */
  lemma OwnedUntilTreated(s: State, a: Move, key: Key, id: string)
    requires TokenInv(s) && id in OwnedBy(s, key) && !Treats(s, a, key, id)
    ensures id in OwnedBy(Step(s, a), key)
  {
    if a.Advance? && a.c in s.calls {
      var c, e, pc := a.c, a.e, s.calls[a.c].pc;
      if ForPageless(pc) { ProgressPageless(s, c, e); }
      else if pc.Run? { RunningOwns(s, c, e, pc.r, key, id); }
      else if pc.u.Held? { HeldGoes(s, c, e, pc.l, pc.u.op); }
      else if pc.u.OwnPage? { PageOwns(s, c, pc.l, key, id); }
      else { CleanupOwns(s, c, e, pc.l, pc.u, key, id); }
    } else if Begins(a) && a.c !in s.calls {
      BeginOwns(s, a, key);
    }
  }

  lemma BeginOwns(s: State, a: Move, key: Key)
    requires Begins(a) && !(a.StartFinish? && KeyOf(a.task) == key)
    ensures OwnedBy(Begin(s, a), key) == OwnedBy(s, key)
  {
  }

  lemma RunningOwns(s: State, c: nat, e: Choice, r: Running, key: Key, id: string)
    requires c in s.calls && s.calls[c].pc == Run(r) && id in OwnedBy(s, key)
    ensures id in OwnedBy(RunningStep(s, c, e, r), key)
  {
    RunningCloses(s, c, e, r);
  }

  lemma PageOwns(s: State, c: nat, l: nat, key: Key, id: string)
    requires c in s.calls && id in OwnedBy(s, key)
    ensures id in OwnedBy(PageStep(s, c, l, OwnPage), key)
  {
    assert id in OwnedBy(PageEffect(s, l, OwnPage), key);
  }

  lemma CleanupOwns(s: State, c: nat, e: Choice, l: nat, u: Use, key: Key, id: string)
    requires c in s.calls && id in OwnedBy(s, key) && Cleaning(u)
    requires LeaseKey(s, l) == key ==> !u.FinEnd? && !(u.FinDrop? && u.work.ids != [] && u.work.ids[0] == id)
    ensures id in OwnedBy(CleanupStep(s, c, e, l, u), key)
  {
    assert id in OwnedBy(CleanupEffect(s, s.calls[c].p, e, l, u), key);
  }
}
