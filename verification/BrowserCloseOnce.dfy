/** Cleanups and the pages already closed: a retried cleanup never closes a page again, and two cleanups of
    a task do not as long as they do not overlap. */
module BrowserCloseOnce {
  import opened Wrappers
  import opened BrowserState
  import opened BrowserSteps
  import opened BrowserGate
  import opened BrowserFrame
  import opened BrowserCleanup
  import opened BrowserSticky

  /** The lease is of the task, the server and the generation the page was recorded with. */
  predicate Serves(s: State, l: nat, x: Creation) {
    l in s.leases && LeaseKey(s, l) == x.key && s.leases[l].ref.server == x.server && s.leases[l].ref.gen == x.gen
  }

  /** The call is in the middle of a cleanup for the task on that server and generation. */
  predicate Cleans(s: State, c: nat, x: Creation) {
    c in s.calls && WorkOf(s.calls[c].pc).Some? && Serves(s, s.calls[c].pc.l, x)
  }

  /** At most one call is. */
  ghost predicate Apart(s: State, x: Creation) {
    forall c, d {:trigger Cleans(s, c, x), Cleans(s, d, x)} :: Cleans(s, c, x) && Cleans(s, d, x) ==> c == d
  }

  predicate OwnsAs(s: State, x: Creation) {
    var pages := OwnedBy(s, x.key);
    x.page in pages && pages[x.page].server == x.server && pages[x.page].gen == x.gen
  }

  /** The call has treated the page and is about to stop owning it. */
  predicate Dropping(s: State, c: nat, x: Creation) {
    Cleans(s, c, x) && s.calls[c].pc.u.FinDrop? && s.calls[c].pc.u.work.ids != []
    && s.calls[c].pc.u.work.ids[0] == x.page
  }

  /** A closed page is owned no more, or about to be so. */
  ghost predicate OwnedOpen(s: State, x: Creation) {
    x in s.closed && OwnsAs(s, x) ==> exists c {:trigger Dropping(s, c, x)} :: Dropping(s, c, x)
  }

  predicate Distinct(ids: seq<string>) {
    forall i, j :: 0 <= i < j < |ids| ==> ids[i] != ids[j]
  }

  /** The pages still to be closed are distinct, and x, if it is one of them, is open. */
  ghost predicate CallOpen(s: State, k: Call, x: Creation) {
    WorkOf(k.pc).Some? ==>
      var work := WorkOf(k.pc).value;
      Distinct(work.ids)
      && forall i {:trigger work.ids[i]} ::
           (if k.pc.u.FinDrop? then 1 else 0) <= i < |work.ids| && Closable(work, LeaseOf(s, k.pc.l).ref, work.ids[i])
             && x == AsCreated(s, k.pc.l, work.ids[i]) ==>
             x !in s.closed
  }

  ghost predicate OnceInv(s: State, x: Creation) {
    s.closed <= s.created && OwnedOpen(s, x)
    && (forall c {:trigger CallOpen(s, s.calls[c], x)} :: c in s.calls ==> CallOpen(s, s.calls[c], x))
  }

  // ---- elementary changes ----

  /** What was owned and closed in t was so before, and c was not about to drop it; or c is now. */
  ghost predicate StaysOwned(s: State, t: State, c: nat, x: Creation) {
    x in t.closed && OwnsAs(t, x) ==> (x in s.closed && OwnsAs(s, x) && !Dropping(s, c, x)) || Dropping(t, c, x)
  }

  lemma OnceKept(s: State, t: State, c: nat, x: Creation)
    requires TokenInv(s) && OnceInv(s, x) && Still(s, t, c) && t.closed <= t.created && StaysOwned(s, t, c, x)
    requires x in t.closed && x !in s.closed ==> forall d :: d != c ==> !Cleans(s, d, x)
    requires c in t.calls ==> CallOpen(t, t.calls[c], x)
    ensures OnceInv(t, x)
  {
    if x in t.closed && OwnsAs(t, x) && !Dropping(t, c, x) {
      var d :| Dropping(s, d, x);
      assert CallShape(s, s.calls[d]);
      assert Dropping(t, d, x);
    }
    forall d | d in t.calls ensures CallOpen(t, t.calls[d], x) {
      if d != c { OtherOpen(s, t, c, d, x); }
    }
  }

  lemma OtherOpen(s: State, t: State, c: nat, d: nat, x: Creation)
    requires TokenInv(s) && OnceInv(s, x) && Still(s, t, c) && d in s.calls && d in t.calls && d != c
    requires x in t.closed && x !in s.closed ==> !Cleans(s, d, x)
    ensures CallOpen(t, t.calls[d], x)
  {
    var k := s.calls[d];
    assert CallOpen(s, k, x) && CallShape(s, k);
    if WorkOf(k.pc).Some? {
      var work := WorkOf(k.pc).value;
      forall i | (if k.pc.u.FinDrop? then 1 else 0) <= i < |work.ids|
                 && Closable(work, LeaseOf(t, k.pc.l).ref, work.ids[i])
                 && x == AsCreated(t, k.pc.l, work.ids[i])
        ensures x !in t.closed
      {
        assert x == AsCreated(s, k.pc.l, work.ids[i]) && Cleans(s, d, x);
      }
    }
  }

  /** Closes as before, and no more pages owned, by a call that was not dropping. */
  lemma Unclosed(s: State, t: State, c: nat, x: Creation)
    requires TokenInv(s) && OnceInv(s, x) && Still(s, t, c) && t.closed == s.closed && s.created <= t.created
    requires OwnsAs(t, x) ==> OwnsAs(s, x)
    requires c in s.calls && s.calls[c].pc.Using? ==> !s.calls[c].pc.u.FinDrop?
    requires c in t.calls ==> CallOpen(t, t.calls[c], x)
    ensures OnceInv(t, x)
  {
    OnceKept(s, t, c, x);
  }

  /** The page is recorded as created, again or for the first time. */
  lemma RecordsAnew(s: State, t: State, c: nat, key: Key, ref: Ref, x: Creation)
    requires TokenInv(s) && OnceInv(s, x) && Still(s, t, c)
    requires var o := Own(s, key, ref); t.closed == o.closed && t.created == o.created && t.owned == o.owned
    requires c in s.calls && s.calls[c].pc.Using? ==> !s.calls[c].pc.u.FinDrop?
    requires c in t.calls ==> WorkOf(t.calls[c].pc) == None
    ensures OnceInv(t, x)
  {
    if x.key == key && x.page == ref.page && OwnsAs(t, x) {
      assert x == Creation(key, ref.page, ref.server, ref.gen);
    }
    OnceKept(s, t, c, x);
  }

  // ---- the steps ----

  lemma RunningOnce(s: State, c: nat, e: Choice, r: Running, x: Creation)
    requires TokenInv(s) && OnceInv(s, x) && c in s.calls && s.calls[c].pc == Run(r)
    ensures OnceInv(RunningStep(s, c, e, r), x)
  {
    var t := RunningStep(s, c, e, r);
    RunningStill(s, c, e, r);
    RunningIdle(s, c, e, r);
    RunningCloses(s, c, e, r);
    if t.closed == s.closed && t.owned == s.owned {
      Unclosed(s, t, c, x);
    } else {
      RecordsAnew(s, t, c, KeyOf(r.task), r.ref, x);
    }
  }

  lemma HeldOnce(s: State, c: nat, e: Choice, l: nat, op: Op, x: Creation)
    requires TokenInv(s) && OnceInv(s, x) && c in s.calls && s.calls[c].pc == Using(l, Held(op))
    requires Apart(HeldStep(s, c, e, l, op), x)
    ensures OnceInv(HeldStep(s, c, e, l, op), x)
  {
    var p := Placed(s, c);
    var t := HeldStep(s, c, e, l, op);
    HeldStill(s, c, e, l, op);
    HeldGoes(s, c, e, l, op);
    if t != s && HeldNext(s, p, e, l, op).FinSnapped? {
      SnapshotIsOpen(s, c, e, l, op, x);
    }
    Unclosed(s, t, c, x);
  }

  lemma SnapshotIsOpen(s: State, c: nat, e: Choice, l: nat, op: Op, x: Creation)
    requires TokenInv(s) && OnceInv(s, x) && c in s.calls && s.calls[c].pc == Using(l, Held(op)) && op.Finish?
    requires l in s.leases && HeldStep(s, c, e, l, op) != s && HeldNext(s, s.calls[c].p, e, l, op).FinSnapped?
    requires Apart(HeldStep(s, c, e, l, op), x)
    ensures var t := HeldStep(s, c, e, l, op); CallOpen(t, t.calls[c], x)
  {
    var t := HeldStep(s, c, e, l, op);
    HeldGoes(s, c, e, l, op);
    var work := HeldNext(s, s.calls[c].p, e, l, op).work;
    forall i | 0 <= i < |work.ids| && Closable(work, LeaseOf(s, l).ref, work.ids[i])
               && x == AsCreated(s, l, work.ids[i])
      ensures x !in s.closed
    {
      assert OwnsAs(s, x) && Cleans(t, c, x);
      forall d ensures !Dropping(s, d, x) {
        assert Dropping(s, d, x) ==> Cleans(t, d, x);
      }
    }
  }

  lemma CleanupOnce(s: State, c: nat, e: Choice, l: nat, u: Use, x: Creation)
    requires TokenInv(s) && PagesInv(s) && OnceInv(s, x) && Apart(s, x)
    requires c in s.calls && s.calls[c].pc == Using(l, u) && Cleaning(u)
    ensures OnceInv(CleanupStep(s, c, e, l, u), x)
  {
    var p := Placed(s, c);
    CleanupStill(s, c, e, l, u);
    if u.FinClose? && u.work.ids != [] && e.ok {
      CloseOnce(s, c, e, l, u, x);
    } else if u.FinDrop? && u.work.ids != [] {
      DropOnce(s, c, e, l, u, x);
    } else {
      OnwardOnce(s, c, e, l, u, x);
    }
  }

  /** The page treated was the call's own to drop, and everything else stays as it was. */
  lemma OnwardOnce(s: State, c: nat, e: Choice, l: nat, u: Use, x: Creation)
    requires TokenInv(s) && OnceInv(s, x) && c in s.calls && s.calls[c].pc == Using(l, u) && Cleaning(u)
    requires !(u.FinClose? && u.work.ids != [] && e.ok) && !(u.FinDrop? && u.work.ids != [])
    requires Still(s, CleanupStep(s, c, e, l, u), c)
    ensures OnceInv(CleanupStep(s, c, e, l, u), x)
  {
    var t := CleanupEffect(s, s.calls[c].p, e, l, u);
    assert CallOpen(s, s.calls[c], x);
    assert t.closed == s.closed && t.created == s.created && t.leases == s.leases;
    assert t.owned == s.owned || t.owned == s.owned - {LeaseKey(s, l)};
    var v := CleanupStep(s, c, e, l, u);
    OnwardOpen(s, c, e, l, u, v, x);
    OnceKept(s, v, c, x);
  }

  lemma OnwardOpen(s: State, c: nat, e: Choice, l: nat, u: Use, v: State, x: Creation)
    requires c in s.calls && s.calls[c].pc == Using(l, u) && Cleaning(u) && CallOpen(s, s.calls[c], x)
    requires !(u.FinClose? && u.work.ids != [] && e.ok) && !(u.FinDrop? && u.work.ids != [])
    requires v.leases == s.leases && v.closed == s.closed
    ensures CallOpen(v, Call(s.calls[c].p, Using(l, CleanupNext(s, s.calls[c].p, e, l, u))), x)
  {
  }

  lemma DropOnce(s: State, c: nat, e: Choice, l: nat, u: Use, x: Creation)
    requires TokenInv(s) && OnceInv(s, x) && c in s.calls && s.calls[c].pc == Using(l, u) && u.FinDrop?
    requires u.work.ids != []
    requires Still(s, CleanupStep(s, c, e, l, u), c)
    ensures OnceInv(CleanupStep(s, c, e, l, u), x)
  {
    var v := CleanupStep(s, c, e, l, u);
    assert CallOpen(s, s.calls[c], x);
    Drops(s, c, e, l, u);
    assert StaysOwned(s, v, c, x);
    OnceKept(s, v, c, x);
  }

  lemma Drops(s: State, c: nat, e: Choice, l: nat, u: Use)
    requires c in s.calls && s.calls[c].pc == Using(l, u) && u.FinDrop? && u.work.ids != []
    ensures var v := CleanupStep(s, c, e, l, u);
            && v.owned == Disown(s.owned, LeaseKey(s, l), u.work.ids[0]) && v.closed == s.closed
            && v.created == s.created
            && v.leases == s.leases
            && c in v.calls && v.calls[c] == Call(s.calls[c].p, Using(l, FinLoop(u.work.(ids := u.work.ids[1..]))))
  {
  }

  lemma CloseOnce(s: State, c: nat, e: Choice, l: nat, u: Use, x: Creation)
    requires TokenInv(s) && PagesInv(s) && OnceInv(s, x) && Apart(s, x) && c in s.calls && s.calls[c].pc == Using(l, u)
    requires u.FinClose? && u.work.ids != [] && e.ok && Still(s, CleanupStep(s, c, e, l, u), c)
    ensures OnceInv(CleanupStep(s, c, e, l, u), x)
  {
    var v := CleanupStep(s, c, e, l, u);
    var closing := AsCreated(s, l, u.work.ids[0]);
    assert CallOpen(s, s.calls[c], x) && CallPages(s, s.calls[c]);
    Closing(s, c, e, l, u);
    ClosedOpen(s, c, l, u, v, x);
    OnceKept(s, v, c, x);
  }

  lemma Closing(s: State, c: nat, e: Choice, l: nat, u: Use)
    requires TokenInv(s) && c in s.calls && s.calls[c].pc == Using(l, u) && CallPages(s, s.calls[c])
    requires u.FinClose? && u.work.ids != [] && e.ok
    ensures var v, closing := CleanupStep(s, c, e, l, u), AsCreated(s, l, u.work.ids[0]);
            && v.closed == s.closed + {closing} && v.created == s.created && v.owned == s.owned && v.leases == s.leases
            && c in v.calls && v.calls[c] == Call(s.calls[c].p, Using(l, FinDrop(u.work)))
            && Cleans(s, c, closing) && closing in s.created
  {
    var p := Placed(s, c);
  }

  lemma ClosedOpen(s: State, c: nat, l: nat, u: Use, v: State, x: Creation)
    requires c in s.calls && s.calls[c].pc == Using(l, u) && u.FinClose? && u.work.ids != []
    requires CallOpen(s, s.calls[c], x)
    requires v.leases == s.leases && v.closed == s.closed + {AsCreated(s, l, u.work.ids[0])}
    ensures CallOpen(v, Call(s.calls[c].p, Using(l, FinDrop(u.work))), x)
  {
    assert forall i :: 1 <= i < |u.work.ids| ==> u.work.ids[i] != u.work.ids[0];
  }

  lemma OutsideOnce(s: State, a: Move, x: Creation)
    requires TokenInv(s) && OnceInv(s, x) && Outside(a)
    ensures OnceInv(Step(s, a), x)
  {
    var c := Fresh(s.calls.Keys);
    OutsideStill(s, a);
    Unclosed(s, Step(s, a), c, x);
  }

  lemma BeginOnce(s: State, a: Move, x: Creation)
    requires TokenInv(s) && OnceInv(s, x) && Begins(a) && a.c !in s.calls
    ensures OnceInv(Begin(s, a), x)
  {
    BeginFrame(s, a);
    BeginCloses(s, a);
    Unclosed(s, Begin(s, a), a.c, x);
  }

  lemma BeginCloses(s: State, a: Move)
    requires Begins(a)
    ensures Begin(s, a).closed == s.closed && forall x :: OwnsAs(Begin(s, a), x) ==> OwnsAs(s, x)
  {
    if a.StartFinish? {
      var t := Begin(s, a);
      assert t.owned == s.owned || t.owned == s.owned - {KeyOf(a.task)};
    } else {
      assert Begin(s, a).owned == s.owned && Begin(s, a).closed == s.closed;
    }
  }

  lemma PagelessOnce(s: State, c: nat, e: Choice, x: Creation)
    requires TokenInv(s) && OnceInv(s, x) && c in s.calls && ForPageless(s.calls[c].pc)
    ensures OnceInv(Progress(s, c, e), x)
  {
    ProgressStill(s, c, e);
    ProgressPageless(s, c, e);
    assert WorkOf(s.calls[c].pc) == None;
    Unclosed(s, Progress(s, c, e), c, x);
  }

  /** The page an operation made becomes the task's own. */
  lemma OwnPageOnce(s: State, c: nat, l: nat, x: Creation)
    requires TokenInv(s) && OnceInv(s, x) && c in s.calls && s.calls[c].pc == Using(l, OwnPage)
    ensures OnceInv(PageStep(s, c, l, OwnPage), x)
  {
    var p := Placed(s, c);
    PageStill(s, c, l, OwnPage);
    RecordsAnew(s, PageStep(s, c, l, OwnPage), c, LeaseKey(s, l), s.leases[l].ref, x);
  }

  lemma StepKeepsOnce(s: State, a: Move, x: Creation)
    requires TokenInv(s) && PagesInv(s) && OnceInv(s, x) && Apart(s, x) && Apart(Step(s, a), x)
    ensures OnceInv(Step(s, a), x)
  {
    if Outside(a) {
      OutsideOnce(s, a, x);
    } else if Begins(a) {
      if a.c !in s.calls { BeginOnce(s, a, x); }
    } else if a.c in s.calls {
      var pc := s.calls[a.c].pc;
      if ForPageless(pc) { PagelessOnce(s, a.c, a.e, x); }
      else if pc.Run? { RunningOnce(s, a.c, a.e, pc.r, x); }
      else if pc.u.Held? { HeldOnce(s, a.c, a.e, pc.l, pc.u.op, x); }
      else if pc.u.OwnPage? { OwnPageOnce(s, a.c, pc.l, x); }
      else { CleanupOnce(s, a.c, a.e, pc.l, pc.u, x); }
    }
  }

  // ---- every run ----

  /** At no point of the run do two calls clean up for the task on that server and generation. */
  ghost predicate ApartRun(actions: seq<Move>, x: Creation) {
    Apart(Runs(INITIAL, actions), x) && (actions != [] ==> ApartRun(actions[..|actions| - 1], x))
  }

  lemma {:induction false} OnceAlways(actions: seq<Move>, x: Creation)
    requires ApartRun(actions, x)
    ensures OnceInv(Runs(INITIAL, actions), x)
  {
    if actions != [] {
      var before := actions[..|actions| - 1];
      OnceAlways(before, x);
      TokensAlways(before);
      PagesAlways(before);
      StepKeepsOnce(Runs(INITIAL, before), actions[|actions| - 1], x);
    }
  }

  // ---- what it means ----

  predicate AboutToClose(s: State, c: nat) {
    c in s.calls && s.calls[c].pc.Using? && s.calls[c].pc.u.FinClose?
  }

  /** The page a call is about to close, as its task would have recorded it. */
  function ToBeClosed(s: State, c: nat): Creation
    requires AboutToClose(s, c) && s.calls[c].pc.u.work.ids != []
  {
    AsCreated(s, s.calls[c].pc.l, s.calls[c].pc.u.work.ids[0])
  }

  /** A page about to be closed was not closed for the same task before, unless it was recorded as created
      again since - provided no two cleanups of the task on its server and generation ever overlapped. */
  lemma NeverClosedTwice(actions: seq<Move>, c: nat)
    requires AboutToClose(Runs(INITIAL, actions), c)
    ensures var s := Runs(INITIAL, actions);
            s.calls[c].pc.u.work.ids != [] && (ApartRun(actions, ToBeClosed(s, c)) ==> ToBeClosed(s, c) !in s.closed)
  {
    var s := Runs(INITIAL, actions);
    PagesAlways(actions);
    TokensAlways(actions);
    var p := Placed(s, c);
    assert CallPages(s, s.calls[c]);
    var x := ToBeClosed(s, c);
    if ApartRun(actions, x) {
      OnceAlways(actions, x);
      assert CallOpen(s, s.calls[c], x);
    }
  }

  /** A page that only one task ever recorded on a server and generation is not closed twice by anybody. */
  lemma NeverClosedTwiceByAnyone(actions: seq<Move>, c: nat, y: Creation)
    requires AboutToClose(Runs(INITIAL, actions), c)
    requires var s := Runs(INITIAL, actions);
             forall x, z :: x in s.created && z in s.created
                            && x.page == z.page && x.server == z.server && x.gen == z.gen ==>
               x.key == z.key
    ensures var s := Runs(INITIAL, actions);
            s.calls[c].pc.u.work.ids != []
            && (var x := ToBeClosed(s, c);
                ApartRun(actions, x) && y.page == x.page && y.server == x.server && y.gen == x.gen ==> y !in s.closed)
  {
    var s := Runs(INITIAL, actions);
    NeverClosedTwice(actions, c);
    ClosesOnlyOwnPages(actions, c);
    if ApartRun(actions, ToBeClosed(s, c)) { OnceAlways(actions, ToBeClosed(s, c)); }
  }

  // ---- when cleanups cannot overlap ----

  /** All leases of the task on that server and generation are on one profile. */
  ghost predicate Solo(s: State, x: Creation) {
    forall l, m {:trigger Serves(s, l, x), Serves(s, m, x)} ::
      Serves(s, l, x) && Serves(s, m, x) ==> s.leases[l].profile == s.leases[m].profile
  }

  lemma SoloIsApart(s: State, x: Creation)
    requires TokenInv(s) && Solo(s, x)
    ensures Apart(s, x)
  {
    forall c, d | Cleans(s, c, x) && Cleans(s, d, x) ensures c == d {
      var l, m := s.calls[c].pc.l, s.calls[d].pc.l;
      var p := Before(s, c, l);
      assert CallShape(s, s.calls[d]) && Serves(s, l, x) && Serves(s, m, x);
      assert Holds(s, p, ByLease(l)) <==> ByLease(l) == s.profiles[p].holder;
      assert Holds(s, p, ByLease(m)) <==> ByLease(m) == s.profiles[p].holder;
      assert Operates(s, l, d) <==> s.leases[l].worker == Some(d);
    }
  }

  lemma SoloBefore(s: State, t: State, x: Creation)
    requires LeasesKept(s, t) && Solo(t, x)
    ensures Solo(s, x)
  {
    forall l, m | Serves(s, l, x) && Serves(s, m, x) ensures s.leases[l].profile == s.leases[m].profile {
      assert Serves(t, l, x) && Serves(t, m, x);
    }
  }

  /** On one profile cleanups never overlap. */
  lemma {:induction false} SoloNeverOverlaps(actions: seq<Move>, x: Creation)
    requires Solo(Runs(INITIAL, actions), x)
    ensures ApartRun(actions, x)
  {
    TokensAlways(actions);
    SoloIsApart(Runs(INITIAL, actions), x);
    if actions != [] {
      var before, a := actions[..|actions| - 1], actions[|actions| - 1];
      TokensAlways(before);
      if Outside(a) { OutsideStill(Runs(INITIAL, before), a); } else { StepStill(Runs(INITIAL, before), a); }
      SoloBefore(Runs(INITIAL, before), Runs(INITIAL, actions), x);
      SoloNeverOverlaps(before, x);
    }
  }

  /** In every run: a task whose leases on a server and generation are on one profile never closes a page
      there twice. A task confined to one profile is such a task. */
  lemma NeverClosedTwiceOnOneProfile(actions: seq<Move>, c: nat)
    requires AboutToClose(Runs(INITIAL, actions), c)
    ensures var s := Runs(INITIAL, actions);
            s.calls[c].pc.u.work.ids != []
            && (Solo(s, ToBeClosed(s, c)) || Confined(s, ToBeClosed(s, c).key) ==> ToBeClosed(s, c) !in s.closed)
  {
    var s := Runs(INITIAL, actions);
    NeverClosedTwice(actions, c);
    var x := ToBeClosed(s, c);
    if Solo(s, x) || Confined(s, x.key) {
      assert Solo(s, x);
      SoloNeverOverlaps(actions, x);
    }
  }

  // ---- the history says what it should ----

  /** The driver acknowledges the close of the first page of a work list. */
  predicate Acknowledged(s: State, a: Move, x: Creation) {
    a.Advance? && a.c in s.calls && s.calls[a.c].pc.Using? && s.calls[a.c].pc.u.FinClose? && a.e.ok
    && s.calls[a.c].pc.u.work.ids != [] && x == AsCreated(s, s.calls[a.c].pc.l, s.calls[a.c].pc.u.work.ids[0])
  }

  /** The step records the page as created by the task: a published Acquire of a new page, or the section
      that takes ownership of a page an operation made. */
  predicate Records(s: State, a: Move, x: Creation) {
    a.Advance? && a.c in s.calls
    && (var pc := s.calls[a.c].pc;
        if pc.Run? then
          pc.r.AcqPublish? && pc.r.newPage && ProfileOf(s, s.calls[a.c].p).live
          && ProfileOf(s, s.calls[a.c].p).ref.gen == pc.r.ref.gen
          && x == Creation(KeyOf(pc.r.task), pc.r.ref.page, pc.r.ref.server, pc.r.ref.gen)
        else pc.Using? && pc.u.OwnPage? && x == AsCreated(s, pc.l, LeaseOf(s, pc.l).ref.page))
  }

  /** The history says what it should: a page is in it exactly from an acknowledged close to the next
      recording. */
  lemma ClosedExactly(s: State, a: Move, x: Creation)
    ensures x in Step(s, a).closed <==> Acknowledged(s, a, x) || (x in s.closed && !Records(s, a, x))
  {
    if a.Advance? && a.c in s.calls {
      var c, e, pc := a.c, a.e, s.calls[a.c].pc;
      if pc.Run? {
        RunningHistory(s, c, e, pc.r, x);
      } else if pc.Using? {
        UseHistory(s, c, e, pc.l, pc.u, x);
      } else {
        WaitingCloses(s, c, e);
      }
    } else if Begins(a) && a.c !in s.calls {
      BeginCloses(s, a);
    }
  }

  lemma WaitingCloses(s: State, c: nat, e: Choice)
    requires c in s.calls && !s.calls[c].pc.Run? && !s.calls[c].pc.Using?
    ensures Progress(s, c, e).closed == s.closed
  {
    match s.calls[c].pc
    case Ask(l, op) => AskPageless(s, c, e, l, op);
    case Close(z, repl) => ClosePageless(s, c, e, z, repl);
    case Replace(y) => ReplacePageless(s, c, e, y);
    case Queue(q) => QueuePageless(s, c, e, q);
  }

  lemma RunningHistory(s: State, c: nat, e: Choice, r: Running, x: Creation)
    requires c in s.calls && s.calls[c].pc == Run(r)
    ensures x in RunningStep(s, c, e, r).closed <==> x in s.closed && !Records(s, Advance(c, e), x)
  {
  }

  lemma UseHistory(s: State, c: nat, e: Choice, l: nat, u: Use, x: Creation)
    requires c in s.calls && s.calls[c].pc == Using(l, u)
    ensures x in UseStep(s, c, e, l, u).closed <==>
            Acknowledged(s, Advance(c, e), x) || (x in s.closed && !Records(s, Advance(c, e), x))
  {
    if Paging(u) {
      assert PageStep(s, c, l, u).closed == PageEffect(s, l, u).closed;
    } else if Cleaning(u) {
      assert CleanupStep(s, c, e, l, u).closed == CleanupEffect(s, s.calls[c].p, e, l, u).closed;
    } else {
      OthersClose(s, c, e, l, u);
    }
  }

  lemma OthersClose(s: State, c: nat, e: Choice, l: nat, u: Use)
    requires c in s.calls && s.calls[c].pc == Using(l, u) && !Paging(u) && !Cleaning(u)
    ensures UseStep(s, c, e, l, u).closed == s.closed
  {
    if Executing(u) {
      ExecutePageless(s, c, e, l, u);
    } else if u.Held? {
      HeldGoes(s, c, e, l, u.op);
    } else if u.Return? {
      ReturnPageless(s, c, l, u.after);
    } else if Releasing(u) {
      ReleasePageless(s, c, l, u);
    } else {
      MarkCloses(s, c, l, u);
    }
  }

  lemma MarkCloses(s: State, c: nat, l: nat, u: Use)
    requires c in s.calls && Marking(u)
    ensures MarkStep(s, c, l, u).closed == s.closed
  {
  }
}
