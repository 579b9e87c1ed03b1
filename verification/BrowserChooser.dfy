/** A pending file chooser: until it is cleared, the profile only uploads and closes no page. */
module BrowserChooser {
  import opened Wrappers
  import opened BrowserState
  import opened BrowserSteps
  import opened BrowserGate

  predicate Fades(before: Option<Chooser>, after: Option<Chooser>) {
    after.None? || after == before
  }

  /** What a call relies on, given the chooser of its profile and the lease it uses. */
  ghost predicate PcChooser(pc: Pc, chooser: Option<Chooser>, v: Lease) {
    if pc.Run? then
      (pc.r.AcqBind? ==> chooser.None? || (pc.r.continuing && Matches(chooser, pc.r.ref, pc.r.task.owner)))
      && (pc.r.AcqPublish? ==> chooser.None? || Matches(chooser, pc.r.ref, pc.r.task.owner))
    else if pc.Ask? then pc.op.Exec? ==> !v.cleanup
    else pc.Using? ==> UseChooser(pc.u, chooser, v)
  }

  /** Points reached only through Execute, which needs a lease that was handed to a caller. */
  predicate ForCaller(u: Use) {
    (u.Held? && u.op.Exec?) || Executing(u) || Paging(u) || ((u.MarkLease? || u.MarkTask?) && u.next.ExecDone?)
  }

  ghost predicate UseChooser(u: Use, chooser: Option<Chooser>, v: Lease) {
    (ForCaller(u) ==> !v.cleanup)
    && (u.ExecReady? || u.ExecDispatch? ==> if u.pending then IsUpload(u.action) else chooser.None?)
    && (u.PageBound? || u.SetPage? ==> chooser.None?)
    && (u.FinCancel? || u.FinClear? ==> Fades(Some(u.chosen), chooser))
    && (u.FinLoop? || u.FinClose? || u.FinDrop? ==> chooser.None? || !NeedsClose(u.work, v.ref))
    && (u.FinClose? ==> u.work.ids != [] && Closable(u.work, v.ref, u.work.ids[0]))
  }

  ghost predicate CallChooser(s: State, k: Call) {
    PcChooser(k.pc, ProfileOf(s, k.p).chooser, if k.pc.Ask? || k.pc.Using? then LeaseOf(s, k.pc.l) else LeaseOf(s, 0))
  }

  /** A lease handed to a caller can only coexist with a chooser that is its own. */
  ghost predicate LeaseChooser(s: State, v: Lease) {
    !v.released && !v.cleanup && ProfileOf(s, v.profile).chooser.Some? ==>
      Matches(ProfileOf(s, v.profile).chooser, v.ref, v.task.owner)
  }

  ghost predicate ChooserInv(s: State) {
    (forall c {:trigger CallChooser(s, s.calls[c])} :: c in s.calls ==> CallChooser(s, s.calls[c]))
    && (forall l {:trigger LeaseChooser(s, s.leases[l])} :: l in s.leases ==> LeaseChooser(s, s.leases[l]))
  }

  // ---- elementary changes ----

  lemma Moved(s: State, c: nat, p: string, pc: Pc)
    requires ChooserInv(s) && CallChooser(s, Call(p, pc))
    ensures ChooserInv(Goto(s, c, p, pc))
  {
    var t := Goto(s, c, p, pc);
    forall d | d in t.calls ensures CallChooser(t, t.calls[d]) {
      assert d != c ==> CallChooser(s, s.calls[d]);
    }
    forall l | l in t.leases ensures LeaseChooser(t, t.leases[l]) {
      assert LeaseChooser(s, s.leases[l]);
    }
  }

  lemma Ended(s: State, c: nat)
    requires ChooserInv(s)
    ensures ChooserInv(End(s, c))
  {
    var t := End(s, c);
    forall d | d in t.calls ensures CallChooser(t, t.calls[d]) {
      assert CallChooser(s, s.calls[d]);
    }
    forall l | l in t.leases ensures LeaseChooser(t, t.leases[l]) {
      assert LeaseChooser(s, s.leases[l]);
    }
  }

  /** Profiles change, and each chooser stays or goes. */
  lemma Cleared(s: State, t: State)
    requires ChooserInv(s) && t.calls == s.calls && t.leases == s.leases
    requires forall p :: Fades(ProfileOf(s, p).chooser, ProfileOf(t, p).chooser)
    ensures ChooserInv(t)
  {
    forall d | d in t.calls ensures CallChooser(t, t.calls[d]) {
      assert CallChooser(s, s.calls[d]);
    }
    forall l | l in t.leases ensures LeaseChooser(t, t.leases[l]) {
      assert LeaseChooser(s, s.leases[l]);
    }
  }

  /** A lease keeps its page and kind; it may be released. */
  predicate Carried(v: Lease, w: Lease) {
    && w.ref == v.ref && w.task == v.task && w.cleanup == v.cleanup && w.profile == v.profile
    && (v.released ==> w.released)
  }

  /** Call `c` goes on, lease `l` keeps its page, and each chooser stays or goes. */
  lemma Went(s: State, t: State, c: nat, l: nat)
    requires ChooserInv(s) && SameBut(s.calls, t.calls, c) && SameBut(s.leases, t.leases, l)
    requires if l in s.leases then l in t.leases && Carried(s.leases[l], t.leases[l]) else l !in t.leases
    requires forall p :: Fades(ProfileOf(s, p).chooser, ProfileOf(t, p).chooser)
    requires c in t.calls ==> CallChooser(t, t.calls[c])
    ensures ChooserInv(t)
  {
    forall d | d in t.calls ensures CallChooser(t, t.calls[d]) {
      assert d != c ==> CallChooser(s, s.calls[d]);
    }
    forall m | m in t.leases ensures LeaseChooser(t, t.leases[m]) {
      assert LeaseChooser(s, s.leases[m]);
    }
  }

  /** Points that rely on nothing. */
  predicate Plain(pc: Pc) {
    if pc.Run? then !pc.r.AcqBind? && !pc.r.AcqPublish?
    else if pc.Ask? then !pc.op.Exec?
    else if pc.Using? then pc.u.Return? || Releasing(pc.u) || pc.u.ClearTask? || pc.u.ClearLease?
    else true
  }

  lemma WentPlain(s: State, t: State, c: nat, l: nat)
    requires ChooserInv(s) && SameBut(s.calls, t.calls, c) && SameBut(s.leases, t.leases, l)
    requires if l in s.leases then l in t.leases && Carried(s.leases[l], t.leases[l]) else l !in t.leases
    requires forall p :: Fades(ProfileOf(s, p).chooser, ProfileOf(t, p).chooser)
    requires c in t.calls ==> Plain(t.calls[c].pc)
    ensures ChooserInv(t)
  {
    Went(s, t, c, l);
  }

  /** While a call is using an unreleased lease, nobody else on the profile relies on the chooser. */
  lemma Alone(s: State, c: nat, l: nat)
    requires TokenInv(s) && c in s.calls && s.calls[c].pc.Using? && s.calls[c].pc.l == l && Working(s.calls[c].pc.u)
    ensures forall d :: d in s.calls && d != c && s.calls[d].p == s.calls[c].p ==>
              !s.calls[d].pc.Run? && (s.calls[d].pc.Using? ==> s.calls[d].pc.l != l && !Working(s.calls[d].pc.u))
    ensures forall m :: m in s.leases && m != l && s.leases[m].profile == s.calls[c].p ==> s.leases[m].released
  {
    var p := Before(s, c, l);
    forall d | d in s.calls && d != c && s.calls[d].p == p
      ensures !s.calls[d].pc.Run? && (s.calls[d].pc.Using? ==> s.calls[d].pc.l != l && !Working(s.calls[d].pc.u))
    {
      assert CallShape(s, s.calls[d]);
      assert Holds(s, p, ByCall(d)) <==> ByCall(d) == s.profiles[p].holder;
      if s.calls[d].pc.Using? {
        var m := s.calls[d].pc.l;
        assert Operates(s, l, d) <==> s.leases[l].worker == Some(d);
        assert Holds(s, p, ByLease(m)) <==> ByLease(m) == s.profiles[p].holder;
      }
    }
    forall m | m in s.leases && m != l && s.leases[m].profile == p ensures s.leases[m].released {
      assert Holds(s, p, ByLease(m)) <==> ByLease(m) == s.profiles[p].holder;
    }
  }

  /** The lone user of a profile changes its chooser, or the page of its lease, and goes on. */
  lemma Changed(s: State, t: State, c: nat, l: nat, u: Use)
    requires TokenInv(s) && ChooserInv(s)
    requires c in s.calls && s.calls[c].pc.Using? && s.calls[c].pc.l == l && Working(s.calls[c].pc.u)
    requires t.calls == s.calls[c := Call(s.calls[c].p, Using(l, u))]
    requires SameBut(s.leases, t.leases, l) && l in s.leases && l in t.leases
    requires t.leases[l].profile == s.leases[l].profile && t.leases[l].cleanup == s.leases[l].cleanup
    requires forall q :: q != s.calls[c].p ==> ProfileOf(t, q).chooser == ProfileOf(s, q).chooser
    requires CallChooser(t, t.calls[c]) && LeaseChooser(t, t.leases[l])
    ensures ChooserInv(t)
  {
    var p := Before(s, c, l);
    Alone(s, c, l);
    forall d | d in t.calls ensures CallChooser(t, t.calls[d]) {
      if d != c {
        assert CallChooser(s, s.calls[d]) && CallShape(s, s.calls[d]);
      }
    }
    forall m | m in t.leases ensures LeaseChooser(t, t.leases[m]) {
      if m != l {
        assert LeaseChooser(s, s.leases[m]);
      }
    }
  }

  // ---- the steps ----

  lemma RunningChooser(s: State, c: nat, e: Choice, r: Running)
    requires TokenInv(s) && ChooserInv(s) && c in s.calls && s.calls[c].pc == Run(r)
    ensures ChooserInv(RunningStep(s, c, e, r))
  {
    var p := Placed(s, c);
    assert CallChooser(s, s.calls[c]);
    match r
    case AcqGot(_, _, _) => Moved(s, c, p, Run(AfterGate(s.profiles[p], e, r)));
    case AcqBind(_, _, _, _, _, _) =>
      Moved(s, c, p, Run(AfterBind(e, r)));
      Cleared(Goto(s, c, p, Run(AfterBind(e, r))), RunningStep(s, c, e, r));
    case InspGot(_) => Moved(s, c, p, Run(GateReturn));
    case AcqPublish(_, _, _, _) => PublishChooser(s, c, e, r);
    case FinGot(_, _, _) => FinishChooser(s, c, e, r);
    case _ =>
      Moved(s, c, p, Run(GateReturn));
      Ended(s, c);
      if c !in RunningStep(s, c, e, r).calls { Cleared(End(s, c), RunningStep(s, c, e, r)); }
  }

  lemma PublishChooser(s: State, c: nat, e: Choice, r: Running)
    requires TokenInv(s) && ChooserInv(s) && c in s.calls && s.calls[c].pc == Run(r) && r.AcqPublish?
    ensures ChooserInv(RunningStep(s, c, e, r))
  {
    var p := Placed(s, c);
    assert CallChooser(s, s.calls[c]);
    if !s.profiles[p].live || s.profiles[p].ref.gen != r.ref.gen {
      Moved(s, c, p, Run(GateReturn));
    } else {
      Ended(s, c);
      Lending(s, End(s, c), c, RunningStep(s, c, e, r));
    }
  }

  lemma FinishChooser(s: State, c: nat, e: Choice, r: Running)
    requires TokenInv(s) && ChooserInv(s) && c in s.calls && s.calls[c].pc == Run(r) && r.FinGot?
    ensures ChooserInv(RunningStep(s, c, e, r))
  {
    var p := Placed(s, c);
    var pc := Ask(s.next, Finish(r.retain, true));
    Moved(s, c, p, pc);
    Lending(s, Goto(s, c, p, pc), c, RunningStep(s, c, e, r));
  }

  lemma Lending(s: State, u: State, c: nat, t: State)
    requires TokenInv(s) && ChooserInv(u) && u.leases == s.leases && u.profiles == s.profiles
    requires t.calls == u.calls && s.next in t.leases && t.leases == s.leases[s.next := t.leases[s.next]]
    requires forall d :: d in u.calls && d != c ==> d in s.calls && u.calls[d] == s.calls[d]
    requires c in t.calls ==> t.calls[c].pc.Ask? && t.calls[c].pc.op.Finish?
    requires forall p :: ProfileOf(t, p).chooser == ProfileOf(s, p).chooser
    requires LeaseChooser(s, t.leases[s.next])
    ensures ChooserInv(t)
  {
    assert s.next in s.leases ==> LeaseShape(s, s.next);
    forall d | d in t.calls ensures CallChooser(t, t.calls[d]) {
      assert CallChooser(u, u.calls[d]);
      assert d != c ==> CallShape(s, s.calls[d]);
    }
    forall m | m in t.leases ensures LeaseChooser(t, t.leases[m]) {
      assert m in s.leases ==> LeaseChooser(u, s.leases[m]);
    }
  }

  lemma ProceedChooser(s: State, c: nat, l: nat, u: Use)
    requires ChooserInv(s) && c in s.calls && CallChooser(s, Call(s.calls[c].p, Using(l, u)))
    ensures ChooserInv(Proceed(s, c, l, u))
  {
    Moved(s, c, s.calls[c].p, Using(l, u));
    Cleared(Goto(s, c, s.calls[c].p, Using(l, u)), Proceed(s, c, l, u));
  }

  lemma RecordChooser(s: State, c: nat, e: Choice, l: nat, u: Use)
    requires TokenInv(s) && ChooserInv(s) && c in s.calls && s.calls[c].pc == Using(l, u) && u.ExecRecord?
    ensures ChooserInv(ExecuteStep(s, c, e, l, u))
  {
    var p := Placed(s, c);
    assert CallChooser(s, s.calls[c]) && LeaseChooser(s, s.leases[l]);
    Changed(s, ExecuteStep(s, c, e, l, u), c, l, ExecuteNext(s, p, e, l, u));
  }

  lemma ExecuteChooser(s: State, c: nat, e: Choice, l: nat, u: Use)
    requires TokenInv(s) && ChooserInv(s) && c in s.calls && s.calls[c].pc == Using(l, u) && Executing(u)
    ensures ChooserInv(ExecuteStep(s, c, e, l, u))
  {
    if u.ExecRecord? {
      RecordChooser(s, c, e, l, u);
    } else {
      var p := Placed(s, c);
      assert CallChooser(s, s.calls[c]);
      var t := ExecuteEffect(s, p, e, l, u);
      Cleared(s, t);
      ProceedChooser(t, c, l, ExecuteNext(s, p, e, l, u));
    }
  }

  lemma PageChooser(s: State, c: nat, l: nat, u: Use)
    requires TokenInv(s) && ChooserInv(s) && c in s.calls && s.calls[c].pc == Using(l, u) && Paging(u)
    ensures ChooserInv(PageStep(s, c, l, u))
  {
    var p := Placed(s, c);
    assert CallChooser(s, s.calls[c]) && LeaseChooser(s, s.leases[l]);
    if u.SetPage? {
      Changed(s, PageStep(s, c, l, u), c, l, PageNext(s, p, l, u));
    } else {
      var t := PageEffect(s, l, u);
      Cleared(s, t);
      ProceedChooser(t, c, l, PageNext(s, p, l, u));
    }
  }

  lemma MarkChooser(s: State, c: nat, l: nat, u: Use)
    requires TokenInv(s) && ChooserInv(s) && c in s.calls && s.calls[c].pc == Using(l, u) && Marking(u)
    ensures ChooserInv(MarkStep(s, c, l, u))
  {
    var p := Placed(s, c);
    assert CallChooser(s, s.calls[c]);
    var t := MarkEffect(s, l, u);
    Went(s, t, c, l);
    ProceedChooser(t, c, l, MarkNext(u));
  }

  /** Closing pages starts with no chooser pending, or with nothing to close. */
  lemma CleanupRelies(s: State, p: string, e: Choice, l: nat, u: Use)
    requires Cleaning(u) && UseChooser(u, ProfileOf(s, p).chooser, LeaseOf(s, l))
    ensures UseChooser(CleanupNext(s, p, e, l, u), ProfileOf(CleanupEffect(s, p, e, l, u), p).chooser, LeaseOf(s, l))
  {
    var ref := LeaseOf(s, l).ref;
    if u.FinDrop? && u.work.ids != [] {
      var rest := u.work.(ids := u.work.ids[1..]);
      if i :| 0 <= i < |rest.ids| && Closable(rest, ref, rest.ids[i]) {
        assert Closable(u.work, ref, u.work.ids[i + 1]);
      }
    } else if u.FinLoop? && u.work.ids != [] && Closable(u.work, ref, u.work.ids[0]) {
      assert NeedsClose(u.work, ref);
    }
  }

  lemma CleanupChooser(s: State, c: nat, e: Choice, l: nat, u: Use)
    requires TokenInv(s) && ChooserInv(s) && c in s.calls && s.calls[c].pc == Using(l, u) && Cleaning(u)
    ensures ChooserInv(CleanupStep(s, c, e, l, u))
  {
    var p := s.calls[c].p;
    assert CallChooser(s, s.calls[c]);
    CleanupRelies(s, p, e, l, u);
    Cleared(s, CleanupEffect(s, p, e, l, u));
    ProceedChooser(CleanupEffect(s, p, e, l, u), c, l, CleanupNext(s, p, e, l, u));
  }

  lemma ReleaseChooser(s: State, c: nat, l: nat, u: Use)
    requires TokenInv(s) && ChooserInv(s) && c in s.calls && s.calls[c].pc == Using(l, u) && Releasing(u)
    ensures ChooserInv(ReleaseStep(s, c, l, u))
  {
    var p := Placed(s, c);
    WentPlain(s, ReleaseStep(s, c, l, u), c, l);
  }

  lemma ContinueChooser(s: State, c: nat, p: string, l: nat, after: After)
    requires ChooserInv(s)
    ensures ChooserInv(Continue(s, c, p, l, after))
  {
    match after
    case Stop => WentPlain(s, End(s, c), c, l);
    case ReleaseNext => WentPlain(s, Goto(s, c, p, Ask(l, Release(Stop))), c, l);
    case Drain(gen, repl) => WentPlain(s, Goto(s, c, p, Close(CloseDrain(gen), repl)), c, l);
    case Abort(repl) => WentPlain(s, CloseAbort(s, c, p, repl), c, l);
  }

  lemma AskChooser(s: State, c: nat, e: Choice, l: nat, op: Op)
    requires TokenInv(s) && ChooserInv(s) && c in s.calls && s.calls[c].pc == Ask(l, op)
    ensures ChooserInv(AskStep(s, c, e, l, op))
  {
    var p := Placed(s, c);
    if !e.ok {
      ContinueChooser(s, c, p, l, AfterCancel(op));
    } else if s.leases[l].op > 0 {
      assert CallChooser(s, s.calls[c]);
      Went(s, AskStep(s, c, e, l, op), c, l);
    }
  }

  lemma ReturnChooser(s: State, c: nat, l: nat, after: After)
    requires TokenInv(s) && ChooserInv(s) && c in s.calls && s.calls[c].pc == Using(l, Return(after))
    ensures ChooserInv(ReturnStep(s, c, l, after))
  {
    var p := Placed(s, c);
    var t := WithLease(s, l, s.leases[l].(op := s.leases[l].op + 1, worker := None));
    assert CallChooser(s, s.calls[c]);
    WentPlain(s, t, c, l);
    ContinueChooser(t, c, p, l, after);
  }

  lemma HeldChooser(s: State, c: nat, e: Choice, l: nat, op: Op)
    requires TokenInv(s) && ChooserInv(s) && c in s.calls && s.calls[c].pc == Using(l, Held(op))
    ensures ChooserInv(HeldStep(s, c, e, l, op))
  {
    var p := Placed(s, c);
    assert CallChooser(s, s.calls[c]) && LeaseChooser(s, s.leases[l]);
    ProceedChooser(s, c, l, HeldNext(s, p, e, l, op));
  }

  lemma QueueChooser(s: State, c: nat, e: Choice, q: Queued)
    requires TokenInv(s) && ChooserInv(s) && c in s.calls && s.calls[c].pc == Queue(q)
    ensures ChooserInv(QueueStep(s, c, e, q))
  {
    var p := Placed(s, c);
    WentPlain(s, QueueStep(s, c, e, q), c, s.next);
  }

  lemma CloseChooser(s: State, c: nat, e: Choice, z: Closing, repl: bool)
    requires TokenInv(s) && ChooserInv(s) && c in s.calls && s.calls[c].pc == Close(z, repl)
    ensures ChooserInv(CloseStep(s, c, e, z, repl))
  {
    var p := Placed(s, c);
    CloseFades(s, c, e, z, repl);
    WentPlain(s, CloseStep(s, c, e, z, repl), c, s.next);
  }

  lemma CloseFades(s: State, c: nat, e: Choice, z: Closing, repl: bool)
    requires c in s.calls && s.calls[c].pc == Close(z, repl) && s.calls[c].p in s.profiles
    ensures var t := CloseStep(s, c, e, z, repl);
            && SameBut(s.calls, t.calls, c) && t.leases == s.leases && (c in t.calls ==> Plain(t.calls[c].pc))
            && forall p :: Fades(ProfileOf(s, p).chooser, ProfileOf(t, p).chooser)
  {
    if z.CloseConfirm? {
      assert forall p :: Fades(ProfileOf(s, p).chooser,
                               ProfileOf(s.(profiles := ConfirmIn(s.profiles, s.calls[c].p, z.gen)), p).chooser);
    } else if z.CloseDrain? {
      DrainFades(s, c, e, z, repl);
    } else {
      CloseKeeps(s, c, e, z, repl);
    }
  }

  lemma DrainFades(s: State, c: nat, e: Choice, z: Closing, repl: bool)
    requires c in s.calls && s.calls[c].pc == Close(z, repl) && s.calls[c].p in s.profiles && z.CloseDrain?
    ensures var t := CloseStep(s, c, e, z, repl);
            && SameBut(s.calls, t.calls, c) && t.leases == s.leases && (c in t.calls ==> Plain(t.calls[c].pc))
            && forall p :: ProfileOf(t, p).chooser == ProfileOf(s, p).chooser
  {
    if e.ok {
      TakeFades(s, c, s.calls[c].p, Close(CloseDrained(z.gen), repl));
    }
  }

  /** Taking the gate token touches no chooser. */
  lemma TakeFades(s: State, c: nat, p: string, pc: Pc)
    requires p in s.profiles
    ensures var t := TakeGate(s, c, p, pc);
            && SameBut(s.calls, t.calls, c) && t.leases == s.leases && t.profiles.Keys == s.profiles.Keys
            && (t == s || (c in t.calls && t.calls[c] == Call(p, pc)))
            && forall q :: q in s.profiles ==> t.profiles[q].chooser == s.profiles[q].chooser
  {
  }

  lemma CloseKeeps(s: State, c: nat, e: Choice, z: Closing, repl: bool)
    requires c in s.calls && s.calls[c].pc == Close(z, repl) && s.calls[c].p in s.profiles
    requires z.CloseStop? || z.CloseDrained?
    ensures var t := CloseStep(s, c, e, z, repl);
            && SameBut(s.calls, t.calls, c) && t.leases == s.leases && (c in t.calls ==> Plain(t.calls[c].pc))
            && forall p :: ProfileOf(t, p).chooser == ProfileOf(s, p).chooser
  {
  }

  lemma ReplaceChooser(s: State, c: nat, e: Choice, y: Replacing)
    requires TokenInv(s) && ChooserInv(s) && c in s.calls && s.calls[c].pc == Replace(y)
    ensures ChooserInv(ReplaceStep(s, c, e, y))
  {
    var p := Placed(s, c);
    WentPlain(s, ReplaceStep(s, c, e, y), c, s.next);
  }

  lemma BeginChooser(s: State, a: Move)
    requires TokenInv(s) && ChooserInv(s)
    requires Begins(a) && a.c !in s.calls
    ensures ChooserInv(Begin(s, a))
  {
    BeginFrame(s, a);
    BeginFades(s, a);
    Went(s, Begin(s, a), a.c, s.next);
  }

  lemma BeginFades(s: State, a: Move)
    requires Begins(a) && a.c !in s.calls
    ensures var t := Begin(s, a);
            && (forall p :: ProfileOf(t, p).chooser == ProfileOf(s, p).chooser)
            && (a.c in t.calls ==> CallChooser(t, t.calls[a.c]))
  {
  }

  lemma StepKeepsChooser(s: State, a: Move)
    requires TokenInv(s) && ChooserInv(s)
    ensures ChooserInv(Step(s, a))
  {
    if Outside(a) {
      Cleared(s, Step(s, a));
    } else if a.Advance? {
      if a.c in s.calls {
        var pc := s.calls[a.c].pc;
        if pc.Queue? { QueueChooser(s, a.c, a.e, pc.q); }
        else if pc.Run? { RunningChooser(s, a.c, a.e, pc.r); }
        else if pc.Close? { CloseChooser(s, a.c, a.e, pc.z, pc.repl); }
        else if pc.Replace? { ReplaceChooser(s, a.c, a.e, pc.y); }
        else if pc.Ask? { AskChooser(s, a.c, a.e, pc.l, pc.op); }
        else if pc.u.Held? { HeldChooser(s, a.c, a.e, pc.l, pc.u.op); }
        else if pc.u.Return? { ReturnChooser(s, a.c, pc.l, pc.u.after); }
        else if Executing(pc.u) { ExecuteChooser(s, a.c, a.e, pc.l, pc.u); }
        else if Paging(pc.u) { PageChooser(s, a.c, pc.l, pc.u); }
        else if Marking(pc.u) { MarkChooser(s, a.c, pc.l, pc.u); }
        else if Releasing(pc.u) { ReleaseChooser(s, a.c, pc.l, pc.u); }
        else { CleanupChooser(s, a.c, a.e, pc.l, pc.u); }
      }
    } else if a.c !in s.calls {
      BeginChooser(s, a);
    }
  }

  lemma {:induction false} ChooserAlways(actions: seq<Move>)
    ensures ChooserInv(Runs(INITIAL, actions))
  {
    if actions != [] {
      ChooserAlways(actions[..|actions| - 1]);
      TokensAlways(actions[..|actions| - 1]);
      StepKeepsChooser(Runs(INITIAL, actions[..|actions| - 1]), actions[|actions| - 1]);
    }
  }

  // ---- what it means ----

  /** While a chooser is pending on a profile, every action about to be dispatched to the driver on it
      is a file upload, the cancelling upload of a cleanup is for that very chooser, and no page is
      about to be closed. */
  lemma ChooserExcludesOtherActions(actions: seq<Move>, c: nat)
    requires var s := Runs(INITIAL, actions);
             c in s.calls && s.calls[c].pc.Using? && ProfileOf(s, s.calls[c].p).chooser.Some?
    ensures var s := Runs(INITIAL, actions);
            var u := s.calls[c].pc.u;
            (u.ExecDispatch? ==> IsUpload(u.action))
            && (u.FinCancel? ==> ProfileOf(s, s.calls[c].p).chooser == Some(u.chosen))
            && !u.FinClose?
  {
    ChooserAlways(actions);
    var s := Runs(INITIAL, actions);
    assert CallChooser(s, s.calls[c]);
    var u, ref := s.calls[c].pc.u, LeaseOf(s, s.calls[c].pc.l).ref;
    assert u.FinClose? ==> Closable(u.work, ref, u.work.ids[0]);
    assert u.FinClose? ==> NeedsClose(u.work, ref);
  }

  /** A caller that gets a lease while a chooser is pending gets it on the chooser's own page, for the
      chooser's own owner and generation. */
  lemma ChooserIsInherited(actions: seq<Move>, l: nat)
    requires var s := Runs(INITIAL, actions);
             l in s.leases && !s.leases[l].released && !s.leases[l].cleanup
             && ProfileOf(s, s.leases[l].profile).chooser.Some?
    ensures var s := Runs(INITIAL, actions);
            Matches(ProfileOf(s, s.leases[l].profile).chooser, s.leases[l].ref, s.leases[l].task.owner)
  {
    ChooserAlways(actions);
    var s := Runs(INITIAL, actions);
    assert LeaseChooser(s, s.leases[l]);
  }
}
