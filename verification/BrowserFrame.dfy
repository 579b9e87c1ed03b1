/** What every step leaves alone: the calls that do not move, and what a lease is of. */
module BrowserFrame {
  import opened Wrappers
  import opened BrowserState
  import opened BrowserSteps
  import opened BrowserGate

  /** A lease stays of its task, profile, session and kind; its page may change, and it may be released. */
  predicate SameLease(v: Lease, w: Lease) {
    && w.task == v.task && w.profile == v.profile && w.cleanup == v.cleanup && (v.released ==> w.released)
    && w.ref == v.ref.(page := w.ref.page)
  }

  ghost predicate LeasesKept(s: State, t: State) {
    forall l :: l in s.leases ==> l in t.leases && SameLease(s.leases[l], t.leases[l])
  }

  /** The call is about to put lease l on another page. */
  predicate Turns(s: State, c: nat, l: nat) {
    c in s.calls && s.calls[c].pc.Using? && s.calls[c].pc.l == l && s.calls[c].pc.u.SetPage?
  }

  ghost predicate RefsKept(s: State, t: State, c: nat) {
    forall l :: l in s.leases && l in t.leases && !Turns(s, c, l) ==> t.leases[l].ref == s.leases[l].ref
  }

  /** At most call c moves, no lease becomes another, and only c may put one on another page. */
  ghost predicate Still(s: State, t: State, c: nat) {
    SameBut(s.calls, t.calls, c) && LeasesKept(s, t) && RefsKept(s, t, c)
  }

  /** ... and no lease is lent. */
  ghost predicate Fixed(s: State, t: State, c: nat) {
    Still(s, t, c) && t.leases.Keys == s.leases.Keys
  }

  /** The call a step belongs to; a call of one section is none. */
  function Mover(a: Move): Option<nat> { if Outside(a) then None else Some(a.c) }

  lemma OutsideStill(s: State, a: Move)
    requires Outside(a)
    ensures Step(s, a).calls == s.calls && Step(s, a).leases == s.leases
  {
  }

  lemma StepStill(s: State, a: Move)
    requires TokenInv(s) && !Outside(a)
    ensures Still(s, Step(s, a), a.c)
    ensures !(a.Advance? && a.c in s.calls && s.calls[a.c].pc.Run?) ==> Fixed(s, Step(s, a), a.c)
  {
    if a.Advance? && a.c in s.calls {
      ProgressStill(s, a.c, a.e);
    } else if Begins(a) && a.c !in s.calls {
      BeginFrame(s, a);
    }
  }

  lemma ProgressStill(s: State, c: nat, e: Choice)
    requires TokenInv(s) && c in s.calls
    ensures Still(s, Progress(s, c, e), c) && (!s.calls[c].pc.Run? ==> Fixed(s, Progress(s, c, e), c))
  {
    var p := Placed(s, c);
    match s.calls[c].pc
    case Using(l, u) => UseStill(s, c, e, l, u);
    case Run(r) => RunningStill(s, c, e, r);
    case Close(z, repl) => CloseStill(s, c, e, z, repl);
    case Ask(l, op) => AskStill(s, c, e, l, op);
    case Queue(q) => QueueStill(s, c, e, q);
    case Replace(y) => ReplaceStill(s, c, e, y);
  }

  lemma QueueStill(s: State, c: nat, e: Choice, q: Queued)
    requires c in s.calls
    ensures Fixed(s, QueueStep(s, c, e, q), c)
  {
  }

  lemma RunningStill(s: State, c: nat, e: Choice, r: Running)
    requires TokenInv(s) && c in s.calls && s.calls[c].pc == Run(r)
    ensures Still(s, RunningStep(s, c, e, r), c)
  {
    var p := Before(s, c, s.next);
    RunningLeases(s, c, e, r);
  }

  lemma RunningLeases(s: State, c: nat, e: Choice, r: Running)
    requires c in s.calls && s.calls[c].pc == Run(r)
    ensures var t := RunningStep(s, c, e, r);
            && SameBut(s.calls, t.calls, c)
            && (t.leases == s.leases || (s.next in t.leases && t.leases == s.leases[s.next := t.leases[s.next]]))
  {
    if r.AcqPublish? {
      PublishLeases(s, c, e, r);
    } else if r.FinGot? {
      FinishLeases(s, c, e, r);
    }
  }

  lemma PublishLeases(s: State, c: nat, e: Choice, r: Running)
    requires c in s.calls && s.calls[c].pc == Run(r) && r.AcqPublish?
    ensures var t := RunningStep(s, c, e, r);
            && SameBut(s.calls, t.calls, c)
            && (t.leases == s.leases || (s.next in t.leases && t.leases == s.leases[s.next := t.leases[s.next]]))
  {
  }

  lemma FinishLeases(s: State, c: nat, e: Choice, r: Running)
    requires c in s.calls && s.calls[c].pc == Run(r) && r.FinGot?
    ensures var t := RunningStep(s, c, e, r);
            SameBut(s.calls, t.calls, c) && s.next in t.leases && t.leases == s.leases[s.next := t.leases[s.next]]
  {
  }

  lemma CloseStill(s: State, c: nat, e: Choice, z: Closing, repl: bool)
    requires c in s.calls
    ensures Fixed(s, CloseStep(s, c, e, z, repl), c)
  {
  }

  lemma ReplaceStill(s: State, c: nat, e: Choice, y: Replacing)
    requires c in s.calls
    ensures Fixed(s, ReplaceStep(s, c, e, y), c)
  {
  }

  lemma ContinueStill(s: State, c: nat, p: string, l: nat, after: After)
    ensures SameBut(s.calls, Continue(s, c, p, l, after).calls, c) && Continue(s, c, p, l, after).leases == s.leases
  {
  }

  lemma AskStill(s: State, c: nat, e: Choice, l: nat, op: Op)
    requires c in s.calls && l in s.leases
    ensures Fixed(s, AskStep(s, c, e, l, op), c)
  {
    if !e.ok { ContinueStill(s, c, s.calls[c].p, l, AfterCancel(op)); }
  }

  lemma UseStill(s: State, c: nat, e: Choice, l: nat, u: Use)
    requires c in s.calls && s.calls[c].pc == Using(l, u) && l in s.leases
    ensures Fixed(s, UseStep(s, c, e, l, u), c)
  {
    if u.Held? { HeldStill(s, c, e, l, u.op); }
    else if u.Return? { ReturnStill(s, c, l, u.after); }
    else if Executing(u) { ExecuteStill(s, c, e, l, u); }
    else if Paging(u) { PageStill(s, c, l, u); }
    else if Marking(u) { MarkStill(s, c, l, u); }
    else if Releasing(u) { ReleaseStill(s, c, l, u); }
    else { CleanupStill(s, c, e, l, u); }
  }

  lemma ReturnStill(s: State, c: nat, l: nat, after: After)
    requires c in s.calls && l in s.leases
    ensures Fixed(s, ReturnStep(s, c, l, after), c)
  {
    var w := s.leases[l].(op := s.leases[l].op + 1, worker := None);
    LeaseReplaced(s, l, w);
    ReturnLeaves(s, c, l, after, w);
  }

  lemma ReturnLeaves(s: State, c: nat, l: nat, after: After, w: Lease)
    requires c in s.calls && l in s.leases && w == s.leases[l].(op := s.leases[l].op + 1, worker := None)
    ensures var t := ReturnStep(s, c, l, after); t.leases == WithLease(s, l, w).leases && SameBut(s.calls, t.calls, c)
  {
  }

  lemma LeaseReplaced(s: State, l: nat, w: Lease)
    requires l in s.leases && SameLease(s.leases[l], w)
    ensures LeasesKept(s, WithLease(s, l, w)) && WithLease(s, l, w).leases.Keys == s.leases.Keys
    ensures w.ref == s.leases[l].ref ==> forall c :: RefsKept(s, WithLease(s, l, w), c)
  {
  }

  lemma ProceedStill(s: State, t: State, c: nat, l: nat, u: Use)
    requires c in s.calls && t.calls == s.calls && t.leases.Keys == s.leases.Keys
    requires LeasesKept(s, t) && RefsKept(s, t, c)
    ensures Fixed(s, Proceed(t, c, l, u), c)
  {
  }

  lemma HeldStill(s: State, c: nat, e: Choice, l: nat, op: Op)
    requires c in s.calls
    ensures Fixed(s, HeldStep(s, c, e, l, op), c)
  {
    ProceedStill(s, s, c, l, HeldNext(s, s.calls[c].p, e, l, op));
  }

  lemma ExecuteStill(s: State, c: nat, e: Choice, l: nat, u: Use)
    requires c in s.calls && Executing(u)
    ensures Fixed(s, ExecuteStep(s, c, e, l, u), c)
  {
    var p := s.calls[c].p;
    var t := ExecuteEffect(s, p, e, l, u);
    assert t.calls == s.calls && t.leases == s.leases;
    ProceedStill(s, t, c, l, ExecuteNext(s, p, e, l, u));
  }

  lemma PageStill(s: State, c: nat, l: nat, u: Use)
    requires c in s.calls && s.calls[c].pc == Using(l, u) && l in s.leases && Paging(u)
    ensures Fixed(s, PageStep(s, c, l, u), c)
  {
    var t := PageEffect(s, l, u);
    assert t.calls == s.calls && LeasesKept(s, t) && t.leases.Keys == s.leases.Keys;
    ProceedStill(s, t, c, l, PageNext(s, s.calls[c].p, l, u));
  }

  lemma MarkStill(s: State, c: nat, l: nat, u: Use)
    requires c in s.calls && l in s.leases && Marking(u)
    ensures Fixed(s, MarkStep(s, c, l, u), c)
  {
    var t := MarkEffect(s, l, u);
    assert t.calls == s.calls && LeasesKept(s, t) && t.leases.Keys == s.leases.Keys;
    ProceedStill(s, t, c, l, MarkNext(u));
  }

  lemma CleanupStill(s: State, c: nat, e: Choice, l: nat, u: Use)
    requires c in s.calls && Cleaning(u)
    ensures Fixed(s, CleanupStep(s, c, e, l, u), c)
  {
    var p := s.calls[c].p;
    var t := CleanupEffect(s, p, e, l, u);
    assert t.calls == s.calls && t.leases == s.leases;
    ProceedStill(s, t, c, l, CleanupNext(s, p, e, l, u));
  }

  lemma ReleaseStill(s: State, c: nat, l: nat, u: Use)
    requires c in s.calls && l in s.leases && Releasing(u)
    ensures Fixed(s, ReleaseStep(s, c, l, u), c)
  {
  }
}
