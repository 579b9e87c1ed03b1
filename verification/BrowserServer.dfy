/** Servers: at most one live session drives a server, and while its chooser is pending nothing else goes to
    that server except through a lease whose own session has been closed meanwhile. */
module BrowserServer {
  import opened Wrappers
  import opened BrowserState
  import opened BrowserSteps
  import opened BrowserGate
  import opened BrowserFrame
  import opened BrowserChooser
  import opened BrowserGeneration
  import opened BrowserReconnect

  // ---- one live session for a server ----

  ghost predicate LiveApart(profiles: map<string, Profile>) {
    forall p, q {:trigger profiles[p].live, profiles[q].live} ::
      p in profiles && q in profiles && profiles[p].live && profiles[q].live
        && profiles[p].ref.server == profiles[q].ref.server ==>
        p == q
  }

  lemma StepKeepsApart(s: State, a: Move)
    requires TokenInv(s) && LiveApart(s.profiles)
    ensures LiveApart(Step(s, a).profiles)
  {
    if PublicationOf(s, a).Some? {
      PublicationIs(s, a);
    } else {
      var t := Step(s, a);
      forall p | p in t.profiles && t.profiles[p].live
        ensures p in s.profiles && s.profiles[p].live && s.profiles[p].ref == t.profiles[p].ref
      {
        if p in s.profiles { QuietProfile(s, a, p); } else { NewProfile(s, a, p); }
      }
    }
  }

  /** In every run no two live sessions are of one server. */
  lemma {:induction false} ApartAlways(actions: seq<Move>)
    ensures LiveApart(Runs(INITIAL, actions).profiles)
  {
    if actions != [] {
      var before := actions[..|actions| - 1];
      ApartAlways(before);
      TokensAlways(before);
      StepKeepsApart(Runs(INITIAL, before), actions[|actions| - 1]);
    }
  }

  // ---- what a generation number stands for ----

  /** The reference is of this session of the profile or of an earlier one. */
  predicate OfSession(f: Profile, ref: Ref) {
    ref.gen <= f.ref.gen && (ref.gen == f.ref.gen ==> ref.server == f.ref.server)
  }

  ghost predicate Known(s: State, p: string, ref: Ref) {
    p in s.profiles && ref.profile == p && OfSession(s.profiles[p], ref)
  }

  /** The reference a call carries. */
  function Carried(pc: Pc): Option<Ref> {
    if pc.Queue? then Some(pc.q.ref)
    else if pc.Run? && !pc.r.GateReturn? then Some(pc.r.ref)
    else if pc.Using? && pc.u.BindPage? then Some(pc.u.ref)
    else None
  }

  ghost predicate CallKnown(s: State, k: Call) {
    Carried(k.pc).Some? ==> Known(s, k.p, Carried(k.pc).value)
  }

  ghost predicate LeaseKnown(s: State, v: Lease) { Known(s, v.profile, v.ref) }

  ghost predicate BindingKnown(s: State, key: Key) {
    key in s.bindings ==> Known(s, s.bindings[key].profile, s.bindings[key])
  }

  ghost predicate ProfileKnown(s: State, p: string) {
    p in s.profiles ==> s.profiles[p].ref.profile == p
  }

  ghost predicate ServerInv(s: State) {
    && (forall c {:trigger CallKnown(s, s.calls[c])} :: c in s.calls ==> CallKnown(s, s.calls[c]))
    && (forall l {:trigger LeaseKnown(s, s.leases[l])} :: l in s.leases ==> LeaseKnown(s, s.leases[l]))
    && (forall key {:trigger BindingKnown(s, key)} :: BindingKnown(s, key))
    && (forall p {:trigger ProfileKnown(s, p)} :: ProfileKnown(s, p))
  }

  /** A profile keeps its session, or gets one of a higher generation. */
  predicate Succeeds(f: Profile, g: Profile) {
    g.ref.profile == f.ref.profile && (g.ref == f.ref || f.ref.gen < g.ref.gen)
  }

  lemma StepSucceeds(s: State, a: Move, p: string)
    requires TokenInv(s) && Unwrapped(s) && p in s.profiles && ProfileKnown(s, p)
    ensures p in Step(s, a).profiles && Succeeds(s.profiles[p], Step(s, a).profiles[p])
  {
    if PublicationOf(s, a).Some? {
      PublicationIs(s, a);
    } else {
      QuietProfile(s, a, p);
    }
  }

  /** What is known stays known, whatever page it is of. */
  lemma StillKnown(s: State, a: Move, p: string, ref: Ref, page: string)
    requires TokenInv(s) && Unwrapped(s) && Known(s, p, ref) && ProfileKnown(s, p)
    ensures Known(Step(s, a), p, ref.(page := page))
  {
    StepSucceeds(s, a, p);
  }

  // ---- what each step newly refers to ----

  /** Bindings, new leases and the call that moved refer to what was known. */
  ghost predicate Refers(s: State, t: State, c: nat) {
    && (forall key {:trigger key in t.bindings} :: key in t.bindings ==>
          (key in s.bindings && t.bindings[key] == s.bindings[key])
          || Known(s, t.bindings[key].profile, t.bindings[key]))
    && (forall l {:trigger t.leases[l]} :: l in t.leases && l !in s.leases ==> LeaseKnown(s, t.leases[l]))
    && (c in t.calls ==> CallKnown(s, t.calls[c]))
  }

  lemma BeginRefers(s: State, a: Move)
    requires ServerInv(s) && Begins(a) && a.c !in s.calls
    ensures Refers(s, Begin(s, a), a.c)
  {
    BeginFrame(s, a);
    if a.StartFinish? {
      assert BindingKnown(s, KeyOf(a.task));
    } else {
      BeginBinds(s, a);
    }
  }

  lemma BeginBinds(s: State, a: Move)
    requires ServerInv(s) && Begins(a) && !a.StartFinish? && a.c !in s.calls
    ensures var t := Begin(s, a);
            t.bindings == s.bindings && t.leases == s.leases && (a.c in t.calls ==> CallKnown(s, t.calls[a.c]))
  {
    if a.StartAcquire? || a.StartInspect? { assert ProfileKnown(s, a.p); }
  }

  lemma ProgressRefers(s: State, c: nat, e: Choice)
    requires TokenInv(s) && ServerInv(s) && c in s.calls
    ensures Refers(s, Progress(s, c, e), c)
  {
    assert CallKnown(s, s.calls[c]);
    match s.calls[c].pc
    case Using(l, u) => UseRefers(s, c, e, l, u);
    case Run(r) => RunningRefers(s, c, e, r);
    case Close(z, repl) => CloseRefers(s, c, e, z, repl);
    case Ask(l, op) => AskRefers(s, c, e, l, op);
    case Queue(q) => QueueRefers(s, c, e, q);
    case Replace(y) => ReplaceRefers(s, c, e, y);
  }

  lemma QueueRefers(s: State, c: nat, e: Choice, q: Queued)
    requires c in s.calls && s.calls[c].pc == Queue(q) && CallKnown(s, s.calls[c])
    ensures Refers(s, QueueStep(s, c, e, q), c)
  {
  }

  lemma CloseRefers(s: State, c: nat, e: Choice, z: Closing, repl: bool)
    requires c in s.calls && s.calls[c].pc == Close(z, repl)
    ensures Refers(s, CloseStep(s, c, e, z, repl), c)
  {
  }

  lemma ReplaceRefers(s: State, c: nat, e: Choice, y: Replacing)
    requires c in s.calls && s.calls[c].pc == Replace(y)
    ensures Refers(s, ReplaceStep(s, c, e, y), c)
  {
  }

  lemma AskRefers(s: State, c: nat, e: Choice, l: nat, op: Op)
    requires TokenInv(s) && c in s.calls && s.calls[c].pc == Ask(l, op)
    ensures Refers(s, AskStep(s, c, e, l, op), c)
  {
    var p := Placed(s, c);
    AskStill(s, c, e, l, op);
    AskBinds(s, c, e, l, op);
    NothingNew(s, AskStep(s, c, e, l, op), c, LeaseKey(s, l));
  }

  lemma AskBinds(s: State, c: nat, e: Choice, l: nat, op: Op)
    requires c in s.calls && s.calls[c].pc == Ask(l, op)
    ensures var t := AskStep(s, c, e, l, op);
            t.bindings == s.bindings && (c in t.calls ==> Carried(t.calls[c].pc) == None)
  {
  }

  lemma RunningRefers(s: State, c: nat, e: Choice, r: Running)
    requires TokenInv(s) && c in s.calls && s.calls[c].pc == Run(r) && CallKnown(s, s.calls[c])
    ensures Refers(s, RunningStep(s, c, e, r), c)
  {
    var p := Placed(s, c);
    if r.AcqPublish? { PublishRefers(s, c, e, r); }
  }

  lemma PublishRefers(s: State, c: nat, e: Choice, r: Running)
    requires TokenInv(s) && c in s.calls && s.calls[c].pc == Run(r) && r.AcqPublish? && CallKnown(s, s.calls[c])
    ensures Refers(s, RunningStep(s, c, e, r), c)
  {
  }

  lemma UseRefers(s: State, c: nat, e: Choice, l: nat, u: Use)
    requires TokenInv(s) && ServerInv(s) && c in s.calls && s.calls[c].pc == Using(l, u)
    ensures Refers(s, UseStep(s, c, e, l, u), c)
  {
    var p := Placed(s, c);
    if Paging(u) {
      PageRefers(s, c, l, u);
    } else {
      NoneRefers(s, c, e, l, u);
    }
  }

  lemma NoneRefers(s: State, c: nat, e: Choice, l: nat, u: Use)
    requires c in s.calls && s.calls[c].pc == Using(l, u) && UseShape(u) && !Paging(u) && l in s.leases
    ensures Refers(s, UseStep(s, c, e, l, u), c)
  {
    UseStill(s, c, e, l, u);
    UseBinds(s, c, e, l, u);
    NothingNew(s, UseStep(s, c, e, l, u), c, LeaseKey(s, l));
  }

  lemma NothingNew(s: State, t: State, c: nat, key: Key)
    requires Fixed(s, t, c) && (t.bindings == s.bindings || t.bindings == s.bindings - {key})
    requires c in t.calls ==> Carried(t.calls[c].pc) == None
    ensures Refers(s, t, c)
  {
  }

  lemma PageRefers(s: State, c: nat, l: nat, u: Use)
    requires TokenInv(s) && ServerInv(s) && c in s.calls && s.calls[c].pc == Using(l, u) && Paging(u)
    requires l in s.leases && s.leases[l].profile == s.calls[c].p
    ensures Refers(s, PageStep(s, c, l, u), c)
  {
    PageStill(s, c, l, u);
    assert LeaseKnown(s, s.leases[l]) && CallKnown(s, s.calls[c]);
  }

  /** Only ending a cleanup changes bindings, and removes one. */
  lemma UseBinds(s: State, c: nat, e: Choice, l: nat, u: Use)
    requires c in s.calls && s.calls[c].pc == Using(l, u) && UseShape(u) && !Paging(u)
    ensures var t := UseStep(s, c, e, l, u);
            && (t.bindings == s.bindings || t.bindings == s.bindings - {LeaseKey(s, l)})
            && (c in t.calls ==> Carried(t.calls[c].pc) == None)
  {
    if u.Held? { HeldBinds(s, c, e, l, u.op); }
    else if Executing(u) { ExecuteBinds(s, c, e, l, u); }
    else if Cleaning(u) { CleanupBinds(s, c, e, l, u); }
    else if u.Return? { ReturnBinds(s, c, l, u.after); }
    else if Releasing(u) { ReleaseBinds(s, c, l, u); }
    else { MarkBinds(s, c, l, u); }
  }

  lemma HeldBinds(s: State, c: nat, e: Choice, l: nat, op: Op)
    requires c in s.calls && s.calls[c].pc == Using(l, Held(op))
    ensures var t := HeldStep(s, c, e, l, op);
            t.bindings == s.bindings && (c in t.calls ==> Carried(t.calls[c].pc) == None)
  {
  }

  lemma ProceedBinds(t: State, c: nat, l: nat, u: Use)
    requires c in t.calls && !u.BindPage?
    ensures var v := Proceed(t, c, l, u);
            v.bindings == t.bindings && (c in v.calls ==> Carried(v.calls[c].pc) == None)
  {
  }

  lemma ExecuteBinds(s: State, c: nat, e: Choice, l: nat, u: Use)
    requires c in s.calls && Executing(u)
    ensures var t := ExecuteStep(s, c, e, l, u);
            t.bindings == s.bindings && (c in t.calls ==> Carried(t.calls[c].pc) == None)
  {
    var p := s.calls[c].p;
    var t := ExecuteEffect(s, p, e, l, u);
    assert t.bindings == s.bindings && t.calls == s.calls;
    ProceedBinds(t, c, l, ExecuteNext(s, p, e, l, u));
  }

  lemma CleanupBinds(s: State, c: nat, e: Choice, l: nat, u: Use)
    requires c in s.calls && Cleaning(u)
    ensures var t := CleanupStep(s, c, e, l, u);
            && (t.bindings == s.bindings || t.bindings == s.bindings - {LeaseKey(s, l)})
            && (c in t.calls ==> Carried(t.calls[c].pc) == None)
  {
    var p := s.calls[c].p;
    var t := CleanupEffect(s, p, e, l, u);
    assert (t.bindings == s.bindings || t.bindings == s.bindings - {LeaseKey(s, l)}) && t.calls == s.calls;
    ProceedBinds(t, c, l, CleanupNext(s, p, e, l, u));
  }

  lemma ReturnBinds(s: State, c: nat, l: nat, after: After)
    requires c in s.calls && s.calls[c].pc == Using(l, Return(after))
    ensures var t := ReturnStep(s, c, l, after);
            t.bindings == s.bindings && (c in t.calls ==> Carried(t.calls[c].pc) == None)
  {
  }

  lemma ReleaseBinds(s: State, c: nat, l: nat, u: Use)
    requires c in s.calls && Releasing(u)
    ensures var t := ReleaseStep(s, c, l, u);
            t.bindings == s.bindings && (c in t.calls ==> Carried(t.calls[c].pc) == None)
  {
  }

  lemma MarkBinds(s: State, c: nat, l: nat, u: Use)
    requires c in s.calls && Marking(u) && UseShape(u)
    ensures var t := MarkStep(s, c, l, u);
            t.bindings == s.bindings && (c in t.calls ==> Carried(t.calls[c].pc) == None)
  {
    var t := MarkEffect(s, l, u);
    assert t.bindings == s.bindings && t.calls == s.calls;
    ProceedBinds(t, c, l, MarkNext(u));
  }

  // ---- every run ----

  lemma StepKeepsServers(s: State, a: Move)
    requires TokenInv(s) && Unwrapped(s) && ServerInv(s)
    ensures ServerInv(Step(s, a))
  {
    if Outside(a) {
      OutsideServers(s, a);
    } else if a.c in s.calls && !a.Advance? {
    } else if a.c !in s.calls && a.Advance? {
    } else {
      StepStill(s, a);
      if a.Advance? { ProgressRefers(s, a.c, a.e); } else { BeginRefers(s, a); }
      ServersKept(s, a, a.c);
    }
  }

  lemma OutsideServers(s: State, a: Move)
    requires TokenInv(s) && Unwrapped(s) && ServerInv(s) && Outside(a)
    ensures ServerInv(Step(s, a))
  {
    var c := Fresh(s.calls.Keys);
    OutsideStill(s, a);
    assert Step(s, a).bindings == s.bindings;
    ServersKept(s, a, c);
  }

  lemma ServersKept(s: State, a: Move, c: nat)
    requires TokenInv(s) && Unwrapped(s) && ServerInv(s) && Still(s, Step(s, a), c) && Refers(s, Step(s, a), c)
    ensures ServerInv(Step(s, a))
  {
    var t := Step(s, a);
    forall d | d in t.calls ensures CallKnown(t, t.calls[d]) {
      assert d != c ==> CallKnown(s, s.calls[d]);
      if Carried(t.calls[d].pc).Some? { RefKept(s, a, t.calls[d].p, Carried(t.calls[d].pc).value); }
    }
    forall l | l in t.leases ensures LeaseKnown(t, t.leases[l]) {
      if l in s.leases {
        assert LeaseKnown(s, s.leases[l]) && ProfileKnown(s, s.leases[l].profile);
        StillKnown(s, a, s.leases[l].profile, s.leases[l].ref, t.leases[l].ref.page);
      } else {
        RefKept(s, a, t.leases[l].profile, t.leases[l].ref);
      }
    }
    forall key ensures BindingKnown(t, key) {
      assert BindingKnown(s, key);
      if key in t.bindings { RefKept(s, a, t.bindings[key].profile, t.bindings[key]); }
    }
    forall p ensures ProfileKnown(t, p) { ProfileStays(s, a, p); }
  }

  lemma RefKept(s: State, a: Move, p: string, ref: Ref)
    requires TokenInv(s) && Unwrapped(s) && ServerInv(s) && Known(s, p, ref)
    ensures Known(Step(s, a), p, ref)
  {
    assert ProfileKnown(s, p) && ref.(page := ref.page) == ref;
    StillKnown(s, a, p, ref, ref.page);
  }

  lemma ProfileStays(s: State, a: Move, p: string)
    requires TokenInv(s) && Unwrapped(s) && ServerInv(s)
    ensures ProfileKnown(Step(s, a), p)
  {
    assert ProfileKnown(s, p);
    if p in s.profiles {
      StepSucceeds(s, a, p);
    } else if p in Step(s, a).profiles {
      ProfileComes(s, a, p);
    }
  }

  lemma ProfileComes(s: State, a: Move, p: string)
    requires TokenInv(s) && p !in s.profiles && p in Step(s, a).profiles
    ensures Step(s, a).profiles[p].ref.profile == p
  {
    if PublicationOf(s, a).Some? {
      PublicationIs(s, a);
    } else if !Outside(a) {
      StepStays(s, a);
    }
  }

  lemma {:induction false} ServersAlways(actions: seq<Move>)
    requires UnwrappedRun(actions)
    ensures ServerInv(Runs(INITIAL, actions))
  {
    if actions != [] {
      var before := actions[..|actions| - 1];
      ServersAlways(before);
      TokensAlways(before);
      StepKeepsServers(Runs(INITIAL, before), actions[|actions| - 1]);
    }
  }

  // ---- what it means ----

  /** A chooser of the profile's live session is pending on the server. */
  predicate PendingOn(s: State, q: string, server: string) {
    q in s.profiles
    && var f := s.profiles[q];
       f.live && f.chooser.Some? && f.ref.server == server
  }

  /** The call is about to hand something to the driver that a pending chooser excludes: an action other than
      an upload, a cancelling upload for another chooser, or the close of a page. */
  predicate Excluded(s: State, c: nat, q: string)
    requires q in s.profiles
  {
    c in s.calls && s.calls[c].pc.Using?
    && var u := s.calls[c].pc.u;
       || (u.ExecDispatch? && !IsUpload(u.action))
       || (u.FinCancel? && s.profiles[q].chooser != Some(u.chosen))
       || u.FinClose?
  }

  /** While a chooser is pending on a server, what it excludes reaches the server only through a lease whose
      session was closed after its call had checked it. */
  lemma ChooserExcludesOnServer(actions: seq<Move>, c: nat, q: string)
    requires UnwrappedRun(actions)
    requires var s := Runs(INITIAL, actions);
             c in s.calls && s.calls[c].pc.Using? && PendingOn(s, q, LeaseOf(s, s.calls[c].pc.l).ref.server)
    ensures var s := Runs(INITIAL, actions);
            Excluded(s, c, q) ==> !SessionOk(s, s.calls[c].p, s.calls[c].pc.l)
  {
    var s := Runs(INITIAL, actions);
    ServersAlways(actions);
    ApartAlways(actions);
    TokensAlways(actions);
    var p := Placed(s, c);
    var l := s.calls[c].pc.l;
    assert LeaseKnown(s, s.leases[l]);
    if SessionOk(s, p, l) {
      assert p == q;
      ChooserExcludesOtherActions(actions, c);
    }
  }
}
