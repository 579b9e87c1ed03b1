/** Closing a session and connecting again: once CloseSession has returned without an error, a new session
    may be registered, directly or through a replacement, and nothing is published too early. */
module BrowserReconnect {
  import opened Wrappers
  import opened BrowserState
  import opened BrowserSteps
  import opened BrowserGate
  import opened BrowserFrame
  import opened BrowserGeneration

  // ---- how far a CloseSession has got ----

  /** ... with the generation it closes; Ready is the replacement after it. */
  datatype Progressing =
    | Idle | Closed(gen: Generation) | Stopped(gen: Generation) | Emptied(gen: Generation) | Ready(gen: Generation)

  function AfterProgress(after: After): Progressing {
    if after.Drain? then Stopped(after.gen) else Idle
  }

  function OpProgress(op: Op): Progressing {
    if op.Release? then AfterProgress(op.after) else Idle
  }

  function UseProgress(u: Use): Progressing {
    if u.Held? then OpProgress(u.op)
    else if u.Return? || Releasing(u) then AfterProgress(u.after)
    else Idle
  }

  function ClosingOf(pc: Pc): Progressing {
    match pc
    case Close(z, _) =>
      if z.CloseStop? || z.CloseConfirm? then Closed(z.gen)
      else if z.CloseDrain? then Stopped(z.gen)
      else Emptied(z.gen)
    case Replace(y) => if y.ReplReady? then Ready(y.gen) else Idle
    case Ask(_, op) => OpProgress(op)
    case Using(_, u) => UseProgress(u)
    case _ => Idle
  }

  /** From r to q, while the call's profile goes from f to g. */
  predicate Advances(r: Progressing, q: Progressing, f: Profile, g: Profile) {
    || q == Idle || q == r
    || (r == Idle && q == Closed(f.ref.gen) && !g.live)
    || (r.Closed? && q == Stopped(r.gen) && r.gen in g.stopped)
    || (r.Stopped? && q == Emptied(r.gen) && (r.gen in g.drained || (f.live && f.ref.gen == r.gen)))
    || (r.Emptied? && q == Ready(r.gen))
  }

  /** The call stays on its profile and in or out of a replacement, and closes step by step. */
  ghost predicate Goes(s: State, t: State, c: nat)
    requires c in s.calls
  {
    c in t.calls ==>
      var k, m := s.calls[c], t.calls[c];
      && m.p == k.p && (CarriesTransition(m.pc) ==> CarriesTransition(k.pc))
      && Advances(ClosingOf(k.pc), ClosingOf(m.pc), ProfileOf(s, k.p), ProfileOf(t, k.p))
  }

  lemma ProgressGoes(s: State, c: nat, e: Choice)
    requires TokenInv(s) && c in s.calls
    ensures Goes(s, Progress(s, c, e), c)
  {
    var p := Placed(s, c);
    match s.calls[c].pc
    case Using(l, u) => UseGoes(s, c, e, l, u);
    case Run(r) => RunningGoes(s, c, e, r);
    case Close(z, repl) => CloseGoes(s, c, e, z, repl);
    case Ask(l, op) => AskGoes(s, c, e, l, op);
    case Queue(q) => QueueGoes(s, c, e, q);
    case Replace(y) => ReplaceGoes(s, c, e, y);
  }

  lemma QueueGoes(s: State, c: nat, e: Choice, q: Queued)
    requires c in s.calls && s.calls[c].pc == Queue(q)
    ensures Goes(s, QueueStep(s, c, e, q), c)
  {
  }

  lemma RunningGoes(s: State, c: nat, e: Choice, r: Running)
    requires c in s.calls && s.calls[c].pc == Run(r)
    ensures Goes(s, RunningStep(s, c, e, r), c)
  {
  }

  lemma CloseGoes(s: State, c: nat, e: Choice, z: Closing, repl: bool)
    requires c in s.calls && s.calls[c].pc == Close(z, repl) && s.calls[c].p in s.profiles
    ensures Goes(s, CloseStep(s, c, e, z, repl), c)
  {
  }

  lemma ReplaceGoes(s: State, c: nat, e: Choice, y: Replacing)
    requires c in s.calls && s.calls[c].pc == Replace(y) && s.calls[c].p in s.profiles
    ensures Goes(s, ReplaceStep(s, c, e, y), c)
  {
  }

  lemma AskGoes(s: State, c: nat, e: Choice, l: nat, op: Op)
    requires c in s.calls && s.calls[c].pc == Ask(l, op)
    ensures Goes(s, AskStep(s, c, e, l, op), c)
  {
  }

  lemma UseGoes(s: State, c: nat, e: Choice, l: nat, u: Use)
    requires c in s.calls && s.calls[c].pc == Using(l, u) && UseShape(u)
    ensures Goes(s, UseStep(s, c, e, l, u), c)
  {
    if u.Held? { HeldGoesOn(s, c, e, l, u.op); }
    else if u.Return? { ReturnGoes(s, c, l, u.after); }
    else if Releasing(u) { ReleaseGoes(s, c, l, u); }
    else if Marking(u) { MarkGoes(s, c, l, u); }
    else { WorkGoes(s, c, e, l, u); }
  }

  lemma HeldGoesOn(s: State, c: nat, e: Choice, l: nat, op: Op)
    requires c in s.calls && s.calls[c].pc == Using(l, Held(op))
    ensures Goes(s, HeldStep(s, c, e, l, op), c)
  {
  }

  lemma ReturnGoes(s: State, c: nat, l: nat, after: After)
    requires c in s.calls && s.calls[c].pc == Using(l, Return(after))
    ensures Goes(s, ReturnStep(s, c, l, after), c)
  {
  }

  lemma ReleaseGoes(s: State, c: nat, l: nat, u: Use)
    requires c in s.calls && s.calls[c].pc == Using(l, u) && Releasing(u)
    ensures Goes(s, ReleaseStep(s, c, l, u), c)
  {
  }

  /** The point has nothing to do with closing a session. */
  predicate NotClosing(u: Use) { UseProgress(u) == Idle && !UseForReplacement(u) }

  lemma ProceedGoes(s: State, t: State, c: nat, l: nat, u: Use)
    requires c in s.calls && t.calls == s.calls && NotClosing(u)
    ensures Goes(s, Proceed(t, c, l, u), c)
  {
  }

  lemma MarkGoes(s: State, c: nat, l: nat, u: Use)
    requires c in s.calls && s.calls[c].pc == Using(l, u) && Marking(u) && UseShape(u)
    ensures Goes(s, MarkStep(s, c, l, u), c)
  {
    var t := MarkEffect(s, l, u);
    assert t.calls == s.calls;
    ProceedGoes(s, t, c, l, MarkNext(u));
  }

  lemma WorkGoes(s: State, c: nat, e: Choice, l: nat, u: Use)
    requires c in s.calls && s.calls[c].pc == Using(l, u) && (Executing(u) || Paging(u) || Cleaning(u))
    ensures Goes(s, UseStep(s, c, e, l, u), c)
  {
    var p := s.calls[c].p;
    if Executing(u) {
      ExecuteGoes(s, c, e, l, u);
    } else if Paging(u) {
      ProceedGoes(s, PageEffect(s, l, u), c, l, PageNext(s, p, l, u));
    } else {
      CleanupGoes(s, c, e, l, u);
    }
  }

  lemma ExecuteGoes(s: State, c: nat, e: Choice, l: nat, u: Use)
    requires c in s.calls && s.calls[c].pc == Using(l, u) && Executing(u)
    ensures Goes(s, ExecuteStep(s, c, e, l, u), c)
  {
    var p := s.calls[c].p;
    ProceedGoes(s, ExecuteEffect(s, p, e, l, u), c, l, ExecuteNext(s, p, e, l, u));
  }

  lemma CleanupGoes(s: State, c: nat, e: Choice, l: nat, u: Use)
    requires c in s.calls && s.calls[c].pc == Using(l, u) && Cleaning(u)
    ensures Goes(s, CleanupStep(s, c, e, l, u), c)
  {
    var p := s.calls[c].p;
    ProceedGoes(s, CleanupEffect(s, p, e, l, u), c, l, CleanupNext(s, p, e, l, u));
  }

  /** A call that begins closes nothing, or has just made the profile dead. */
  lemma BeginGoes(s: State, a: Move)
    requires Begins(a) && a.c !in s.calls
    ensures var t := Begin(s, a);
            a.c in t.calls ==>
              var q, f, g := ClosingOf(t.calls[a.c].pc), ProfileOf(s, t.calls[a.c].p), ProfileOf(t, t.calls[a.c].p);
              q == Idle || (q == Closed(f.ref.gen) && !CarriesTransition(t.calls[a.c].pc) && g.ref == f.ref && !g.live)
  {
  }

  // ---- replacements in undisturbed runs ----

  /** Nobody registers a session on a profile while a replacement of it is under way. */
  predicate Undisturbed(s: State, a: Move) {
    a.Register? && RegisterOutcome(s.profiles, a.ref) == Registered && a.ref.profile in s.profiles ==>
      s.profiles[a.ref.profile].transition > 0
  }

  ghost predicate UndisturbedRun(actions: seq<Move>) {
    actions != [] ==>
      var before := actions[..|actions| - 1];
      UndisturbedRun(before) && Undisturbed(Runs(INITIAL, before), actions[|actions| - 1])
  }

  /** A replacement closes the profile's current generation; past the confirmation it is stopped, past the
      drain drained. */
  ghost predicate CallReplaces(s: State, k: Call) {
    CarriesTransition(k.pc) ==>
      var r, f := ClosingOf(k.pc), ProfileOf(s, k.p);
      r != Idle ==>
        f.ref.gen == r.gen && !f.live
        && (!r.Closed? ==> r.gen in f.stopped)
        && (r.Emptied? || r.Ready? ==> r.gen in f.drained)
  }

  ghost predicate ReplacementInv(s: State) {
    forall c {:trigger CallReplaces(s, s.calls[c])} :: c in s.calls ==> CallReplaces(s, s.calls[c])
  }

  /** The only call that replaces a profile is the one that took its transition token. */
  lemma OnlyReplacer(s: State, p: string, c: nat)
    requires TokenInv(s) && p in s.profiles && c in s.calls && s.calls[c].p == p && CarriesTransition(s.calls[c].pc)
    ensures s.profiles[p].transition == 0 && s.profiles[p].replacer == Some(c)
  {
    assert Replaces(s, p, c) <==> s.profiles[p].replacer == Some(c);
    assert ProfileShape(s, p);
  }

  lemma OtherReplaces(s: State, a: Move, d: nat)
    requires TokenInv(s) && ReplacementInv(s) && Undisturbed(s, a)
    requires d in Step(s, a).calls && Mover(a) != Some(d)
    ensures CallReplaces(Step(s, a), Step(s, a).calls[d])
  {
    OthersStay(s, a, d);
    assert CallReplaces(s, s.calls[d]);
    var p := Placed(s, d);
    if PublicationOf(s, a).None? {
      QuietProfile(s, a, p);
    } else {
      PublicationIs(s, a);
      if CarriesTransition(s.calls[d].pc) { OnlyReplacer(s, p, d); }
      if a.Advance? { var q := Before(s, a.c, s.next); }
    }
  }

  lemma OthersStay(s: State, a: Move, d: nat)
    requires TokenInv(s) && d in Step(s, a).calls && Mover(a) != Some(d)
    ensures d in s.calls && Step(s, a).calls[d] == s.calls[d]
  {
    if Outside(a) { OutsideStill(s, a); } else { StepStill(s, a); }
  }

  lemma MoverReplaces(s: State, a: Move)
    requires TokenInv(s) && ReplacementInv(s) && !Outside(a) && a.c in Step(s, a).calls
    ensures CallReplaces(Step(s, a), Step(s, a).calls[a.c])
  {
    if a.c in s.calls {
      assert CallReplaces(s, s.calls[a.c]);
      if a.Advance? {
        var p := Placed(s, a.c);
        ProgressGoes(s, a.c, a.e);
        if PublicationOf(s, a).None? { QuietProfile(s, a, p); } else { PublishedIsIdle(s, a); }
      }
    } else if Begins(a) {
      BeginGoes(s, a);
    }
  }

  lemma PublishedIsIdle(s: State, a: Move)
    requires a.Advance? && PublicationOf(s, a).Some?
    ensures a.c in Step(s, a).calls ==> ClosingOf(Step(s, a).calls[a.c].pc) == Idle
  {
  }

  lemma {:induction false} ReplacementAlways(actions: seq<Move>)
    requires UndisturbedRun(actions)
    ensures ReplacementInv(Runs(INITIAL, actions))
  {
    if actions != [] {
      var before, a := actions[..|actions| - 1], actions[|actions| - 1];
      var s := Runs(INITIAL, before);
      ReplacementAlways(before);
      TokensAlways(before);
      forall d | d in Step(s, a).calls ensures CallReplaces(Step(s, a), Step(s, a).calls[d]) {
        if Mover(a) == Some(d) { MoverReplaces(s, a); } else { OtherReplaces(s, a, d); }
      }
    }
  }

  /** In such a run what a replacement publishes meets the guard. */
  lemma ReplacementIsGuarded(actions: seq<Move>, a: Move)
    requires UndisturbedRun(actions) && a.Advance?
    ensures GuardedStep(Runs(INITIAL, actions), a)
  {
    var s := Runs(INITIAL, actions);
    ReplacementAlways(actions);
    TokensAlways(actions);
    if PublicationOf(s, a).Some? {
      var p := Placed(s, a.c);
      assert CallReplaces(s, s.calls[a.c]);
    }
  }

  ghost predicate DirectlyGuarded(actions: seq<Move>) {
    actions != [] ==>
      var before, a := actions[..|actions| - 1], actions[|actions| - 1];
      DirectlyGuarded(before) && (a.Register? ==> Guarded(Runs(INITIAL, before).profiles, a.ref))
  }

  /** So in a run that does not disturb replacements nothing is ever published too early exactly when the
      direct registrations meet the guard; what replacements publish needs no condition. */
  lemma UndisturbedEarlyExactly(actions: seq<Move>)
    requires UndisturbedRun(actions)
    ensures NeverEarly(actions) <==> DirectlyGuarded(actions)
  {
    RunEarlyExactly(actions);
    GuardedDirectly(actions);
  }

  lemma {:induction false} GuardedDirectly(actions: seq<Move>)
    requires UndisturbedRun(actions)
    ensures AlwaysGuarded(actions) <==> DirectlyGuarded(actions)
  {
    if actions != [] {
      var before, a := actions[..|actions| - 1], actions[|actions| - 1];
      GuardedDirectly(before);
      if a.Advance? { ReplacementIsGuarded(before, a); }
    }
  }

  // ---- closing a session, in any run ----

  /** No generation number is the largest 64-bit one. */
  ghost predicate Unwrapped(s: State) {
    forall p {:trigger s.profiles[p]} :: p in s.profiles ==> s.profiles[p].ref.gen < MODULUS - 1
  }

  /** The generation being closed never lives again; past the confirmation it counts as stopped, past the
      drain as drained. */
  ghost predicate CallClosing(s: State, k: Call) {
    var r, f := ClosingOf(k.pc), ProfileOf(s, k.p);
    r != Idle ==>
      r.gen <= f.ref.gen && (f.live ==> r.gen < f.ref.gen)
      && (!r.Closed? ==> r.gen in f.stopped)
      && (r.Emptied? || r.Ready? ==> r.gen in f.drained)
  }

  ghost predicate ClosingInv(s: State) {
    forall c {:trigger CallClosing(s, s.calls[c])} :: c in s.calls ==> CallClosing(s, s.calls[c])
  }

  predicate Later(f: Profile, g: Profile) {
    && f.ref.gen <= g.ref.gen && (g.live && g.ref.gen == f.ref.gen ==> f.live) && f.stopped <= g.stopped
    && forall x :: x in f.drained && x <= f.ref.gen ==> x in g.drained
  }

  lemma StepLater(s: State, a: Move, p: string)
    requires TokenInv(s) && Unwrapped(s) && p in s.profiles
    ensures p in Step(s, a).profiles && Later(s.profiles[p], Step(s, a).profiles[p])
  {
    if PublicationOf(s, a).None? {
      QuietProfile(s, a, p);
    } else {
      PublicationIs(s, a);
    }
  }

  lemma MoverCloses(s: State, a: Move)
    requires TokenInv(s) && Unwrapped(s) && ClosingInv(s) && !Outside(a) && a.c in Step(s, a).calls
    ensures CallClosing(Step(s, a), Step(s, a).calls[a.c])
  {
    if a.c in s.calls {
      assert CallClosing(s, s.calls[a.c]);
      if a.Advance? {
        var p := Placed(s, a.c);
        ProgressGoes(s, a.c, a.e);
        StepLater(s, a, p);
      }
    } else if Begins(a) {
      BeginGoes(s, a);
    }
  }

  lemma StepKeepsClosing(s: State, a: Move)
    requires TokenInv(s) && Unwrapped(s) && ClosingInv(s)
    ensures ClosingInv(Step(s, a))
  {
    var t := Step(s, a);
    forall d | d in t.calls ensures CallClosing(t, t.calls[d]) {
      if Mover(a) == Some(d) {
        MoverCloses(s, a);
      } else {
        OthersStay(s, a, d);
        assert CallClosing(s, s.calls[d]);
        var p := Placed(s, d);
        StepLater(s, a, p);
      }
    }
  }

  ghost predicate UnwrappedRun(actions: seq<Move>) {
    Unwrapped(Runs(INITIAL, actions)) && (actions != [] ==> UnwrappedRun(actions[..|actions| - 1]))
  }

  lemma {:induction false} ClosingAlways(actions: seq<Move>)
    requires UnwrappedRun(actions)
    ensures ClosingInv(Runs(INITIAL, actions))
  {
    if actions != [] {
      var before := actions[..|actions| - 1];
      ClosingAlways(before);
      TokensAlways(before);
      StepKeepsClosing(Runs(INITIAL, before), actions[|actions| - 1]);
    }
  }

  // ---- what it means ----

  /** The current session of the profile is over for good. */
  predicate Over(f: Profile) {
    !f.live && f.ref.gen in f.stopped && f.ref.gen in f.drained
  }

  /** When CloseSession returns without an error, or BeginReplacement hands out its finish, the session it
      closed is over, unless somebody has registered another by then. */
  lemma CloseEndsTheSession(actions: seq<Move>, c: nat, e: Choice)
    requires UnwrappedRun(actions)
    requires var s := Runs(INITIAL, actions); c in s.calls && s.calls[c].pc.Close? && s.calls[c].pc.z.CloseDrained?
    ensures var s := Runs(INITIAL, actions);
            var k, t := s.calls[c], Step(s, Advance(c, e));
            k.p in t.profiles && (t.profiles[k.p].ref.gen == k.pc.z.gen ==> Over(t.profiles[k.p]))
  {
    var s := Runs(INITIAL, actions);
    TokensAlways(actions);
    ClosingAlways(actions);
    var p := Placed(s, c);
    assert CallClosing(s, s.calls[c]);
    StepLater(s, Advance(c, e), p);
    QuietProfile(s, Advance(c, e), p);
  }

  /** It stays over until a session is registered on the profile. */
  lemma OverLasts(s: State, a: Move, p: string)
    requires TokenInv(s) && p in s.profiles && Over(s.profiles[p])
    requires PublicationOf(s, a).Some? ==> PublicationOf(s, a).value.profile != p
    ensures p in Step(s, a).profiles && Over(Step(s, a).profiles[p])
  {
    if PublicationOf(s, a).Some? {
      PublicationIs(s, a);
    } else {
      QuietProfile(s, a, p);
    }
  }

  /** No session is registered on the profile in the moves after s. */
  ghost predicate Unpublished(s: State, actions: seq<Move>, p: string) {
    actions != [] ==>
      var before := actions[..|actions| - 1];
      Unpublished(s, before, p)
      && var o := PublicationOf(Runs(s, before), actions[|actions| - 1]); o.Some? ==> o.value.profile != p
  }

  lemma {:induction false} StaysOver(s: State, actions: seq<Move>, p: string)
    requires TokenInv(s) && p in s.profiles && Over(s.profiles[p]) && Unpublished(s, actions, p)
    ensures var t := Runs(s, actions); TokenInv(t) && p in t.profiles && Over(t.profiles[p])
  {
    if actions != [] {
      var before, a := actions[..|actions| - 1], actions[|actions| - 1];
      StaysOver(s, before, p);
      OverLasts(Runs(s, before), a, p);
      StepKeepsTokens(Runs(s, before), a);
    }
  }

  /** In every run: from the return of a CloseSession to the next registration on the profile, whatever else
      happens, a registration meets the guard and, if nothing came early so far, does not come early. */
  lemma ReconnectAfterClose(actions: seq<Move>, c: nat, e: Choice, later: seq<Move>, ref: Ref)
    requires UnwrappedRun(actions)
    requires var s := Runs(INITIAL, actions); c in s.calls && s.calls[c].pc.Close? && s.calls[c].pc.z.CloseDrained?
    requires var s := Runs(INITIAL, actions);
             var t := Step(s, Advance(c, e));
             ref.profile == s.calls[c].p && ref.profile in t.profiles
             && t.profiles[ref.profile].ref.gen == s.calls[c].pc.z.gen && Unpublished(t, later, ref.profile)
    ensures var u := Runs(Step(Runs(INITIAL, actions), Advance(c, e)), later);
            Guarded(u.profiles, ref) && (NoneEarly(u) ==> NoneEarly(Step(u, Register(ref))))
  {
    var s := Runs(INITIAL, actions);
    TokensAlways(actions);
    StepKeepsTokens(s, Advance(c, e));
    CloseEndsTheSession(actions, c, e);
    StaysOver(Step(s, Advance(c, e)), later, ref.profile);
    var u := Runs(Step(s, Advance(c, e)), later);
    if NoneEarly(u) { RegisterEarlyExactly(u, ref); }
  }
}
