/** Generations: exactly when a new session of a profile is published only over a stopped and drained old
    one, and what callers may rely on as long as it is. */
module BrowserGeneration {
  import opened Wrappers
  import opened BrowserState
  import opened BrowserSteps
  import opened BrowserGate
  import opened BrowserFrame

  // ---- numbering ----

  /** A registration raises the generation except at the largest 64-bit number, where it wraps. */
  lemma RegistrationRaises(profiles: map<string, Profile>, ref: Ref)
    requires RegisterOutcome(profiles, ref) == Registered && ref.profile in profiles
    ensures var f, g := profiles[ref.profile], RegisterIn(profiles, ref)[ref.profile];
            !f.live && g.live && g.chooser.None? && g.ref.gen in g.published
            && (f.ref.gen < g.ref.gen <==> f.ref.gen < MODULUS - 1)
            && (ref.gen > f.ref.gen ==> g.ref == ref)
  {
  }

  /** No step lowers a profile's generation, or makes it live again under the same one, short of the wrap. */
  lemma GenerationsOnlyGrow(s: State, a: Move, p: string)
    requires p in s.profiles && s.profiles[p].ref.gen < MODULUS - 1
    ensures p in Step(s, a).profiles
    ensures var f, g := s.profiles[p], Step(s, a).profiles[p];
            f.ref.gen <= g.ref.gen && (g.ref.gen == f.ref.gen ==> (g.live ==> f.live) && g.published == f.published)
  {
    if a.Advance? && a.c in s.calls {
      ProgressGrows(s, a.c, a.e, p);
    } else if Begins(a) && a.c !in s.calls {
      BeginAges(s, a, p);
    } else {
      OutsideGrows(s, a, p);
    }
  }

  lemma OutsideGrows(s: State, a: Move, p: string)
    requires p in s.profiles && s.profiles[p].ref.gen < MODULUS - 1
    requires !(a.Advance? && a.c in s.calls)
    requires !Begins(a) || a.c in s.calls
    ensures p in Step(s, a).profiles
    ensures var f, g := s.profiles[p], Step(s, a).profiles[p];
            f.ref.gen <= g.ref.gen && (g.ref.gen == f.ref.gen ==> (g.live ==> f.live) && g.published == f.published)
  {
  }

  /** The profile keeps its generation; it may die, and confirmations and drains are only added, the drain
      of the current generation only to a dead profile whose gate was free. */
  predicate Aged(f: Profile, g: Profile) {
    g.ref == f.ref && (g.live ==> f.live)
    && f.stopped <= g.stopped && f.drained <= g.drained && g.published == f.published
    && (f.ref.gen in g.drained && f.ref.gen !in f.drained ==> !f.live && f.gate > 0)
  }

  lemma ProgressGrows(s: State, c: nat, e: Choice, p: string)
    requires c in s.calls && p in s.profiles && s.profiles[p].ref.gen < MODULUS - 1
    ensures p in Progress(s, c, e).profiles
    ensures var f, g := s.profiles[p], Progress(s, c, e).profiles[p];
            f.ref.gen <= g.ref.gen && (g.ref.gen == f.ref.gen ==> (g.live ==> f.live) && g.published == f.published)
  {
    var pc := s.calls[c].pc;
    if pc.Replace? {
    } else {
      ProgressAges(s, c, e, p);
    }
  }

  /** Only the publication at the end of a replacement changes the generation from within a call. */
  lemma ProgressAges(s: State, c: nat, e: Choice, p: string)
    requires c in s.calls && p in s.profiles && !s.calls[c].pc.Replace?
    ensures p in Progress(s, c, e).profiles && Aged(s.profiles[p], Progress(s, c, e).profiles[p])
  {
    var pc := s.calls[c].pc;
    if pc.Run? {
      RunningAges(s, c, e, pc.r, p);
    } else if pc.Using? {
      UseAges(s, c, e, pc.l, pc.u, p);
    } else if pc.Close? {
      CloseAges(s, c, e, pc.z, pc.repl, p);
    } else {
      WaitAges(s, c, e, p);
    }
  }

  lemma WaitAges(s: State, c: nat, e: Choice, p: string)
    requires c in s.calls && p in s.profiles && (s.calls[c].pc.Queue? || s.calls[c].pc.Ask?)
    ensures p in Progress(s, c, e).profiles && Aged(s.profiles[p], Progress(s, c, e).profiles[p])
  {
    match s.calls[c].pc
    case Queue(q) => QueueAges(s, c, e, q, p);
    case Ask(l, op) => AskStays(s, c, e, l, op);
  }

  lemma QueueAges(s: State, c: nat, e: Choice, q: Queued, p: string)
    requires c in s.calls && p in s.profiles
    ensures p in QueueStep(s, c, e, q).profiles && Aged(s.profiles[p], QueueStep(s, c, e, q).profiles[p])
  {
  }

  lemma RunningAges(s: State, c: nat, e: Choice, r: Running, p: string)
    requires c in s.calls && p in s.profiles
    ensures p in RunningStep(s, c, e, r).profiles && Aged(s.profiles[p], RunningStep(s, c, e, r).profiles[p])
  {
    if r.AcqPublish? || r.FinGot? {
      LendingAges(s, c, e, r, p);
    }
  }

  lemma LendingAges(s: State, c: nat, e: Choice, r: Running, p: string)
    requires c in s.calls && p in s.profiles && (r.AcqPublish? || r.FinGot?)
    ensures p in RunningStep(s, c, e, r).profiles && Aged(s.profiles[p], RunningStep(s, c, e, r).profiles[p])
  {
  }

  lemma CloseAges(s: State, c: nat, e: Choice, z: Closing, repl: bool, p: string)
    requires c in s.calls && p in s.profiles
    ensures p in CloseStep(s, c, e, z, repl).profiles && Aged(s.profiles[p], CloseStep(s, c, e, z, repl).profiles[p])
  {
  }

  lemma PageAges(s: State, c: nat, e: Choice, l: nat, u: Use)
    requires c in s.calls && Paging(u)
    ensures UseStep(s, c, e, l, u).profiles == s.profiles
  {
    assert PageEffect(s, l, u).profiles == s.profiles;
  }

  lemma UseAges(s: State, c: nat, e: Choice, l: nat, u: Use, p: string)
    requires c in s.calls && p in s.profiles
    ensures p in UseStep(s, c, e, l, u).profiles && Aged(s.profiles[p], UseStep(s, c, e, l, u).profiles[p])
  {
    if Releasing(u) {
      ReleaseAges(s, c, l, u, p);
    } else if Executing(u) {
      ExecuteAges(s, c, e, l, u, p);
    } else if Paging(u) {
      PageAges(s, c, e, l, u);
    } else if Cleaning(u) {
      CleanupAges(s, c, e, l, u, p);
    } else {
      LockAges(s, c, e, l, u);
    }
  }

  lemma ExecuteAges(s: State, c: nat, e: Choice, l: nat, u: Use, p: string)
    requires c in s.calls && p in s.profiles && Executing(u)
    ensures p in ExecuteStep(s, c, e, l, u).profiles && Aged(s.profiles[p], ExecuteStep(s, c, e, l, u).profiles[p])
  {
    EffectAges(s, s.calls[c].p, e, l, u, p);
  }

  lemma EffectAges(s: State, here: string, e: Choice, l: nat, u: Use, p: string)
    requires p in s.profiles
    ensures var t := ExecuteEffect(s, here, e, l, u); p in t.profiles && Aged(s.profiles[p], t.profiles[p])
  {
    var t := ExecuteEffect(s, here, e, l, u);
    if !u.ExecRecord? && !u.ExecConfirm? { assert t.profiles == s.profiles; }
  }

  lemma CleanupAges(s: State, c: nat, e: Choice, l: nat, u: Use, p: string)
    requires c in s.calls && p in s.profiles && Cleaning(u)
    ensures p in CleanupStep(s, c, e, l, u).profiles && Aged(s.profiles[p], CleanupStep(s, c, e, l, u).profiles[p])
  {
    var t := CleanupEffect(s, s.calls[c].p, e, l, u);
    assert p in t.profiles && Aged(s.profiles[p], t.profiles[p]);
  }

  lemma ReleaseAges(s: State, c: nat, l: nat, u: Use, p: string)
    requires c in s.calls && p in s.profiles && Releasing(u)
    ensures p in ReleaseStep(s, c, l, u).profiles && Aged(s.profiles[p], ReleaseStep(s, c, l, u).profiles[p])
  {
  }

  /** Checking, marking and giving the operation token back change no profile. */
  lemma LockAges(s: State, c: nat, e: Choice, l: nat, u: Use)
    requires c in s.calls && (u.Held? || u.Return? || Marking(u))
    ensures UseStep(s, c, e, l, u).profiles == s.profiles
  {
    if u.Held? {
      assert HeldStep(s, c, e, l, u.op).profiles == s.profiles;
    } else if u.Return? {
      assert ReturnStep(s, c, l, u.after).profiles == s.profiles;
    } else {
      assert MarkEffect(s, l, u).profiles == s.profiles;
    }
  }

  // ---- when a publication comes too early ----

  /** Every generation that was ever published and is not the current one was confirmed stopped, and its
      gate was drained. */
  predicate Superseded(f: Profile) {
    forall g :: g in f.published && g != f.ref.gen ==> g in f.stopped && g in f.drained
  }

  ghost predicate NoneEarly(s: State) {
    forall p {:trigger Superseded(s.profiles[p])} :: p in s.profiles ==> Superseded(s.profiles[p])
  }

  /** Registering is refused, or the profile's current generation was never published, or it was confirmed
      stopped and its gate was drained. */
  predicate Guarded(profiles: map<string, Profile>, ref: Ref) {
    RegisterOutcome(profiles, ref) == Registered && ref.profile in profiles ==>
      var f := profiles[ref.profile];
      f.ref.gen !in f.published || (f.ref.gen in f.stopped && f.ref.gen in f.drained)
  }

  /** A registration comes early exactly when the guard fails. */
  lemma RegisterEarlyExactly(s: State, ref: Ref)
    requires NoneEarly(s)
    ensures NoneEarly(s.(profiles := RegisterIn(s.profiles, ref))) <==> Guarded(s.profiles, ref)
  {
    var t := s.(profiles := RegisterIn(s.profiles, ref));
    if RegisterOutcome(s.profiles, ref) == Registered {
      forall p | p in t.profiles && p != ref.profile ensures Superseded(t.profiles[p]) {
        assert Superseded(s.profiles[p]);
      }
      if ref.profile in s.profiles {
        var f, g := s.profiles[ref.profile], t.profiles[ref.profile];
        assert Superseded(f) && g.ref.gen != f.ref.gen;
        assert Superseded(g) <==> Guarded(s.profiles, ref);
      }
    }
  }

  /** The session a step registers, directly or at the end of a replacement. */
  function PublicationOf(s: State, a: Move): Option<Ref> {
    if a.Register? then Some(a.ref)
    else if a.Advance? && a.c in s.calls && s.calls[a.c].pc.Replace? && s.calls[a.c].pc.y.ReplReady?
         && a.e.ok && a.e.ref.profile == s.calls[a.c].p then Some(a.e.ref)
    else None
  }

  predicate GuardedStep(s: State, a: Move) {
    PublicationOf(s, a).Some? ==> Guarded(s.profiles, PublicationOf(s, a).value)
  }

  lemma StepEarlyExactly(s: State, a: Move)
    requires TokenInv(s) && NoneEarly(s)
    ensures NoneEarly(Step(s, a)) <==> GuardedStep(s, a)
  {
    if PublicationOf(s, a).Some? {
      var u := s.(profiles := RegisterIn(s.profiles, PublicationOf(s, a).value));
      RegisterEarlyExactly(s, PublicationOf(s, a).value);
      assert NoneEarly(Step(s, a)) <==> NoneEarly(u) by { assert Step(s, a).profiles == u.profiles; }
    } else {
      QuietPublication(s, a);
    }
  }

  lemma QuietPublication(s: State, a: Move)
    requires TokenInv(s) && NoneEarly(s) && PublicationOf(s, a).None?
    ensures NoneEarly(Step(s, a))
  {
    var t := Step(s, a);
    forall p | p in t.profiles ensures Superseded(t.profiles[p]) {
      if p in s.profiles {
        assert Superseded(s.profiles[p]);
        QuietProfile(s, a, p);
      } else {
        NewProfile(s, a, p);
      }
    }
  }

  lemma QuietProfile(s: State, a: Move, p: string)
    requires TokenInv(s) && PublicationOf(s, a).None? && p in s.profiles
    ensures p in Step(s, a).profiles && Aged(s.profiles[p], Step(s, a).profiles[p])
  {
    if a.Advance? && a.c in s.calls {
      if s.calls[a.c].pc.Replace? {
        ReplaceAges(s, a.c, a.e, s.calls[a.c].pc.y, p);
      } else {
        ProgressAges(s, a.c, a.e, p);
      }
    } else if Begins(a) && a.c !in s.calls {
      BeginAges(s, a, p);
    } else {
      OutsideAges(s, a, p);
    }
  }

  lemma ReplaceAges(s: State, c: nat, e: Choice, y: Replacing, p: string)
    requires c in s.calls && s.calls[c].pc == Replace(y) && PublicationOf(s, Advance(c, e)).None? && p in s.profiles
    ensures p in ReplaceStep(s, c, e, y).profiles && Aged(s.profiles[p], ReplaceStep(s, c, e, y).profiles[p])
  {
  }

  lemma OutsideAges(s: State, a: Move, p: string)
    requires p in s.profiles && !a.Register? && !(a.Advance? && a.c in s.calls) && (Begins(a) ==> a.c in s.calls)
    ensures p in Step(s, a).profiles && Aged(s.profiles[p], Step(s, a).profiles[p])
  {
  }

  lemma BeginAges(s: State, a: Move, p: string)
    requires Begins(a) && p in s.profiles
    ensures p in Begin(s, a).profiles && Aged(s.profiles[p], Begin(s, a).profiles[p])
  {
    if a.StartClose? {
      BeginCloseAges(s, a, p);
    } else if a.StartReplacement? {
      BeginReplacementAges(s, a, p);
    } else {
      assert Begin(s, a).profiles == s.profiles;
    }
  }

  lemma BeginCloseAges(s: State, a: Move, p: string)
    requires a.StartClose? && p in s.profiles
    ensures p in Begin(s, a).profiles && Aged(s.profiles[p], Begin(s, a).profiles[p])
  {
  }

  lemma BeginReplacementAges(s: State, a: Move, p: string)
    requires a.StartReplacement? && p in s.profiles
    ensures p in Begin(s, a).profiles && Aged(s.profiles[p], Begin(s, a).profiles[p])
  {
  }

  /** Profiles come only by being prepared or registered. */
  lemma NewProfile(s: State, a: Move, p: string)
    requires TokenInv(s) && PublicationOf(s, a).None? && p !in s.profiles && p in Step(s, a).profiles
    ensures !Step(s, a).profiles[p].live && Step(s, a).profiles[p].published == {}
  {
    if !Outside(a) {
      StepStays(s, a);
    }
  }

  lemma StepStays(s: State, a: Move)
    requires TokenInv(s) && PublicationOf(s, a).None? && !Outside(a)
    ensures Step(s, a).profiles.Keys == s.profiles.Keys
  {
    if a.Advance? && a.c in s.calls {
      var p := Placed(s, a.c);
      ProgressStays(s, a.c, a.e);
    } else if Begins(a) && a.c !in s.calls {
      BeginStays(s, a);
    }
  }

  lemma BeginStays(s: State, a: Move)
    requires Begins(a)
    ensures Begin(s, a).profiles.Keys == s.profiles.Keys
  {
  }

  lemma ProgressStays(s: State, c: nat, e: Choice)
    requires c in s.calls && s.calls[c].p in s.profiles && PublicationOf(s, Advance(c, e)).None?
    ensures Progress(s, c, e).profiles.Keys == s.profiles.Keys
  {
    match s.calls[c].pc
    case Using(l, u) => UseStays(s, c, e, l, u);
    case Run(r) => RunningStays(s, c, e, r);
    case Close(z, repl) => CloseStays(s, c, e, z, repl);
    case Ask(l, op) => AskStays(s, c, e, l, op);
    case Queue(q) => QueueStays(s, c, e, q);
    case Replace(y) => ReplaceStays(s, c, e, y);
  }

  lemma QueueStays(s: State, c: nat, e: Choice, q: Queued)
    requires c in s.calls && s.calls[c].p in s.profiles
    ensures QueueStep(s, c, e, q).profiles.Keys == s.profiles.Keys
  {
  }

  lemma AskStays(s: State, c: nat, e: Choice, l: nat, op: Op)
    requires c in s.calls
    ensures AskStep(s, c, e, l, op).profiles == s.profiles
  {
  }

  lemma ReplaceStays(s: State, c: nat, e: Choice, y: Replacing)
    requires c in s.calls && s.calls[c].p in s.profiles && s.calls[c].pc == Replace(y)
    requires PublicationOf(s, Advance(c, e)).None?
    ensures ReplaceStep(s, c, e, y).profiles.Keys == s.profiles.Keys
  {
  }

  lemma RunningStays(s: State, c: nat, e: Choice, r: Running)
    requires c in s.calls && s.calls[c].p in s.profiles
    ensures RunningStep(s, c, e, r).profiles.Keys == s.profiles.Keys
  {
  }

  lemma CloseStays(s: State, c: nat, e: Choice, z: Closing, repl: bool)
    requires c in s.calls && s.calls[c].p in s.profiles
    ensures CloseStep(s, c, e, z, repl).profiles.Keys == s.profiles.Keys
  {
  }

  lemma UseStays(s: State, c: nat, e: Choice, l: nat, u: Use)
    requires c in s.calls && s.calls[c].p in s.profiles
    ensures UseStep(s, c, e, l, u).profiles.Keys == s.profiles.Keys
  {
    if Executing(u) {
      ExecuteStays(s, c, e, l, u);
    } else if Cleaning(u) {
      CleanupStays(s, c, e, l, u);
    } else if Paging(u) {
      PageAges(s, c, e, l, u);
    } else if Releasing(u) {
      ReleaseStays(s, c, l, u);
    } else {
      LockAges(s, c, e, l, u);
    }
  }

  lemma CleanupStays(s: State, c: nat, e: Choice, l: nat, u: Use)
    requires c in s.calls && s.calls[c].p in s.profiles && Cleaning(u)
    ensures CleanupStep(s, c, e, l, u).profiles.Keys == s.profiles.Keys
  {
    assert CleanupEffect(s, s.calls[c].p, e, l, u).profiles.Keys == s.profiles.Keys;
  }

  lemma ReleaseStays(s: State, c: nat, l: nat, u: Use)
    requires c in s.calls && s.calls[c].p in s.profiles && Releasing(u)
    ensures ReleaseStep(s, c, l, u).profiles.Keys == s.profiles.Keys
  {
  }

  lemma ExecuteStays(s: State, c: nat, e: Choice, l: nat, u: Use)
    requires c in s.calls && s.calls[c].p in s.profiles && Executing(u)
    ensures ExecuteStep(s, c, e, l, u).profiles.Keys == s.profiles.Keys
  {
    assert ExecuteEffect(s, s.calls[c].p, e, l, u).profiles.Keys == s.profiles.Keys;
  }

  /** At the start and after every move. */
  ghost predicate NeverEarly(actions: seq<Move>) {
    NoneEarly(Runs(INITIAL, actions)) && (actions != [] ==> NeverEarly(actions[..|actions| - 1]))
  }

  ghost predicate AlwaysGuarded(actions: seq<Move>) {
    actions != [] ==>
      var before := actions[..|actions| - 1];
      AlwaysGuarded(before) && GuardedStep(Runs(INITIAL, before), actions[|actions| - 1])
  }

  /** In every run: no generation is ever published over one that was not stopped and drained, exactly when
      every registration, by whomever, meets the guard at the moment it is made. */
  lemma {:induction false} RunEarlyExactly(actions: seq<Move>)
    ensures NeverEarly(actions) <==> AlwaysGuarded(actions)
  {
    if actions != [] {
      var before := actions[..|actions| - 1];
      RunEarlyExactly(before);
      TokensAlways(before);
      if NeverEarly(before) {
        StepEarlyExactly(Runs(INITIAL, before), actions[|actions| - 1]);
      }
    }
  }

  // ---- leases and generations ----

  /** A lease handed to a caller is of the profile's own generation until it is released. */
  ghost predicate LeaseGeneration(s: State, v: Lease) {
    var f := ProfileOf(s, v.profile);
    !v.released && !v.cleanup ==> f.ref.gen == v.ref.gen && v.ref.gen in f.published && v.ref.gen !in f.drained
  }

  ghost predicate ProfileGeneration(f: Profile) {
    (f.live ==> f.ref.gen in f.published && f.ref.gen !in f.drained) && Superseded(f)
  }

  ghost predicate GenerationInv(s: State) {
    (forall l {:trigger LeaseGeneration(s, s.leases[l])} :: l in s.leases ==> LeaseGeneration(s, s.leases[l]))
    && (forall p {:trigger ProfileGeneration(s.profiles[p])} :: p in s.profiles ==> ProfileGeneration(s.profiles[p]))
  }

  /** The lease is lent to a cleanup, or on the live session it is of. */
  ghost predicate LentLive(s: State, v: Lease) {
    v.cleanup || (v.profile in s.profiles && s.profiles[v.profile].live && s.profiles[v.profile].ref.gen == v.ref.gen)
  }

  /** Profiles only age, and leases are lent on live sessions only. */
  lemma GenerationKept(s: State, t: State)
    requires TokenInv(s) && GenerationInv(s) && LeasesKept(s, t)
    requires forall p :: p in s.profiles ==> p in t.profiles && Aged(s.profiles[p], t.profiles[p])
    requires forall p :: p in t.profiles && p !in s.profiles ==> ProfileGeneration(t.profiles[p])
    requires forall l :: l in t.leases && l !in s.leases ==>
               t.leases[l].profile in s.profiles && LentLive(t, t.leases[l])
    ensures GenerationInv(t)
  {
    forall p | p in t.profiles ensures ProfileGeneration(t.profiles[p]) {
      assert p in s.profiles ==> ProfileGeneration(s.profiles[p]);
    }
    forall l | l in t.leases ensures LeaseGeneration(t, t.leases[l]) {
      if l in s.leases {
        assert LeaseGeneration(s, s.leases[l]) && LeaseShape(s, l);
        LentIsBusy(s, l);
      } else {
        assert ProfileGeneration(t.profiles[t.leases[l].profile]);
      }
    }
  }

  /** While a lease is unreleased the gate of its profile is empty. */
  lemma LentIsBusy(s: State, l: nat)
    requires TokenInv(s) && l in s.leases && s.leases[l].profile in s.profiles
    ensures !s.leases[l].released ==> s.profiles[s.leases[l].profile].gate == 0
  {
    var p := s.leases[l].profile;
    assert Holds(s, p, InGate) <==> InGate == s.profiles[p].holder;
    assert Holds(s, p, ByLease(l)) <==> ByLease(l) == s.profiles[p].holder;
  }

  /** A publication that meets the guard finds no lease in a caller's hands. */
  lemma GenerationPublished(s: State, t: State, ref: Ref)
    requires TokenInv(s) && GenerationInv(s) && Guarded(s.profiles, ref)
    requires t.profiles == RegisterIn(s.profiles, ref) && t.leases == s.leases
    ensures GenerationInv(t)
  {
    forall p | p in t.profiles ensures ProfileGeneration(t.profiles[p]) {
      assert p in s.profiles ==> ProfileGeneration(s.profiles[p]);
    }
    forall l | l in t.leases ensures LeaseGeneration(t, t.leases[l]) {
      assert LeaseGeneration(s, s.leases[l]) && LeaseShape(s, l);
    }
  }

  lemma StepKeepsGenerations(s: State, a: Move)
    requires TokenInv(s) && GenerationInv(s) && GuardedStep(s, a)
    ensures GenerationInv(Step(s, a))
  {
    if PublicationOf(s, a).Some? {
      PublicationIs(s, a);
      GenerationPublished(s, Step(s, a), PublicationOf(s, a).value);
    } else {
      forall p | p in s.profiles ensures p in Step(s, a).profiles && Aged(s.profiles[p], Step(s, a).profiles[p]) {
        QuietProfile(s, a, p);
      }
      forall p | p in Step(s, a).profiles && p !in s.profiles ensures ProfileGeneration(Step(s, a).profiles[p]) {
        NewProfile(s, a, p);
      }
      StepLends(s, a);
      GenerationKept(s, Step(s, a));
    }
  }

  lemma PublicationIs(s: State, a: Move)
    requires PublicationOf(s, a).Some?
    ensures Step(s, a).profiles == RegisterIn(s.profiles, PublicationOf(s, a).value) && Step(s, a).leases == s.leases
  {
  }

  lemma StepLends(s: State, a: Move)
    requires TokenInv(s)
    ensures var t := Step(s, a);
            LeasesKept(s, t)
            && forall l :: l in t.leases && l !in s.leases ==>
                 t.leases[l].profile in s.profiles && LentLive(t, t.leases[l])
  {
    if Outside(a) {
      OutsideStill(s, a);
    } else {
      StepStill(s, a);
      if a.Advance? && a.c in s.calls && s.calls[a.c].pc.Run? {
        RunningLends(s, a.c, a.e, s.calls[a.c].pc.r);
      }
    }
  }

  lemma RunningLends(s: State, c: nat, e: Choice, r: Running)
    requires TokenInv(s) && c in s.calls && s.calls[c].pc == Run(r)
    ensures var t := RunningStep(s, c, e, r);
            forall l :: l in t.leases && l !in s.leases ==>
              t.leases[l].profile in s.profiles && LentLive(t, t.leases[l])
  {
    var p := Placed(s, c);
  }

  lemma {:induction false} GenerationsAlways(actions: seq<Move>)
    requires AlwaysGuarded(actions)
    ensures GenerationInv(Runs(INITIAL, actions))
  {
    if actions != [] {
      var before := actions[..|actions| - 1];
      GenerationsAlways(before);
      TokensAlways(before);
      StepKeepsGenerations(Runs(INITIAL, before), actions[|actions| - 1]);
    }
  }

  // ---- what it means ----

  /** In every run whose registrations meet the guard, each generation that was ever published and is not
      the current one has been confirmed stopped and its gate has been drained, and every unreleased lease in
      a caller's hands is of the current generation. By RunEarlyExactly the first half holds throughout a run
      only if its registrations meet the guard. */
  lemma PublishedOnlyOverTheStopped(actions: seq<Move>, p: string)
    requires AlwaysGuarded(actions) && p in Runs(INITIAL, actions).profiles
    ensures var s := Runs(INITIAL, actions);
            Superseded(s.profiles[p])
            && forall l :: l in s.leases && s.leases[l].profile == p
                           && !s.leases[l].released && !s.leases[l].cleanup ==>
                 s.leases[l].ref.gen == s.profiles[p].ref.gen
  {
    GenerationsAlways(actions);
    var s := Runs(INITIAL, actions);
    assert ProfileGeneration(s.profiles[p]);
    forall l | l in s.leases && s.leases[l].profile == p && !s.leases[l].released && !s.leases[l].cleanup
      ensures s.leases[l].ref.gen == s.profiles[p].ref.gen
    {
      assert LeaseGeneration(s, s.leases[l]);
    }
  }

  lemma RegisteredFirst(ref: Ref)
    requires Identified(ref) && ref.gen == 1
    ensures var t := Step(INITIAL, Register(ref));
            t.calls == map[] && t.profiles.Keys == {ref.profile} && t.profiles[ref.profile].live
            && t.profiles[ref.profile].ref == ref && t.profiles[ref.profile].active == None
            && t.profiles[ref.profile].published == {1} && t.profiles[ref.profile].stopped == {}
  {
  }

  lemma RegisteredAgain(s: State, ref: Ref)
    requires Identified(ref) && ref.gen == 1 && ref.profile in s.profiles && s.profiles.Keys == {ref.profile}
    requires !s.profiles[ref.profile].live && s.profiles[ref.profile].ref.gen == 1
    ensures var t := Step(s, Register(ref));
            ref.profile in t.profiles && t.profiles[ref.profile].live && t.profiles[ref.profile].ref.gen == 2
            && t.profiles[ref.profile].published == s.profiles[ref.profile].published + {2}
            && t.profiles[ref.profile].stopped == s.profiles[ref.profile].stopped
  {
  }

  lemma StopFails(s: State, p: string, fails: Choice)
    requires p in s.profiles && s.calls == map[] && !fails.ok
    ensures Step(Step(s, StartClose(0, p)), Advance(0, fails)).profiles
         == s.profiles[p := s.profiles[p].(live := false)]
  {
    var t := Step(s, StartClose(0, p));
    assert t.calls[0] == Call(p, Close(CloseStop(s.profiles[p].ref.gen, s.profiles[p].active), false));
  }

  /** Without the guard it can come early: a stop that fails leaves the profile dead, and a
      direct registration then publishes generation 2 over a generation 1 nobody saw stop. */
  lemma DirectRegistrationCanPublishEarly()
    ensures exists actions: seq<Move> ::
              var s := Runs(INITIAL, actions);
              "p" in s.profiles && s.profiles["p"].live && s.profiles["p"].ref.gen == 2
              && 1 in s.profiles["p"].published && 1 !in s.profiles["p"].stopped
  {
    var ref := Ref("s", "server", "p", "", 1, true, false);
    var fails := Choice(false, false, "", Answer(false, false, false, None), [], ref);
    var a1, a2, a3, a4 := Register(ref), StartClose(0, "p"), Advance(0, fails), Register(ref);
    var s1 := Step(INITIAL, a1);
    RegisteredFirst(ref);
    var s3 := Step(Step(s1, a2), a3);
    StopFails(s1, "p", fails);
    var s4 := Step(s3, a4);
    RegisteredAgain(s3, ref);
    Unrolled(a1, a2, a3, a4);
    assert Runs(INITIAL, [a1, a2, a3, a4]) == s4;
  }

  lemma Unrolled(a: Move, b: Move, c: Move, d: Move)
    ensures Runs(INITIAL, [a, b, c, d]) == Step(Step(Step(Step(INITIAL, a), b), c), d)
  {
    assert [a, b, c, d][..3] == [a, b, c] && [a, b, c][..2] == [a, b] && [a, b][..1] == [a] && [a][..0] == [];
    assert Runs(INITIAL, [a]) == Step(INITIAL, a);
    assert Runs(INITIAL, [a, b]) == Step(Runs(INITIAL, [a]), b);
    assert Runs(INITIAL, [a, b, c]) == Step(Runs(INITIAL, [a, b]), c);
  }

  /** The generation under which an Acquire was queued. */
  function QueuedUnder(pc: Pc): Option<Generation> {
    if pc.Queue? && pc.q.AcqWait? then Some(pc.q.ref.gen)
    else if pc.Run? && (pc.r.AcqGot? || pc.r.AcqBind? || pc.r.AcqPublish?) then Some(pc.r.ref.gen)
    else None
  }

  /** A waiter keeps the generation it queued under, and gets a lease only of that generation and only
      while it is the live one. */
  lemma WaiterStaysInItsGeneration(s: State, c: nat, e: Choice)
    requires TokenInv(s) && c in s.calls && QueuedUnder(s.calls[c].pc).Some?
    ensures var t, g := Step(s, Advance(c, e)), QueuedUnder(s.calls[c].pc).value;
            (c in t.calls && QueuedUnder(t.calls[c].pc).Some? ==> QueuedUnder(t.calls[c].pc).value == g)
            && (t.next != s.next ==>
                  s.next in t.leases && !t.leases[s.next].cleanup && t.leases[s.next].ref.gen == g
                  && s.calls[c].p in s.profiles && s.profiles[s.calls[c].p].live
                  && s.profiles[s.calls[c].p].ref.gen == g)
  {
    var p := Placed(s, c);
    if s.calls[c].pc.Queue? {
      QueuedStays(s, c, e, s.calls[c].pc.q);
    } else {
      RunnerStays(s, c, e, s.calls[c].pc.r);
    }
  }

  lemma QueuedStays(s: State, c: nat, e: Choice, q: Queued)
    requires c in s.calls && s.calls[c].pc == Queue(q) && QueuedUnder(s.calls[c].pc).Some?
    ensures var t := QueueStep(s, c, e, q);
            t.next == s.next && (c in t.calls ==> QueuedUnder(t.calls[c].pc) == QueuedUnder(s.calls[c].pc))
  {
  }

  lemma RunnerStays(s: State, c: nat, e: Choice, r: Running)
    requires c in s.calls && s.calls[c].pc == Run(r) && QueuedUnder(s.calls[c].pc).Some? && s.calls[c].p in s.profiles
    ensures var t, g := RunningStep(s, c, e, r), QueuedUnder(s.calls[c].pc).value;
            (c in t.calls && QueuedUnder(t.calls[c].pc).Some? ==> QueuedUnder(t.calls[c].pc).value == g)
            && (t.next != s.next ==>
                  s.next in t.leases && !t.leases[s.next].cleanup && t.leases[s.next].ref.gen == g
                  && s.profiles[s.calls[c].p].live && s.profiles[s.calls[c].p].ref.gen == g)
  {
  }
}
