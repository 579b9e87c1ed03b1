/** What CloseSession, BeginReplacement and the coordinator's FinishTask do when nothing else happens meanwhile. */
module BrowserAloneClose {
  import opened Wrappers
  import opened BrowserState
  import opened BrowserSteps
  import opened BrowserAlone
  import opened BrowserAloneFinish
  import opened BrowserAloneSession

  function Dead(s: State, p: string): State { WithProfile(s, p, ProfileOf(s, p).(live := false)) }

  /** Only the generation's own chooser goes, the session of that generation is dead, and a gate lost under it
      is open again. */
  function Stopped(s: State, p: string, gen: Generation): State {
    var f := ProfileOf(s, p);
    var mine := f.chooser.Some? && f.chooser.value.ref.gen == gen;
    var lost := f.stranded && f.strandedGen == gen;
    WithProfile(s, p, f.(stopped := f.stopped + {gen}, chooser := if mine then None else f.chooser,
                         live := f.live && f.ref.gen != gen, stranded := f.stranded && !lost,
                         gate := if lost then f.gate + 1 else f.gate, holder := if lost then InGate else f.holder))
  }

  lemma ConfirmIsStopped(s: State, p: string, gen: Generation)
    requires p in s.profiles
    ensures s.(profiles := ConfirmIn(s.profiles, p, gen)) == Stopped(s, p, gen)
  {
  }

  /** A confirmation from outside does that, and only to a profile that is known. */
  lemma ConfirmAlone(s: State, p: string, gen: Generation)
    ensures Step(s, ConfirmStopped(p, gen)) == if p in s.profiles then Stopped(s, p, gen) else s
  {
    if p in s.profiles { ConfirmIsStopped(s, p, gen); }
  }

  /** A page handed over is no longer the task's own; nothing else changes. */
  lemma RetainAlone(s: State, key: Key, page: string, k: Key, id: string)
    ensures var t := Step(s, Retain(key, page));
            && t == s.(owned := t.owned)
            && (id in OwnedBy(t, k) <==> id in OwnedBy(s, k) && (k != key || id != page))
            && (id in OwnedBy(t, k) ==> OwnedBy(t, k)[id] == OwnedBy(s, k)[id])
  {
  }

  /** Preparing a profile enters it once, dead, with its gate open; a known profile stays as it is. */
  lemma PrepareAlone(s: State, ref: Ref)
    ensures Step(s, Prepare(ref))
         == if ref.server != "" && ref.profile != "" && ref.id != "" && ref.profile !in s.profiles
            then WithProfile(s, ref.profile, FreshProfile(ref)) else s
  {
  }

  /** A session may be registered where the reference is complete, no other live session is of its server, and
      the profile has none. */
  predicate MayRegister(s: State, ref: Ref) {
    && ref.server != "" && ref.profile != "" && ref.id != ""
    && (forall p :: p in s.profiles && s.profiles[p].live ==>
          p != ref.profile && s.profiles[p].ref.server != ref.server)
  }

  /** Registered, a session is live under the generation asked for or the next one, and finds no chooser; what
      else the profile holds stays. */
  lemma RegisterAlone(s: State, ref: Ref)
    ensures var t := Step(s, Register(ref));
            if !MayRegister(s, ref) then t == s
            else
              var f, g := ProfileOf(s, ref.profile), t.profiles[ref.profile];
              var prior := if ref.profile in s.profiles then f.ref.gen else 0;
              && t == WithProfile(s, ref.profile, g)
              && g.live && g.chooser.None? && g.ref == ref.(gen := g.ref.gen)
              && g.ref.gen == (if ref.gen > prior then ref.gen else (prior + 1) % MODULUS)
              && g.stopped == f.stopped && g.gate == f.gate && g.active == f.active && g.transition == f.transition
              && g.stranded == f.stranded && g.strandedGen == f.strandedGen
  {
    var t := Step(s, Register(ref));
    assert ServerTaken(s.profiles, ref) || (ref.profile in s.profiles && s.profiles[ref.profile].live)
           || !Identified(ref) || MayRegister(s, ref);
    if MayRegister(s, ref) { assert !ServerTaken(s.profiles, ref); }
  }

  // ---- CloseSession ----

  /** A replacement goes on after its CloseSession; any other CloseSession is over. */
  function Over(t: State, c: nat, p: string, repl: bool): State {
    if repl then Goto(t, c, p, Replace(ReplEnd)) else t
  }

  lemma CloseBegins(s: State, c: nat, p: string, repl: bool, e: Choice)
    requires c !in s.calls && p in s.profiles
    ensures var f := s.profiles[p];
            var d := Dead(s, p);
            Step(Goto(d, c, p, Close(CloseStop(f.ref.gen, f.active), repl)), Advance(c, e))
            == if e.ok then Goto(d, c, p, Close(CloseConfirm(f.ref.gen, f.active), repl)) else Over(d, c, p, repl)
  {
    var f, d := s.profiles[p], Dead(s, p);
    var z := CloseStop(f.ref.gen, f.active);
    var g := Goto(d, c, p, Close(z, repl));
    assert Step(g, Advance(c, e)) == CloseStep(g, c, e, z, repl);
    Rewritten(s.calls, c, Call(p, Close(z, repl)), Call(p, Close(CloseConfirm(f.ref.gen, f.active), repl)));
    Rewritten(s.calls, c, Call(p, Close(z, repl)), Call(p, Replace(ReplEnd)));
    assert s.calls - {c} == s.calls;
  }

  lemma Confirms(s: State, c: nat, p: string, gen: Generation, active: Option<nat>, repl: bool, e: Choice)
    requires c !in s.calls && p in s.profiles
    ensures Step(Goto(s, c, p, Close(CloseConfirm(gen, active), repl)), Advance(c, e))
         == Goto(Stopped(s, p, gen), c, p,
                 if active.Some? then Ask(active.value, Release(Drain(gen, repl))) else Close(CloseDrain(gen), repl))
  {
    var next := if active.Some? then Ask(active.value, Release(Drain(gen, repl))) else Close(CloseDrain(gen), repl);
    var g := Goto(s, c, p, Close(CloseConfirm(gen, active), repl));
    assert Step(g, Advance(c, e)) == CloseStep(g, c, e, CloseConfirm(gen, active), repl);
    ConfirmIsStopped(s, p, gen);
    Rewritten(s.calls, c, Call(p, Close(CloseConfirm(gen, active), repl)), Call(p, next));
  }

  /** The gate was emptied, which counts as a drain unless the generation lives. */
  function Drained(s: State, p: string, gen: Generation): State {
    var f := ProfileOf(s, p);
    if f.live && f.ref.gen == gen then s else WithProfile(s, p, f.(drained := f.drained + {gen}))
  }

  /** Draining waits for the gate and gives its token back at once. */
  lemma Drains(s: State, c: nat, p: string, gen: Generation, repl: bool, es: seq<Choice>)
    requires Open(s, c, p) && |es| >= 2
    ensures var g := Goto(s, c, p, Close(CloseDrain(gen), repl));
            var d := Drained(s, p, gen);
            Alone(g, c, es)
            == if !es[0].ok then Alone(Over(s, c, p, repl), c, es[1..])
               else Alone(if repl then Goto(d, c, p, Replace(ReplReady(gen))) else d, c, es[2..])
  {
    var g := Goto(s, c, p, Close(CloseDrain(gen), repl));
    assert Step(g, Advance(c, es[0])) == CloseStep(g, c, es[0], CloseDrain(gen), repl);
    if es[0].ok {
      TakesForDrain(s, c, p, gen, repl);
      GivesAfterDrain(Drained(s, p, gen), c, p, gen, repl, es[1]);
      Twice(g, c, es);
    } else {
      Rewritten(s.calls, c, Call(p, Close(CloseDrain(gen), repl)), Call(p, Replace(ReplEnd)));
      assert s.calls - {c} == s.calls;
    }
  }

  lemma TakesForDrain(s: State, c: nat, p: string, gen: Generation, repl: bool)
    requires Open(s, c, p)
    ensures forall e: Choice :: e.ok ==>
              CloseStep(Goto(s, c, p, Close(CloseDrain(gen), repl)), c, e, CloseDrain(gen), repl)
              == Taken(Drained(s, p, gen), c, p, Close(CloseDrained(gen), repl))
    ensures Open(Drained(s, p, gen), c, p)
  {
    var f := s.profiles[p];
    var f1 := f.(gate := 0, holder := ByCall(c));
    GateTaken(s, c, p, Close(CloseDrain(gen), repl), Close(CloseDrained(gen), repl));
    Rewritten(s.profiles, p, f1, f1.(drained := f.drained + {gen}));
    Rewritten(s.profiles, p, f.(drained := f.drained + {gen}), f1.(drained := f.drained + {gen}));
  }

  lemma GivesAfterDrain(s: State, c: nat, p: string, gen: Generation, repl: bool, e: Choice)
    requires Open(s, c, p)
    ensures Step(Taken(s, c, p, Close(CloseDrained(gen), repl)), Advance(c, e))
         == if repl then Goto(s, c, p, Replace(ReplReady(gen))) else s
  {
    var pc := Close(CloseDrained(gen), repl);
    var g := Taken(s, c, p, pc);
    assert Step(g, Advance(c, e)) == CloseStep(g, c, e, CloseDrained(gen), repl);
    if repl {
      var f := s.profiles[p];
      Rewritten(s.calls, c, Call(p, pc), Call(p, Replace(ReplReady(gen))));
      Rewritten(s.profiles, p, f.(gate := 0, holder := ByCall(c)), f);
      assert s.profiles[p := f] == s.profiles;
    } else {
      TokenBack(s, c, p, pc);
    }
  }

  /** CloseSession on a profile nobody uses: the session is dead from the start; if it cannot be stopped that is
      all; and once it was stopped, it counts as stopped, and as drained when the wait for the gate is over. */
  lemma CloseAlone(s: State, c: nat, p: string, es: seq<Choice>)
    requires c !in s.calls && |es| >= 4
    requires p in s.profiles ==> s.profiles[p].active.None? && Open(Stopped(Dead(s, p), p, s.profiles[p].ref.gen), c, p)
    ensures Alone(Step(s, StartClose(c, p)), c, es)
         == if p !in s.profiles then s
            else if !es[0].ok then Dead(s, p)
            else
              var gen := s.profiles[p].ref.gen;
              var t := Stopped(Dead(s, p), p, gen);
              if es[2].ok then Drained(t, p, gen) else t
  {
    if p !in s.profiles {
      AloneOver(s, c, es);
    } else {
      var gen, d := s.profiles[p].ref.gen, Dead(s, p);
      assert Step(s, StartClose(c, p)) == Goto(d, c, p, Close(CloseStop(gen, None), false));
      CloseBegins(s, c, p, false, es[0]);
      if es[0].ok {
        var t := Stopped(d, p, gen);
        Confirms(d, c, p, gen, None, false, es[1]);
        Twice(Goto(d, c, p, Close(CloseStop(gen, None), false)), c, es);
        Drains(t, c, p, gen, false, es[2..]);
        AloneOver(t, c, es[2..][1..]);
        AloneOver(Drained(t, p, gen), c, es[2..][2..]);
      } else {
        AloneOver(d, c, es[1..]);
      }
    }
  }

  /** With a lease in use, CloseSession gives that lease up before it drains. The generation was just confirmed
      stopped, so that even an uncertain lease is given up. */
  lemma CloseWithLease(t: State, c: nat, l: nat, gen: Generation, repl: bool, es: seq<Choice>)
    requires Free(t, c, l) && |es| >= 6 && !t.leases[l].released && t.leases[l].ref.gen == gen
    requires gen in t.profiles[t.leases[l].profile].stopped
    ensures var p := t.leases[l].profile;
            Alone(Goto(t, c, p, Ask(l, Release(Drain(gen, repl)))), c, es)
            == if es[0].ok then Alone(Goto(GivenUp(t, l), c, p, Close(CloseDrain(gen), repl)), c, es[6..])
               else Alone(Over(t, c, p, repl), c, es[1..])
  {
    var p, after := t.leases[l].profile, Drain(gen, repl);
    Takes(t, c, l, Release(after), es[0]);
    if es[0].ok {
      GivesUpStopped(t, c, l, after, es[1..]);
      assert es[1..][5..] == es[6..];
    } else {
      assert t.calls - {c} == t.calls;
    }
  }

  lemma GivesUpStopped(t: State, c: nat, l: nat, after: After, es: seq<Choice>)
    requires Free(t, c, l) && |es| >= 5 && !t.leases[l].released
    requires t.leases[l].ref.gen in t.profiles[t.leases[l].profile].stopped
    ensures Alone(At(t, c, l, Held(Release(after))), c, es)
         == Alone(Continue(GivenUp(t, l), c, t.leases[l].profile, l, after), c, es[5..])
  {
    HeldAt(t, c, l, Release(after), es[0]);
    ReleasesAlone(t, c, l, after, es[1..]);
    assert es[1..][3..] == es[4..] && es[4..][1..] == es[5..];
    GivesBack(GivenUp(t, l), c, l, after, es[4]);
  }

  // ---- BeginReplacement ----

  /** A replacement begins by taking the transition token and closing the session. */
  lemma ReplacementStarts(s: State, c: nat, p: string, es: seq<Choice>)
    requires c !in s.calls && |es| >= 1
    ensures Alone(Step(s, StartReplacement(c, p)), c, es)
         == if p in s.profiles && s.profiles[p].transition > 0
            then
              var f := s.profiles[p];
              var g := f.(transition := f.transition - 1, replacer := Some(c), live := false);
              Alone(Goto(WithProfile(s, p, g), c, p, Close(CloseStop(f.ref.gen, f.active), true)), c, es[1..])
            else s
  {
    var t := Step(s, StartReplacement(c, p));
    if p in s.profiles && s.profiles[p].transition > 0 {
      var f := s.profiles[p];
      var f1 := f.(transition := f.transition - 1, replacer := Some(c));
      assert t == Goto(WithProfile(s, p, f1), c, p, Replace(ReplStart));
      assert Step(t, Advance(c, es[0])) == ReplaceStep(t, c, es[0], ReplStart);
      Rewritten(s.profiles, p, f1, f1.(live := false));
      Rewritten(s.calls, c, Call(p, Replace(ReplStart)), Call(p, Close(CloseStop(f.ref.gen, f.active), true)));
    } else {
      AloneOver(s, c, es);
    }
  }

  /** ... and ends by giving it back, after registering the session the caller connected, if it did and if it is
      of this profile. */
  lemma ReplacementEnds(s: State, c: nat, p: string, gen: Generation, es: seq<Choice>)
    requires c !in s.calls && p in s.profiles && |es| >= 2
    ensures var t := if es[0].ok && es[0].ref.profile == p then Step(s, Register(es[0].ref)) else s;
            p in t.profiles
            && Alone(Goto(s, c, p, Replace(ReplReady(gen))), c, es)
               == WithProfile(t, p, t.profiles[p].(transition := t.profiles[p].transition + 1, replacer := None))
  {
    var t := if es[0].ok && es[0].ref.profile == p then Step(s, Register(es[0].ref)) else s;
    Connects(s, c, p, gen, es[0]);
    GivesTransition(t, c, p, es[1]);
    Twice(Goto(s, c, p, Replace(ReplReady(gen))), c, es);
    var g := t.profiles[p].(transition := t.profiles[p].transition + 1, replacer := None);
    AloneOver(WithProfile(t, p, g), c, es[2..]);
  }

  lemma Connects(s: State, c: nat, p: string, gen: Generation, e: Choice)
    requires c !in s.calls && p in s.profiles
    ensures var t := if e.ok && e.ref.profile == p then Step(s, Register(e.ref)) else s;
            Step(Goto(s, c, p, Replace(ReplReady(gen))), Advance(c, e)) == Goto(t, c, p, Replace(ReplEnd))
            && p in t.profiles && c !in t.calls
  {
    var g := Goto(s, c, p, Replace(ReplReady(gen)));
    assert Step(g, Advance(c, e)) == ReplaceStep(g, c, e, ReplReady(gen));
    Rewritten(s.calls, c, Call(p, Replace(ReplReady(gen))), Call(p, Replace(ReplEnd)));
  }

  lemma GivesTransition(t: State, c: nat, p: string, e: Choice)
    requires c !in t.calls && p in t.profiles
    ensures Step(Goto(t, c, p, Replace(ReplEnd)), Advance(c, e))
         == WithProfile(t, p, t.profiles[p].(transition := t.profiles[p].transition + 1, replacer := None))
  {
    var h := Goto(t, c, p, Replace(ReplEnd));
    assert Step(h, Advance(c, e)) == ReplaceStep(h, c, e, ReplEnd);
    assert t.calls[c := Call(p, Replace(ReplEnd))] - {c} == t.calls;
  }

  // ---- the coordinator's FinishTask ----

  /** A task without a binding, or bound to an unknown profile, is simply forgotten. */
  lemma FinishUnbound(s: State, c: nat, task: Task, retain: set<string>)
    requires var key := KeyOf(task); c !in s.calls && (key !in s.bindings || s.bindings[key].profile !in s.profiles)
    ensures var t, key := Step(s, StartFinish(c, task, retain)), KeyOf(task);
            && t == s.(bindings := t.bindings, owned := t.owned, unknown := t.unknown, tainted := t.tainted)
            && key !in t.bindings && key !in t.owned && key !in t.unknown && key !in t.tainted
            && (forall k :: k != key ==>
                  (k in t.bindings <==> k in s.bindings) && (k in t.unknown <==> k in s.unknown)
                  && OwnedBy(t, k) == OwnedBy(s, k))
  {
  }

  /** A task that has a lease cleans up on it; otherwise it gets a lease of its own for the cleanup, on its
      binding and without a check of the session, when the gate is free. */
  lemma FinishStarts(s: State, c: nat, task: Task, retain: set<string>, es: seq<Choice>)
    requires var key := KeyOf(task); c !in s.calls && key in s.bindings && s.bindings[key].profile in s.profiles
    requires |es| >= 2
    ensures var ref := s.bindings[KeyOf(task)];
            var p := ref.profile;
            var active := s.profiles[p].active;
            if active.Some? && LeaseKey(s, active.value) == KeyOf(task)
            then Step(s, StartFinish(c, task, retain)) == Goto(s, c, p, Ask(active.value, Finish(retain, true)))
            else Open(s, c, p) ==>
              Alone(Step(s, StartFinish(c, task, retain)), c, es)
              == if !es[0].ok then s
                 else
                   var f := s.profiles[p];
                   var v := Lease(p, ref, task, 1, false, KeyOf(task) in s.unknown, true, None);
                   var t := WithProfile(s, p, f.(gate := 0, active := Some(s.next), holder := ByLease(s.next)))
                            .(leases := s.leases[s.next := v], next := s.next + 1);
                   Alone(Goto(t, c, p, Ask(s.next, Finish(retain, true))), c, es[2..])
  {
    var key, ref := KeyOf(task), s.bindings[KeyOf(task)];
    var p := ref.profile;
    var f, t := s.profiles[p], Step(s, StartFinish(c, task, retain));
    if !(f.active.Some? && LeaseKey(s, f.active.value) == key) && Open(s, c, p) {
      var q := FinWait(task, ref, retain);
      assert t == Goto(s, c, p, Queue(q));
      assert Step(t, Advance(c, es[0])) == QueueStep(t, c, es[0], q);
      assert s.calls[c := Call(p, Queue(q))] - {c} == s.calls;
      if es[0].ok {
        GateTaken(s, c, p, Queue(q), Run(FinGot(task, ref, retain)));
        LendsForCleanup(s, c, p, FinGot(task, ref, retain), es[1]);
        Twice(t, c, es);
      } else {
        AloneOver(s, c, es[1..]);
      }
    }
  }

  lemma LendsForCleanup(s: State, c: nat, p: string, r: Running, e: Choice)
    requires Open(s, c, p) && r.FinGot?
    ensures var f := s.profiles[p];
            var v := Lease(p, r.ref, r.task, 1, false, KeyOf(r.task) in s.unknown, true, None);
            var t := WithProfile(s, p, f.(gate := 0, active := Some(s.next), holder := ByLease(s.next)))
                     .(leases := s.leases[s.next := v], next := s.next + 1);
            Step(Taken(s, c, p, Run(r)), Advance(c, e)) == Goto(t, c, p, Ask(s.next, Finish(r.retain, true)))
  {
    var g, f := Taken(s, c, p, Run(r)), s.profiles[p];
    assert Step(g, Advance(c, e)) == RunningStep(g, c, e, r);
    Rewritten(s.calls, c, Call(p, Run(r)), Call(p, Ask(s.next, Finish(r.retain, true))));
    Rewritten(s.profiles, p, f.(gate := 0, holder := ByCall(c)),
              f.(gate := 0, active := Some(s.next), holder := ByLease(s.next)));
  }
}
