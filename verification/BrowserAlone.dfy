/** What a call does when nothing else happens meanwhile: from its first section to its last, for every answer
    of the driver and of the callbacks. */
module BrowserAlone {
  import opened Wrappers
  import opened BrowserState
  import opened BrowserSteps

  /** The call takes its next steps, with one answer for each. */
  function Alone(s: State, c: nat, es: seq<Choice>): State
    decreases |es|
  {
    if es == [] then s else Alone(Step(s, Advance(c, es[0])), c, es[1..])
  }

  /** A call that has ended takes none. */
  lemma {:induction false} AloneOver(s: State, c: nat, es: seq<Choice>)
    requires c !in s.calls
    ensures Alone(s, c, es) == s
    decreases |es|
  {
    if es != [] { AloneOver(s, c, es[1..]); }
  }

  /** Nobody operates the lease, and the call has not begun. */
  predicate Free(s: State, c: nat, l: nat) {
    && c !in s.calls && l in s.leases && s.leases[l].op == 1 && s.leases[l].worker == None
    && s.leases[l].profile in s.profiles
  }

  /** As t, but the call is at work on the lease. */
  function At(t: State, c: nat, l: nat, u: Use): State {
    var v := LeaseOf(t, l);
    Goto(WithLease(t, l, v.(op := 0, worker := Some(c))), c, v.profile, Using(l, u))
  }

  lemma Takes(s: State, c: nat, l: nat, op: Op, e: Choice)
    requires Free(s, c, l)
    ensures Step(Goto(s, c, s.leases[l].profile, Ask(l, op)), Advance(c, e))
         == if e.ok then At(s, c, l, Held(op)) else Continue(s, c, s.leases[l].profile, l, AfterCancel(op))
  {
    var g := Goto(s, c, s.leases[l].profile, Ask(l, op));
    assert Step(g, Advance(c, e)) == AskStep(g, c, e, l, op);
    if !e.ok { Regone(s, c, s.leases[l].profile, Ask(l, op), l, AfterCancel(op)); }
  }

  /** Where a call was before does not matter for where it goes on. */
  lemma Regone(t: State, c: nat, p: string, pc: Pc, l: nat, after: After)
    requires c !in t.calls
    ensures Continue(Goto(t, c, p, pc), c, p, l, after) == Continue(t, c, p, l, after)
  {
    Rewritten(t.calls, c, Call(p, pc), Call(p, Ask(l, Release(Stop))));
    if after.Drain? {
      Rewritten(t.calls, c, Call(p, pc), Call(p, Close(CloseDrain(after.gen), after.repl)));
    } else {
      Rewritten(t.calls, c, Call(p, pc), Call(p, Replace(ReplEnd)));
    }
  }

  lemma Rewritten<K, V>(m: map<K, V>, k: K, x: V, y: V)
    ensures m[k := x][k := y] == m[k := y] && m[k := x] - {k} == m - {k}
  {
  }

  /** Giving the operation token back. */
  lemma GivesBack(t: State, c: nat, l: nat, after: After, e: Choice)
    requires Free(t, c, l)
    ensures Step(At(t, c, l, Return(after)), Advance(c, e)) == Continue(t, c, t.leases[l].profile, l, after)
  {
    var v, p := t.leases[l], t.leases[l].profile;
    var g := At(t, c, l, Return(after));
    assert Step(g, Advance(c, e)) == ReturnStep(g, c, l, after);
    assert g.leases[l := v] == t.leases;
    assert WithLease(g, l, LeaseOf(g, l).(op := 1, worker := None)) == Goto(t, c, p, Using(l, Return(after)));
    Regone(t, c, p, Using(l, Return(after)), l, after);
  }

  lemma Ends(t: State, c: nat, l: nat, es: seq<Choice>)
    requires Free(t, c, l) && |es| >= 1
    ensures Alone(At(t, c, l, Return(Stop)), c, es) == t
  {
    GivesBack(t, c, l, Stop, es[0]);
    assert t.calls - {c} == t.calls;
    AloneOver(t, c, es[1..]);
  }

  // ---- under the operation token ----

  /** Where the call goes on to mark an outcome, the outcome just became unknown. */
  function Noted(w: State, l: nat, next: Use): State {
    if next.MarkLease? then w.(tainted := w.tainted + {LeaseKey(w, l)}) else w
  }

  /** From t to w the shared state changed, and the call goes on to next. */
  lemma GoesOn(t: State, w: State, h: State, c: nat, l: nat, u: Use, next: Use)
    requires Free(t, c, l) && l in w.leases && w.leases[l].profile == t.leases[l].profile && w.calls == t.calls
    requires w.leases[l].task == t.leases[l].task
    requires h == w.(calls := At(t, c, l, u).calls, leases := At(w, c, l, u).leases)
    ensures Proceed(h, c, l, next) == At(Noted(w, l, next), c, l, next)
  {
    Rewritten(t.calls, c, Call(t.leases[l].profile, Using(l, u)), Call(t.leases[l].profile, Using(l, next)));
  }

  lemma HeldAt(t: State, c: nat, l: nat, op: Op, e: Choice)
    requires Free(t, c, l)
    requires op.Finish? && !t.leases[l].released ==> Lists(e.ids, OwnedBy(t, LeaseKey(t, l)).Keys)
    ensures var next := HeldNext(t, t.leases[l].profile, e, l, op);
            Step(At(t, c, l, Held(op)), Advance(c, e)) == At(Noted(t, l, next), c, l, next)
  {
    var g, p := At(t, c, l, Held(op)), t.leases[l].profile;
    assert Step(g, Advance(c, e)) == HeldStep(g, c, e, l, op);
    HeldAlike(t, c, l, op, e);
    GoesOn(t, t, g, c, l, Held(op), HeldNext(t, p, e, l, op));
  }

  lemma HeldAlike(t: State, c: nat, l: nat, op: Op, e: Choice)
    requires Free(t, c, l)
    ensures var p := t.leases[l].profile;
            HeldNext(At(t, c, l, Held(op)), p, e, l, op) == HeldNext(t, p, e, l, op)
  {
  }

  lemma ExecuteAt(t: State, c: nat, l: nat, u: Use, e: Choice)
    requires Free(t, c, l) && Executing(u)
    ensures var p := t.leases[l].profile;
            var w, next := ExecuteEffect(t, p, e, l, u), ExecuteNext(t, p, e, l, u);
            Step(At(t, c, l, u), Advance(c, e)) == At(Noted(w, l, next), c, l, next)
            && w.calls == t.calls && w.leases == t.leases
  {
    var g, p := At(t, c, l, u), t.leases[l].profile;
    var w := ExecuteEffect(t, p, e, l, u);
    assert Step(g, Advance(c, e)) == ExecuteStep(g, c, e, l, u);
    ExecuteAlike(t, g, p, e, l, u);
    GoesOn(t, w, ExecuteEffect(g, p, e, l, u), c, l, u, ExecuteNext(t, p, e, l, u));
  }

  /** Holding the token makes no difference to what an action does. */
  lemma ExecuteAlike(t: State, g: State, p: string, e: Choice, l: nat, u: Use)
    requires l in t.leases && l in g.leases && Executing(u) && p in t.profiles
    requires g == t.(calls := g.calls, leases := t.leases[l := g.leases[l]])
    requires g.leases[l].ref == t.leases[l].ref && g.leases[l].task == t.leases[l].task
    ensures var w := ExecuteEffect(t, p, e, l, u);
            && ExecuteEffect(g, p, e, l, u) == w.(calls := g.calls, leases := g.leases)
            && w.calls == t.calls && w.leases == t.leases
    ensures ExecuteNext(g, p, e, l, u) == ExecuteNext(t, p, e, l, u)
  {
  }

  lemma PageAt(t: State, c: nat, l: nat, u: Use, e: Choice)
    requires Free(t, c, l) && Paging(u)
    ensures var w, next := PageEffect(t, l, u), PageNext(t, t.leases[l].profile, l, u);
            Step(At(t, c, l, u), Advance(c, e)) == At(w, c, l, next)
            && w.calls == t.calls && l in w.leases && Free(w, c, l)
  {
    var g, p := At(t, c, l, u), t.leases[l].profile;
    var w := PageEffect(t, l, u);
    assert Step(g, Advance(c, e)) == PageStep(g, c, l, u);
    PageAlike(t, c, l, u);
    GoesOn(t, w, PageEffect(g, l, u), c, l, u, PageNext(t, p, l, u));
  }

  lemma PageAlike(t: State, c: nat, l: nat, u: Use)
    requires Free(t, c, l) && Paging(u)
    ensures var g, w := At(t, c, l, u), PageEffect(t, l, u);
            && PageEffect(g, l, u) == w.(calls := g.calls, leases := At(w, c, l, u).leases)
            && w.calls == t.calls && Free(w, c, l) && w.leases[l].profile == t.leases[l].profile
            && w.leases[l].task == t.leases[l].task
            && PageNext(g, t.leases[l].profile, l, u) == PageNext(t, t.leases[l].profile, l, u)
  {
    if u.SetPage? {
      var v := t.leases[l];
      Rewritten(t.leases, l, v.(op := 0, worker := Some(c)),
                v.(op := 0, worker := Some(c), ref := v.ref.(page := u.page)));
      Rewritten(t.leases, l, v.(ref := v.ref.(page := u.page)),
                v.(op := 0, worker := Some(c), ref := v.ref.(page := u.page)));
    }
  }

  lemma MarkAt(t: State, c: nat, l: nat, u: Use, e: Choice)
    requires Free(t, c, l) && Marking(u) && !MarkNext(u).MarkLease?
    ensures var w := MarkEffect(t, l, u);
            Step(At(t, c, l, u), Advance(c, e)) == At(w, c, l, MarkNext(u)) && Free(w, c, l)
            && w.leases[l].profile == t.leases[l].profile && w.leases[l].task == t.leases[l].task
  {
    var g := At(t, c, l, u);
    var w := MarkEffect(t, l, u);
    assert Step(g, Advance(c, e)) == MarkStep(g, c, l, u);
    MarkAlike(t, c, l, u);
    GoesOn(t, w, MarkEffect(g, l, u), c, l, u, MarkNext(u));
  }

  lemma MarkAlike(t: State, c: nat, l: nat, u: Use)
    requires Free(t, c, l) && Marking(u)
    ensures var g, w := At(t, c, l, u), MarkEffect(t, l, u);
            && MarkEffect(g, l, u) == w.(calls := g.calls, leases := At(w, c, l, u).leases)
            && w.calls == t.calls && Free(w, c, l) && w.leases[l].profile == t.leases[l].profile
            && w.leases[l].task == t.leases[l].task
  {
    var v := t.leases[l];
    Rewritten(t.leases, l, v.(op := 0, worker := Some(c)), v.(op := 0, worker := Some(c), uncertain := u.MarkLease?));
    Rewritten(t.leases, l, v.(uncertain := u.MarkLease?), v.(op := 0, worker := Some(c), uncertain := u.MarkLease?));
  }

  lemma CleanupAt(t: State, c: nat, l: nat, u: Use, e: Choice)
    requires Free(t, c, l) && Cleaning(u)
    ensures var p := t.leases[l].profile;
            var w, next := CleanupEffect(t, p, e, l, u), CleanupNext(t, p, e, l, u);
            Step(At(t, c, l, u), Advance(c, e)) == At(Noted(w, l, next), c, l, next)
            && w.calls == t.calls && w.leases == t.leases
  {
    var g, p := At(t, c, l, u), t.leases[l].profile;
    var w := CleanupEffect(t, p, e, l, u);
    assert Step(g, Advance(c, e)) == CleanupStep(g, c, e, l, u);
    CleanupAlike(t, g, p, e, l, u);
    GoesOn(t, w, CleanupEffect(g, p, e, l, u), c, l, u, CleanupNext(t, p, e, l, u));
  }

  lemma CleanupAlike(t: State, g: State, p: string, e: Choice, l: nat, u: Use)
    requires l in t.leases && l in g.leases && Cleaning(u) && p in t.profiles
    requires g == t.(calls := g.calls, leases := t.leases[l := g.leases[l]])
    requires g.leases[l].ref == t.leases[l].ref && g.leases[l].task == t.leases[l].task
    requires g.leases[l].uncertain == t.leases[l].uncertain
    ensures var w := CleanupEffect(t, p, e, l, u);
            && CleanupEffect(g, p, e, l, u) == w.(calls := g.calls, leases := g.leases)
            && w.calls == t.calls && w.leases == t.leases
    ensures CleanupNext(g, p, e, l, u) == CleanupNext(t, p, e, l, u)
  {
  }

  // ---- marking an outcome unknown ----

  /** The task's outcome is unknown: its lease and its later leases refuse actions. */
  function Unknown(t: State, l: nat): State {
    WithLease(t, l, LeaseOf(t, l).(uncertain := true))
    .(unknown := t.unknown + {LeaseKey(t, l)}, tainted := t.tainted + {LeaseKey(t, l)})
  }

  lemma MarksAndEnds(t: State, c: nat, l: nat, es: seq<Choice>)
    requires Free(t, c, l) && |es| >= 3
    ensures Alone(At(Noted(t, l, MarkLease(Return(Stop))), c, l, MarkLease(Return(Stop))), c, es) == Unknown(t, l)
  {
    var t0 := Noted(t, l, MarkLease(Return(Stop)));
    MarkAt(t0, c, l, MarkLease(Return(Stop)), es[0]);
    var t1 := MarkEffect(t0, l, MarkLease(Return(Stop)));
    MarkAt(t1, c, l, MarkTask(Return(Stop)), es[1]);
    var t2 := MarkEffect(t1, l, MarkTask(Return(Stop)));
    Ends(t2, c, l, es[2..]);
    assert es[1..][1..] == es[2..];
  }

  // ---- Observe, Reconcile and Release ----

  /** The lease is unreleased and its session live. */
  predicate Usable(s: State, l: nat) {
    var v := LeaseOf(s, l);
    var f := ProfileOf(s, v.profile);
    !v.released && f.live && f.ref.gen == v.ref.gen
  }

  /** A chooser is pending for the owner on the profile, server, page and generation of a reference. */
  predicate Stands(chooser: Option<Chooser>, ref: Ref, owner: string) {
    chooser.Some? && chooser.value.owner == owner
    && chooser.value.ref.(id := ref.id, owns := ref.owns, ext := ref.ext) == ref
  }

  predicate Pending(s: State, l: nat) {
    Stands(ProfileOf(s, LeaseOf(s, l).profile).chooser, LeaseOf(s, l).ref, LeaseOf(s, l).task.owner)
  }

  /** A caller's operation; es[0] says whether it waits for the lease's token or gives up. */
  predicate Called(s: State, c: nat, l: nat) { Free(s, c, l) && !s.leases[l].cleanup }

  lemma Starts(s: State, c: nat, l: nat, op: Op, es: seq<Choice>)
    requires Called(s, c, l) && |es| >= 1
    requires op.Exec? || op.Observe? || op.Reconcile? || op == Release(Stop) || (op.Finish? && !op.release)
    ensures Alone(Step(s, StartOp(c, l, op)), c, es)
         == if es[0].ok then Alone(At(s, c, l, Held(op)), c, es[1..]) else s
  {
    var p := s.leases[l].profile;
    assert Step(s, StartOp(c, l, op)) == Goto(s, c, p, Ask(l, op));
    Takes(s, c, l, op, es[0]);
    if !es[0].ok {
      assert AfterCancel(op) == Stop && s.calls - {c} == s.calls;
      AloneOver(s, c, es[1..]);
    }
  }

  /** An observation of unknown outcome marks the task; nothing else is changed by looking at a page. */
  lemma ObserveAlone(s: State, c: nat, l: nat, es: seq<Choice>)
    requires Called(s, c, l) && |es| >= 5
    ensures Alone(Step(s, StartOp(c, l, Observe)), c, es)
         == if es[0].ok && Usable(s, l) && !Pending(s, l) && es[1].unknown then Unknown(s, l) else s
  {
    Starts(s, c, l, Observe, es);
    if es[0].ok {
      HeldAt(s, c, l, Observe, es[1]);
      assert es[1..][1..] == es[2..];
      if HeldNext(s, s.leases[l].profile, es[1], l, Observe).MarkLease? {
        MarksAndEnds(s, c, l, es[2..]);
      } else {
        Ends(s, c, l, es[2..]);
      }
    }
  }

  /** What a reconciliation clears. */
  function Certain(t: State, l: nat): State {
    WithLease(t, l, LeaseOf(t, l).(uncertain := false))
    .(unknown := t.unknown - {LeaseKey(t, l)}, tainted := t.tainted - {LeaseKey(t, l)})
  }

  lemma ClearsAndEnds(t: State, c: nat, l: nat, es: seq<Choice>)
    requires Free(t, c, l) && |es| >= 3
    ensures Alone(At(t, c, l, ClearLease), c, es) == Certain(t, l)
  {
    MarkAt(t, c, l, ClearLease, es[0]);
    var t1 := MarkEffect(t, l, ClearLease);
    MarkAt(t1, c, l, ClearTask, es[1]);
    var t2 := MarkEffect(t1, l, ClearTask);
    Ends(t2, c, l, es[2..]);
    assert es[1..][1..] == es[2..];
  }

  /** A reconciliation lifts the uncertainty exactly when the lease may be used and the driver and the caller's
      verification confirm; otherwise it changes nothing at all. */
  lemma ReconcileAlone(s: State, c: nat, l: nat, es: seq<Choice>)
    requires Called(s, c, l) && |es| >= 5
    ensures Alone(Step(s, StartOp(c, l, Reconcile)), c, es)
         == if es[0].ok && Usable(s, l) && es[1].ok then Certain(s, l) else s
  {
    Starts(s, c, l, Reconcile, es);
    if es[0].ok {
      HeldAt(s, c, l, Reconcile, es[1]);
      assert es[1..][1..] == es[2..];
      if HeldNext(s, s.leases[l].profile, es[1], l, Reconcile).ClearLease? {
        ClearsAndEnds(s, c, l, es[2..]);
      } else {
        Ends(s, c, l, es[2..]);
      }
    }
  }

  /** The lease is given up and the next waiter's token is back in the gate. */
  function GivenUp(s: State, l: nat): State {
    var v := LeaseOf(s, l);
    var f := ProfileOf(s, v.profile);
    WithProfile(WithLease(s, l, v.(released := true)), v.profile,
                f.(gate := f.gate + 1, holder := InGate, active := if f.active == Some(l) then None else f.active))
  }

  /** A lease is given up exactly once, and an uncertain one only when its session was confirmed stopped or the
      driver came to rest. */
  lemma ReleaseAlone(s: State, c: nat, l: nat, es: seq<Choice>)
    requires Called(s, c, l) && |es| >= 6
    ensures var v := s.leases[l];
            Alone(Step(s, StartOp(c, l, Release(Stop))), c, es)
            == if es[0].ok && !v.released && (v.uncertain ==> v.ref.gen in s.profiles[v.profile].stopped || es[1].ok)
               then GivenUp(s, l) else s
  {
    Starts(s, c, l, Release(Stop), es);
    if es[0].ok {
      HeldAt(s, c, l, Release(Stop), es[1]);
      assert es[1..][1..] == es[2..];
      if HeldNext(s, s.leases[l].profile, es[1], l, Release(Stop)).RelMark? {
        ReleasesAlone(s, c, l, Stop, es[2..]);
        assert es[2..][3..] == es[5..];
        GivesUp(s, c, l);
        Ends(GivenUp(s, l), c, l, es[5..]);
      } else {
        Ends(s, c, l, es[2..]);
      }
    }
  }

  lemma ReleasesAlone(s: State, c: nat, l: nat, after: After, es: seq<Choice>)
    requires Free(s, c, l) && |es| >= 3
    ensures Alone(At(s, c, l, RelMark(after)), c, es) == Alone(At(GivenUp(s, l), c, l, Return(after)), c, es[3..])
    ensures Free(GivenUp(s, l), c, l)
  {
    var t1, t2 := Released(s, c, l), Inactive(Released(s, c, l), l);
    MarksReleased(s, c, l, after, es[0]);
    ClearsActive(t1, c, l, after, es[1]);
    OpensGate(t2, c, l, after, es[2]);
    GivesUp(s, c, l);
    Thrice(At(s, c, l, RelMark(after)), c, es);
  }

  lemma Thrice(s: State, c: nat, es: seq<Choice>)
    requires |es| >= 3
    ensures Alone(s, c, es)
         == Alone(Step(Step(Step(s, Advance(c, es[0])), Advance(c, es[1])), Advance(c, es[2])), c, es[3..])
  {
    Once(s, c, es);
    Once(Step(s, Advance(c, es[0])), c, es[1..]);
    assert es[1..][1..] == es[2..] && es[2..][1..] == es[3..];
    Once(Step(Step(s, Advance(c, es[0])), Advance(c, es[1])), c, es[2..]);
  }

  lemma Once(s: State, c: nat, es: seq<Choice>)
    requires es != []
    ensures Alone(s, c, es) == Alone(Step(s, Advance(c, es[0])), c, es[1..])
  {
  }

  function Released(s: State, c: nat, l: nat): State {
    var v := LeaseOf(s, l);
    WithProfile(WithLease(s, l, v.(released := true)), v.profile, ProfileOf(s, v.profile).(holder := ByCall(c)))
  }

  function Inactive(s: State, l: nat): State {
    var p := LeaseOf(s, l).profile;
    var f := ProfileOf(s, p);
    WithProfile(s, p, f.(active := if f.active == Some(l) then None else f.active))
  }

  function Opened(s: State, p: string): State {
    WithProfile(s, p, ProfileOf(s, p).(gate := ProfileOf(s, p).gate + 1, holder := InGate))
  }

  lemma GivesUp(s: State, c: nat, l: nat)
    requires Free(s, c, l)
    ensures Opened(Inactive(Released(s, c, l), l), s.leases[l].profile) == GivenUp(s, l)
  {
    var p := s.leases[l].profile;
    var f := s.profiles[p];
    var active := if f.active == Some(l) then None else f.active;
    var f1 := f.(holder := ByCall(c));
    var f2 := f1.(active := active);
    var base := WithLease(s, l, s.leases[l].(released := true));
    Reset(base, p, f1, f2);
    assert Inactive(Released(s, c, l), l) == WithProfile(base, p, f2);
    Reset(base, p, f2, f2.(gate := f.gate + 1, holder := InGate));
  }

  lemma Reset(s: State, p: string, f: Profile, g: Profile)
    ensures WithProfile(WithProfile(s, p, f), p, g) == WithProfile(s, p, g)
  {
    Rewritten(s.profiles, p, f, g);
  }

  lemma MarksReleased(s: State, c: nat, l: nat, after: After, e: Choice)
    requires Free(s, c, l)
    ensures var v := s.leases[l];
            var t := Released(s, c, l);
            Step(At(s, c, l, RelMark(after)), Advance(c, e)) == At(t, c, l, RelActive(after)) && Free(t, c, l)
  {
    var v := s.leases[l];
    var held := v.(op := 0, worker := Some(c));
    Rewritten(s.leases, l, held, held.(released := true));
    Rewritten(s.leases, l, v.(released := true), held.(released := true));
    Rewritten(s.calls, c, Call(v.profile, Using(l, RelMark(after))), Call(v.profile, Using(l, RelActive(after))));
  }

  lemma ClearsActive(s: State, c: nat, l: nat, after: After, e: Choice)
    requires Free(s, c, l)
    ensures Step(At(s, c, l, RelActive(after)), Advance(c, e)) == At(Inactive(s, l), c, l, RelGate(after))
    ensures Free(Inactive(s, l), c, l)
  {
    var p := s.leases[l].profile;
    Rewritten(s.calls, c, Call(p, Using(l, RelActive(after))), Call(p, Using(l, RelGate(after))));
  }

  lemma OpensGate(s: State, c: nat, l: nat, after: After, e: Choice)
    requires Free(s, c, l)
    ensures var t := Opened(s, s.leases[l].profile);
            Step(At(s, c, l, RelGate(after)), Advance(c, e)) == At(t, c, l, Return(after)) && Free(t, c, l)
  {
    var p := s.leases[l].profile;
    Rewritten(s.calls, c, Call(p, Using(l, RelGate(after))), Call(p, Using(l, Return(after))));
  }
}
