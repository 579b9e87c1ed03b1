/** How a reconciliation comes to lift a task's uncertainty, in every run. */
module BrowserReconcile {
  import opened Wrappers
  import opened BrowserState
  import opened BrowserSteps
  import opened BrowserGate
  import opened BrowserFrame
  import opened BrowserSticky

  /** With this move the call finds the lease unreleased and its session live under the lease's generation, and
      the driver comes to rest, binds, and the caller verifies. */
  predicate Confirms(s: State, a: Move, c: nat, l: nat) {
    && a.Advance? && a.c == c && c in s.calls && s.calls[c].pc == Using(l, Held(Reconcile)) && l in s.leases
    && !s.leases[l].released && s.leases[l].profile in s.profiles && s.profiles[s.leases[l].profile].live
    && s.profiles[s.leases[l].profile].ref.gen == s.leases[l].ref.gen && a.e.ok
  }

  /** The call is about to lift the uncertainty of lease l and of its task. */
  predicate Lifting(s: State, c: nat, l: nat) {
    c in s.calls && (s.calls[c].pc == Using(l, ClearLease) || s.calls[c].pc == Using(l, ClearTask))
  }

  /** A confirmed reconciliation goes on to lift the uncertainty; any other only gives the lease's token back. */
  lemma ReconcileExactly(s: State, c: nat, e: Choice, l: nat)
    requires TokenInv(s) && c in s.calls && s.calls[c].pc == Using(l, Held(Reconcile))
    ensures Step(s, Advance(c, e))
         == Goto(s, c, s.calls[c].p, Using(l, if Confirms(s, Advance(c, e), c, l) then ClearLease else Return(Stop)))
  {
    var p := Placed(s, c);
    assert Step(s, Advance(c, e)) == HeldStep(s, c, e, l, Reconcile);
  }

  /** What is lifted, in two sections, and that the end of a call lifts nothing. */
  lemma LiftsExactly(s: State, c: nat, e: Choice, l: nat)
    requires TokenInv(s) && c in s.calls
    ensures var t, key := Step(s, Advance(c, e)), LeaseKey(s, l);
            && (s.calls[c].pc == Using(l, ClearLease) ==>
                  t == Goto(WithLease(s, l, LeaseOf(s, l).(uncertain := false)), c, s.calls[c].p, Using(l, ClearTask))
                       .(tainted := s.tainted - {key}))
            && (s.calls[c].pc == Using(l, ClearTask) ==>
                  t == Goto(s.(unknown := s.unknown - {key}), c, s.calls[c].p, Using(l, Return(Stop))))
            && (s.calls[c].pc == Using(l, Return(Stop)) ==>
                  var v := LeaseOf(s, l);
                  t == End(WithLease(s, l, v.(op := v.op + 1, worker := None)), c))
  {
  }

  /** In every run, a call that is about to lift a lease's uncertainty was confirmed, and has been about to ever
      since. */
  lemma {:induction false} LiftingWasConfirmed(actions: seq<Move>, c: nat, l: nat)
    requires Lifting(Runs(INITIAL, actions), c, l)
    ensures exists i :: 0 <= i < |actions| && ConfirmedAt(actions, i, c, l)
  {
    var n := |actions| - 1;
    var before, a := actions[..n], actions[n];
    var s := Runs(INITIAL, before);
    TokensAlways(before);
    BecomesLifting(s, a, c, l);
    if Lifting(s, c, l) {
      LiftingWasConfirmed(before, c, l);
      var i :| 0 <= i < |before| && ConfirmedAt(before, i, c, l);
      StillConfirmed(actions, i, c, l);
    } else {
      assert actions[..|actions|] == actions;
      assert ConfirmedAt(actions, n, c, l);
    }
  }

  lemma StillConfirmed(actions: seq<Move>, i: nat, c: nat, l: nat)
    requires i < |actions| - 1 && ConfirmedAt(actions[..|actions| - 1], i, c, l)
    requires Lifting(Runs(INITIAL, actions), c, l)
    ensures ConfirmedAt(actions, i, c, l)
  {
    var before := actions[..|actions| - 1];
    forall j | i < j <= |actions| ensures Lifting(Runs(INITIAL, actions[..j]), c, l) {
      if j < |actions| { assert actions[..j] == before[..j]; } else { assert actions[..j] == actions; }
    }
    assert actions[..i] == before[..i];
  }

  /** Move i of the run confirmed the reconciliation, and the call is still about to lift. */
  ghost predicate ConfirmedAt(actions: seq<Move>, i: nat, c: nat, l: nat)
    requires i < |actions|
  {
    Confirms(Runs(INITIAL, actions[..i]), actions[i], c, l)
    && forall j :: i < j <= |actions| ==> Lifting(Runs(INITIAL, actions[..j]), c, l)
  }

  /** Only a confirmation makes a call one that lifts. */
  lemma BecomesLifting(s: State, a: Move, c: nat, l: nat)
    requires TokenInv(s) && Lifting(Step(s, a), c, l)
    ensures Lifting(s, c, l) || Confirms(s, a, c, l)
  {
    if Outside(a) {
      OutsideStill(s, a);
    } else {
      StepStill(s, a);
      if a.c == c && a.Advance? && c in s.calls { ArrivesToLift(s, c, a.e, l); }
      else if a.c == c && c !in s.calls && Begins(a) { BeginsElsewhere(s, a, l); }
    }
  }

  lemma BeginsElsewhere(s: State, a: Move, l: nat)
    requires Begins(a) && a.c !in s.calls
    ensures !Lifting(Begin(s, a), a.c, l)
  {
  }

  lemma ArrivesToLift(s: State, c: nat, e: Choice, l: nat)
    requires TokenInv(s) && c in s.calls && Lifting(Progress(s, c, e), c, l)
    ensures Lifting(s, c, l) || Confirms(s, Advance(c, e), c, l)
  {
    var p := Placed(s, c);
    var pc := s.calls[c].pc;
    if pc.Using? { UseArrives(s, c, e, pc.l, pc.u); }
    else if pc.Run? { RunArrives(s, c, e, pc.r); }
  }

  lemma RunArrives(s: State, c: nat, e: Choice, r: Running)
    requires c in s.calls
    ensures var t := RunningStep(s, c, e, r); c in t.calls ==> !t.calls[c].pc.Using? || t.calls == s.calls
  {
  }

  /** The call is not about to lift. */
  predicate Elsewhere(t: State, c: nat) {
    c in t.calls && t.calls[c].pc.Using? ==> !t.calls[c].pc.u.ClearLease? && !t.calls[c].pc.u.ClearTask?
  }

  /** ... or it is on lease l, where it was already, or where the reconciliation was just confirmed. */
  predicate Arrives(s: State, t: State, a: Move, c: nat, l: nat) {
    || Elsewhere(t, c)
    || (c in t.calls && t.calls[c].pc.Using? && t.calls[c].pc.l == l && (Lifting(s, c, l) || Confirms(s, a, c, l)))
  }

  lemma UseArrives(s: State, c: nat, e: Choice, l: nat, u: Use)
    requires TokenInv(s) && c in s.calls && s.calls[c].pc == Using(l, u)
    ensures Arrives(s, UseStep(s, c, e, l, u), Advance(c, e), c, l)
  {
    if u.Held? {
      HeldArrives(s, c, e, l, u.op);
    } else if u.Return? {
      assert Elsewhere(ReturnStep(s, c, l, u.after), c);
    } else if Executing(u) {
      ExecuteArrives(s, c, e, l, u);
    } else if Paging(u) {
      assert Elsewhere(PageStep(s, c, l, u), c);
    } else if Marking(u) {
      MarkArrives(s, c, e, l, u);
    } else if Releasing(u) {
      assert Elsewhere(ReleaseStep(s, c, l, u), c);
    } else {
      CleanupArrives(s, c, e, l, u);
    }
  }

  lemma ExecuteArrives(s: State, c: nat, e: Choice, l: nat, u: Use)
    requires c in s.calls && Executing(u)
    ensures Elsewhere(ExecuteStep(s, c, e, l, u), c)
  {
  }

  lemma CleanupArrives(s: State, c: nat, e: Choice, l: nat, u: Use)
    requires c in s.calls && Cleaning(u)
    ensures Elsewhere(CleanupStep(s, c, e, l, u), c)
  {
  }

  lemma HeldArrives(s: State, c: nat, e: Choice, l: nat, op: Op)
    requires TokenInv(s) && c in s.calls && s.calls[c].pc == Using(l, Held(op))
    ensures Arrives(s, HeldStep(s, c, e, l, op), Advance(c, e), c, l)
  {
    var p := Placed(s, c);
  }

  lemma MarkArrives(s: State, c: nat, e: Choice, l: nat, u: Use)
    requires TokenInv(s) && c in s.calls && s.calls[c].pc == Using(l, u) && Marking(u)
    ensures Arrives(s, MarkStep(s, c, l, u), Advance(c, e), c, l)
  {
    var p := Placed(s, c);
    assert UseShape(u);
  }

  /** A task's uncertainty is lifted by a reconciliation that was confirmed on a lease of the task, by the end of
      its cleanup or by a FinishTask that finds nothing to clean, and by nothing else. */
  lemma LiftedOnlyByConfirmed(actions: seq<Move>, a: Move, key: Key)
    requires var s := Runs(INITIAL, actions); key in s.tainted && key !in Step(s, a).tainted
    ensures var s := Runs(INITIAL, actions);
            || Removes(s, a, key)
            || (a.Advance? && a.c in s.calls && s.calls[a.c].pc.Using? && LeaseKey(s, s.calls[a.c].pc.l) == key
                && exists i :: 0 <= i < |actions| && ConfirmedAt(actions, i, a.c, s.calls[a.c].pc.l))
  {
    var s := Runs(INITIAL, actions);
    TokensAlways(actions);
    TaintStays(s, a, key);
    if !Removes(s, a, key) { LiftingWasConfirmed(actions, a.c, s.calls[a.c].pc.l); }
  }

  /** The task is removed. */
  predicate Removes(s: State, a: Move, key: Key) {
    || (a.StartFinish? && a.c !in s.calls && KeyOf(a.task) == key
        && (key !in s.bindings || s.bindings[key].profile !in s.profiles))
    || (a.Advance? && a.c in s.calls && s.calls[a.c].pc.Using? && LeaseKey(s, s.calls[a.c].pc.l) == key
        && s.calls[a.c].pc.u.FinEnd?)
  }

  /** With move j of the run the lease is no longer uncertain, and its task no longer in doubt. */
  ghost predicate LiftedAt(actions: seq<Move>, j: nat, c: nat, l: nat)
    requires j < |actions|
  {
    var t := Runs(INITIAL, actions[..j + 1]);
    actions[j].Advance? && actions[j].c == c && l in t.leases && !t.leases[l].uncertain && LeaseKey(t, l) !in t.tainted
  }

  /** A confirmed reconciliation lifts the uncertainty with the next step of its call. */
  lemma {:induction false} ConfirmedIsLifted(actions: seq<Move>, i: nat, c: nat, l: nat)
    requires i < |actions| && Confirms(Runs(INITIAL, actions[..i]), actions[i], c, l)
    ensures var t := Runs(INITIAL, actions);
            || (c in t.calls && t.calls[c].pc == Using(l, ClearLease))
            || (exists j :: i < j < |actions| && LiftedAt(actions, j, c, l))
  {
    var n := |actions| - 1;
    var before, a := actions[..n], actions[n];
    var s := Runs(INITIAL, before);
    TokensAlways(before);
    if i == n {
      ReconcileExactly(s, c, a.e, l);
    } else {
      assert before[..i] == actions[..i];
      ConfirmedIsLifted(before, i, c, l);
      if c in s.calls && s.calls[c].pc == Using(l, ClearLease) {
        if Outside(a) { OutsideStill(s, a); }
        else if a.Advance? && a.c == c {
          LiftsExactly(s, c, a.e, l);
          assert actions[..n + 1] == actions;
          assert LiftedAt(actions, n, c, l);
        } else { StepStill(s, a); }
      } else {
        var j :| i < j < |before| && LiftedAt(before, j, c, l);
        assert actions[..j + 1] == before[..j + 1];
        assert LiftedAt(actions, j, c, l);
      }
    }
  }
}
