/** An action of unknown outcome blocks its task until it is reconciled or the task is removed. */
module BrowserSticky {
  import opened Wrappers
  import opened BrowserState
  import opened BrowserSteps
  import opened BrowserGate

  /** All leases a task ever had are on one profile. */
  ghost predicate Confined(s: State, key: Key) {
    forall l, m :: l in s.leases && m in s.leases && LeaseKey(s, l) == key && LeaseKey(s, m) == key ==>
      s.leases[l].profile == s.leases[m].profile
  }

  /** The program point of the call that holds the lease's operation token. */
  function UseOf(s: State, l: nat): Option<Use> {
    var w := LeaseOf(s, l).worker;
    if w.Some? && w.value in s.calls && s.calls[w.value].pc.Using? && s.calls[w.value].pc.l == l
    then Some(s.calls[w.value].pc.u) else None
  }

  predicate AtMarkLease(s: State, l: nat) {
    UseOf(s, l).Some? && UseOf(s, l).value.MarkLease?
  }

  predicate AtMark(s: State, l: nat) {
    UseOf(s, l).Some? && (UseOf(s, l).value.MarkLease? || UseOf(s, l).value.MarkTask?)
  }

  ghost predicate Blocked(s: State, l: nat) {
    LeaseOf(s, l).released || LeaseOf(s, l).uncertain || AtMarkLease(s, l)
  }

  /** Every lease of a tainted task refuses actions, and every later lease will start out refusing. */
  ghost predicate StickyKey(s: State, key: Key) {
    key in s.tainted ==>
      (forall l {:trigger Blocked(s, l)} :: l in s.leases && LeaseKey(s, l) == key ==> Blocked(s, l))
      && (key in s.unknown
          || exists l {:trigger AtMark(s, l)} :: l in s.leases && LeaseKey(s, l) == key && AtMark(s, l))
  }

  ghost predicate StickyCall(s: State, k: Call) {
    k.pc.Using? ==>
      (k.pc.u.ExecReady? || k.pc.u.ExecDispatch? || k.pc.u.FinCancel? ==> !LeaseOf(s, k.pc.l).uncertain)
      && (k.pc.u.ClearTask? && Confined(s, LeaseKey(s, k.pc.l)) ==> LeaseKey(s, k.pc.l) !in s.tainted)
  }

  ghost predicate StickyInv(s: State) {
    (forall key {:trigger StickyKey(s, key)} :: Confined(s, key) ==> StickyKey(s, key))
    && (forall c {:trigger StickyCall(s, s.calls[c])} :: c in s.calls ==> StickyCall(s, s.calls[c]))
  }

  // ---- elementary changes ----

  /** Leases are only added, and keep their task and profile. */
  ghost predicate Grown(s: State, t: State) {
    forall l :: l in s.leases ==>
      l in t.leases && t.leases[l].task == s.leases[l].task && t.leases[l].profile == s.leases[l].profile
  }

  lemma ConfinedBefore(s: State, t: State, key: Key)
    requires Grown(s, t) && Confined(t, key)
    ensures Confined(s, key)
  {
    forall l, m | l in s.leases && m in s.leases && LeaseKey(s, l) == key && LeaseKey(s, m) == key
      ensures s.leases[l].profile == s.leases[m].profile
    {
      assert LeaseKey(t, l) == key && LeaseKey(t, m) == key;
    }
  }

  predicate MarkPoint(s: State, c: nat) {
    c in s.calls && s.calls[c].pc.Using? && (s.calls[c].pc.u.MarkLease? || s.calls[c].pc.u.MarkTask?)
  }

  /** No outcome becomes unknown or known: the step marks nothing, clears nothing and lends nothing. */
  ghost predicate Quiet(s: State, t: State, c: nat, l: nat) {
    SameBut(s.calls, t.calls, c) && SameBut(s.leases, t.leases, l) && !MarkPoint(s, c)
    && (if l in s.leases then l in t.leases && SameMarks(s.leases[l], t.leases[l])
                              && (t.leases[l].worker == s.leases[l].worker || !AtMark(s, l))
        else l !in t.leases)
    && t.tainted <= s.tainted && (forall key :: key in t.tainted && key in s.unknown ==> key in t.unknown)
  }

  predicate SameMarks(v: Lease, w: Lease) {
    w.task == v.task && w.profile == v.profile && w.uncertain == v.uncertain && (v.released ==> w.released)
  }

  lemma QuietKey(s: State, t: State, c: nat, l: nat, key: Key)
    requires StickyInv(s) && Quiet(s, t, c, l) && Confined(t, key)
    ensures StickyKey(t, key)
  {
    ConfinedBefore(s, t, key);
    assert StickyKey(s, key);
    if key in t.tainted {
      forall m | m in t.leases && LeaseKey(t, m) == key ensures Blocked(t, m) {
        QuietLease(s, t, c, l, m);
        assert LeaseKey(s, m) == key && Blocked(s, m);
      }
      if key !in t.unknown {
        var m :| m in s.leases && LeaseKey(s, m) == key && AtMark(s, m);
        QuietLease(s, t, c, l, m);
      }
    }
  }

  lemma QuietLease(s: State, t: State, c: nat, l: nat, m: nat)
    requires Quiet(s, t, c, l) && (m in s.leases || m in t.leases)
    ensures m in s.leases && m in t.leases && LeaseKey(t, m) == LeaseKey(s, m)
    ensures (Blocked(s, m) ==> Blocked(t, m)) && (AtMark(s, m) ==> AtMark(t, m))
  {
  }

  lemma Quietly(s: State, t: State, c: nat, l: nat)
    requires StickyInv(s) && Quiet(s, t, c, l)
    requires c in t.calls ==> StickyCall(t, t.calls[c])
    ensures StickyInv(t)
  {
    forall key | Confined(t, key) ensures StickyKey(t, key) {
      QuietKey(s, t, c, l, key);
    }
    forall d | d in t.calls ensures StickyCall(t, t.calls[d]) {
      if d != c {
        assert StickyCall(s, s.calls[d]);
        var k := s.calls[d];
        if k.pc.Using? && k.pc.u.ClearTask? && Confined(t, LeaseKey(t, k.pc.l)) {
          ConfinedBefore(s, t, LeaseKey(s, k.pc.l));
        }
      }
    }
  }

  /** The unreleased lease `l` that call `c` is using is the only unreleased one of a confined task. */
  lemma OnlyOne(s: State, c: nat, l: nat)
    requires TokenInv(s) && c in s.calls && s.calls[c].pc.Using? && s.calls[c].pc.l == l && !LeaseOf(s, l).released
    requires Confined(s, LeaseKey(s, l))
    ensures forall m :: m in s.leases && m != l && LeaseKey(s, m) == LeaseKey(s, l) ==> s.leases[m].released
    ensures UseOf(s, l) == Some(s.calls[c].pc.u) && LeaseOf(s, l).worker == Some(c)
    ensures forall d :: d in s.calls && d != c && s.calls[d].pc.Using? && Working(s.calls[d].pc.u) ==>
              LeaseKey(s, s.calls[d].pc.l) != LeaseKey(s, l)
  {
    var p := Before(s, c, l);
    forall m | m in s.leases && m != l && LeaseKey(s, m) == LeaseKey(s, l) ensures s.leases[m].released {
      assert Holds(s, p, ByLease(m)) <==> ByLease(m) == s.profiles[p].holder;
    }
    forall d | d in s.calls && d != c && s.calls[d].pc.Using? && Working(s.calls[d].pc.u)
      ensures LeaseKey(s, s.calls[d].pc.l) != LeaseKey(s, l)
    {
      var m := s.calls[d].pc.l;
      assert CallShape(s, s.calls[d]);
      assert Operates(s, l, d) <==> s.leases[l].worker == Some(d);
      assert LeaseKey(s, m) == LeaseKey(s, l) && m != l ==> LeaseOf(s, m).released;
    }
  }

  /** Call `c` marks or clears on behalf of its lease. */
  ghost predicate Loud(s: State, t: State, c: nat, l: nat) {
    c in s.calls && s.calls[c].pc.Using? && s.calls[c].pc.l == l && l in s.leases && !s.leases[l].released
    && SameBut(s.calls, t.calls, c) && SameBut(s.leases, t.leases, l)
    && c in t.calls && t.calls[c].pc.Using? && t.calls[c].pc.l == l
    && l in t.leases && t.leases[l] == s.leases[l].(uncertain := t.leases[l].uncertain)
    && t.tainted - {LeaseKey(s, l)} == s.tainted - {LeaseKey(s, l)}
    && t.unknown - {LeaseKey(s, l)} == s.unknown - {LeaseKey(s, l)}
  }

  lemma LoudKey(s: State, t: State, c: nat, l: nat, key: Key)
    requires TokenInv(s) && StickyInv(s) && Loud(s, t, c, l) && Confined(t, key) && key != LeaseKey(s, l)
    ensures StickyKey(t, key)
  {
    var k0 := LeaseKey(s, l);
    ConfinedBefore(s, t, key);
    assert StickyKey(s, key);
    assert key in t.tainted - {k0} <==> key in s.tainted - {k0};
    assert key in t.unknown - {k0} <==> key in s.unknown - {k0};
    if key in t.tainted {
      forall m | m in t.leases && LeaseKey(t, m) == key ensures Blocked(t, m) {
        LoudLease(s, t, c, l, m);
        assert LeaseKey(s, m) == key && Blocked(s, m);
      }
      if key !in t.unknown {
        var m :| m in s.leases && LeaseKey(s, m) == key && AtMark(s, m);
        LoudLease(s, t, c, l, m);
      }
    }
  }

  lemma LoudLease(s: State, t: State, c: nat, l: nat, m: nat)
    requires Loud(s, t, c, l) && m != l && (m in s.leases || m in t.leases)
    ensures m in s.leases && m in t.leases && LeaseKey(t, m) == LeaseKey(s, m)
    ensures (Blocked(s, m) ==> Blocked(t, m)) && (AtMark(s, m) ==> AtMark(t, m))
  {
  }

  /** ... and afterwards its own task is as blocked as it has to be. */
  lemma Loudly(s: State, t: State, c: nat, l: nat)
    requires TokenInv(s) && StickyInv(s) && Loud(s, t, c, l)
    requires var u := t.calls[c].pc.u; LeaseKey(s, l) in t.tainted && Confined(t, LeaseKey(s, l)) ==>
               (t.leases[l].uncertain || u.MarkLease?)
               && (LeaseKey(s, l) in t.unknown || u.MarkLease? || u.MarkTask?)
    requires var u := t.calls[c].pc.u;
               (u.ExecReady? || u.ExecDispatch? || u.FinCancel? ==> !t.leases[l].uncertain)
               && (u.ClearTask? ==> LeaseKey(s, l) !in t.tainted)
    ensures StickyInv(t)
  {
    forall key | Confined(t, key) ensures StickyKey(t, key) {
      if key == LeaseKey(s, l) {
        ConfinedBefore(s, t, key);
        OnlyOne(s, c, l);
        assert UseOf(t, l) == Some(t.calls[c].pc.u) && LeaseKey(t, l) == key;
        if key in t.tainted {
          forall m | m in t.leases && LeaseKey(t, m) == key ensures Blocked(t, m) {
            assert LeaseKey(s, m) == key;
          }
          assert key in t.unknown || AtMark(t, l);
        }
      } else {
        LoudKey(s, t, c, l, key);
      }
    }
    forall d | d in t.calls ensures StickyCall(t, t.calls[d]) {
      if d != c {
        OtherCall(s, t, c, l, d);
      }
    }
  }

  lemma OtherCall(s: State, t: State, c: nat, l: nat, d: nat)
    requires TokenInv(s) && StickyInv(s) && d in s.calls && d in t.calls && d != c && s.calls[d] == t.calls[d]
    requires c in s.calls && s.calls[c].pc.Using? && s.calls[c].pc.l == l && !LeaseOf(s, l).released && l in s.leases
    requires SameBut(s.calls, t.calls, c) && SameBut(s.leases, t.leases, l)
    requires l in t.leases && t.leases[l] == s.leases[l].(uncertain := t.leases[l].uncertain)
    requires var key := LeaseKey(s, l); t.tainted - {key} == s.tainted - {key}
    ensures StickyCall(t, t.calls[d])
  {
    var k0, k := LeaseKey(s, l), s.calls[d];
    assert StickyCall(s, k) && CallShape(s, k) && CallShape(s, s.calls[c]);
    assert Operates(s, l, d) <==> s.leases[l].worker == Some(d);
    assert Operates(s, l, c) <==> s.leases[l].worker == Some(c);
    if k.pc.Using? && k.pc.u.ClearTask? && Confined(t, LeaseKey(t, k.pc.l)) {
      var key := LeaseKey(s, k.pc.l);
      ConfinedBefore(s, t, key);
      if key == k0 {
        OnlyOne(s, c, l);
      } else {
        assert key in t.tainted - {k0} <==> key in s.tainted - {k0};
      }
    }
  }

  lemma MarkedIsHeld(s: State, m: nat)
    requires TokenInv(s) && m in s.leases && AtMark(s, m)
    ensures s.leases[m].profile in s.profiles && s.profiles[s.leases[m].profile].holder == ByLease(m)
  {
    var p := Before(s, s.leases[m].worker.value, m);
  }

  /** A lease that is lent out while a call holds the gate. */
  ghost predicate Lending(s: State, t: State, c: nat) {
    c in s.calls && s.calls[c].pc.Run?
    && SameBut(s.calls, t.calls, c) && s.next in t.leases && t.leases == s.leases[s.next := t.leases[s.next]]
    && t.tainted == s.tainted && t.unknown == s.unknown && !(c in t.calls && t.calls[c].pc.Using?)
    && t.leases[s.next].profile == s.calls[c].p
    && (t.leases[s.next].uncertain <==> LeaseKey(t, s.next) in s.unknown)
  }

  lemma LentLease(s: State, t: State, c: nat, m: nat)
    requires TokenInv(s) && Lending(s, t, c) && m != s.next && m in t.leases
    ensures m in s.leases && LeaseKey(t, m) == LeaseKey(s, m)
    ensures (Blocked(s, m) ==> Blocked(t, m)) && (AtMark(s, m) ==> AtMark(t, m))
  {
  }

  /** A new lease of a tainted, confined task starts out refusing actions. */
  lemma LentKey(s: State, t: State, c: nat, key: Key)
    requires TokenInv(s) && StickyInv(s) && Lending(s, t, c) && Confined(t, key)
    ensures StickyKey(t, key)
  {
    var p := Before(s, c, s.next);
    ConfinedBefore(s, t, key);
    assert StickyKey(s, key);
    if key in t.tainted {
      if key !in t.unknown {
        var m :| m in s.leases && LeaseKey(s, m) == key && AtMark(s, m);
        LentLease(s, t, c, m);
        MarkedIsHeld(s, m);
      }
      forall m | m in t.leases && LeaseKey(t, m) == key ensures Blocked(t, m) {
        if m != s.next {
          LentLease(s, t, c, m);
          assert LeaseKey(s, m) == key && Blocked(s, m);
        }
      }
    }
  }

  lemma Lent(s: State, t: State, c: nat)
    requires TokenInv(s) && StickyInv(s) && Lending(s, t, c)
    ensures StickyInv(t)
  {
    var p := Before(s, c, s.next);
    forall key | Confined(t, key) ensures StickyKey(t, key) {
      LentKey(s, t, c, key);
    }
    forall d | d in t.calls ensures StickyCall(t, t.calls[d]) {
      if d != c {
        assert StickyCall(s, s.calls[d]) && CallShape(s, s.calls[d]);
        var k := s.calls[d];
        if k.pc.Using? && k.pc.u.ClearTask? && Confined(t, LeaseKey(t, k.pc.l)) {
          ConfinedBefore(s, t, LeaseKey(s, k.pc.l));
        }
      }
    }
  }

  // ---- the steps ----

  lemma RunningSticky(s: State, c: nat, e: Choice, r: Running)
    requires TokenInv(s) && StickyInv(s) && c in s.calls && s.calls[c].pc == Run(r)
    ensures StickyInv(RunningStep(s, c, e, r))
  {
    var p := Placed(s, c);
    var t := RunningStep(s, c, e, r);
    if t.next != s.next {
      RunningLends(s, c, e, r);
      Lent(s, t, c);
    } else {
      RunningIsQuiet(s, c, e, r);
      Quietly(s, t, c, s.next);
    }
  }

  lemma RunningLends(s: State, c: nat, e: Choice, r: Running)
    requires TokenInv(s) && c in s.calls && s.calls[c].pc == Run(r) && RunningStep(s, c, e, r).next != s.next
    ensures Lending(s, RunningStep(s, c, e, r), c)
  {
    var p := Before(s, c, s.next);
  }

  lemma RunningIsQuiet(s: State, c: nat, e: Choice, r: Running)
    requires TokenInv(s) && c in s.calls && s.calls[c].pc == Run(r) && RunningStep(s, c, e, r).next == s.next
    ensures var t := RunningStep(s, c, e, r);
            Quiet(s, t, c, s.next) && (c in t.calls ==> StickyCall(t, t.calls[c]))
  {
    var p := Before(s, c, s.next);
    RunningMarks(s, c, e, r);
  }

  lemma RunningMarks(s: State, c: nat, e: Choice, r: Running)
    requires c in s.calls && s.calls[c].pc == Run(r) && RunningStep(s, c, e, r).next == s.next
    ensures var t := RunningStep(s, c, e, r);
            && SameBut(s.calls, t.calls, c) && t.leases == s.leases && t.tainted == s.tainted && t.unknown == s.unknown
            && (c in t.calls ==> !t.calls[c].pc.Using?)
  {
  }

  lemma ContinueSticky(s: State, c: nat, p: string, l: nat, after: After)
    requires StickyInv(s) && !MarkPoint(s, c)
    ensures StickyInv(Continue(s, c, p, l, after))
  {
    match after
    case Stop => Quietly(s, End(s, c), c, l);
    case ReleaseNext => Quietly(s, Goto(s, c, p, Ask(l, Release(Stop))), c, l);
    case Drain(gen, repl) => Quietly(s, Goto(s, c, p, Close(CloseDrain(gen), repl)), c, l);
    case Abort(repl) => Quietly(s, CloseAbort(s, c, p, repl), c, l);
  }

  lemma AskSticky(s: State, c: nat, e: Choice, l: nat, op: Op)
    requires TokenInv(s) && StickyInv(s) && c in s.calls && s.calls[c].pc == Ask(l, op)
    ensures StickyInv(AskStep(s, c, e, l, op))
  {
    var p := Before(s, c, l);
    if !e.ok {
      ContinueSticky(s, c, p, l, AfterCancel(op));
    } else {
      Quietly(s, AskStep(s, c, e, l, op), c, l);
    }
  }

  lemma ReturnSticky(s: State, c: nat, l: nat, after: After)
    requires TokenInv(s) && StickyInv(s) && c in s.calls && s.calls[c].pc == Using(l, Return(after))
    ensures StickyInv(ReturnStep(s, c, l, after))
  {
    var p := Before(s, c, l);
    var t := WithLease(s, l, s.leases[l].(op := s.leases[l].op + 1, worker := None));
    assert StickyCall(t, t.calls[c]);
    Quietly(s, t, c, l);
    ContinueSticky(t, c, p, l, after);
  }

  lemma ReleaseSticky(s: State, c: nat, l: nat, u: Use)
    requires TokenInv(s) && StickyInv(s) && c in s.calls && s.calls[c].pc == Using(l, u) && Releasing(u)
    ensures StickyInv(ReleaseStep(s, c, l, u))
  {
    var p := Placed(s, c);
    Quietly(s, ReleaseStep(s, c, l, u), c, l);
  }

  lemma QueueSticky(s: State, c: nat, e: Choice, q: Queued)
    requires TokenInv(s) && StickyInv(s) && c in s.calls && s.calls[c].pc == Queue(q)
    ensures StickyInv(QueueStep(s, c, e, q))
  {
    var p := Before(s, c, s.next);
    Quietly(s, QueueStep(s, c, e, q), c, s.next);
  }

  lemma CloseSticky(s: State, c: nat, e: Choice, z: Closing, repl: bool)
    requires TokenInv(s) && StickyInv(s) && c in s.calls && s.calls[c].pc == Close(z, repl)
    ensures StickyInv(CloseStep(s, c, e, z, repl))
  {
    var p := Before(s, c, s.next);
    var t := CloseStep(s, c, e, z, repl);
    assert t.leases == s.leases && t.tainted == s.tainted && t.unknown == s.unknown;
    Quietly(s, t, c, s.next);
  }

  lemma ReplaceSticky(s: State, c: nat, e: Choice, y: Replacing)
    requires TokenInv(s) && StickyInv(s) && c in s.calls && s.calls[c].pc == Replace(y)
    ensures StickyInv(ReplaceStep(s, c, e, y))
  {
    var p := Before(s, c, s.next);
    Quietly(s, ReplaceStep(s, c, e, y), c, s.next);
  }

  /** The call goes on, quietly or to the marking of an outcome that just became unknown. */
  lemma ProceedSticky(s: State, t: State, c: nat, l: nat, u: Use)
    requires TokenInv(s) && StickyInv(s) && c in s.calls && s.calls[c].pc.Using? && s.calls[c].pc.l == l
    requires l in s.leases
    requires !MarkPoint(s, c) && (u.MarkLease? ==> !s.leases[l].released)
    requires t.calls == s.calls && SameBut(s.leases, t.leases, l) && l in t.leases
    requires t.leases[l] == s.leases[l].(ref := t.leases[l].ref)
    requires if u.MarkLease? then t.tainted == s.tainted && t.unknown == s.unknown && t.leases == s.leases
             else t.tainted <= s.tainted && forall key :: key in t.tainted && key in s.unknown ==> key in t.unknown
    requires u.ExecReady? || u.ExecDispatch? || u.FinCancel? ==> !s.leases[l].uncertain
    requires !u.ClearTask?
    ensures StickyInv(Proceed(t, c, l, u))
  {
    if u.MarkLease? {
      Loudly(s, Proceed(t, c, l, u), c, l);
    } else {
      Quietly(s, Proceed(t, c, l, u), c, l);
    }
  }

  lemma HeldSticky(s: State, c: nat, e: Choice, l: nat, op: Op)
    requires TokenInv(s) && StickyInv(s) && c in s.calls && s.calls[c].pc == Using(l, Held(op))
    ensures StickyInv(HeldStep(s, c, e, l, op))
  {
    var p := Placed(s, c);
    ProceedSticky(s, s, c, l, HeldNext(s, p, e, l, op));
  }

  lemma ExecuteSticky(s: State, c: nat, e: Choice, l: nat, u: Use)
    requires TokenInv(s) && StickyInv(s) && c in s.calls && s.calls[c].pc == Using(l, u) && Executing(u)
    ensures StickyInv(ExecuteStep(s, c, e, l, u))
  {
    var p := Placed(s, c);
    assert StickyCall(s, s.calls[c]);
    ProceedSticky(s, ExecuteEffect(s, p, e, l, u), c, l, ExecuteNext(s, p, e, l, u));
  }

  lemma PageSticky(s: State, c: nat, l: nat, u: Use)
    requires TokenInv(s) && StickyInv(s) && c in s.calls && s.calls[c].pc == Using(l, u) && Paging(u)
    ensures StickyInv(PageStep(s, c, l, u))
  {
    var p := Placed(s, c);
    ProceedSticky(s, PageEffect(s, l, u), c, l, PageNext(s, p, l, u));
  }

  lemma CleanupSticky(s: State, c: nat, e: Choice, l: nat, u: Use)
    requires TokenInv(s) && StickyInv(s) && c in s.calls && s.calls[c].pc == Using(l, u) && Cleaning(u)
    ensures StickyInv(CleanupStep(s, c, e, l, u))
  {
    var p := Placed(s, c);
    var next := CleanupNext(s, p, e, l, u);
    if u.FinSnapped? && next.FinCancel? {
      var i :| 0 <= i < |u.work.ids| && Closable(u.work, s.leases[l].ref, u.work.ids[i]);
      assert !u.work.stopped;
    }
    ProceedSticky(s, CleanupEffect(s, p, e, l, u), c, l, next);
  }

  lemma MarkSticky(s: State, c: nat, l: nat, u: Use)
    requires TokenInv(s) && StickyInv(s) && c in s.calls && s.calls[c].pc == Using(l, u) && Marking(u)
    ensures StickyInv(MarkStep(s, c, l, u))
  {
    var p := Placed(s, c);
    var t := MarkStep(s, c, l, u);
    var key := LeaseKey(s, l);
    assert Loud(s, t, c, l) by { MarkIsLoud(s, c, l, u); }
    if Confined(t, key) {
      ConfinedBefore(s, t, key);
      if key in s.tainted { MarkedTask(s, c, l, u); }
    }
    Loudly(s, t, c, l);
  }

  lemma MarkIsLoud(s: State, c: nat, l: nat, u: Use)
    requires TokenInv(s) && c in s.calls && s.calls[c].pc == Using(l, u) && Marking(u)
    ensures Loud(s, MarkStep(s, c, l, u), c, l)
  {
    var p := Placed(s, c);
    assert UseShape(u);
  }

  /** What a marking or clearing call finds. */
  lemma MarkedTask(s: State, c: nat, l: nat, u: Use)
    requires TokenInv(s) && StickyInv(s) && c in s.calls && s.calls[c].pc == Using(l, u) && Marking(u)
    requires Confined(s, LeaseKey(s, l)) && LeaseKey(s, l) in s.tainted
    ensures !u.ClearTask? && (LeaseOf(s, l).uncertain || u.MarkLease?)
  {
    var p := Placed(s, c);
    OnlyOne(s, c, l);
    assert StickyKey(s, LeaseKey(s, l)) && StickyCall(s, s.calls[c]);
    assert Blocked(s, l);
  }

  lemma BeginSticky(s: State, a: Move)
    requires TokenInv(s) && StickyInv(s)
    requires Begins(a) && a.c !in s.calls
    ensures StickyInv(Begin(s, a))
  {
    assert s.next in s.leases ==> LeaseShape(s, s.next);
    var t := Begin(s, a);
    BeginFrame(s, a);
    Quietly(s, t, a.c, s.next);
  }

  lemma StepKeepsSticky(s: State, a: Move)
    requires TokenInv(s) && StickyInv(s)
    ensures StickyInv(Step(s, a))
  {
    if Outside(a) {
      var c := Fresh(s.calls.Keys);
      assert s.next in s.leases ==> LeaseShape(s, s.next);
      Quietly(s, Step(s, a), c, s.next);
    } else if a.Advance? {
      if a.c in s.calls {
        var pc := s.calls[a.c].pc;
        if pc.Queue? { QueueSticky(s, a.c, a.e, pc.q); }
        else if pc.Close? { CloseSticky(s, a.c, a.e, pc.z, pc.repl); }
        else if pc.Replace? { ReplaceSticky(s, a.c, a.e, pc.y); }
        else if pc.Run? { RunningSticky(s, a.c, a.e, pc.r); }
        else if pc.Ask? { AskSticky(s, a.c, a.e, pc.l, pc.op); }
        else if pc.u.Held? { HeldSticky(s, a.c, a.e, pc.l, pc.u.op); }
        else if pc.u.Return? { ReturnSticky(s, a.c, pc.l, pc.u.after); }
        else if Executing(pc.u) { ExecuteSticky(s, a.c, a.e, pc.l, pc.u); }
        else if Paging(pc.u) { PageSticky(s, a.c, pc.l, pc.u); }
        else if Marking(pc.u) { MarkSticky(s, a.c, pc.l, pc.u); }
        else if Releasing(pc.u) { ReleaseSticky(s, a.c, pc.l, pc.u); }
        else { CleanupSticky(s, a.c, a.e, pc.l, pc.u); }
      }
    } else if a.c !in s.calls {
      BeginSticky(s, a);
    }
  }

  lemma {:induction false} StickyAlways(actions: seq<Move>)
    ensures StickyInv(Runs(INITIAL, actions))
  {
    if actions != [] {
      StickyAlways(actions[..|actions| - 1]);
      TokensAlways(actions[..|actions| - 1]);
      StepKeepsSticky(Runs(INITIAL, actions[..|actions| - 1]), actions[|actions| - 1]);
    }
  }

  // ---- what it means ----

  /** For a task confined to one profile, once an outcome is unknown no action of the task is
      dispatched to the driver, not even the cancelling upload of its cleanup, until the outcome is
      reconciled or the task is removed; releasing the lease and acquiring another changes nothing. */
  lemma UnknownOutcomeBlocksTask(actions: seq<Move>, c: nat)
    requires var s := Runs(INITIAL, actions);
             c in s.calls && s.calls[c].pc.Using? && (s.calls[c].pc.u.ExecDispatch? || s.calls[c].pc.u.FinCancel?)
             && Confined(s, LeaseKey(s, s.calls[c].pc.l))
    ensures var s := Runs(INITIAL, actions); LeaseKey(s, s.calls[c].pc.l) !in s.tainted
  {
    StickyAlways(actions);
    TokensAlways(actions);
    var s := Runs(INITIAL, actions);
    var l := s.calls[c].pc.l;
    var p := Placed(s, c);
    OnlyOne(s, c, l);
    assert StickyCall(s, s.calls[c]) && StickyKey(s, LeaseKey(s, l));
    assert LeaseKey(s, l) in s.tainted ==> Blocked(s, l);
  }

  // ---- the history says what it should ----

  /** The driver leaves it unknown whether something happened for the task of a lease: an observation, a bind,
      an action - other than the handling of a login, which is never marked - the cancelling of a chooser, or
      the close of a page. */
  predicate LeftUnknown(s: State, a: Move, key: Key) {
    a.Advance? && a.c in s.calls && s.calls[a.c].pc.Using? && LeaseKey(s, s.calls[a.c].pc.l) == key
    && (var p, l, u, e := s.calls[a.c].p, s.calls[a.c].pc.l, s.calls[a.c].pc.u, a.e;
        var v := LeaseOf(s, l);
        if u.Held? then
          u.op.Observe? && e.unknown && !v.released && SessionOk(s, p, l)
          && !Matches(ProfileOf(s, p).chooser, v.ref, v.task.owner)
        else if u.ExecReady? then
          e.unknown && !e.ok && !u.action.LoginReady? && (!u.pending || u.action.SelectPage? || u.action.NewPage?)
        else if u.ExecDispatch? then e.answer.unknown && !u.action.LoginReady?
        else if u.ExecObserve? then e.unknown && !u.action.LoginReady?
        else if u.FinCancel? then SessionOk(s, p, l) && e.ok && (e.answer.unknown || (e.answer.failed && e.unknown))
        else u.FinClose? && !e.ok && e.unknown)
  }

  /** The end of a reconciliation, the end of a cleanup, or a FinishTask that finds nothing to clean. */
  predicate Lifts(s: State, a: Move, key: Key) {
    || (a.StartFinish? && a.c !in s.calls && KeyOf(a.task) == key
        && (key !in s.bindings || s.bindings[key].profile !in s.profiles))
    || (a.Advance? && a.c in s.calls && s.calls[a.c].pc.Using? && LeaseKey(s, s.calls[a.c].pc.l) == key
        && (s.calls[a.c].pc.u.ClearLease? || s.calls[a.c].pc.u.FinEnd?))
  }

  /** A task is tainted by exactly the unknown outcomes, whatever call they meet. */
  lemma UnknownOutcomeTaints(s: State, a: Move, key: Key)
    requires TokenInv(s) && key !in s.tainted
    ensures key in Step(s, a).tainted <==> LeftUnknown(s, a, key)
  {
    TaintExactly(s, a, key);
  }

  /** ... and relieved by exactly the reconciliations and removals. */
  lemma TaintStays(s: State, a: Move, key: Key)
    requires TokenInv(s) && key in s.tainted
    ensures key in Step(s, a).tainted <==> !Lifts(s, a, key)
  {
    TaintExactly(s, a, key);
  }

  lemma TaintExactly(s: State, a: Move, key: Key)
    requires TokenInv(s)
    ensures key in Step(s, a).tainted <==> LeftUnknown(s, a, key) || (key in s.tainted && !Lifts(s, a, key))
  {
    if a.Advance? && a.c in s.calls {
      var pc := s.calls[a.c].pc;
      if pc.Using? {
        var p := Placed(s, a.c);
        UseTaints(s, a.c, a.e, pc.l, pc.u, key);
      } else {
        OutsideTaints(s, a.c, a.e);
      }
    }
  }

  lemma OutsideTaints(s: State, c: nat, e: Choice)
    requires c in s.calls && !s.calls[c].pc.Using?
    ensures Progress(s, c, e).tainted == s.tainted
  {
    var pc := s.calls[c].pc;
    if pc.Run? {
      RunningTaints(s, c, e, pc.r);
    } else if pc.Close? {
      assert CloseStep(s, c, e, pc.z, pc.repl).tainted == s.tainted;
    }
  }

  lemma RunningTaints(s: State, c: nat, e: Choice, r: Running)
    requires c in s.calls
    ensures RunningStep(s, c, e, r).tainted == s.tainted
  {
  }

  lemma UseTaints(s: State, c: nat, e: Choice, l: nat, u: Use, key: Key)
    requires c in s.calls && s.calls[c].pc == Using(l, u) && UseShape(u)
    ensures var a := Advance(c, e);
            key in UseStep(s, c, e, l, u).tainted <==> LeftUnknown(s, a, key) || (key in s.tainted && !Lifts(s, a, key))
  {
    if u.Held? {
      HeldTaints(s, c, e, l, u.op, key);
    } else if u.Return? {
      assert ReturnStep(s, c, l, u.after).tainted == s.tainted;
    } else if Executing(u) {
      ExecuteTaints(s, c, e, l, u, key);
    } else if Paging(u) {
      PageTaints(s, c, e, l, u);
    } else if Marking(u) {
      MarkTaints(s, c, e, l, u, key);
    } else if Releasing(u) {
      assert ReleaseStep(s, c, l, u).tainted == s.tainted;
    } else {
      CleanupTaints(s, c, e, l, u, key);
    }
  }

  lemma HeldTaints(s: State, c: nat, e: Choice, l: nat, op: Op, key: Key)
    requires c in s.calls && s.calls[c].pc == Using(l, Held(op))
    ensures key in HeldStep(s, c, e, l, op).tainted <==> LeftUnknown(s, Advance(c, e), key) || key in s.tainted
  {
  }

  lemma ExecuteTaints(s: State, c: nat, e: Choice, l: nat, u: Use, key: Key)
    requires c in s.calls && s.calls[c].pc == Using(l, u) && Executing(u)
    ensures key in ExecuteStep(s, c, e, l, u).tainted <==> LeftUnknown(s, Advance(c, e), key) || key in s.tainted
  {
    var t := ExecuteEffect(s, s.calls[c].p, e, l, u);
    assert t.tainted == s.tainted && LeaseKey(t, l) == LeaseKey(s, l);
    assert ExecuteNext(s, s.calls[c].p, e, l, u).MarkLease? <==> LeftUnknown(s, Advance(c, e), LeaseKey(s, l));
  }

  lemma PageTaints(s: State, c: nat, e: Choice, l: nat, u: Use)
    requires c in s.calls && Paging(u)
    ensures UseStep(s, c, e, l, u).tainted == s.tainted
  {
    assert PageEffect(s, l, u).tainted == s.tainted;
  }

  lemma MarkTaints(s: State, c: nat, e: Choice, l: nat, u: Use, key: Key)
    requires c in s.calls && s.calls[c].pc == Using(l, u) && Marking(u) && UseShape(u)
    ensures key in MarkStep(s, c, l, u).tainted <==> key in s.tainted && !Lifts(s, Advance(c, e), key)
  {
    assert !MarkNext(u).MarkLease?;
    assert MarkEffect(s, l, u).tainted == s.tainted - if u.ClearLease? then {LeaseKey(s, l)} else {};
  }

  lemma CleanupTaints(s: State, c: nat, e: Choice, l: nat, u: Use, key: Key)
    requires c in s.calls && s.calls[c].pc == Using(l, u) && Cleaning(u)
    ensures var a := Advance(c, e);
            key in CleanupStep(s, c, e, l, u).tainted
            <==> LeftUnknown(s, a, key) || (key in s.tainted && !Lifts(s, a, key))
  {
    var t := CleanupEffect(s, s.calls[c].p, e, l, u);
    assert t.tainted == s.tainted - (if u.FinEnd? then {LeaseKey(s, l)} else {}) && LeaseKey(t, l) == LeaseKey(s, l);
    assert CleanupNext(s, s.calls[c].p, e, l, u).MarkLease? <==> LeftUnknown(s, Advance(c, e), LeaseKey(s, l));
  }
}
