/** What a cleanup does when nothing else happens meanwhile. */
module BrowserAloneFinish {
  import opened Wrappers
  import opened BrowserState
  import opened BrowserSteps
  import opened BrowserAlone

  /** What happens when a page comes up: whether closing it is authorised, and the driver's word. */
  datatype PageAnswer = PageAnswer(allowed: bool, closed: bool, unknown: bool)

  const QUIET := Answer(false, false, false, None)

  function Says(ok: bool, unknown: bool): Choice { Choice(ok, unknown, "", QUIET, [], EMPTY_REF) }

  /** A page to close is not closed: the session is gone, closing it is not authorised, or the driver does not
      acknowledge it. */
  predicate Fails(t: State, l: nat, work: Cleanup, a: PageAnswer, id: string) {
    Closable(work, LeaseOf(t, l).ref, id) && !(Reaches(t, l, a) && a.closed)
  }

  /** The driver is asked to close the page. */
  predicate Reaches(t: State, l: nat, a: PageAnswer) { SessionOk(t, LeaseOf(t, l).profile, l) && a.allowed }

  /** The answers in the order in which the cleanup hears them, up to the first page that fails. */
  function Heard(t: State, l: nat, work: Cleanup, answers: seq<PageAnswer>): seq<Choice>
    requires |answers| == |work.ids|
    decreases |work.ids|
  {
    if work.ids == [] then []
    else
      var a, id := answers[0], work.ids[0];
      if Fails(t, l, work, a, id) then
        if !Reaches(t, l, a) then [Says(a.allowed, false)]
        else
          [Says(true, false), Says(false, a.unknown)] + if a.unknown then [Says(true, false), Says(true, false)] else []
      else PageHeard(t, l, work) + Heard(t, l, work.(ids := work.ids[1..]), answers[1..])
  }

  /** ... of a page that is treated: it is closed first if it is to be closed, and then dropped. */
  function PageHeard(t: State, l: nat, work: Cleanup): seq<Choice>
    requires work.ids != []
  {
    if Closable(work, LeaseOf(t, l).ref, work.ids[0]) then [Says(true, false), Says(true, false), Says(true, false)]
    else [Says(true, false), Says(true, false)]
  }

  /** The first page is no longer the task's own, and closed if it was to be closed. */
  function Dropped(t: State, l: nat, work: Cleanup): State
    requires work.ids != []
  {
    var id := work.ids[0];
    t.(owned := Disown(t.owned, LeaseKey(t, l), id),
       closed := if Closable(work, LeaseOf(t, l).ref, id) then t.closed + {AsCreated(t, l, id)} else t.closed)
  }

  lemma PageAlone(t: State, c: nat, l: nat, work: Cleanup, rest: seq<Choice>)
    requires Free(t, c, l) && work.ids != []
    requires Closable(work, t.leases[l].ref, work.ids[0]) ==> SessionOk(t, t.leases[l].profile, l)
    ensures Alone(At(t, c, l, FinLoop(work)), c, PageHeard(t, l, work) + rest)
         == Alone(At(Dropped(t, l, work), c, l, FinLoop(work.(ids := work.ids[1..]))), c, rest)
    ensures Free(Dropped(t, l, work), c, l)
  {
    var es, yes := PageHeard(t, l, work) + rest, Says(true, false);
    CleanupAt(t, c, l, FinLoop(work), yes);
    if Closable(work, t.leases[l].ref, work.ids[0]) {
      var t1 := t.(closed := t.closed + {AsCreated(t, l, work.ids[0])});
      CleanupAt(t, c, l, FinClose(work), yes);
      Drops(t1, c, l, work, yes);
      Thrice(At(t, c, l, FinLoop(work)), c, es);
      assert es[3..] == rest;
    } else {
      Drops(t, c, l, work, yes);
      Twice(At(t, c, l, FinLoop(work)), c, es);
      assert es[2..] == rest;
    }
  }

  lemma Drops(t: State, c: nat, l: nat, work: Cleanup, e: Choice)
    requires Free(t, c, l) && work.ids != []
    ensures var w := t.(owned := Disown(t.owned, LeaseKey(t, l), work.ids[0]));
            Step(At(t, c, l, FinDrop(work)), Advance(c, e)) == At(w, c, l, FinLoop(work.(ids := work.ids[1..])))
  {
    CleanupAt(t, c, l, FinDrop(work), e);
  }

  lemma Twice(s: State, c: nat, es: seq<Choice>)
    requires |es| >= 2
    ensures Alone(s, c, es) == Alone(Step(Step(s, Advance(c, es[0])), Advance(c, es[1])), c, es[2..])
  {
    assert es[1..][1..] == es[2..];
  }

  lemma FailedPageAlone(t: State, c: nat, l: nat, work: Cleanup, answers: seq<PageAnswer>, rest: seq<Choice>)
    requires Free(t, c, l) && work.ids != [] && |answers| == |work.ids| && Fails(t, l, work, answers[0], work.ids[0])
    ensures var w := if Reaches(t, l, answers[0]) && answers[0].unknown then Unknown(t, l) else t;
            Alone(At(t, c, l, FinLoop(work)), c, Heard(t, l, work, answers) + rest)
            == Alone(At(w, c, l, Return(FinishOver(work.release))), c, rest)
  {
    var a := answers[0];
    var es, after := Heard(t, l, work, answers) + rest, Return(FinishOver(work.release));
    CleanupAt(t, c, l, FinLoop(work), es[0]);
    if !Reaches(t, l, a) {
      assert es[1..] == rest;
    } else {
      CloseFails(t, c, l, work, es[1..]);
      if a.unknown {
        assert es == [es[0], es[1], Says(true, false), Says(true, false)] + rest;
        assert es[1..][3..] == rest;
      } else {
        assert es[1..][1..] == rest;
      }
    }
  }

  lemma CloseFails(t: State, c: nat, l: nat, work: Cleanup, es: seq<Choice>)
    requires Free(t, c, l) && |es| >= 1 && !es[0].ok && (es[0].unknown ==> |es| >= 3)
    ensures var after := Return(FinishOver(work.release));
            Alone(At(t, c, l, FinClose(work)), c, es)
            == if es[0].unknown then Alone(At(Unknown(t, l), c, l, after), c, es[3..])
               else Alone(At(t, c, l, after), c, es[1..])
  {
    CleanupAt(t, c, l, FinClose(work), es[0]);
    if es[0].unknown {
      MarksThen(t, c, l, Return(FinishOver(work.release)), es[1..]);
      assert es[1..][2..] == es[3..];
    }
  }

  lemma MarksThen(t: State, c: nat, l: nat, next: Use, es: seq<Choice>)
    requires Free(t, c, l) && |es| >= 2 && !next.MarkLease?
    ensures Alone(At(Noted(t, l, MarkLease(next)), c, l, MarkLease(next)), c, es)
         == Alone(At(Unknown(t, l), c, l, next), c, es[2..])
  {
    var t0 := Noted(t, l, MarkLease(next));
    MarkAt(t0, c, l, MarkLease(next), es[0]);
    var t1 := MarkEffect(t0, l, MarkLease(next));
    MarkAt(t1, c, l, MarkTask(next), es[1]);
    assert MarkEffect(t1, l, MarkTask(next)) == Unknown(t, l);
    Twice(At(t0, c, l, MarkLease(next)), c, es);
  }

  function Firsts(ids: seq<string>, n: nat): set<string>
    requires n <= |ids|
  {
    set id | id in ids[..n]
  }

  /** Those of the pages that are to be closed, as the task would have recorded them. */
  function Closings(t: State, l: nat, work: Cleanup, ids: set<string>): set<Creation> {
    set id | id in ids && Closable(work, LeaseOf(t, l).ref, id) :: AsCreated(t, l, id)
  }

  function Without(owned: map<Key, map<string, Ref>>, key: Key, ids: set<string>): map<Key, map<string, Ref>> {
    if key in owned then owned[key := owned[key] - ids] else owned
  }

  /** The first n pages are no longer the task's own, and those to close are closed. */
  function Treated(t: State, l: nat, work: Cleanup, n: nat): State
    requires n <= |work.ids|
  {
    var ids := Firsts(work.ids, n);
    t.(owned := Without(t.owned, LeaseKey(t, l), ids), closed := t.closed + Closings(t, l, work, ids))
  }

  lemma FirstsMore(ids: seq<string>, n: nat)
    requires 0 < n <= |ids|
    ensures Firsts(ids, n) == {ids[0]} + Firsts(ids[1..], n - 1)
  {
    assert ids[..n] == [ids[0]] + ids[1..][..n - 1];
  }

  lemma WithoutMore(owned: map<Key, map<string, Ref>>, key: Key, id: string, ids: set<string>)
    ensures Without(Disown(owned, key, id), key, ids) == Without(owned, key, {id} + ids)
  {
    if key in owned {
      assert owned[key] - {id} - ids == owned[key] - ({id} + ids);
      Rewritten(owned, key, owned[key] - {id}, owned[key] - ({id} + ids));
    }
  }

  lemma ClosingsMore(t: State, l: nat, work: Cleanup, id: string, ids: set<string>)
    ensures Closings(t, l, work, {id} + ids)
         == (if Closable(work, LeaseOf(t, l).ref, id) then {AsCreated(t, l, id)} else {}) + Closings(t, l, work, ids)
  {
  }

  lemma SameClosings(t: State, u: State, l: nat, work: Cleanup, more: Cleanup, ids: set<string>)
    requires u.leases == t.leases && more == work.(ids := more.ids)
    ensures Closings(u, l, more, ids) == Closings(t, l, work, ids)
  {
  }

  lemma TreatedMore(t: State, l: nat, work: Cleanup, n: nat)
    requires 0 < n <= |work.ids|
    ensures Treated(Dropped(t, l, work), l, work.(ids := work.ids[1..]), n - 1) == Treated(t, l, work, n)
  {
    var id, more := work.ids[0], work.(ids := work.ids[1..]);
    var ids := Firsts(more.ids, n - 1);
    FirstsMore(work.ids, n);
    WithoutMore(t.owned, LeaseKey(t, l), id, ids);
    ClosingsMore(t, l, work, id, ids);
    SameClosings(t, Dropped(t, l, work), l, work, more, ids);
  }

  /** The cleanup goes through the pages in order up to the first that fails. There it ends, with that page and
      all later ones still owned, and marks the task if the driver left the outcome unknown. If none fails, it
      comes to its end with every page treated. */
  lemma {:induction false} PagesAlone(t: State, c: nat, l: nat, work: Cleanup, answers: seq<PageAnswer>, n: nat,
                                      rest: seq<Choice>)
    requires Free(t, c, l) && |answers| == |work.ids| && n <= |work.ids|
    requires forall i :: 0 <= i < n ==> !Fails(t, l, work, answers[i], work.ids[i])
    requires n < |work.ids| ==> Fails(t, l, work, answers[n], work.ids[n])
    ensures var w := Treated(t, l, work, n);
            var r := if n < |work.ids| && Reaches(t, l, answers[n]) && answers[n].unknown then Unknown(w, l) else w;
            var next := if n == |work.ids| then FinLoop(work.(ids := [])) else Return(FinishOver(work.release));
            Alone(At(t, c, l, FinLoop(work)), c, Heard(t, l, work, answers) + rest) == Alone(At(r, c, l, next), c, rest)
    decreases |work.ids|
  {
    if n == 0 {
      TreatedNone(t, l, work);
      if work.ids != [] { FailedPageAlone(t, c, l, work, answers, rest); } else { assert [] + rest == rest; }
    } else {
      var more := work.(ids := work.ids[1..]);
      var u := Dropped(t, l, work);
      NextPage(t, c, l, work, answers, rest);
      TreatedMore(t, l, work, n);
      PagesAlone(u, c, l, more, answers[1..], n - 1, rest);
    }
  }

  lemma NextPage(t: State, c: nat, l: nat, work: Cleanup, answers: seq<PageAnswer>, rest: seq<Choice>)
    requires Free(t, c, l) && |answers| == |work.ids| > 0 && !Fails(t, l, work, answers[0], work.ids[0])
    ensures var u, more := Dropped(t, l, work), work.(ids := work.ids[1..]);
            Alone(At(t, c, l, FinLoop(work)), c, Heard(t, l, work, answers) + rest)
            == Alone(At(u, c, l, FinLoop(more)), c, Heard(u, l, more, answers[1..]) + rest)
            && Free(u, c, l)
  {
    var u, more := Dropped(t, l, work), work.(ids := work.ids[1..]);
    var later := Heard(t, l, more, answers[1..]);
    SameHeard(t, u, l, more, answers[1..]);
    assert Heard(t, l, work, answers) + rest == PageHeard(t, l, work) + (later + rest);
    PageAlone(t, c, l, work, later + rest);
  }

  lemma TreatedNone(t: State, l: nat, work: Cleanup)
    ensures Treated(t, l, work, 0) == t
  {
    var key, none := LeaseKey(t, l), Firsts(work.ids, 0);
    assert none == {} && Closings(t, l, work, none) == {};
    if key in t.owned {
      assert t.owned[key] - none == t.owned[key] && t.owned[key := t.owned[key]] == t.owned;
    }
  }

  lemma {:induction false} SameHeard(t: State, u: State, l: nat, work: Cleanup, answers: seq<PageAnswer>)
    requires |answers| == |work.ids| && u.profiles == t.profiles && u.leases == t.leases
    ensures Heard(u, l, work, answers) == Heard(t, l, work, answers)
    decreases |work.ids|
  {
    if work.ids != [] { SameHeard(t, u, l, work.(ids := work.ids[1..]), answers[1..]); }
  }

  // ---- the whole cleanup ----

  /** Everything that is known of the task is removed. */
  function Gone(t: State, l: nat): State { Forget(t, LeaseKey(t, l)) }

  /** The page list is at its end. */
  lemma EndAlone(t: State, c: nat, l: nat, work: Cleanup, es: seq<Choice>)
    requires Free(t, c, l) && work.ids == [] && |es| >= 2
    ensures Alone(At(t, c, l, FinLoop(work)), c, es)
         == Alone(At(Gone(t, l), c, l, Return(FinishOver(work.release))), c, es[2..])
  {
    CleanupAt(t, c, l, FinLoop(work), es[0]);
    CleanupAt(t, c, l, FinEnd(work.release), es[1]);
    Twice(At(t, c, l, FinLoop(work)), c, es);
  }

  /** A chooser stands in the way of closing pages unless it is the task's own on one of them. */
  predicate Blocked(t: State, l: nat, work: Cleanup) {
    var chooser := ProfileOf(t, LeaseOf(t, l).profile).chooser;
    NeedsClose(work, LeaseOf(t, l).ref) && chooser.Some? && !Mine(work, chooser.value, LeaseOf(t, l).task)
  }

  predicate MustCancel(t: State, l: nat, work: Cleanup) {
    var chooser := ProfileOf(t, LeaseOf(t, l).profile).chooser;
    NeedsClose(work, LeaseOf(t, l).ref) && chooser.Some? && Mine(work, chooser.value, LeaseOf(t, l).task)
  }

  /** The chooser is the task's and stands on a page of its own that is not retained. */
  predicate Mine(work: Cleanup, chosen: Chooser, task: Task) {
    && chosen.taskKey == KeyOf(task)
    && exists id :: id in work.owned && id !in work.retain && id == chosen.ref.page
                    && Stands(Some(chosen), work.owned[id], task.owner)
  }

  /** Before the first page a cleanup is refused while an outcome is unknown, unless the session was confirmed
      stopped, and while somebody else's chooser stands in its way. Its own chooser it cancels by an upload
      without files, and goes on only if the driver says that it is gone. */
  lemma SnapshotAlone(t: State, c: nat, l: nat, work: Cleanup, es: seq<Choice>)
    requires Free(t, c, l) && |es| >= 5
    ensures var p, a, over := t.leases[l].profile, es[1].answer, Return(FinishOver(work.release));
            var cleared := WithProfile(t, p, t.profiles[p].(chooser := None));
            Alone(At(t, c, l, FinSnapped(work)), c, es)
            == if (t.leases[l].uncertain && !work.stopped) || Blocked(t, l, work)
               then Alone(At(t, c, l, over), c, es[1..])
               else if !MustCancel(t, l, work) then Alone(At(t, c, l, FinLoop(work)), c, es[1..])
               else if !SessionOk(t, p, l) || !es[1].ok then Alone(At(t, c, l, over), c, es[2..])
               else if a.unknown || (a.failed && es[1].unknown) then Alone(At(Unknown(t, l), c, l, over), c, es[4..])
               else if a.failed || a.pending then Alone(At(t, c, l, over), c, es[2..])
               else Alone(At(cleared, c, l, FinLoop(work)), c, es[3..])
  {
    var p := t.leases[l].profile;
    CleanupAt(t, c, l, FinSnapped(work), es[0]);
    if !(t.leases[l].uncertain && !work.stopped) && MustCancel(t, l, work) {
      var chosen := t.profiles[p].chooser.value;
      CancelAlone(t, c, l, work, es[1..]);
      assert es[1..][1..] == es[2..] && es[1..][2..] == es[3..] && es[1..][3..] == es[4..];
    }
  }

  lemma CancelAlone(t: State, c: nat, l: nat, work: Cleanup, es: seq<Choice>)
    requires Free(t, c, l) && |es| >= 4 && t.profiles[t.leases[l].profile].chooser.Some?
    ensures var p, a, over := t.leases[l].profile, es[0].answer, Return(FinishOver(work.release));
            var chosen := t.profiles[p].chooser.value;
            Alone(At(t, c, l, FinCancel(work, chosen)), c, es)
            == if !SessionOk(t, p, l) || !es[0].ok then Alone(At(t, c, l, over), c, es[1..])
               else if a.unknown || (a.failed && es[0].unknown) then Alone(At(Unknown(t, l), c, l, over), c, es[3..])
               else if a.failed || a.pending then Alone(At(t, c, l, over), c, es[1..])
               else Alone(At(WithProfile(t, p, t.profiles[p].(chooser := None)), c, l, FinLoop(work)), c, es[2..])
  {
    var p, a := t.leases[l].profile, es[0].answer;
    var chosen := t.profiles[p].chooser.value;
    CleanupAt(t, c, l, FinCancel(work, chosen), es[0]);
    if SessionOk(t, p, l) && es[0].ok {
      if a.unknown || (a.failed && es[0].unknown) {
        MarksThen(t, c, l, Return(FinishOver(work.release)), es[1..]);
        assert es[1..][2..] == es[3..];
      } else if !a.failed && !a.pending {
        CleanupAt(t, c, l, FinClear(work, chosen), es[1]);
        assert es[1..][1..] == es[2..];
      }
    }
  }

  /** The work of a cleanup: the task's pages, in the order given. */
  function WorkOn(s: State, l: nat, retain: set<string>, ids: seq<string>, release: bool): Cleanup {
    var v := LeaseOf(s, l);
    Cleanup(OwnedBy(s, KeyOf(v.task)), retain, v.ref.gen in ProfileOf(s, v.profile).stopped, ids, release)
  }

  /** A caller's cleanup takes its work list from what the task owns at that moment, and does nothing on a lease
      that was given up. */
  lemma FinishAlone(s: State, c: nat, l: nat, retain: set<string>, es: seq<Choice>)
    requires Called(s, c, l) && |es| >= 3 && Lists(es[1].ids, OwnedBy(s, LeaseKey(s, l)).Keys)
    ensures Alone(Step(s, StartOp(c, l, Finish(retain, false))), c, es)
         == if !es[0].ok || s.leases[l].released then s
            else Alone(At(s, c, l, FinSnapped(WorkOn(s, l, retain, es[1].ids, false))), c, es[2..])
  {
    Starts(s, c, l, Finish(retain, false), es);
    if es[0].ok {
      HeldAt(s, c, l, Finish(retain, false), es[1]);
      assert es[1..][1..] == es[2..];
      if s.leases[l].released { Ends(s, c, l, es[2..]); }
    }
  }

  /** A task's own cleanup ends with giving the lease up. */
  lemma ThenReleases(t: State, c: nat, l: nat, es: seq<Choice>)
    requires Free(t, c, l) && |es| >= 2
    ensures Alone(At(t, c, l, Return(ReleaseNext)), c, es)
         == if es[1].ok then Alone(At(t, c, l, Held(Release(Stop))), c, es[2..]) else t
  {
    GivesBack(t, c, l, ReleaseNext, es[0]);
    Takes(t, c, l, Release(Stop), es[1]);
    Twice(At(t, c, l, Return(ReleaseNext)), c, es);
    if !es[1].ok {
      assert t.calls - {c} == t.calls;
      AloneOver(t, c, es[2..]);
    }
  }
}
