/** What Lease.Execute does when nothing else happens meanwhile. */
module BrowserAloneExecute {
  import opened Wrappers
  import opened BrowserState
  import opened BrowserSteps
  import opened BrowserAlone

  /** An action is refused on a lease that cannot be used, while an outcome is unknown, and while a chooser is
      pending unless the action is an upload. */
  predicate Refused(s: State, l: nat, action: Action) {
    || !Usable(s, l) || s.leases[l].uncertain
    || (Pending(s, l) && action != Upload && action != Mcp(FileUpload))
  }

  /** What goes wrong before an action is handed on leaves an unknown outcome if the driver says so, and if a
      bind was tried at all. */
  predicate BindUnknown(s: State, l: nat, action: Action, e: Choice) {
    !e.ok && e.unknown && action != LoginReady && (!Pending(s, l) || action.SelectPage? || action == NewPage)
  }

  /** The lease and the task's binding are on another page. */
  function Turned(t: State, l: nat, page: string): State {
    var ref := LeaseOf(t, l).ref.(page := page);
    WithLease(t, l, LeaseOf(t, l).(ref := ref)).(bindings := t.bindings[LeaseKey(t, l) := ref])
  }

  /** ... and a page that was made for the task is its own. */
  function Paged(t: State, l: nat, page: string, own: bool): State {
    var w := Turned(t, l, page);
    if own then Own(w, LeaseKey(t, l), LeaseOf(w, l).ref) else w
  }

  /** The driver made the page for the task. */
  function Makes(t: State, l: nat, page: string): State { t.(made := t.made + {AsCreated(t, l, page)}) }

  // ---- putting the lease on a page ----

  lemma SetsPage(t: State, c: nat, l: nat, page: string, own: bool, es: seq<Choice>)
    requires Free(t, c, l) && |es| >= 4
    ensures Alone(At(t, c, l, SetPage(page, own)), c, es)
         == Paged(t, l, page, own)
  {
    var ref := t.leases[l].ref.(page := page);
    PageAt(t, c, l, SetPage(page, own), es[0]);
    var t1 := PageEffect(t, l, SetPage(page, own));
    PageAt(t1, c, l, BindPage(ref, own), es[1]);
    var w := Turned(t, l, page);
    assert PageEffect(t1, l, BindPage(ref, own)) == w;
    assert es[1..][1..] == es[2..];
    if own {
      TakesOver(w, c, l, es[2..]);
    } else {
      Ends(w, c, l, es[2..]);
    }
  }

  lemma TakesOver(t: State, c: nat, l: nat, es: seq<Choice>)
    requires Free(t, c, l) && |es| >= 2
    ensures Alone(At(t, c, l, OwnPage), c, es) == Own(t, LeaseKey(t, l), LeaseOf(t, l).ref)
  {
    PageAt(t, c, l, OwnPage, es[0]);
    Ends(Own(t, LeaseKey(t, l), t.leases[l].ref), c, l, es[1..]);
  }

  // ---- the page actions ----

  /** select_page and new_page put the lease and the binding on the page the driver bound; a new page was made
      by the driver and is the task's own. */
  lemma PageActionAlone(s: State, c: nat, l: nat, action: Action, es: seq<Choice>)
    requires Called(s, c, l) && |es| >= 8 && (action.SelectPage? || action == NewPage)
    ensures Alone(Step(s, StartOp(c, l, Exec(action))), c, es)
         == if !es[0].ok || Refused(s, l, action) then s
            else if BindUnknown(s, l, action, es[2]) then Unknown(s, l)
            else if !es[2].ok || action == SelectPage("") then s
            else Paged(if action == NewPage then Makes(s, l, es[2].page) else s, l, es[2].page, action == NewPage)
  {
    Starts(s, c, l, Exec(action), es);
    if es[0].ok {
      HeldAt(s, c, l, Exec(action), es[1]);
      assert es[1..][1..] == es[2..];
      if Refused(s, l, action) {
        Ends(s, c, l, es[2..]);
      } else {
        BindsPage(s, c, l, action, Pending(s, l), es[2..]);
      }
    }
  }

  lemma BindsPage(t: State, c: nat, l: nat, action: Action, pending: bool, es: seq<Choice>)
    requires Free(t, c, l) && |es| >= 6 && (action.SelectPage? || action == NewPage) && Usable(t, l)
    ensures Alone(At(t, c, l, ExecReady(action, pending)), c, es)
         == if !es[0].ok && es[0].unknown then Unknown(t, l)
            else if !es[0].ok || action == SelectPage("") then t
            else Paged(if action == NewPage then Makes(t, l, es[0].page) else t, l, es[0].page, action == NewPage)
  {
    var e, p := es[0], t.leases[l].profile;
    ExecuteAt(t, c, l, ExecReady(action, pending), e);
    if !e.ok && e.unknown {
      MarksAndEnds(t, c, l, es[1..]);
    } else if !e.ok || action == SelectPage("") {
      Ends(t, c, l, es[1..]);
    } else {
      var own := action == NewPage;
      var w := if own then Makes(t, l, e.page) else t;
      PageAt(w, c, l, PageBound(e.page, own), es[1]);
      assert es[1..][1..] == es[2..];
      SetsPage(w, c, l, e.page, own, es[2..]);
    }
  }

  // ---- the other actions ----

  /** An action the driver carries out. */
  predicate Plain(action: Action) { !action.SelectPage? && action != NewPage }

  /** Up to the driver: an action that is refused, or whose bind fails, is never handed on. */
  lemma ActionAlone(s: State, c: nat, l: nat, action: Action, es: seq<Choice>)
    requires Called(s, c, l) && |es| >= 12 && Plain(action)
    ensures Alone(Step(s, StartOp(c, l, Exec(action))), c, es)
         == if !es[0].ok || Refused(s, l, action) then s
            else if BindUnknown(s, l, action, es[2]) then Unknown(s, l)
            else if !es[2].ok then s
            else Alone(At(s, c, l, ExecDispatch(action, Pending(s, l))), c, es[3..])
  {
    Starts(s, c, l, Exec(action), es);
    if es[0].ok {
      HeldAt(s, c, l, Exec(action), es[1]);
      assert es[1..][1..] == es[2..] && es[2..][1..] == es[3..];
      if Refused(s, l, action) {
        Ends(s, c, l, es[2..]);
      } else {
        ExecuteAt(s, c, l, ExecReady(action, Pending(s, l)), es[2]);
        if BindUnknown(s, l, action, es[2]) {
          MarksAndEnds(s, c, l, es[3..]);
        } else if !es[2].ok {
          Ends(s, c, l, es[3..]);
        }
      }
    }
  }

  /** The driver's word on an action, before anything is drawn from it: an unknown outcome marks the task. */
  function Told(t: State, l: nat, action: Action, answer: Answer): State {
    if answer.unknown && action != LoginReady then Unknown(t, l) else t
  }

  /** The page a tab action opened was made for the task. */
  function Opened(t: State, l: nat, action: Action, answer: Answer): State {
    if action == Mcp(Tabs(true)) && answer.observed.Some?
    then Makes(t, l, answer.observed.value) else t
  }

  /** A chooser the driver reports becomes the profile's; without one, the task's own pending chooser is over. */
  function Choosing(t: State, l: nat, answer: Answer): State {
    var v := LeaseOf(t, l);
    var f := ProfileOf(t, v.profile);
    if answer.pending then WithProfile(t, v.profile, f.(chooser := Some(Chooser(v.ref, v.task.owner, KeyOf(v.task)))))
    else if Pending(t, l) then WithProfile(t, v.profile, f.(chooser := None))
    else t
  }

  /** What follows an action without a chooser: closing the browser confirms the session's stop, a tab action
      moves the lease to the page it shows and owns a tab it opened, and every other action is followed by an
      observation, whose unknown outcome marks the task. */
  function Followed(t: State, l: nat, action: Action, answer: Answer, e: Choice): State {
    var p := LeaseOf(t, l).profile;
    if action == Mcp(BrowserClose) then t.(profiles := ConfirmIn(t.profiles, p, LeaseOf(t, l).ref.gen))
    else if action.Mcp? && action.tool.Tabs? && answer.observed.Some? then
      Paged(t, l, answer.observed.value, action.tool.isNew)
    else if e.unknown && action != LoginReady then Unknown(t, l)
    else t
  }

  /** From the driver on: a failed action ends there; otherwise, while the session still lives, the chooser is
      recorded, and what follows depends on the action. */
  lemma DispatchAlone(t: State, c: nat, l: nat, action: Action, pending: bool, es: seq<Choice>)
    requires Free(t, c, l) && |es| >= 12 && Plain(action)
    ensures var a := es[0].answer;
            var w := Told(Opened(t, l, action, a), l, action, a);
            var after := if a.unknown && action != LoginReady then es[5] else es[3];
            Alone(At(t, c, l, ExecDispatch(action, pending)), c, es)
            == if a.failed || !SessionOk(w, w.leases[l].profile, l) then w
               else if a.pending then Choosing(w, l, a)
               else Followed(Choosing(w, l, a), l, action, a, after)
  {
    var a := es[0].answer;
    var w := Opened(t, l, action, a);
    Hears(t, c, l, action, pending, es[0]);
    if a.unknown && action != LoginReady {
      MarksDone(w, c, l, action, a, es[1..]);
      assert es[1..][2..] == es[3..];
      DoneAlone(Unknown(w, l), c, l, action, a, es[3..]);
    } else {
      DoneAlone(w, c, l, action, a, es[1..]);
    }
  }

  lemma Hears(t: State, c: nat, l: nat, action: Action, pending: bool, e: Choice)
    requires Free(t, c, l) && Plain(action)
    ensures var a, w := e.answer, Opened(t, l, action, e.answer);
            var done := ExecDone(action, a);
            var next := if a.unknown && action != LoginReady then MarkLease(done) else done;
            Step(At(t, c, l, ExecDispatch(action, pending)), Advance(c, e)) == At(Noted(w, l, next), c, l, next)
            && Free(w, c, l)
  {
    ExecuteAt(t, c, l, ExecDispatch(action, pending), e);
    assert ExecuteEffect(t, t.leases[l].profile, e, l, ExecDispatch(action, pending)) == Opened(t, l, action, e.answer);
  }

  lemma MarksDone(t: State, c: nat, l: nat, action: Action, a: Answer, es: seq<Choice>)
    requires Free(t, c, l) && |es| >= 2
    ensures var next := MarkLease(ExecDone(action, a));
            Alone(At(Noted(t, l, next), c, l, next), c, es)
            == Alone(At(Unknown(t, l), c, l, ExecDone(action, a)), c, es[2..])
    ensures Free(Unknown(t, l), c, l)
  {
    var next := MarkLease(ExecDone(action, a));
    var t0 := Noted(t, l, next);
    MarkAt(t0, c, l, next, es[0]);
    var t1 := MarkEffect(t0, l, next);
    MarkAt(t1, c, l, MarkTask(ExecDone(action, a)), es[1]);
    assert MarkEffect(t1, l, MarkTask(ExecDone(action, a))) == Unknown(t, l);
    assert es[1..][1..] == es[2..];
  }

  lemma DoneAlone(t: State, c: nat, l: nat, action: Action, a: Answer, es: seq<Choice>)
    requires Free(t, c, l) && |es| >= 7
    ensures Alone(At(t, c, l, ExecDone(action, a)), c, es)
         == if a.failed || !SessionOk(t, t.leases[l].profile, l) then t
            else if a.pending then Choosing(t, l, a)
            else Followed(Choosing(t, l, a), l, action, a, es[2])
  {
    ExecuteAt(t, c, l, ExecDone(action, a), es[0]);
    if a.failed || !SessionOk(t, t.leases[l].profile, l) {
      Ends(t, c, l, es[1..]);
    } else {
      ExecuteAt(t, c, l, ExecRecord(action, a), es[1]);
      var w := ExecuteEffect(t, t.leases[l].profile, es[1], l, ExecRecord(action, a));
      ChoosingIs(t, l, action, a, es[1]);
      assert es[1..][1..] == es[2..];
      if a.pending {
        Ends(w, c, l, es[2..]);
      } else {
        FollowAlone(w, c, l, action, a, es[2..]);
      }
    }
  }

  lemma ChoosingIs(t: State, l: nat, action: Action, a: Answer, e: Choice)
    requires l in t.leases && t.leases[l].profile in t.profiles
    ensures ExecuteEffect(t, t.leases[l].profile, e, l, ExecRecord(action, a)) == Choosing(t, l, a)
  {
    var p := t.leases[l].profile;
    assert t.profiles[p := t.profiles[p]] == t.profiles;
  }

  lemma FollowAlone(t: State, c: nat, l: nat, action: Action, a: Answer, es: seq<Choice>)
    requires Free(t, c, l) && |es| >= 5 && !a.pending
    ensures Alone(At(t, c, l, ExecuteNext(t, t.leases[l].profile, es[0], l, ExecRecord(action, a))), c, es)
         == Followed(t, l, action, a, es[0])
  {
    var e, p := es[0], t.leases[l].profile;
    if action == Mcp(BrowserClose) {
      ExecuteAt(t, c, l, ExecConfirm, e);
      Ends(ExecuteEffect(t, p, e, l, ExecConfirm), c, l, es[1..]);
    } else if action.Mcp? && action.tool.Tabs? && a.observed.Some? {
      SetsPage(t, c, l, a.observed.value, action.tool.isNew, es);
    } else {
      Looks(t, c, l, action, es);
    }
  }

  lemma Looks(t: State, c: nat, l: nat, action: Action, es: seq<Choice>)
    requires Free(t, c, l) && |es| >= 4
    ensures Alone(At(t, c, l, ExecObserve(action)), c, es)
         == if es[0].unknown && action != LoginReady then Unknown(t, l) else t
  {
    ExecuteAt(t, c, l, ExecObserve(action), es[0]);
    if es[0].unknown && action != LoginReady { MarksAndEnds(t, c, l, es[1..]); } else { Ends(t, c, l, es[1..]); }
  }
}
