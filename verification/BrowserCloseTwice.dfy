/** A run in which a task with leases on two profiles closes one page twice. */
module BrowserCloseTwice {
  import opened Wrappers
  import opened BrowserState
  import opened BrowserSteps
  import opened BrowserAlone
  import opened BrowserAloneFinish
  import opened BrowserAloneSession
  import opened BrowserMade

  lemma {:induction false} RunsConcat(s: State, a: seq<Move>, b: seq<Move>)
    ensures Runs(s, a + b) == Runs(Runs(s, a), b)
  {
    if b == [] {
      assert a + b == a;
    } else {
      RunsConcat(s, a, b[..|b| - 1]);
      assert (a + b)[..|a + b| - 1] == a + b[..|b| - 1];
    }
  }

  lemma RunsOne(s: State, a: Move)
    ensures Runs(s, [a]) == Step(s, a)
  {
    assert [a][..0] == [];
  }

  function Advances(c: nat, es: seq<Choice>): seq<Move> {
    seq(|es|, i requires 0 <= i < |es| => Advance(c, es[i]))
  }

  lemma {:induction false} AdvancesAlone(s: State, c: nat, es: seq<Choice>)
    ensures Runs(s, Advances(c, es)) == Alone(s, c, es)
    decreases |es|
  {
    if es != [] {
      assert Advances(c, es) == [Advance(c, es[0])] + Advances(c, es[1..]);
      RunsOne(s, Advance(c, es[0]));
      RunsConcat(s, [Advance(c, es[0])], Advances(c, es[1..]));
      AdvancesAlone(Step(s, Advance(c, es[0])), c, es[1..]);
    }
  }

  /** A public call from its first section on. */
  function CallMoves(start: Move, es: seq<Choice>): seq<Move>
    requires Begins(start)
  {
    [start] + Advances(start.c, es)
  }

  lemma RunsAlone(s: State, start: Move, es: seq<Choice>)
    requires Begins(start)
    ensures Runs(s, CallMoves(start, es)) == Alone(Step(s, start), start.c, es)
  {
    RunsOne(s, start);
    RunsConcat(s, [start], Advances(start.c, es));
    AdvancesAlone(Step(s, start), start.c, es);
  }

  /** Everything goes well; `page` is the page a bind finds, `ids` the order in which pages come up. */
  function Well(page: string, ids: seq<string>): Choice {
    Choice(true, false, page, QUIET, ids, EMPTY_REF)
  }

  function Named(page: string): Wish { Wish(page, false, false, false) }

  function AcquireMoves(c: nat, p: string, task: Task, asked: string, page: string): seq<Move> {
    CallMoves(StartAcquire(c, p, task, Named(asked)), seq(5, _ => Well(page, [])))
  }

  /** An Acquire that nothing stands in the way of. */
  lemma Acquires(s: State, c: nat, p: string, task: Task, asked: string, page: string)
    requires Open(s, c, p) && page != ""
    requires var f := s.profiles[p]; f.live && f.chooser.None? && f.ref.owns && !f.ref.ext
    ensures var ref := s.profiles[p].ref.(page := page);
            Runs(s, AcquireMoves(c, p, task, asked, page))
            == Lent(Making(s, task, ref, asked == ""), p, task, ref, asked == "")
  {
    var es, f, wish := seq(5, _ => Well(page, [])), s.profiles[p], Named(asked);
    var ref := f.ref.(page := asked);
    RunsAlone(s, StartAcquire(c, p, task, wish), es);
    AcquireStarts(s, c, p, task, wish, es);
    GotAlone(s, c, p, task, wish, f.ref, es[1..]);
    BindAlone(s, c, p, AcqBind(task, wish, ref, MayCreate(wish, ref), false, false), es[1..][1..]);
    assert ref.(page := page) == f.ref.(page := page);
  }

  function FinishMoves(c: nat, l: nat, id: string): seq<Move> {
    CallMoves(StartOp(c, l, Finish({}, false)), seq(4, _ => Well("", [id])))
  }

  predicate CanFinish(s: State, c: nat, l: nat, id: string) {
    && Called(s, c, l) && Usable(s, l)
    && var v, f := s.leases[l], s.profiles[s.leases[l].profile];
       && !v.uncertain && f.chooser.None? && v.ref.gen !in f.stopped
       && OwnedBy(s, KeyOf(v.task)).Keys == {id}
       && OwnedBy(s, KeyOf(v.task))[id].gen == v.ref.gen && OwnedBy(s, KeyOf(v.task))[id].server == v.ref.server
  }

  function WorkFor(s: State, l: nat, id: string): Cleanup {
    Cleanup(OwnedBy(s, LeaseKey(s, l)), {}, false, [id], false)
  }

  /** A cleanup of a task's only page, up to the driver's close. */
  lemma ReachesClose(s: State, c: nat, l: nat, id: string)
    requires CanFinish(s, c, l, id)
    ensures Runs(s, FinishMoves(c, l, id)) == At(s, c, l, FinClose(WorkFor(s, l, id)))
  {
    var es, op, work, e := seq(4, _ => Well("", [id])), Finish({}, false), WorkFor(s, l, id), Well("", [id]);
    assert Lists([id], {id});
    RunsAlone(s, StartOp(c, l, op), es);
    Starts(s, c, l, op, es);
    HeldAt(s, c, l, op, e);
    Approaches(s, c, l, id);
    Thrice(At(s, c, l, Held(op)), c, es[1..]);
  }

  lemma Approaches(s: State, c: nat, l: nat, id: string)
    requires CanFinish(s, c, l, id)
    ensures var work, go := WorkFor(s, l, id), Advance(c, Well("", [id]));
            Step(Step(At(s, c, l, FinSnapped(work)), go), go) == At(s, c, l, FinClose(work))
  {
    CleanupAt(s, c, l, FinSnapped(WorkFor(s, l, id)), Well("", [id]));
    CleanupAt(s, c, l, FinLoop(WorkFor(s, l, id)), Well("", [id]));
  }

  // ---- the run ----

  const TASK := Task("owner", "task")
  const KEY := KeyOf(TASK)
  const REF_A := Ref("a", "server", "A", "", 1, true, false)
  const REF_B := Ref("b", "server", "B", "", 1, true, false)

  /** T makes a page on profile A and starts to clean up; before the close reaches the driver, A's session is
      closed and one on B registered for the same server under generation 1. */
  const FIRST: seq<Move> := CLEANUP + [StartClose(2, "A")] + [Register(REF_B)]

  /** T acquires B and cleans up there, and the driver acknowledges the close. */
  const SECOND: seq<Move> := AcquireMoves(3, "B", TASK, "P", "P") + FinishMoves(4, 1, "P")
                             + [Advance(4, Well("", ["P"]))]

  lemma RegistersFresh(s: State, ref: Ref)
    requires Identified(ref) && ref.gen == 1 && ref.profile !in s.profiles && !ServerTaken(s.profiles, ref)
    ensures Step(s, Register(ref))
         == s.(profiles := s.profiles[ref.profile :=
                             FreshProfile(EMPTY_REF).(ref := ref, live := true, published := {1})])
  {
    var f := FreshProfile(EMPTY_REF);
    assert f.published + {1} == {1} && f.drained - {1} == {};
  }

  ghost predicate AfterFirst(s: State) {
    && s.calls.Keys == {1, 2} && s.next == 1 && s.leases.Keys == {0}
    && s.calls[1] == Call("A", Using(0, FinClose(Cleanup(map["P" := REF_A.(page := "P")], {}, false, ["P"], false))))
    && s.leases[0].task == TASK && s.leases[0].ref == REF_A.(page := "P")
    && OwnedBy(s, KEY) == map["P" := REF_A.(page := "P")] && s.unknown == {}
    && "A" in s.profiles && !s.profiles["A"].live
    && "B" in s.profiles && s.profiles["B"] == FreshProfile(EMPTY_REF).(ref := REF_B, live := true, published := {1})
  }

  /** T's cleanup on A is about to close its page. */
  ghost predicate AfterCleanup(s: State) {
    && s.calls.Keys == {1} && s.next == 1 && s.leases.Keys == {0} && s.profiles.Keys == {"A"}
    && s.profiles["A"].ref == REF_A
    && s.calls[1] == Call("A", Using(0, FinClose(Cleanup(map["P" := REF_A.(page := "P")], {}, false, ["P"], false))))
    && s.leases[0].task == TASK && s.leases[0].ref == REF_A.(page := "P")
    && OwnedBy(s, KEY) == map["P" := REF_A.(page := "P")] && s.unknown == {}
  }

  const CLEANUP: seq<Move> := [Register(REF_A)] + AcquireMoves(0, "A", TASK, "", "P") + FinishMoves(1, 0, "P")

  lemma CleanupRun()
    ensures AfterCleanup(Runs(INITIAL, CLEANUP))
  {
    var s1 := Step(INITIAL, Register(REF_A));
    RegistersFresh(INITIAL, REF_A);
    Acquires(s1, 0, "A", TASK, "", "P");
    var s2 := Runs(s1, AcquireMoves(0, "A", TASK, "", "P"));
    assert CanFinish(s2, 1, 0, "P");
    ReachesClose(s2, 1, 0, "P");
    RunsOne(INITIAL, Register(REF_A));
    RunsConcat(INITIAL, [Register(REF_A)], AcquireMoves(0, "A", TASK, "", "P"));
    RunsConcat(INITIAL, [Register(REF_A)] + AcquireMoves(0, "A", TASK, "", "P"), FinishMoves(1, 0, "P"));
  }

  lemma Reregisters(s3: State)
    requires AfterCleanup(s3)
    ensures AfterFirst(Step(Step(s3, StartClose(2, "A")), Register(REF_B)))
  {
    var s4 := Step(s3, StartClose(2, "A"));
    assert s4.profiles.Keys == {"A"} && !s4.profiles["A"].live;
    RegistersFresh(s4, REF_B);
  }

  lemma FirstHalf()
    ensures AfterFirst(Runs(INITIAL, FIRST))
  {
    CleanupRun();
    var s3 := Runs(INITIAL, CLEANUP);
    Reregisters(s3);
    RunsConcat(INITIAL, CLEANUP, [StartClose(2, "A")]);
    RunsOne(s3, StartClose(2, "A"));
    RunsConcat(INITIAL, CLEANUP + [StartClose(2, "A")], [Register(REF_B)]);
    RunsOne(Step(s3, StartClose(2, "A")), Register(REF_B));
  }

  ghost predicate AboutToCloseAgain(s: State, c: nat) {
    && c in s.calls && s.calls[c].pc.Using? && s.calls[c].pc.u.FinClose? && s.calls[c].pc.u.work.ids != []
    && AsCreated(s, s.calls[c].pc.l, s.calls[c].pc.u.work.ids[0]) in s.closed
  }

  ghost predicate AfterSecondClean(s: State) {
    && 1 in s.calls && 4 in s.calls && 0 in s.leases && 1 in s.leases
    && s.calls[1] == Call("A", Using(0, FinClose(Cleanup(map["P" := REF_A.(page := "P")], {}, false, ["P"], false))))
    && s.calls[4] == Call("B", Using(1, FinClose(Cleanup(map["P" := REF_A.(page := "P")], {}, false, ["P"], false))))
    && s.leases[0].task == TASK && s.leases[0].ref == REF_A.(page := "P")
    && s.leases[1].task == TASK && s.leases[1].ref == REF_B.(page := "P")
  }

  lemma SecondClean(s: State)
    requires AfterFirst(s)
    ensures AfterSecondClean(Runs(Runs(s, AcquireMoves(3, "B", TASK, "P", "P")), FinishMoves(4, 1, "P")))
  {
    Acquires(s, 3, "B", TASK, "P", "P");
    var s6 := Runs(s, AcquireMoves(3, "B", TASK, "P", "P"));
    assert CanFinish(s6, 4, 1, "P");
    ReachesClose(s6, 4, 1, "P");
  }

  lemma Acknowledges(s: State)
    requires AfterSecondClean(s)
    ensures AboutToCloseAgain(Step(s, Advance(4, Well("", ["P"]))), 1)
  {
    assert AsCreated(s, 0, "P") == AsCreated(s, 1, "P");
  }

  lemma SecondHalf(s: State)
    requires AfterFirst(s)
    ensures AboutToCloseAgain(Runs(s, SECOND), 1)
  {
    var s7 := Runs(Runs(s, AcquireMoves(3, "B", TASK, "P", "P")), FinishMoves(4, 1, "P"));
    SecondClean(s);
    Acknowledges(s7);
    RunsConcat(s, AcquireMoves(3, "B", TASK, "P", "P"), FinishMoves(4, 1, "P"));
    RunsConcat(s, AcquireMoves(3, "B", TASK, "P", "P") + FinishMoves(4, 1, "P"), [Advance(4, Well("", ["P"]))]);
    RunsOne(s7, Advance(4, Well("", ["P"])));
  }

  /** With leases on two profiles of one server and generation the promise fails: the close that waited is
      handed to the driver although the page was closed for the task meanwhile. */
  lemma TwoProfilesCanCloseTwice()
    ensures exists actions: seq<Move>, c: nat :: AboutToCloseAgain(Runs(INITIAL, actions), c)
  {
    FirstHalf();
    SecondHalf(Runs(INITIAL, FIRST));
    RunsConcat(INITIAL, FIRST, SECOND);
    assert AboutToCloseAgain(Runs(INITIAL, FIRST + SECOND), 1);
  }
}
