/** A run in which a cleanup whose session was closed meanwhile closes a page under another session's pending
    chooser. */
module BrowserStaleClose {
  import opened Wrappers
  import opened BrowserState
  import opened BrowserSteps
  import opened BrowserAlone
  import opened BrowserAloneExecute
  import opened BrowserAloneSession
  import opened BrowserServer
  import opened BrowserCloseTwice

  /** The driver answers an action with a pending chooser. */
  const CHOOSES := Choice(true, false, "", Answer(false, false, true, None), [], EMPTY_REF)

  function ActMoves(c: nat, l: nat): seq<Move> {
    CallMoves(StartOp(c, l, Exec(OtherAction)), seq(15, _ => CHOOSES))
  }

  lemma Acts(s: State, c: nat, l: nat)
    requires Called(s, c, l) && Usable(s, l) && !s.leases[l].uncertain && !Pending(s, l)
    ensures Runs(s, ActMoves(c, l)) == Choosing(s, l, CHOOSES.answer)
  {
    var es := seq(15, _ => CHOOSES);
    RunsAlone(s, StartOp(c, l, Exec(OtherAction)), es);
    ActionAlone(s, c, l, OtherAction, es);
    DispatchAlone(s, c, l, OtherAction, false, es[3..]);
  }

  /** After FIRST, T acquires B and acts there, and the page answers with a file chooser. */
  const CHOOSING: seq<Move> := AcquireMoves(3, "B", TASK, "P", "P") + ActMoves(4, 1)

  /** A page is about to be closed on the server of a pending chooser, through a lease whose session is over. */
  ghost predicate AboutToDisturb(s: State, c: nat, q: string) {
    && c in s.calls && s.calls[c].pc.Using? && s.calls[c].pc.u.FinClose?
    && PendingOn(s, q, LeaseOf(s, s.calls[c].pc.l).ref.server) && Excluded(s, c, q)
    && !SessionOk(s, s.calls[c].p, s.calls[c].pc.l)
  }

  lemma ChooserComes(s: State)
    requires AfterFirst(s) && "A" in s.profiles && !s.profiles["A"].live
    ensures AboutToDisturb(Runs(s, CHOOSING), 1, "B")
  {
    Acquires(s, 3, "B", TASK, "P", "P");
    var s6 := Runs(s, AcquireMoves(3, "B", TASK, "P", "P"));
    Acts(s6, 4, 1);
    RunsConcat(s, AcquireMoves(3, "B", TASK, "P", "P"), ActMoves(4, 1));
  }

  /** The exception in ChooserExcludesOnServer can happen. */
  lemma StaleCleanupCanDisturb()
    ensures exists actions: seq<Move>, c: nat, q: string :: AboutToDisturb(Runs(INITIAL, actions), c, q)
  {
    FirstHalf();
    ChooserComes(Runs(INITIAL, FIRST));
    RunsConcat(INITIAL, FIRST, CHOOSING);
    assert AboutToDisturb(Runs(INITIAL, FIRST + CHOOSING), 1, "B");
  }
}
