/** The browser coordinator as a machine of atomic steps.

    A public call advances from one program point to the next; each step is one section under the
    coordinator's lock or the lease's lock, one channel send or receive, or one driver or application
    callback. Everything a callback or the driver may decide is in the step's `Choice`. A step that is
    not enabled, such as a receive from an empty channel, leaves the state as it is. */
module BrowserSteps {
  import opened Wrappers
  import opened BrowserState

  datatype Choice = Choice(ok: bool, unknown: bool, page: string, answer: Answer, ids: seq<string>, ref: Ref)

  datatype Move =
    | Prepare(ref: Ref)
    | Register(ref: Ref)
    | ConfirmStopped(p: string, gen: Generation)
    | Retain(key: Key, page: string)
    | StartAcquire(c: nat, p: string, task: Task, wish: Wish)
    | StartInspect(c: nat, p: string, task: Task)
    | StartClose(c: nat, p: string)
    | StartReplacement(c: nat, p: string)
    | StartFinish(c: nat, task: Task, retain: set<string>)
    | StartOp(c: nat, l: nat, op: Op)
    | Advance(c: nat, e: Choice)

  /** A public call that goes on in further steps. */
  predicate Begins(a: Move) {
    a.StartAcquire? || a.StartInspect? || a.StartClose? || a.StartReplacement? || a.StartFinish? || a.StartOp?
  }

  /** A public call that is one section. */
  predicate Outside(a: Move) {
    a.Prepare? || a.Register? || a.ConfirmStopped? || a.Retain?
  }

  function Step(s: State, a: Move): State {
    match a
    case Prepare(ref) => s.(profiles := PrepareIn(s.profiles, ref))
    case Register(ref) => s.(profiles := RegisterIn(s.profiles, ref))
    case ConfirmStopped(p, gen) => s.(profiles := ConfirmIn(s.profiles, p, gen))
    case Retain(key, page) => s.(owned := Disown(s.owned, key, page))
    case Advance(c, e) => if c in s.calls then Progress(s, c, e) else s
    case _ => if a.c in s.calls then s else Begin(s, a)
  }

  function Runs(s: State, actions: seq<Move>): State {
    if actions == [] then s else Step(Runs(s, actions[..|actions| - 1]), actions[|actions| - 1])
  }

  /** The first section of a public call. */
  function Begin(s: State, a: Move): State
    requires Begins(a)
  {
    match a
    case StartAcquire(c, p, task, wish) =>
      var f := ProfileOf(s, p);
      var key := KeyOf(task);
      if p !in s.profiles || !f.live then s
      else if wish.reuse && !(key in s.bindings && s.bindings[key].profile == p && s.bindings[key].page == wish.page
                              && s.bindings[key].gen == f.ref.gen && !wish.useCurrent) then s
      else Goto(s, c, p, Queue(AcqWait(task, wish, f.ref)))
    case StartInspect(c, p, task) =>
      var f := ProfileOf(s, p);
      if p !in s.profiles || !f.live then s
      else if f.active.Some? && LeaseKey(s, f.active.value) == KeyOf(task) then
        Goto(s, c, p, Ask(f.active.value, Look))
      else Goto(s, c, p, Queue(InspWait(f.ref)))
    case StartClose(c, p) =>
      if p !in s.profiles then s else CloseBegin(s, c, p, false)
    case StartReplacement(c, p) =>
      var f := ProfileOf(s, p);
      if p !in s.profiles || f.transition == 0 then s
      else Goto(WithProfile(s, p, f.(transition := f.transition - 1, replacer := Some(c))), c, p, Replace(ReplStart))
    case StartFinish(c, task, retain) =>
      var key := KeyOf(task);
      if key !in s.bindings || s.bindings[key].profile !in s.profiles then Forget(s, key)
      else
        var ref := s.bindings[key];
        var f := s.profiles[ref.profile];
        if f.active.Some? && LeaseKey(s, f.active.value) == key then
          Goto(s, c, ref.profile, Ask(f.active.value, Finish(retain, true)))
        else Goto(s, c, ref.profile, Queue(FinWait(task, ref, retain)))
    case StartOp(c, l, op) =>
      // A caller uses the leases it was handed; a cleanup lease is never handed out.
      if l !in s.leases || s.leases[l].cleanup then s
      else if !(op.Exec? || op.Observe? || op.Reconcile? || op == Release(Stop) || (op.Finish? && !op.release)) then s
      else Goto(s, c, s.leases[l].profile, Ask(l, op))
  }

  function CloseBegin(s: State, c: nat, p: string, repl: bool): State {
    var f := ProfileOf(s, p);
    Goto(WithProfile(s, p, f.(live := false)), c, p, Close(CloseStop(f.ref.gen, f.active), repl))
  }

  function Progress(s: State, c: nat, e: Choice): State
    requires c in s.calls
  {
    match s.calls[c].pc
    case Queue(q) => QueueStep(s, c, e, q)
    case Run(r) => RunningStep(s, c, e, r)
    case Close(z, repl) => CloseStep(s, c, e, z, repl)
    case Replace(y) => ReplaceStep(s, c, e, y)
    case Ask(l, op) => AskStep(s, c, e, l, op)
    case Using(l, u) => UseStep(s, c, e, l, u)
  }

  function UseStep(s: State, c: nat, e: Choice, l: nat, u: Use): State
    requires c in s.calls
  {
    if u.Held? then HeldStep(s, c, e, l, u.op)
    else if u.Return? then ReturnStep(s, c, l, u.after)
    else if Executing(u) then ExecuteStep(s, c, e, l, u)
    else if Paging(u) then PageStep(s, c, l, u)
    else if Marking(u) then MarkStep(s, c, l, u)
    else if Releasing(u) then ReleaseStep(s, c, l, u)
    else CleanupStep(s, c, e, l, u)
  }

  predicate Executing(u: Use) {
    u.ExecReady? || u.ExecDispatch? || u.ExecDone? || u.ExecRecord? || u.ExecConfirm? || u.ExecObserve?
  }

  predicate Paging(u: Use) {
    u.PageBound? || u.SetPage? || u.BindPage? || u.OwnPage?
  }

  predicate Marking(u: Use) {
    u.MarkLease? || u.MarkTask? || u.ClearLease? || u.ClearTask?
  }

  predicate Releasing(u: Use) {
    u.RelMark? || u.RelActive? || u.RelGate?
  }

  predicate Cleaning(u: Use) {
    !(u.Held? || u.Return? || Executing(u) || Paging(u) || Marking(u) || Releasing(u))
  }

  // ---- channels ----

  function TakeGate(s: State, c: nat, p: string, pc: Pc): State {
    var f := ProfileOf(s, p);
    if f.gate == 0 then s
    else Goto(WithProfile(s, p, f.(gate := f.gate - 1, holder := ByCall(c))), c, p, pc)
  }

  function SendGate(s: State, p: string): State {
    var f := ProfileOf(s, p);
    WithProfile(s, p, f.(gate := f.gate + 1, holder := InGate))
  }

  // ---- Acquire, Inspect and FinishTask, up to the point where a lease exists ----

  function QueueStep(s: State, c: nat, e: Choice, q: Queued): State
    requires c in s.calls
  {
    var p := s.calls[c].p;
    if !e.ok then End(s, c)
    else
      match q
      case AcqWait(task, wish, ref) => TakeGate(s, c, p, Run(AcqGot(task, wish, ref)))
      case InspWait(ref) => TakeGate(s, c, p, Run(InspGot(ref)))
      case FinWait(task, ref, retain) => TakeGate(s, c, p, Run(FinGot(task, ref, retain)))
  }

  function RunningStep(s: State, c: nat, e: Choice, r: Running): State
    requires c in s.calls
  {
    var p := s.calls[c].p;
    var f := ProfileOf(s, p);
    match r
    case AcqGot(_, _, _) => Goto(s, c, p, Run(AfterGate(f, e, r)))
    case AcqBind(task, _, ref, newPage, continuing, _) =>
      // driver.Bind, which makes a page if it is asked to
      var made := if newPage && !continuing && e.ok then {Creation(KeyOf(task), e.page, ref.server, ref.gen)} else {};
      Goto(s.(made := s.made + made), c, p, Run(AfterBind(e, r)))
    case AcqUnknown(ref) =>
      if ref.gen in f.stopped then Goto(s, c, p, Run(GateReturn))
      else WithProfile(End(s, c), p, f.(stranded := true, strandedGen := ref.gen, holder := Lost))
    case AcqPublish(task, _, ref, newPage) =>
      if !f.live || f.ref.gen != ref.gen then Goto(s, c, p, Run(GateReturn))
      else
        var key := KeyOf(task);
        var lease := Lease(p, ref, task, 1, false, key in s.unknown, false, None);
        var s := Lend(End(s, c), p, lease).(bindings := s.bindings[key := ref]);
        if newPage then Own(s, key, ref) else s
    case InspGot(ref) => Goto(s, c, p, Run(GateReturn))  // reads only, whatever it finds
    case FinGot(task, ref, retain) =>
      var lease := Lease(p, ref, task, 1, false, KeyOf(task) in s.unknown, true, None);
      Lend(Goto(s, c, p, Ask(s.next, Finish(retain, true))), p, lease)
    case GateReturn => SendGate(End(s, c), p)
  }

  /** A new lease takes over the gate token and becomes the profile's active one. */
  function Lend(s: State, p: string, lease: Lease): State {
    var f := ProfileOf(s, p);
    WithLease(WithProfile(s, p, f.(active := Some(s.next), holder := ByLease(s.next))), s.next, lease)
    .(next := s.next + 1)
  }

  /** Acquire after the gate: generation and chooser are checked in one section. */
  function AfterGate(f: Profile, e: Choice, r: Running): Running
    requires r.AcqGot?
  {
    if !e.ok || !f.live || f.ref.gen != r.ref.gen then GateReturn
    else
      var wish := r.wish;
      var page := if f.chooser.Some? && wish.useCurrent && wish.page == "" then f.chooser.value.ref.page else wish.page;
      var ref := r.ref.(page := page);
      if f.chooser.Some? && !Matches(f.chooser, ref, r.task.owner) then GateReturn
      else
        var newPage := ref.owns && !ref.ext && page == "" && !wish.reuse && !wish.requireExisting && !wish.useCurrent;
        AcqBind(r.task, wish, ref, newPage, f.chooser.Some?, wish.useCurrent && page == "")
  }

  /** Acquire after authorisation, inspection of the current page and bind. */
  function AfterBind(e: Choice, r: Running): Running
    requires r.AcqBind?
  {
    if !e.ok then if e.unknown && (r.inspect || !r.continuing) then AcqUnknown(r.ref) else GateReturn
    else
      var ref := if r.continuing then r.ref else r.ref.(page := e.page);
      if ref.page == "" then GateReturn else AcqPublish(r.task, r.wish, ref, r.newPage)
  }

  // ---- CloseSession and BeginReplacement ----

  function CloseAbort(s: State, c: nat, p: string, repl: bool): State {
    if repl then Goto(s, c, p, Replace(ReplEnd)) else End(s, c)
  }

  function CloseStep(s: State, c: nat, e: Choice, z: Closing, repl: bool): State
    requires c in s.calls
  {
    var p := s.calls[c].p;
    match z
    case CloseStop(gen, active) =>
      if !e.ok then CloseAbort(s, c, p, repl) else Goto(s, c, p, Close(CloseConfirm(gen, active), repl))
    case CloseConfirm(gen, active) =>
      Goto(s.(profiles := ConfirmIn(s.profiles, p, gen)), c, p,
           if active.Some? then Ask(active.value, Release(Drain(gen, repl))) else Close(CloseDrain(gen), repl))
    case CloseDrain(gen) =>
      if !e.ok then CloseAbort(s, c, p, repl)
      else if ProfileOf(s, p).gate == 0 then s
      else
        var s := TakeGate(s, c, p, Close(CloseDrained(gen), repl));
        var f := ProfileOf(s, p);
        if f.live && f.ref.gen == gen then s else WithProfile(s, p, f.(drained := f.drained + {gen}))
    case CloseDrained(gen) =>
      SendGate(if repl then Goto(s, c, p, Replace(ReplReady(gen))) else End(s, c), p)
  }

  function ReplaceStep(s: State, c: nat, e: Choice, y: Replacing): State
    requires c in s.calls
  {
    var p := s.calls[c].p;
    match y
    case ReplStart => CloseBegin(s, c, p, true)
    case ReplReady(gen) =>
      // finish: a session is registered only if the caller connected one for this profile
      Goto(if e.ok && e.ref.profile == p then s.(profiles := RegisterIn(s.profiles, e.ref)) else s,
           c, p, Replace(ReplEnd))
    case ReplEnd =>
      var f := ProfileOf(s, p);
      WithProfile(End(s, c), p, f.(transition := f.transition + 1, replacer := None))
  }

  // ---- the operation lock of a lease ----

  function AfterCancel(op: Op): After {
    match op
    case Finish(_, release) => FinishOver(release)
    case Release(after) => FailedRelease(after)
    case _ => Stop
  }

  /** A failed Release makes the enclosing CloseSession return its error. */
  function FailedRelease(after: After): After {
    if after.Drain? then Abort(after.repl) else Stop
  }

  function FinishOver(release: bool): After {
    if release then ReleaseNext else Stop
  }

  function Continue(s: State, c: nat, p: string, l: nat, after: After): State {
    match after
    case Stop => End(s, c)
    case ReleaseNext => Goto(s, c, p, Ask(l, Release(Stop)))
    case Drain(gen, repl) => Goto(s, c, p, Close(CloseDrain(gen), repl))
    case Abort(repl) => CloseAbort(s, c, p, repl)
  }

  function AskStep(s: State, c: nat, e: Choice, l: nat, op: Op): State
    requires c in s.calls
  {
    var p := s.calls[c].p;
    var v := LeaseOf(s, l);
    if !e.ok then Continue(s, c, p, l, AfterCancel(op))
    else if v.op == 0 then s
    else Goto(WithLease(s, l, v.(op := v.op - 1, worker := Some(c))), c, p, Using(l, Held(op)))
  }

  function ReturnStep(s: State, c: nat, l: nat, after: After): State
    requires c in s.calls
  {
    var v := LeaseOf(s, l);
    Continue(WithLease(s, l, v.(op := v.op + 1, worker := None)), c, s.calls[c].p, l, after)
  }

  predicate SessionOk(s: State, p: string, l: nat) {
    ProfileOf(s, p).live && ProfileOf(s, p).ref.gen == LeaseOf(s, l).ref.gen
  }

  /** The call goes on under the lease's token. Where it goes on to mark an outcome unknown, the
      outcome just became so. */
  function Proceed(s: State, c: nat, l: nat, u: Use): State
    requires c in s.calls
  {
    var t := Goto(s, c, s.calls[c].p, Using(l, u));
    if u.MarkLease? then t.(tainted := s.tainted + {LeaseKey(s, l)}) else t
  }

  /** The checks each operation makes first under the lease's token. */
  function HeldStep(s: State, c: nat, e: Choice, l: nat, op: Op): State
    requires c in s.calls
  {
    if op.Finish? && !LeaseOf(s, l).released && !Lists(e.ids, OwnedBy(s, LeaseKey(s, l)).Keys) then s
    else Proceed(s, c, l, HeldNext(s, s.calls[c].p, e, l, op))
  }

  function HeldNext(s: State, p: string, e: Choice, l: nat, op: Op): Use {
    var f := ProfileOf(s, p);
    var v := LeaseOf(s, l);
    var refused := v.released || !SessionOk(s, p, l);
    var pending := Matches(f.chooser, v.ref, v.task.owner);
    match op
    case Release(after) =>
      if v.released then Return(after)
      else if v.uncertain && v.ref.gen !in f.stopped && !e.ok then Return(FailedRelease(after))
      else RelMark(after)
    case Exec(action) =>
      if refused || v.uncertain || (pending && !IsUpload(action)) then Return(Stop) else ExecReady(action, pending)
    case Observe => if refused || pending || !e.unknown then Return(Stop) else MarkLease(Return(Stop))
    case Look => Return(Stop)  // Inspect on the task's own lease: reads only
    case Reconcile => if refused || !e.ok then Return(Stop) else ClearLease
    case Finish(retain, release) =>
      // The snapshot of the task's pages; `e.ids` lists it in any order.
      if v.released then Return(FinishOver(release))
      else FinSnapped(Cleanup(OwnedBy(s, KeyOf(v.task)), retain, v.ref.gen in f.stopped, e.ids, release))
  }

  predicate Lists(ids: seq<string>, keys: set<string>) {
    (set id | id in ids) == keys && forall i, j :: 0 <= i < j < |ids| ==> ids[i] != ids[j]
  }

  // ---- Execute ----

  function ExecuteStep(s: State, c: nat, e: Choice, l: nat, u: Use): State
    requires c in s.calls && Executing(u)
  {
    Proceed(ExecuteEffect(s, s.calls[c].p, e, l, u), c, l, ExecuteNext(s, s.calls[c].p, e, l, u))
  }

  function ExecuteEffect(s: State, p: string, e: Choice, l: nat, u: Use): State {
    var f := ProfileOf(s, p);
    if u.ExecRecord? then WithProfile(s, p, f.(chooser := Recorded(f.chooser, LeaseOf(s, l), u.answer)))
    else if u.ExecConfirm? then s.(profiles := ConfirmIn(s.profiles, p, LeaseOf(s, l).ref.gen))
    else if u.ExecReady? && u.action.NewPage? && e.ok then s.(made := s.made + {AsCreated(s, l, e.page)})
    else if u.ExecDispatch? && u.action == Mcp(Tabs(true)) && e.answer.observed.Some? then
      s.(made := s.made + {AsCreated(s, l, e.answer.observed.value)})
    else s
  }

  function ExecuteNext(s: State, p: string, e: Choice, l: nat, u: Use): Use
    requires Executing(u)
  {
    match u
    case ExecReady(action, pending) =>
      // authorisation, the observation bind unless a chooser is pending, and the page bind of
      // select_page and new_page
      if !e.ok then
        if e.unknown && !action.LoginReady? && (!pending || action.SelectPage? || action.NewPage?)
        then MarkLease(Return(Stop)) else Return(Stop)
      else if action == SelectPage("") then Return(Stop)
      else if action.SelectPage? || action.NewPage? then PageBound(e.page, action.NewPage?)
      else ExecDispatch(action, pending)
    case ExecDispatch(action, pending) =>
      // driver.Execute
      if e.answer.unknown && !action.LoginReady? then MarkLease(ExecDone(action, e.answer))
      else ExecDone(action, e.answer)
    case ExecDone(action, answer) =>
      if answer.failed || !SessionOk(s, p, l) then Return(Stop) else ExecRecord(action, answer)
    case ExecRecord(action, answer) =>
      if answer.pending then Return(Stop)
      else if action == Mcp(BrowserClose) then ExecConfirm
      else if answer.observed.Some? && action.Mcp? && action.tool.Tabs? then
        SetPage(answer.observed.value, action.tool.isNew)
      else ExecObserve(action)
    case ExecConfirm => Return(Stop)
    case ExecObserve(action) =>
      if e.unknown && !action.LoginReady? then MarkLease(Return(Stop)) else Return(Stop)
  }

  /** The chooser after an action was answered. */
  function Recorded(chooser: Option<Chooser>, v: Lease, answer: Answer): Option<Chooser> {
    if answer.pending then Some(Chooser(v.ref, v.task.owner, KeyOf(v.task)))
    else if Matches(chooser, v.ref, v.task.owner) then None
    else chooser
  }

  function PageStep(s: State, c: nat, l: nat, u: Use): State
    requires c in s.calls && Paging(u)
  {
    Proceed(PageEffect(s, l, u), c, l, PageNext(s, s.calls[c].p, l, u))
  }

  function PageEffect(s: State, l: nat, u: Use): State {
    var v := LeaseOf(s, l);
    if u.SetPage? then WithLease(s, l, v.(ref := v.ref.(page := u.page)))
    else if u.BindPage? then s.(bindings := s.bindings[KeyOf(v.task) := u.ref])
    else if u.OwnPage? then Own(s, KeyOf(v.task), v.ref)
    else s
  }

  function PageNext(s: State, p: string, l: nat, u: Use): Use
    requires Paging(u)
  {
    match u
    case PageBound(page, own) => if SessionOk(s, p, l) then SetPage(page, own) else Return(Stop)
    case SetPage(page, own) => BindPage(LeaseOf(s, l).ref.(page := page), own)
    case BindPage(_, own) => if own then OwnPage else Return(Stop)
    case OwnPage => Return(Stop)
  }

  /** markUnknown in its two sections, and the two sections that end a reconciliation. */
  function MarkStep(s: State, c: nat, l: nat, u: Use): State
    requires c in s.calls && Marking(u)
  {
    Proceed(MarkEffect(s, l, u), c, l, MarkNext(u))
  }

  function MarkEffect(s: State, l: nat, u: Use): State
    requires Marking(u)
  {
    var v := LeaseOf(s, l);
    var key := KeyOf(v.task);
    match u
    case MarkLease(_) => WithLease(s, l, v.(uncertain := true))
    case MarkTask(_) => s.(unknown := s.unknown + {key})
    case ClearLease => WithLease(s, l, v.(uncertain := false)).(tainted := s.tainted - {key})
    case ClearTask => s.(unknown := s.unknown - {key})
  }

  function MarkNext(u: Use): Use
    requires Marking(u)
  {
    match u
    case MarkLease(next) => MarkTask(next)
    case MarkTask(next) => next
    case ClearLease => ClearTask
    case ClearTask => Return(Stop)
  }

  // ---- FinishTask under the operation lock ----

  /** The chooser is the task's own, on a page that this cleanup is to close. */
  predicate OwnChooser(work: Cleanup, chosen: Chooser, task: Task) {
    var id := chosen.ref.page;
    id in work.owned && id !in work.retain && chosen.taskKey == KeyOf(task)
    && Matches(Some(chosen), work.owned[id], task.owner)
  }

  function CleanupStep(s: State, c: nat, e: Choice, l: nat, u: Use): State
    requires c in s.calls && Cleaning(u)
  {
    Proceed(CleanupEffect(s, s.calls[c].p, e, l, u), c, l, CleanupNext(s, s.calls[c].p, e, l, u))
  }

  function CleanupEffect(s: State, p: string, e: Choice, l: nat, u: Use): State {
    var f := ProfileOf(s, p);
    if u.FinClear? then WithProfile(s, p, f.(chooser := if f.chooser == Some(u.chosen) then None else f.chooser))
    else if u.FinDrop? && u.work.ids != [] then s.(owned := Disown(s.owned, LeaseKey(s, l), u.work.ids[0]))
    else if u.FinClose? && u.work.ids != [] && e.ok then
      s.(closed := s.closed + {AsCreated(s, l, u.work.ids[0])})
    else if u.FinEnd? then Forget(s, LeaseKey(s, l))
    else s
  }

  /** A page as the task of a lease would have recorded it on the lease's server and generation. */
  function AsCreated(s: State, l: nat, page: string): Creation {
    var v := LeaseOf(s, l);
    Creation(KeyOf(v.task), page, v.ref.server, v.ref.gen)
  }

  function CleanupNext(s: State, p: string, e: Choice, l: nat, u: Use): Use
    requires Cleaning(u)
  {
    var f := ProfileOf(s, p);
    var v := LeaseOf(s, l);
    match u
    case FinSnapped(work) =>
      if v.uncertain && !work.stopped then Return(FinishOver(work.release))
      else if !NeedsClose(work, v.ref) || f.chooser.None? then FinLoop(work)
      else if !OwnChooser(work, f.chooser.value, v.task) then Return(FinishOver(work.release))
      else FinCancel(work, f.chooser.value)
    case FinCancel(work, chosen) =>
      // checkSession and authorisation, then driver.Execute of an upload without paths
      if !SessionOk(s, p, l) || !e.ok then Return(FinishOver(work.release))
      else if e.answer.unknown || (e.answer.failed && e.unknown) then MarkLease(Return(FinishOver(work.release)))
      else if e.answer.failed || e.answer.pending then Return(FinishOver(work.release))
      else FinClear(work, chosen)
    case FinClear(work, _) => FinLoop(work)
    case FinLoop(work) =>
      if work.ids == [] then FinEnd(work.release)
      else if !Closable(work, v.ref, work.ids[0]) then FinDrop(work)
      else if !SessionOk(s, p, l) || !e.ok then Return(FinishOver(work.release))
      else FinClose(work)
    case FinClose(work) =>
      // driver.ClosePage of the first page
      if e.ok then FinDrop(work)
      else if e.unknown then MarkLease(Return(FinishOver(work.release)))
      else Return(FinishOver(work.release))
    case FinDrop(work) => FinLoop(if work.ids == [] then work else work.(ids := work.ids[1..]))
    case FinEnd(release) => Return(FinishOver(release))
  }

  // ---- Release ----

  function ReleaseStep(s: State, c: nat, l: nat, u: Use): State
    requires c in s.calls && Releasing(u)
  {
    var p := s.calls[c].p;
    var f := ProfileOf(s, p);
    match u
    case RelMark(after) =>
      Goto(WithProfile(WithLease(s, l, LeaseOf(s, l).(released := true)), p, f.(holder := ByCall(c))),
           c, p, Using(l, RelActive(after)))
    case RelActive(after) =>
      Goto(WithProfile(s, p, f.(active := if f.active == Some(l) then None else f.active)),
           c, p, Using(l, RelGate(after)))
    case RelGate(after) => SendGate(Goto(s, c, p, Using(l, Return(after))), p)
  }
}
