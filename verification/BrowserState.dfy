/** The shared state of the browser lease coordinator, and the effects of its critical sections.

    One value of `State` is everything the coordinator, its profiles and its leases hold at an instant,
    together with every public call that is in flight. A channel of capacity one is the number of
    tokens buffered in it. Fields marked "history" are written by steps and never read by them. */
module BrowserState {
  import opened Wrappers

  /** Generations are 64-bit in the source and wrap. */
  const MODULUS: nat := 0x1_0000_0000_0000_0000

  type Generation = g: nat | g < MODULUS

  /** The key under which a task's bindings, pages and unknown outcomes are filed. */
  type Key = string

  datatype Task = Task(owner: string, id: string)

  function KeyOf(task: Task): Key {
    task.owner + ['\0'] + task.id
  }

  datatype Ref = Ref(id: string, server: string, profile: string, page: string,
                     gen: Generation, owns: bool, ext: bool)

  const EMPTY_REF := Ref("", "", "", "", 0, false, false)

  datatype Chooser = Chooser(ref: Ref, owner: string, taskKey: Key)

  /** Who may run on a profile: the gate still has its token, one call or one unreleased lease has
      taken it, or it was lost to a bind of unknown outcome. */
  datatype Holder = InGate | ByCall(call: nat) | ByLease(lease: nat) | Lost

  datatype Profile = Profile(
    ref: Ref,
    gate: nat,
    live: bool,
    stopped: set<Generation>,
    active: Option<nat>,
    stranded: bool,
    strandedGen: Generation,
    transition: nat,
    chooser: Option<Chooser>,
    holder: Holder,                // history: who took the gate token
    replacer: Option<nat>,         // history: the call that took the transition token
    published: set<Generation>,    // history: generations that were made live
    drained: set<Generation>)      // history: generations, not live, whose gate a stop has emptied

  datatype Lease = Lease(
    profile: string,
    ref: Ref,
    task: Task,
    op: nat,
    released: bool,
    uncertain: bool,
    cleanup: bool,                 // made by FinishTask, so that no caller ever gets hold of it
    worker: Option<nat>)           // history: the call that took the operation token

  datatype Tool = FileUpload | BrowserClose | Tabs(isNew: bool) | OtherTool

  datatype Action = Upload | Mcp(tool: Tool) | SelectPage(page: string) | NewPage | LoginReady | OtherAction

  predicate IsUpload(a: Action) {
    a == Upload || a == Mcp(FileUpload)
  }

  /** What the driver answered to an action. */
  datatype Answer = Answer(unknown: bool, failed: bool, pending: bool, observed: Option<string>)

  /** What a call does after giving an operation token back. */
  datatype After = Stop | ReleaseNext | Drain(gen: Generation, repl: bool) | Abort(repl: bool)

  datatype Op =
    | Exec(action: Action)
    | Observe
    | Look
    | Reconcile
    | Finish(retain: set<string>, release: bool)
    | Release(after: After)

  /** The work list of one FinishTask: the pages seen at its snapshot and those still to be treated. */
  datatype Cleanup = Cleanup(owned: map<string, Ref>, retain: set<string>, stopped: bool,
                             ids: seq<string>, release: bool)

  /** What an Acquire asks for: a page by name, the page the browser shows, a session the user opened, or the
      page the task is bound to. */
  datatype Wish = Wish(page: string, useCurrent: bool, requireExisting: bool, reuse: bool)

  /** A call queueing for the gate of a profile; it holds nothing. */
  datatype Queued =
    | AcqWait(task: Task, wish: Wish, ref: Ref)
    | InspWait(ref: Ref)
    | FinWait(task: Task, ref: Ref, retain: set<string>)

  /** A call that has taken the gate token of its profile and not yet given it to anyone. */
  datatype Running =
    | AcqGot(task: Task, wish: Wish, ref: Ref)
    | AcqBind(task: Task, wish: Wish, ref: Ref, newPage: bool, continuing: bool, inspect: bool)
    | AcqUnknown(ref: Ref)
    | AcqPublish(task: Task, wish: Wish, ref: Ref, newPage: bool)
    | InspGot(ref: Ref)
    | FinGot(task: Task, ref: Ref, retain: set<string>)
    | GateReturn

  /** CloseSession; it has taken the gate token only at `CloseDrained`. */
  datatype Closing =
    | CloseStop(gen: Generation, active: Option<nat>)
    | CloseConfirm(gen: Generation, active: Option<nat>)
    | CloseDrain(gen: Generation)
    | CloseDrained(gen: Generation)

  /** BeginReplacement outside its CloseSession; it holds the transition token. */
  datatype Replacing = ReplStart | ReplReady(gen: Generation) | ReplEnd

  /** An operation that has taken the operation token of its lease. */
  datatype Use =
    | Held(op: Op)
    | Return(after: After)
    | ExecReady(action: Action, pending: bool)
    | ExecDispatch(action: Action, pending: bool)
    | ExecDone(action: Action, answer: Answer)
    | ExecRecord(action: Action, answer: Answer)
    | ExecConfirm
    | ExecObserve(action: Action)
    | PageBound(page: string, own: bool)
    | SetPage(page: string, own: bool)
    | BindPage(ref: Ref, own: bool)
    | OwnPage
    | MarkLease(next: Use)
    | MarkTask(next: Use)
    | ClearLease
    | ClearTask
    | FinSnapped(work: Cleanup)
    | FinCancel(work: Cleanup, chosen: Chooser)
    | FinClear(work: Cleanup, chosen: Chooser)
    | FinLoop(work: Cleanup)
    | FinClose(work: Cleanup)
    | FinDrop(work: Cleanup)
    | FinEnd(release: bool)
    | RelMark(after: After)
    | RelActive(after: After)
    | RelGate(after: After)

  /** Where an in-flight call stands, between two atomic sections. */
  datatype Pc =
    | Queue(q: Queued)
    | Run(r: Running)
    | Close(z: Closing, repl: bool)
    | Replace(y: Replacing)
    | Ask(l: nat, op: Op)        // waiting for the operation token of a lease
    | Using(l: nat, u: Use)

  datatype Call = Call(p: string, pc: Pc)

  /** A page recorded as created by a task, with the server and generation it was created on. */
  datatype Creation = Creation(key: Key, page: string, server: string, gen: Generation)

  datatype State = State(
    profiles: map<string, Profile>,
    bindings: map<Key, Ref>,
    owned: map<Key, map<string, Ref>>,
    unknown: set<Key>,
    leases: map<nat, Lease>,
    calls: map<nat, Call>,
    next: nat,
    made: set<Creation>,           // history: every page the driver made because a task asked it to
    created: set<Creation>,        // history: every page ownership ever recorded
    closed: set<Creation>,         // history: those closed with the driver's word and not recorded again since
    tainted: set<Key>)             // history: tasks with an unknown outcome not yet reconciled or removed

  const INITIAL := State(map[], map[], map[], {}, map[], map[], 0, {}, {}, {}, {})

  // ---- lookups and updates ----

  /** A profile as first registered: both channels hold their token and nothing is live. */
  function FreshProfile(ref: Ref): Profile {
    Profile(ref, 1, false, {}, None, false, 0, 1, None, InGate, None, {}, {})
  }

  function ProfileOf(s: State, p: string): Profile {
    if p in s.profiles then s.profiles[p] else FreshProfile(EMPTY_REF)
  }

  function LeaseOf(s: State, l: nat): Lease {
    if l in s.leases then s.leases[l] else Lease("", EMPTY_REF, Task("", ""), 0, true, false, false, None)
  }

  function LeaseKey(s: State, l: nat): Key {
    KeyOf(LeaseOf(s, l).task)
  }

  function OwnedBy(s: State, key: Key): map<string, Ref> {
    if key in s.owned then s.owned[key] else map[]
  }

  function Goto(s: State, c: nat, p: string, pc: Pc): State {
    s.(calls := s.calls[c := Call(p, pc)])
  }

  function End(s: State, c: nat): State {
    s.(calls := s.calls - {c})
  }

  function WithProfile(s: State, p: string, f: Profile): State {
    s.(profiles := s.profiles[p := f])
  }

  function WithLease(s: State, l: nat, v: Lease): State {
    s.(leases := s.leases[l := v])
  }

  // ---- critical sections shared by several calls ----

  predicate Matches(chooser: Option<Chooser>, ref: Ref, owner: string) {
    chooser.Some? && chooser.value.owner == owner && chooser.value.ref.profile == ref.profile
    && chooser.value.ref.server == ref.server && chooser.value.ref.gen == ref.gen
    && chooser.value.ref.page == ref.page
  }

  /** The next generation: what was asked for if it is larger, otherwise the successor, which wraps. */
  function NextGeneration(current: Generation, asked: Generation): Generation {
    if asked <= current then (current + 1) % MODULUS else asked
  }

  predicate ServerTaken(profiles: map<string, Profile>, ref: Ref) {
    exists p :: p in profiles && p != ref.profile && profiles[p].live && profiles[p].ref.server == ref.server
  }

  predicate Identified(ref: Ref) {
    ref.server != "" && ref.profile != "" && ref.id != ""
  }

  datatype Registration = Registered | AlreadyRegistered | MissingIdentity | ServerBusy | StillLive | OtherServer

  function RegisterOutcome(profiles: map<string, Profile>, ref: Ref): Registration {
    if !Identified(ref) then MissingIdentity
    else if ServerTaken(profiles, ref) then ServerBusy
    else if ref.profile in profiles && profiles[ref.profile].live then
      if profiles[ref.profile].ref == ref then AlreadyRegistered else StillLive
    else Registered
  }

  function RegisterIn(profiles: map<string, Profile>, ref: Ref): map<string, Profile> {
    if RegisterOutcome(profiles, ref) != Registered then profiles
    else
      var f := if ref.profile in profiles then profiles[ref.profile] else FreshProfile(EMPTY_REF);
      var next := ref.(gen := NextGeneration(f.ref.gen, ref.gen));
      profiles[ref.profile := f.(ref := next, live := true, chooser := None,
                                 published := f.published + {next.gen}, drained := f.drained - {next.gen})]
  }

  function PrepareIn(profiles: map<string, Profile>, ref: Ref): map<string, Profile> {
    if !Identified(ref) || ref.profile in profiles then profiles
    else profiles[ref.profile := FreshProfile(ref)]
  }

  function Confirmed(f: Profile, gen: Generation): Profile {
    var f := f.(stopped := f.stopped + {gen});
    var f := if f.chooser.Some? && f.chooser.value.ref.gen == gen then f.(chooser := None) else f;
    var f := if f.ref.gen == gen then f.(live := false) else f;
    if f.stranded && f.strandedGen == gen then f.(stranded := false, gate := f.gate + 1, holder := InGate) else f
  }

  function ConfirmIn(profiles: map<string, Profile>, p: string, gen: Generation): map<string, Profile> {
    if p in profiles then profiles[p := Confirmed(profiles[p], gen)] else profiles
  }

  /** ownPageLocked: the page of a reference becomes the task's own. */
  function Own(s: State, key: Key, ref: Ref): State {
    s.(owned := s.owned[key := OwnedBy(s, key)[ref.page := ref]],
       created := s.created + {Creation(key, ref.page, ref.server, ref.gen)},
       closed := s.closed - {Creation(key, ref.page, ref.server, ref.gen)})
  }

  function Disown(owned: map<Key, map<string, Ref>>, key: Key, page: string): map<Key, map<string, Ref>> {
    if key in owned then owned[key := owned[key] - {page}] else owned
  }

  /** The task is removed: its binding, its pages and its unknown outcome. */
  function Forget(s: State, key: Key): State {
    s.(bindings := s.bindings - {key}, owned := s.owned - {key},
       unknown := s.unknown - {key}, tainted := s.tainted - {key})
  }

  /** Whether FinishTask closes a page of its snapshot; the others it only stops owning. */
  predicate Closable(work: Cleanup, ref: Ref, id: string) {
    id in work.owned && id !in work.retain && !work.stopped
    && work.owned[id].gen == ref.gen && work.owned[id].server == ref.server
  }

  predicate NeedsClose(work: Cleanup, ref: Ref) {
    exists i :: 0 <= i < |work.ids| && Closable(work, ref, work.ids[i])
  }
}
