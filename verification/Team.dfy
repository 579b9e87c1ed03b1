/** Teams of agents: what each mode of running returns, on every way out, and what it adds up to. */
module Team {
  import opened Wrappers

  datatype Usage = Usage(prompt: int, completion: int, total: int, cacheCreation: int, cacheRead: int)

  function Plus(a: Usage, b: Usage): Usage {
    Usage(a.prompt + b.prompt, a.completion + b.completion, a.total + b.total,
          a.cacheCreation + b.cacheCreation, a.cacheRead + b.cacheRead)
  }

  const NO_USAGE := Usage(0, 0, 0, 0, 0)

  /** Metadata by what the modes read from it: whether it says done. */
  datatype Meta = Meta(text: string, done: bool)
  const NO_META := Meta("", false)

  /** What a tool gave out: a child run, a result kept in a store, or anything else. */
  datatype Value = Plain(text: string) | Run(id: string, child: Child) | Kept(result: ToolResult)
  datatype ToolResult = ToolResult(success: bool, error: string, output: Value)
  datatype Record = Record(name: string, arguments: string, result: ToolResult)

  datatype Output = Output(content: string, calls: seq<Record>, blocks: seq<string>, usage: Usage, stop: string,
                           meta: Meta, children: seq<Child>)
  datatype Child = Child(agent: string, status: string, output: Output, error: string)

  const NO_OUTPUT := Output("", [], [], NO_USAGE, "", NO_META, [])

  // ---- what adds up ----

  ghost function UsageOf(children: seq<Child>): Usage {
    if children == [] then NO_USAGE
    else Plus(UsageOf(children[..|children| - 1]), children[|children| - 1].output.usage)
  }

  ghost function CallsOf(children: seq<Child>): seq<Record> {
    if children == [] then [] else CallsOf(children[..|children| - 1]) + children[|children| - 1].output.calls
  }

  ghost function BlocksOf(children: seq<Child>): seq<string> {
    if children == [] then [] else BlocksOf(children[..|children| - 1]) + children[|children| - 1].output.blocks
  }

  /** The last content that is not empty. */
  ghost function ContentOf(children: seq<Child>): string {
    if children == [] then ""
    else
      var last := children[|children| - 1].output.content;
      if last != "" then last else ContentOf(children[..|children| - 1])
  }

  lemma {:induction false} ContentMeans(children: seq<Child>)
    ensures if forall i :: 0 <= i < |children| ==> children[i].output.content == "" then ContentOf(children) == ""
            else exists i :: 0 <= i < |children| && children[i].output.content == ContentOf(children) != ""
                             && forall j :: i < j < |children| ==> children[j].output.content == ""
  {
    if children != [] {
      var n := |children| - 1;
      ContentMeans(children[..n]);
      if children[n].output.content == "" && ContentOf(children[..n]) != "" {
        var i :| 0 <= i < n && children[..n][i].output.content == ContentOf(children[..n])
                 && forall j :: i < j < n ==> children[..n][j].output.content == "";
        assert children[i].output.content == ContentOf(children);
        forall j | i < j < |children| ensures children[j].output.content == "" {
          assert j < n ==> children[j] == children[..n][j];
        }
      } else if children[n].output.content == "" {
        assert forall i :: 0 <= i < n ==> children[i] == children[..n][i];
      }
    }
  }

  /** The team's output in terms of its children alone. */
  ghost predicate Accounts(out: Output) {
    && out.usage == UsageOf(out.children) && out.calls == CallsOf(out.children) && out.blocks == BlocksOf(out.children)
    && out.content == ContentOf(out.children)
    && out.stop == (if out.children == [] then "" else out.children[|out.children| - 1].output.stop)
    && out.meta == (if out.children == [] then NO_META else out.children[|out.children| - 1].output.meta)
  }

  method AppendTeamChild(out: Output, child: Child) returns (r: Output)
    ensures r.children == out.children + [child]
    ensures Accounts(out) ==> Accounts(r)
  {
    var o := child.output;
    r := out.(children := out.children + [child], calls := out.calls + o.calls, blocks := out.blocks + o.blocks,
              usage := Plus(out.usage, o.usage), content := if o.content != "" then o.content else out.content,
              stop := o.stop, meta := o.meta);
    assert r.children[..|out.children|] == out.children;
  }

  // ---- what the agents do ----

  /** What an agent is told besides the question: metadata as it came, the manager's guidance, or which
      member spoke last in which round. */
  datatype Context = Passed(meta: Meta) | Guidance(text: string) | Spoke(round: nat, member: nat)
  datatype Input = Input(query: string, context: Context)

  /** Where a task stands in the team's work. */
  datatype Position = Sequential(i: nat) | Plan | Guided(i: nat) | Summary | Member(i: nat) | Turn(round: nat, i: nat)

  /** A task's outcome; a control error stops the team, a plain one only counts as a failure. */
  datatype Trouble = Fine | Failed | Control
  datatype Reply = Reply(child: Child, trouble: Trouble)

  type Agents = (Position, Input) -> Reply

  datatype Result = Result(out: Output, ok: bool)

  /** The context was not done when any of the first k was about to start. */
  ghost predicate Uninterrupted(cancelled: nat -> bool, k: int) {
    forall i :: 0 <= i < k ==> !cancelled(i)
  }

  // ---- one after the other ----

  function SequentialInput(agents: Agents, input: Input, i: nat): Input {
    if i == 0 then input
    else
      var o := agents(Sequential(i - 1), SequentialInput(agents, input, i - 1)).child.output;
      Input(o.content, Passed(o.meta))
  }

  function SequentialReply(agents: Agents, input: Input, i: nat): Reply {
    agents(Sequential(i), SequentialInput(agents, input, i))
  }

  /** The children are the first members' answers, each asked with what the one before said, and all but
      the last were fine. */
  ghost predicate InSequence(agents: Agents, input: Input, children: seq<Child>) {
    && (forall i :: 0 <= i < |children| ==> children[i] == SequentialReply(agents, input, i).child)
    && (forall i :: 0 <= i < |children| - 1 ==> SequentialReply(agents, input, i).trouble == Fine)
  }

  /** Member i is next, and is asked `current`. */
  ghost predicate InOrder(agents: Agents, input: Input, i: nat, out: Output, current: Input) {
    && Accounts(out) && |out.children| == i && current == SequentialInput(agents, input, i)
    && InSequence(agents, input, out.children)
    && (i > 0 ==> SequentialReply(agents, input, i - 1).trouble == Fine)
  }

  lemma NextInOrder(agents: Agents, input: Input, i: nat, out: Output, current: Input, after: Output)
    requires InOrder(agents, input, i, out, current)
    requires Accounts(after) && after.children == out.children + [agents(Sequential(i), current).child]
    ensures var reply := agents(Sequential(i), current);
            && reply == SequentialReply(agents, input, i) && InSequence(agents, input, after.children)
            && (reply.trouble == Fine ==>
                  InOrder(agents, input, i + 1, after,
                          Input(reply.child.output.content, Passed(reply.child.output.meta))))
  {
  }

  /** Member i is asked and reported. */
  method RunNext(i: nat, agents: Agents, input: Input, out0: Output, current0: Input)
    returns (out: Output, current: Input, fine: bool)
    requires InOrder(agents, input, i, out0, current0)
    ensures fine <==> SequentialReply(agents, input, i).trouble == Fine
    ensures Accounts(out) && |out.children| == i + 1 && InSequence(agents, input, out.children)
    ensures fine ==> InOrder(agents, input, i + 1, out, current)
  {
    var reply := agents(Sequential(i), current0);
    out := AppendTeamChild(out0, reply.child);
    NextInOrder(agents, input, i, out0, current0, out);
    fine := reply.trouble == Fine;
    current := Input(reply.child.output.content, Passed(reply.child.output.meta));
  }

  /** `cancelled(i)` says whether the context is done when member i is about to start. */
  method RunSequential(n: nat, agents: Agents, input: Input, cancelled: nat -> bool) returns (r: Result)
    ensures Accounts(r.out) && |r.out.children| <= n && InSequence(agents, input, r.out.children)
    ensures var k := |r.out.children|;
            r.ok <==> k == n > 0 && SequentialReply(agents, input, k - 1).trouble == Fine
    ensures var k := |r.out.children|;
            !r.ok && n > 0 ==>
              (k > 0 && SequentialReply(agents, input, k - 1).trouble != Fine) || (k < n && cancelled(k))
    ensures Uninterrupted(cancelled, |r.out.children|)
  {
    if n == 0 {
      return Result(NO_OUTPUT, false);
    }
    var current := input;
    var out := NO_OUTPUT;
    for i := 0 to n
      invariant InOrder(agents, input, i, out, current) && Uninterrupted(cancelled, i)
    {
      if cancelled(i) {
        return Result(out, false);
      }
      var fine;
      out, current, fine := RunNext(i, agents, input, out, current);
      if !fine {
        return Result(out, false);
      }
    }
    return Result(out, true);
  }

  // ---- under a manager ----

  function GuidedReply(agents: Agents, query: string, plan: Child, i: nat): Reply {
    agents(Guided(i), Input(query, Guidance(plan.output.content)))
  }

  /** After the manager's plan, the first members' answers, none but the last with a control error. */
  ghost predicate UnderManager(agents: Agents, query: string, children: seq<Child>) {
    && children != []
    && (forall i :: 0 <= i < |children| - 1 ==> children[i + 1] == GuidedReply(agents, query, children[0], i).child)
    && (forall i :: 0 <= i < |children| - 2 ==> GuidedReply(agents, query, children[0], i).trouble != Control)
  }

  ghost predicate AllFine(agents: Agents, query: string, plan: Child, n: nat) {
    forall i :: 0 <= i < n ==> GuidedReply(agents, query, plan, i).trouble == Fine
  }

  ghost predicate SomeFine(agents: Agents, query: string, plan: Child, n: nat) {
    exists i :: 0 <= i < n && GuidedReply(agents, query, plan, i).trouble == Fine
  }

  /** Members up to i have been asked, and none had a control error. */
  ghost predicate AtMember(agents: Agents, query: string, first: Child, i: nat, out: Output, failures: nat,
                           successes: nat) {
    && Accounts(out) && |out.children| == i + 1 && out.children[0] == first && failures + successes == i
    && UnderManager(agents, query, out.children)
    && (i > 0 ==> GuidedReply(agents, query, first, i - 1).trouble != Control)
    && (failures == 0 <==> AllFine(agents, query, first, i))
    && (successes > 0 <==> SomeFine(agents, query, first, i))
  }

  lemma MoreMembers(agents: Agents, query: string, first: Child, i: nat, out: Output, failures: nat, successes: nat,
                    after: Output)
    requires AtMember(agents, query, first, i, out, failures, successes)
    requires Accounts(after) && after.children == out.children + [GuidedReply(agents, query, first, i).child]
    ensures UnderManager(agents, query, after.children)
    ensures var reply := GuidedReply(agents, query, first, i);
            reply.trouble != Control ==>
              if reply.trouble == Fine then AtMember(agents, query, first, i + 1, after, failures, successes + 1)
              else AtMember(agents, query, first, i + 1, after, failures + 1, successes)
  {
  }

  /** Member i is asked and reported. */
  method RunMember(i: nat, agents: Agents, query: string, plan: Child, out0: Output, failures0: nat, successes0: nat)
    returns (out: Output, failures: nat, successes: nat, stop: bool)
    requires AtMember(agents, query, plan, i, out0, failures0, successes0)
    ensures stop <==> GuidedReply(agents, query, plan, i).trouble == Control
    ensures Accounts(out) && |out.children| == i + 2 && out.children[0] == plan
    ensures UnderManager(agents, query, out.children)
    ensures !stop ==> AtMember(agents, query, plan, i + 1, out, failures, successes)
  {
    var reply := GuidedReply(agents, query, plan, i);
    failures, successes := failures0, successes0;
    out := AppendTeamChild(out0, reply.child);
    MoreMembers(agents, query, plan, i, out0, failures0, successes0, out);
    if reply.trouble == Fine {
      successes := successes + 1;
    } else {
      failures := failures + 1;
    }
    stop := reply.trouble == Control;
  }

  /** The members' part. It is complete unless the context ended or a member had a control error. No member
      starts once the context has ended. */
  method RunMembers(n: nat, agents: Agents, query: string, plan: Output, cancelled: nat -> bool)
    returns (out: Output, complete: bool, failures: nat, successes: nat)
    requires Accounts(plan) && |plan.children| == 1
    ensures Accounts(out) && |out.children| <= n + 1 && UnderManager(agents, query, out.children)
    ensures out.children[0] == plan.children[0]
    ensures complete <==>
              && |out.children| == n + 1
              && (n > 0 ==> GuidedReply(agents, query, plan.children[0], n - 1).trouble != Control)
    ensures var k := |out.children| - 1;
            !complete ==>
              || (k > 0 && GuidedReply(agents, query, plan.children[0], k - 1).trouble == Control)
              || (k < n && cancelled(k))
    ensures Uninterrupted(cancelled, |out.children| - 1)
    ensures complete ==> (failures == 0 <==> AllFine(agents, query, plan.children[0], n))
    ensures complete ==> (successes > 0 <==> SomeFine(agents, query, plan.children[0], n)) && failures + successes == n
  {
    out, failures, successes := plan, 0, 0;
    for i := 0 to n
      invariant AtMember(agents, query, plan.children[0], i, out, failures, successes) && Uninterrupted(cancelled, i)
    {
      if cancelled(i) {
        return out, false, failures, successes;
      }
      var stop;
      out, failures, successes, stop := RunMember(i, agents, query, plan.children[0], out, failures, successes);
      if stop {
        return out, false, failures, successes;
      }
    }
    complete := true;
  }

  /** The manager plans, the members work, and unless the work stopped or every member failed the manager
      sums up. `report` is what the manager is then asked. */
  method RunHierarchical(n: nat, agents: Agents, input: Input, plan: Input, report: seq<Child> -> Input,
                         cancelled: nat -> bool)
    returns (r: Result)
    ensures Accounts(r.out) && (n == 0 <==> r.out.children == [])
    ensures n > 0 ==> r.out.children[0] == agents(Plan, plan).child
    ensures 0 < |r.out.children| <= n + 1 ==> UnderManager(agents, input.query, r.out.children)
    ensures |r.out.children| > n + 1 ==> Summed(n, agents, input.query, r.out.children, report)
    ensures |r.out.children| > 1 ==> agents(Plan, plan).trouble == Fine
    ensures Uninterrupted(cancelled, if |r.out.children| <= n then |r.out.children| - 1 else n)
    ensures n > 0 && agents(Plan, plan).trouble == Fine && |r.out.children| < n + 2 ==>
              CutShort(n, agents, input.query, r.out.children, cancelled)
    ensures r.ok <==> (|r.out.children| == n + 2 && AllFine(agents, input.query, r.out.children[0], n)
                       && agents(Summary, report(r.out.children[..n + 1])).trouble == Fine)
  {
    if n == 0 {
      return Result(NO_OUTPUT, false);
    }
    var manager := agents(Plan, plan);
    var out := AppendTeamChild(NO_OUTPUT, manager.child);
    assert out.children == [manager.child];
    if manager.trouble != Fine {
      return Result(out, false);
    }
    var complete, failures, successes;
    out, complete, failures, successes := RunMembers(n, agents, input.query, out, cancelled);
    if !complete || (successes == 0 && failures > 0) {
      return Result(out, false);
    }
    ghost var before := out.children;
    var summary := agents(Summary, report(out.children));
    out := AppendTeamChild(out, summary.child);
    assert out.children[..n + 1] == before;
    return Result(out, failures == 0 && summary.trouble == Fine);
  }

  /** Why the manager is not asked to sum up: the context ended or a member had a control error before all
      were asked, or the last one had a control error, or none was fine. */
  ghost predicate CutShort(n: nat, agents: Agents, query: string, children: seq<Child>, cancelled: nat -> bool)
    requires children != []
  {
    var k := |children| - 1;
    || (k > 0 && GuidedReply(agents, query, children[0], k - 1).trouble == Control)
    || (if k < n then cancelled(k) else !SomeFine(agents, query, children[0], n))
  }

  ghost predicate Summed(n: nat, agents: Agents, query: string, children: seq<Child>, report: seq<Child> -> Input) {
    && |children| == n + 2
    && UnderManager(agents, query, children[..n + 1])
    && (n > 0 ==> GuidedReply(agents, query, children[0], n - 1).trouble != Control)
    && SomeFine(agents, query, children[0], n)
    && children[n + 1] == agents(Summary, report(children[..n + 1])).child
  }

  // ---- all at once ----

  datatype Arrival = Arrival(output: Output, error: Option<string>, waiting: bool)

  /** What the team reports of one member, from whether and how it came back. */
  ghost function Report(name: string, came: Option<Arrival>): Child {
    match came
    case None => Child(name, "cancel_requested", NO_OUTPUT, "context done")
    case Some(a) =>
      match a.error
      case None => Child(name, "returned", a.output, "")
      case Some(e) => Child(name, if a.waiting then "waiting" else "failed", a.output, e)
  }

  const NOTHING := Arrival(NO_OUTPUT, None, false)

  /** The answers that came in, put in the members' order. */
  method Collect(n: nat, answers: seq<Arrival>, arrivals: seq<nat>) returns (ordered: seq<Arrival>, received: seq<bool>)
    requires |answers| == n && forall k :: 0 <= k < |arrivals| ==> arrivals[k] < n
    ensures |ordered| == |received| == n
    ensures forall i :: 0 <= i < n ==> (received[i] <==> i in arrivals)
    ensures forall i :: 0 <= i < n ==> ordered[i] == if received[i] then answers[i] else NOTHING
  {
    ordered, received := seq(n, i => NOTHING), seq(n, i => false);
    for k := 0 to |arrivals|
      invariant |ordered| == |received| == n
      invariant forall i :: 0 <= i < n ==> (received[i] <==> i in arrivals[..k])
      invariant forall i :: 0 <= i < n ==> ordered[i] == if received[i] then answers[i] else NOTHING
    {
      var i := arrivals[k];
      ordered, received := ordered[i := answers[i]], received[i := true];
    }
    assert arrivals[..|arrivals|] == arrivals;
  }

  ghost predicate Reported(names: seq<string>, answers: seq<Arrival>, arrivals: seq<nat>, children: seq<Child>)
    requires |answers| == |names| && |children| <= |names|
  {
    forall i :: 0 <= i < |children| ==>
      children[i] == Report(names[i], if i in arrivals then Some(answers[i]) else None)
  }

  /** The answers come in any order, and after a cancellation some never do. Every member is reported
      once, in member order, the same for every order of arrival. */
  method RunCollaborative(names: seq<string>, answers: seq<Arrival>, arrivals: seq<nat>) returns (r: Result)
    requires |answers| == |names| && forall k :: 0 <= k < |arrivals| ==> arrivals[k] < |names|
    ensures names == [] ==> r == Result(NO_OUTPUT, false)
    ensures |r.out.children| == |names| && Reported(names, answers, arrivals, r.out.children)
    ensures r.out.usage == UsageOf(r.out.children) && r.out.calls == CallsOf(r.out.children)
    ensures r.ok <==> names != [] && forall i :: 0 <= i < |names| ==> i in arrivals && answers[i].error.None?
  {
    var n := |names|;
    if n == 0 {
      return Result(NO_OUTPUT, false);
    }
    var ordered, received := Collect(n, answers, arrivals);
    var children: seq<Child> := [];
    var usage, calls, fine := NO_USAGE, [], true;
    for i := 0 to n
      invariant |children| == i && usage == UsageOf(children) && calls == CallsOf(children)
      invariant Reported(names, answers, arrivals, children)
      invariant fine <==> forall k :: 0 <= k < i ==> k in arrivals && answers[k].error.None?
    {
      var a := ordered[i];
      var child, returned := MemberReport(names[i], a, received[i]);
      fine := fine && returned;
      OneMore(children, child);
      children := children + [child];
      usage := Plus(usage, a.output.usage);
      calls := calls + a.output.calls;
    }
    return Result(Output("", calls, [], usage, "", NO_META, children), fine);
  }

  method MemberReport(name: string, a: Arrival, received: bool) returns (child: Child, fine: bool)
    requires !received ==> a == NOTHING
    ensures child == Report(name, if received then Some(a) else None) && child.output == a.output
    ensures fine <==> received && a.error.None?
  {
    child, fine := Child(name, "returned", a.output, ""), true;
    if !received {
      child := child.(status := "cancel_requested", error := "context done");
      fine := false;
    }
    if a.error.Some? {
      child := child.(status := if a.waiting then "waiting" else "failed", error := a.error.value);
      fine := false;
    }
  }

  lemma OneMore(children: seq<Child>, child: Child)
    ensures UsageOf(children + [child]) == Plus(UsageOf(children), child.output.usage)
    ensures CallsOf(children + [child]) == CallsOf(children) + child.output.calls
  {
    assert (children + [child])[..|children|] == children;
  }

  // ---- in turns ----

  /** The round and the member of the t-th turn. */
  function Place(n: nat, t: nat): (nat, nat) {
    if t == 0 then (0, 0)
    else
      var (round, i) := Place(n, t - 1);
      if i + 1 < n then (round, i + 1) else (round + 1, 0)
  }

  lemma NextPlace(n: nat, t: nat)
    ensures var (round, i) := Place(n, t); Place(n, t + 1) == if i + 1 < n then (round, i + 1) else (round + 1, 0)
  {
  }

  lemma {:induction false} PlaceIs(n: nat, t: nat)
    requires n > 0
    ensures Place(n, t).0 * n + Place(n, t).1 == t && Place(n, t).1 < n
  {
    if t > 0 {
      PlaceIs(n, t - 1);
      var round := Place(n, t - 1).0;
      assert (round + 1) * n == round * n + n;
    }
  }

  lemma {:induction false} MulMono(a: nat, b: nat, n: nat)
    requires a <= b
    ensures a * n <= b * n
  {
    if a < b {
      MulMono(a, b - 1, n);
      assert b * n == (b - 1) * n + n;
    }
  }

  lemma WithinRounds(n: nat, t: nat, rounds: nat)
    requires n > 0
    ensures Place(n, t).0 < rounds ==> t < rounds * n
    ensures Place(n, t) == (rounds, 0) ==> t == rounds * n
  {
    PlaceIs(n, t);
    var round := Place(n, t).0;
    if round < rounds {
      MulMono(round + 1, rounds, n);
      assert (round + 1) * n == round * n + n;
    }
  }

  ghost function AfterTurn(reply: Reply, current: Input, round: nat, i: nat): Input {
    if reply.trouble == Fine then Input(reply.child.output.content, Spoke(round, i)) else current
  }

  /** What the t-th turn is asked: what the last turn that went well said. */
  ghost function TurnInput(agents: Agents, input: Input, n: nat, t: nat): Input {
    if t == 0 then input
    else
      var before := TurnInput(agents, input, n, t - 1);
      var (round, i) := Place(n, t - 1);
      AfterTurn(agents(Turn(round, i), before), before, round, i)
  }

  ghost function TurnReply(agents: Agents, input: Input, n: nat, t: nat): Reply {
    agents(Turn(Place(n, t).0, Place(n, t).1), TurnInput(agents, input, n, t))
  }

  ghost predicate WentWell(agents: Agents, input: Input, n: nat, s: nat) {
    TurnReply(agents, input, n, s).trouble == Fine
  }

  /** What the agent of turn s said, as the next one is asked it. */
  ghost function Said(agents: Agents, input: Input, n: nat, s: nat): Input {
    Input(TurnReply(agents, input, n, s).child.output.content, Spoke(Place(n, s).0, Place(n, s).1))
  }

  /** s is the last turn before t that went well. */
  ghost predicate LastFine(agents: Agents, input: Input, n: nat, t: nat, s: nat) {
    s < t && WentWell(agents, input, n, s) && forall j: nat :: s < j < t ==> !WentWell(agents, input, n, j)
  }

  lemma TurnInputStep(agents: Agents, input: Input, n: nat, t: nat)
    requires t > 0
    ensures TurnInput(agents, input, n, t)
         == if WentWell(agents, input, n, t - 1) then Said(agents, input, n, t - 1)
            else TurnInput(agents, input, n, t - 1)
  {
  }

  /** A turn is asked what the last turn before it that went well said, or the question itself. */
  lemma {:induction false} TurnInputMeans(agents: Agents, input: Input, n: nat, t: nat)
    ensures if exists s: nat :: s < t && WentWell(agents, input, n, s)
            then exists s: nat :: LastFine(agents, input, n, t, s)
                                  && TurnInput(agents, input, n, t) == Said(agents, input, n, s)
            else TurnInput(agents, input, n, t) == input
  {
    if t > 0 {
      TurnInputStep(agents, input, n, t);
      TurnInputMeans(agents, input, n, t - 1);
      if WentWell(agents, input, n, t - 1) {
        assert LastFine(agents, input, n, t, t - 1);
      } else if s: nat :| s < t && WentWell(agents, input, n, s) {
        assert s < t - 1;
        var r: nat :| LastFine(agents, input, n, t - 1, r)
          && TurnInput(agents, input, n, t - 1) == Said(agents, input, n, r);
        assert LastFine(agents, input, n, t, r);
      }
    }
  }

  /** The turn ends the run: a control error, or a fine answer that says done. */
  ghost predicate Ends(reply: Reply) {
    reply.trouble == Control || (reply.trouble == Fine && reply.child.output.meta.done)
  }

  /** The children are the answers of the first turns, and at most the last of them ended the run. */
  ghost predicate InTurns(agents: Agents, input: Input, n: nat, children: seq<Child>) {
    && (forall t :: 0 <= t < |children| ==> children[t] == TurnReply(agents, input, n, t).child)
    && (forall t :: 0 <= t < |children| - 1 ==> !Ends(TurnReply(agents, input, n, t)))
  }

  ghost predicate NoneFailed(agents: Agents, input: Input, n: nat, turns: nat) {
    forall t :: 0 <= t < turns ==> TurnReply(agents, input, n, t).trouble == Fine
  }

  /** Everything the run knows after t turns, none of which ended it. */
  ghost predicate Going(agents: Agents, input: Input, n: nat, out: Output, current: Input, failures: nat) {
    var t := |out.children|;
    && Accounts(out) && InTurns(agents, input, n, out.children) && current == TurnInput(agents, input, n, t)
    && (t > 0 ==> !Ends(TurnReply(agents, input, n, t - 1)))
    && (failures == 0 <==> NoneFailed(agents, input, n, t))
  }

  ghost predicate Stopped(agents: Agents, input: Input, n: nat, out: Output, failures: nat) {
    var t := |out.children|;
    && Accounts(out) && InTurns(agents, input, n, out.children) && t > 0 && Ends(TurnReply(agents, input, n, t - 1))
    && (failures == 0 <==> NoneFailed(agents, input, n, t))
  }

  lemma MoreTurns(agents: Agents, input: Input, n: nat, children: seq<Child>)
    requires InTurns(agents, input, n, children)
    requires |children| > 0 ==> !Ends(TurnReply(agents, input, n, |children| - 1))
    ensures var t := |children|;
            && InTurns(agents, input, n, children + [TurnReply(agents, input, n, t).child])
            && (NoneFailed(agents, input, n, t + 1) <==>
                NoneFailed(agents, input, n, t) && TurnReply(agents, input, n, t).trouble == Fine)
  {
  }

  /** The next turn is member i's in the round; after the last member it is the next round's first. */
  ghost predicate AtPlace(n: nat, out: Output, round: nat, i: nat) {
    Place(n, |out.children|) == if i < n then (round, i) else (round + 1, 0)
  }

  function FailuresAfter(reply: Reply, failures: nat): nat { if reply.trouble == Fine then failures else failures + 1 }

  lemma TurnTaken(n: nat, round: nat, i: nat, agents: Agents, input: Input, before: Output, current: Input,
                  failures: nat, after: Output)
    requires i < n && AtPlace(n, before, round, i) && Going(agents, input, n, before, current, failures)
    requires after.children == before.children + [agents(Turn(round, i), current).child] && Accounts(after)
    ensures AtPlace(n, after, round, i + 1)
    ensures var reply := agents(Turn(round, i), current);
            if Ends(reply) then Stopped(agents, input, n, after, FailuresAfter(reply, failures))
            else Going(agents, input, n, after, AfterTurn(reply, current, round, i), FailuresAfter(reply, failures))
  {
    NextPlace(n, |before.children|);
    MoreTurns(agents, input, n, before.children);
  }

  /** One turn. */
  method RunTurn(n: nat, round: nat, i: nat, agents: Agents, input: Input, out0: Output, current0: Input,
                 failures0: nat)
    returns (out: Output, current: Input, failures: nat, ended: bool)
    requires i < n && Going(agents, input, n, out0, current0, failures0) && AtPlace(n, out0, round, i)
    ensures |out.children| == |out0.children| + 1 && AtPlace(n, out, round, i + 1)
    ensures LastIn(n, out, round)
    ensures if ended then Stopped(agents, input, n, out, failures) else Going(agents, input, n, out, current, failures)
  {
    var reply := agents(Turn(round, i), current0);
    out := AppendTeamChild(out0, reply.child);
    TurnTaken(n, round, i, agents, input, out0, current0, failures0, out);
    current, failures, ended := current0, failures0, false;
    if reply.trouble != Fine {
      failures := failures + 1;
      ended := reply.trouble == Control;
    } else if reply.child.output.meta.done {
      ended := true;
    } else {
      current := Input(reply.child.output.content, Spoke(round, i));
    }
  }

  datatype Exit = Through | Cancelled | Ended

  /** The last turn taken was in the round. */
  ghost predicate LastIn(n: nat, out: Output, round: nat) {
    out.children != [] && Place(n, |out.children| - 1).0 == round
  }

  /** One round. */
  method RunRound(n: nat, round: nat, agents: Agents, input: Input, out0: Output, current0: Input, failures0: nat,
                  cancelled: nat -> bool)
    returns (out: Output, current: Input, failures: nat, exit: Exit)
    requires n > 0 && Going(agents, input, n, out0, current0, failures0) && AtPlace(n, out0, round, 0)
    ensures exit != Ended ==> Going(agents, input, n, out, current, failures)
    ensures exit == Through ==> AtPlace(n, out, round, n)
    ensures exit == Cancelled ==> cancelled(|out.children|) && exists i :: 0 <= i < n && AtPlace(n, out, round, i)
    ensures exit == Ended ==> Stopped(agents, input, n, out, failures) && LastIn(n, out, round)
  {
    out, current, failures := out0, current0, failures0;
    for i := 0 to n
      invariant Going(agents, input, n, out, current, failures)
      invariant AtPlace(n, out, round, i)
    {
      if cancelled(|out.children|) {
        return out, current, failures, Cancelled;
      }
      var ended;
      out, current, failures, ended := RunTurn(n, round, i, agents, input, out, current, failures);
      if ended {
        return out, current, failures, Ended;
      }
    }
    exit := Through;
  }

  /** What a run has to show when a round was its last. */
  lemma RunEnds(n: nat, rounds: nat, agents: Agents, input: Input, out: Output, current: Input, failures: nat,
                exit: Exit)
    requires n > 0
    requires exit != Ended ==> Going(agents, input, n, out, current, failures)
    requires exit == Through ==> AtPlace(n, out, rounds, 0)
    requires exit == Cancelled ==> exists i, round :: 0 <= i < n && 0 <= round < rounds && AtPlace(n, out, round, i)
    requires exit == Ended ==>
               Stopped(agents, input, n, out, failures) && exists round :: 0 <= round < rounds && LastIn(n, out, round)
    ensures Accounts(out) && InTurns(agents, input, n, out.children)
    ensures var k := |out.children|;
            && (if exit == Through then k == rounds * n
                else if exit == Cancelled then k < rounds * n
                else k <= rounds * n)
            && (k > 0 ==> (Ends(TurnReply(agents, input, n, k - 1)) <==> exit == Ended))
            && (exit == Ended ==> k > 0)
            && (failures == 0 <==> NoneFailed(agents, input, n, k))
  {
    WithinRounds(n, if exit == Ended then |out.children| - 1 else |out.children|, rounds);
  }

  /** A run goes on until a turn ends it, the context is done or the rounds are used up; it is fine when no
      turn failed and the context did not stop it. */
  method RunRoundRobin(n: nat, rounds: nat, agents: Agents, input: Input, cancelled: nat -> bool) returns (r: Result)
    ensures n == 0 ==> r == Result(NO_OUTPUT, false)
    ensures Accounts(r.out) && |r.out.children| <= rounds * n && InTurns(agents, input, n, r.out.children)
    ensures var k := |r.out.children|;
            n > 0 ==> k == rounds * n || cancelled(k) || (k > 0 && Ends(TurnReply(agents, input, n, k - 1)))
    ensures var k := |r.out.children|;
            n > 0 ==>
              (r.ok <==> NoneFailed(agents, input, n, k)
                         && (k == rounds * n || (k > 0 && Ends(TurnReply(agents, input, n, k - 1)))))
  {
    if n == 0 {
      return Result(NO_OUTPUT, false);
    }
    var current := input;
    var out := NO_OUTPUT;
    var failures := 0;
    for round := 0 to rounds
      invariant Going(agents, input, n, out, current, failures) && AtPlace(n, out, round, 0)
    {
      var exit;
      out, current, failures, exit := RunRound(n, round, agents, input, out, current, failures, cancelled);
      if exit != Through {
        RunEnds(n, rounds, agents, input, out, current, failures, exit);
        return Result(out, exit == Ended && failures == 0);
      }
    }
    RunEnds(n, rounds, agents, input, out, current, failures, Through);
    return Result(out, failures == 0);
  }

  // ---- a run's output from its tool calls ----

  /** The framework's own payload, as it decodes. */
  datatype Decoded = Good(result: ToolResult) | Bad(error: string, payload: string)

  datatype Raw = Nothing | Whole(result: ToolResult) | Bare(value: Value)

  /** A tool call as the runtime kept it. */
  datatype Done = Done(payload: Option<Decoded>, raw: Raw, content: string, failed: bool, error: string)
  datatype ToolCall = ToolCall(name: string, arguments: string, done: Done)
  datatype Ran = Ran(content: string, blocks: seq<string>, usage: Usage, meta: Meta, stop: string, calls: seq<ToolCall>)

  /** The payload comes first, then a whole result, then a bare value, and the text only where there is none. */
  function RecoverToolResult(d: Done): Decoded {
    if d.payload.Some? then d.payload.value
    else match d.raw
      case Whole(r) => Good(r)
      case Bare(v) => Good(ToolResult(d.error == "" && !d.failed, d.error, v))
      case Nothing => Good(ToolResult(d.error == "" && !d.failed, d.error, Plain(d.content)))
  }

  /** The child run in a value, at whatever depth it was stored. */
  function ChildIn(v: Value): Option<(string, Child)> {
    match v
    case Kept(r) => ChildIn(r.output)
    case Run(id, child) => Some((id, child))
    case Plain(_) => None
  }

  predicate IsRun(r: Record) { ChildIn(r.result.output).Some? }

  /** The run ids in the order in which each first shows. */
  function FirstSeen(calls: seq<Record>): seq<string> {
    if calls == [] then []
    else
      var front, last := FirstSeen(calls[..|calls| - 1]), calls[|calls| - 1];
      if IsRun(last) && ChildIn(last.result.output).value.0 !in front
      then front + [ChildIn(last.result.output).value.0] else front
  }

  /** The last child reported under a run id. */
  function LastChild(calls: seq<Record>, id: string): Option<Child> {
    if calls == [] then None
    else
      var run := ChildIn(calls[|calls| - 1].result.output);
      if run.Some? && run.value.0 == id then Some(run.value.1) else LastChild(calls[..|calls| - 1], id)
  }

  /** The children so far, and where each run id stands among them. */
  ghost predicate Indexed(calls: seq<Record>, children: seq<Child>, index: map<string, nat>) {
    var ids := FirstSeen(calls);
    && |children| == |ids| && (forall id :: id in index <==> id in ids)
    && (forall k :: 0 <= k < |ids| ==>
         ids[k] in index && index[ids[k]] == k && LastChild(calls, ids[k]) == Some(children[k]))
    && (forall id :: id in index ==> index[id] < |ids| && ids[index[id]] == id)
  }

  lemma IndexedSeen(calls: seq<Record>, call: Record, children: seq<Child>, index: map<string, nat>)
    requires Indexed(calls, children, index) && IsRun(call) && ChildIn(call.result.output).value.0 in index
    ensures var run := ChildIn(call.result.output).value;
            Indexed(calls + [call], children[index[run.0] := run.1], index)
  {
    assert (calls + [call])[..|calls|] == calls;
    assert FirstSeen(calls + [call]) == FirstSeen(calls);
  }

  lemma IndexedNew(calls: seq<Record>, call: Record, children: seq<Child>, index: map<string, nat>)
    requires Indexed(calls, children, index) && IsRun(call) && ChildIn(call.result.output).value.0 !in index
    ensures var run := ChildIn(call.result.output).value;
            Indexed(calls + [call], children + [run.1], index[run.0 := |children|])
  {
    assert (calls + [call])[..|calls|] == calls;
    assert FirstSeen(calls + [call]) == FirstSeen(calls) + [ChildIn(call.result.output).value.0];
  }

  lemma IndexedPlain(calls: seq<Record>, call: Record, children: seq<Child>, index: map<string, nat>)
    requires Indexed(calls, children, index) && !IsRun(call)
    ensures Indexed(calls + [call], children, index)
  {
    assert (calls + [call])[..|calls|] == calls;
  }

  /** What a call's record says. It succeeded exactly when its result could be read, reports success and
      no error was recorded for the call; every error there is shows; the output read is kept as it was. */
  ghost predicate Tells(r: Record, call: ToolCall) {
    var d := call.done;
    && r.name == call.name && r.arguments == call.arguments
    && (r.result.success <==> Reports(d) && d.error == "")
    && (d.error != "" && !Unreadable(d) ==> r.result.error == d.error)
    && (d.error != "" && Unreadable(d) ==> r.result.error == d.error + "\n" + d.payload.value.error)
    && (d.error == "" && Unreadable(d) ==> r.result.error == d.payload.value.error)
    && (d.error == "" && !Unreadable(d) ==> r.result.error == if Given(d).Some? then Given(d).value.error else "")
    && Shows(d, r.result.output)
  }

  ghost predicate Unreadable(d: Done) { d.payload.Some? && d.payload.value.Bad? }

  /** A whole result the call brought: the framework's own payload, or else the raw one. */
  ghost function Given(d: Done): Option<ToolResult> {
    if d.payload.Some? && d.payload.value.Good? then Some(d.payload.value.result)
    else if d.payload.None? && d.raw.Whole? then Some(d.raw.result)
    else None
  }

  /** The call says that it succeeded. */
  ghost predicate Reports(d: Done) {
    !Unreadable(d) && if Given(d).Some? then Given(d).value.success else !d.failed
  }

  /** Where an output comes from: a payload that can be read, else what cannot be read of it, else a whole
      result, else a bare value, and the text only where there is no value at all. */
  ghost predicate Shows(d: Done, output: Value) {
    && (Given(d).Some? ==> output == Given(d).value.output)
    && (Unreadable(d) ==> output == Plain(d.payload.value.payload))
    && (d.payload.None? && d.raw.Bare? ==> output == d.raw.value)
    && (d.payload.None? && d.raw.Nothing? ==> output == Plain(d.content))
  }

  /** However often a child run is reported, it is one child, as last reported, and counted once. */
  method OutputFromRuntime(result: Option<Ran>) returns (out: Output)
    ensures result.None? ==> out == NO_OUTPUT
    ensures result.Some? ==>
      var r := result.value;
      && |out.calls| == |r.calls| && (forall i :: 0 <= i < |r.calls| ==> Tells(out.calls[i], r.calls[i]))
      && |out.children| == |FirstSeen(out.calls)|
      && (forall k :: 0 <= k < |out.children| ==>
           LastChild(out.calls, FirstSeen(out.calls)[k]) == Some(out.children[k]))
      && out.usage == Plus(r.usage, UsageOf(out.children))
      && out.content == r.content && out.blocks == r.blocks && out.meta == r.meta && out.stop == r.stop
  {
    if result.None? {
      return NO_OUTPUT;
    }
    var r := result.value;
    var records, children := RecordsOf(r.calls);
    var usage := UsageWith(r.usage, children);
    out := Output(r.content, records, r.blocks, usage, r.stop, r.meta, children);
  }

  /** The records of the calls, and the child runs in them. */
  method RecordsOf(calls: seq<ToolCall>) returns (records: seq<Record>, children: seq<Child>)
    ensures |records| == |calls| && forall i :: 0 <= i < |calls| ==> Tells(records[i], calls[i])
    ensures |children| == |FirstSeen(records)|
    ensures forall k :: 0 <= k < |children| ==> LastChild(records, FirstSeen(records)[k]) == Some(children[k])
  {
    var index: map<string, nat> := map[];
    records, children := [], [];
    for i := 0 to |calls|
      invariant |records| == i && forall k :: 0 <= k < i ==> Tells(records[k], calls[k])
      invariant Indexed(records, children, index)
    {
      var record := RecordOf(calls[i]);
      children, index := Counted(records, record, children, index);
      records := records + [record];
    }
  }

  /** A child run reported again takes its place; a new one comes last. */
  method Counted(ghost records: seq<Record>, record: Record, children0: seq<Child>, index0: map<string, nat>)
    returns (children: seq<Child>, index: map<string, nat>)
    requires Indexed(records, children0, index0)
    ensures Indexed(records + [record], children, index)
  {
    children, index := children0, index0;
    var run := ChildIn(record.result.output);
    if run.Some? {
      var (id, child) := run.value;
      if id in index {
        IndexedSeen(records, record, children, index);
        children := children[index[id] := child];
      } else {
        IndexedNew(records, record, children, index);
        index := index[id := |children|];
        children := children + [child];
      }
    } else {
      IndexedPlain(records, record, children, index);
    }
  }

  method UsageWith(base: Usage, children: seq<Child>) returns (usage: Usage)
    ensures usage == Plus(base, UsageOf(children))
  {
    usage := base;
    for i := 0 to |children|
      invariant usage == Plus(base, UsageOf(children[..i]))
    {
      assert children[..i + 1][..i] == children[..i];
      usage := Plus(usage, children[i].output.usage);
    }
    assert children[..|children|] == children;
  }

  method RecordOf(call: ToolCall) returns (record: Record)
    ensures Tells(record, call)
  {
    var read := RecoverToolResult(call.done);
    var result;
    if read.Bad? {
      result := ToolResult(false, read.error, Plain(read.payload));
    } else {
      result := read.result;
    }
    if call.done.error != "" {
      var recorded := call.done.error;
      if read.Bad? {
        recorded := recorded + "\n" + read.error;
      }
      result := result.(success := false, error := recorded);
    }
    return Record(call.name, call.arguments, result);
  }

  lemma {:induction false} FirstSeenOnce(calls: seq<Record>)
    ensures forall i, j :: 0 <= i < j < |FirstSeen(calls)| ==> FirstSeen(calls)[i] != FirstSeen(calls)[j]
    ensures forall id :: id in FirstSeen(calls)
                         <==> exists i :: 0 <= i < |calls| && IsRun(calls[i])
                                          && ChildIn(calls[i].result.output).value.0 == id
  {
    if calls != [] {
      var n := |calls| - 1;
      FirstSeenOnce(calls[..n]);
      assert forall i :: 0 <= i < n ==> calls[..n][i] == calls[i];
    }
  }
}
