/** The schema texts kept from tools/list responses, and the ids that let a response in. */
module WireSchemas {
  import opened Wrappers
  import opened Decimals

  /** A JSON-RPC id: a string, a number by its exact value, or anything else. */
  datatype Id = StrId(s: string) | NumId(r: real) | OtherId

  /** The kind of the id stays in the key; equal numbers have one key. */
  function Key(id: Id): string {
    match id
    case StrId(s) => "s:" + s
    case NumId(r) => if r.Floor as real == r then "n:" + Text(r.Floor) else ""
    case OtherId => ""
  }

  predicate Usable(id: Id) { id.StrId? || (id.NumId? && id.r.Floor as real == id.r) }

  /** Keys are neither confused nor lost: two usable ids share a key exactly when they are the same
      string or the same number. */
  lemma KeyExactly(a: Id, b: Id)
    ensures Usable(a) <==> Key(a) != ""
    ensures Usable(a) && Usable(b) ==> (Key(a) == Key(b) <==> a == b)
  {
    if Usable(a) && Usable(b) && Key(a) == Key(b) {
      assert Key(a)[0] == Key(b)[0];
      assert Key(a)[2..] == Key(b)[2..];
      if a.NumId? {
        assert Key(a)[2..] == Text(a.r.Floor) && Key(b)[2..] == Text(b.r.Floor);
        TextIsInjective(a.r.Floor, b.r.Floor);
      } else {
        assert Key(a)[2..] == a.s && Key(b)[2..] == b.s;
      }
    }
  }

  datatype Request = Request(id: Id, verb: string)
  datatype Tool = Tool(name: string, input: string)
  datatype Response = Response(id: Id, verb: string, tools: seq<Tool>)

  datatype Store = Store(schemas: map<string, string>, pending: set<string>)

  function AskKey(r: Option<Request>): string {
    if r.Some? && r.value.verb == "tools/list" then Key(r.value.id) else ""
  }

  function Ask(s: Store, r: Option<Request>): Store {
    if AskKey(r) == "" then s else s.(pending := s.pending + {AskKey(r)})
  }

  predicate Answers(s: Store, r: Option<Response>) {
    r.Some? && r.value.verb == "" && Key(r.value.id) in s.pending
  }

  function Learn(schemas: map<string, string>, tools: seq<Tool>): map<string, string> {
    if tools == [] then schemas
    else
      var before, t := Learn(schemas, tools[..|tools| - 1]), tools[|tools| - 1];
      if t.name != "" && t.input != "" then before[t.name := t.input] else before
  }

  function Captured(s: Store, r: Option<Response>): Store {
    if Answers(s, r) then Store(Learn(s.schemas, r.value.tools), s.pending - {Key(r.value.id)}) else s
  }

  class Schemas {
    var schemas: map<string, string>
    var pending: set<string>

    function View(): Store
      reads this
    {
      Store(schemas, pending)
    }

    constructor ()
      ensures View() == Store(map[], {})
    {
      schemas, pending := map[], {};
    }

    method Request(r: Option<Request>) returns (key: string)
      modifies this`pending
      ensures View() == Ask(old(View()), r)
      ensures key != "" <==> r.Some? && r.value.verb == "tools/list" && Usable(r.value.id)
      ensures key != "" ==> key == Key(r.value.id)
      ensures pending == if key != "" then old(pending) + {key} else old(pending)
    {
      if r.None? || r.value.verb != "tools/list" {
        return "";
      }
      key := Key(r.value.id);
      KeyExactly(r.value.id, r.value.id);
      if key != "" {
        pending := pending + {key};
      }
    }

    method Forget(key: string)
      modifies this`pending
      ensures pending == old(pending) - {key}
    {
      pending := pending - {key};
    }

    method Capture(r: Option<Response>)
      modifies this
      ensures View() == Captured(old(View()), r)
      ensures r.Some? && r.value.verb == "" && Key(r.value.id) in old(pending) ==>
                pending == old(pending) - {Key(r.value.id)}
                && forall name {:trigger Given(old(schemas), schemas, r.value.tools, name)} ::
                     Given(old(schemas), schemas, r.value.tools, name)
      ensures r.None? || r.value.verb != "" || Key(r.value.id) !in old(pending) ==>
                pending == old(pending) && schemas == old(schemas)
    {
      AbsorbedExactly(View(), r);
      if r.None? || r.value.verb != "" || Key(r.value.id) !in pending {
        return;
      }
      pending := pending - {Key(r.value.id)};
      var tools := r.value.tools;
      for i := 0 to |tools|
        invariant schemas == Learn(old(schemas), tools[..i]) && pending == old(pending) - {Key(r.value.id)}
      {
        assert tools[..i + 1][..i] == tools[..i];
        if tools[i].name != "" && tools[i].input != "" {
          schemas := schemas[tools[i].name := tools[i].input];
        }
      }
      assert tools[..|tools|] == tools;
    }
  }

  predicate Counts(t: Tool, name: string) { name != "" && t.name == name && t.input != "" }

  /** Tool i is the last one given under the name with an input. */
  predicate LastGiven(tools: seq<Tool>, name: string, i: nat) {
    i < |tools| && Counts(tools[i], name) && forall j :: i < j < |tools| ==> !Counts(tools[j], name)
  }

  /** From was to m the name gets the last input given for it, or keeps what it had. */
  ghost predicate Given(was: map<string, string>, m: map<string, string>, tools: seq<Tool>, name: string) {
    || (exists i: nat :: LastGiven(tools, name, i) && name in m && m[name] == tools[i].input)
    || ((forall i :: 0 <= i < |tools| ==> !Counts(tools[i], name)) && (name in m <==> name in was)
        && (name in m ==> m[name] == was[name]))
  }

  /** What a response leaves, told of the two fields: under a pending id and without a method every tool has
      the last input given for it or what it had, and exactly that id is used up; otherwise nothing changes. */
  ghost predicate Absorbed(s: Store, r: Option<Response>, t: Store) {
    if r.Some? && r.value.verb == "" && Key(r.value.id) in s.pending then
      t.pending == s.pending - {Key(r.value.id)}
      && forall name {:trigger Given(s.schemas, t.schemas, r.value.tools, name)} ::
           Given(s.schemas, t.schemas, r.value.tools, name)
    else t == s
  }

  lemma AbsorbedExactly(s: Store, r: Option<Response>)
    ensures Absorbed(s, r, Captured(s, r))
    ensures forall t :: Absorbed(s, r, t) ==> t == Captured(s, r)
  {
    if r.Some? {
      forall name ensures Given(s.schemas, Learn(s.schemas, r.value.tools), r.value.tools, name) {
        LearnMeans(s.schemas, r.value.tools, name);
      }
      forall t | Absorbed(s, r, t) && Answers(s, r) ensures t == Captured(s, r) {
        GivenIsUnique(s.schemas, t.schemas, Learn(s.schemas, r.value.tools), r.value.tools);
      }
    }
  }

  lemma GivenIsUnique(was: map<string, string>, m: map<string, string>, n: map<string, string>, tools: seq<Tool>)
    requires forall name {:trigger Given(was, m, tools, name)} :: Given(was, m, tools, name)
    requires forall name {:trigger Given(was, n, tools, name)} :: Given(was, n, tools, name)
    ensures m == n
  {
    forall name ensures name in m <==> name in n { SameGiven(was, m, n, tools, name); }
    forall name | name in m && name in n ensures m[name] == n[name] { SameGiven(was, m, n, tools, name); }
  }

  lemma SameGiven(was: map<string, string>, m: map<string, string>, n: map<string, string>, tools: seq<Tool>,
                  name: string)
    requires Given(was, m, tools, name) && Given(was, n, tools, name)
    ensures (name in m <==> name in n) && (name in m ==> m[name] == n[name])
  {
    if i: nat, j: nat :| LastGiven(tools, name, i) && LastGiven(tools, name, j) && i < j { assert false; }
  }

  /** A tool's schema is the last one given for it; a tool not given keeps what it had. */
  lemma {:induction false} LearnMeans(schemas: map<string, string>, tools: seq<Tool>, name: string)
    ensures Given(schemas, Learn(schemas, tools), tools, name)
  {
    if tools != [] {
      var n := |tools| - 1;
      LearnMeans(schemas, tools[..n], name);
      if !Counts(tools[n], name) && exists i :: 0 <= i < n && Counts(tools[..n][i], name) {
        var i :| 0 <= i < n && Counts(tools[..n][i], name) && Learn(schemas, tools[..n])[name] == tools[..n][i].input
          && forall j :: i < j < n ==> !Counts(tools[..n][j], name);
        assert tools[i] == tools[..n][i];
        assert forall j :: i < j < |tools| ==> !Counts(tools[j], name) by {
          forall j | i < j < n ensures !Counts(tools[j], name) { assert tools[j] == tools[..n][j]; }
        }
      } else if !Counts(tools[n], name) {
        forall i | 0 <= i < n ensures !Counts(tools[i], name) { assert tools[i] == tools[..n][i]; }
      }
    }
  }

  // ---- whole runs ----

  datatype Op = Asked(request: Option<Request>) | Forgot(key: string) | Came(response: Option<Response>)

  function Do(s: Store, op: Op): Store {
    match op
    case Asked(r) => Ask(s, r)
    case Forgot(k) => s.(pending := s.pending - {k})
    case Came(r) => Captured(s, r)
  }

  function Run(s: Store, ops: seq<Op>): Store {
    if ops == [] then s else Do(Run(s, ops[..|ops| - 1]), ops[|ops| - 1])
  }

  /** The keys under which responses were let in, in order. */
  function LetIn(s: Store, ops: seq<Op>): seq<string> {
    if ops == [] then []
    else
      var front, op := ops[..|ops| - 1], ops[|ops| - 1];
      LetIn(s, front) + if op.Came? && Answers(Run(s, front), op.response) then [Key(op.response.value.id)] else []
  }

  function Asks(ops: seq<Op>, key: string): nat {
    if ops == [] then 0
    else
      var op := ops[|ops| - 1];
      Asks(ops[..|ops| - 1], key) + if op.Asked? && AskKey(op.request) == key != "" then 1 else 0
  }

  /** Each request lets in at most one response. */
  lemma {:induction false} ConsumedOnce(ops: seq<Op>, key: string)
    ensures var s := Store(map[], {});
            Count(LetIn(s, ops), key) + (if key in Run(s, ops).pending then 1 else 0) <= Asks(ops, key)
  {
    if ops != [] {
      var front := ops[..|ops| - 1];
      var before, after := LetIn(Store(map[], {}), front), LetIn(Store(map[], {}), ops);
      ConsumedOnce(front, key);
      if |after| > |before| { assert after[..|before|] == before; } else { assert after == before; }
    }
  }

  predicate Registers(op: Op, key: string) { op.Asked? && AskKey(op.request) == key != "" }

  /** The i-th operation ends the wait for key: it is given up, or its response is let in. */
  predicate EndsWait(ops: seq<Op>, i: nat, key: string)
    requires i < |ops|
  {
    || ops[i] == Forgot(key)
    || (ops[i].Came? && Answers(Run(Store(map[], {}), ops[..i]), ops[i].response)
        && Key(ops[i].response.value.id) == key)
  }

  ghost predicate Waits(ops: seq<Op>, key: string) {
    exists i :: 0 <= i < |ops| && Registers(ops[i], key) && forall j :: i < j < |ops| ==> !EndsWait(ops, j, key)
  }

  /** An answer is awaited exactly under the keys of the requests that were neither given up nor answered since. */
  lemma {:induction false} PendingExactly(ops: seq<Op>, key: string)
    ensures key in Run(Store(map[], {}), ops).pending <==> Waits(ops, key)
  {
    if ops != [] {
      var n := |ops| - 1;
      PendingExactly(ops[..n], key);
      WaitsMore(ops, key);
    }
  }

  lemma WaitsMore(ops: seq<Op>, key: string)
    requires ops != []
    ensures var n := |ops| - 1;
            Waits(ops, key) <==> Registers(ops[n], key) || (Waits(ops[..n], key) && !EndsWait(ops, n, key))
  {
    var n := |ops| - 1;
    assert forall j :: 0 <= j < n ==> ops[..n][..j] == ops[..j];
    if Waits(ops[..n], key) && !EndsWait(ops, n, key) {
      var i :| 0 <= i < n && Registers(ops[..n][i], key) && forall j :: i < j < n ==> !EndsWait(ops[..n], j, key);
      assert Registers(ops[i], key);
      forall j | i < j < |ops| ensures !EndsWait(ops, j, key) {
        assert j < n ==> !EndsWait(ops[..n], j, key);
      }
    } else if Waits(ops, key) && !Registers(ops[n], key) {
      var i :| 0 <= i < |ops| && Registers(ops[i], key) && forall j :: i < j < |ops| ==> !EndsWait(ops, j, key);
      assert Registers(ops[..n][i], key);
      forall j | i < j < n ensures !EndsWait(ops[..n], j, key) { assert !EndsWait(ops, j, key); }
    }
  }

  /** The stored schemas change only when a response is let in. */
  lemma {:induction false} ChangesOnlyByAnswers(s: Store, ops: seq<Op>)
    requires LetIn(s, ops) == []
    ensures Run(s, ops).schemas == s.schemas
  {
    if ops != [] {
      ChangesOnlyByAnswers(s, ops[..|ops| - 1]);
    }
  }
}
