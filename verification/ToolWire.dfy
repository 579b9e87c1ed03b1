/** The stored form of tool outputs: a child run or a stored tool result is marked by its Go type, at
    every depth, and everything else is plain JSON. */
module ToolWire {
  /** The names of an object's fields: those the translation handles, and the others. */
  datatype Key =
    | VersionKey | ChildKey | OutputKey | ToolCallsKey | ChildrenKey | ResultKey | SuccessKey | ErrorKey
    | KindKey | WireVersionKey | DataKey
    | Field(name: string)

  datatype Json =
    | Null | Bool(b: bool) | Int(n: int) | Decimal(d: real) | Str(text: string)
    | Arr(elems: seq<Json>) | Obj(fields: map<Key, Json>)

  // ---- the Go values ----

  const RUN_FIELDS := {Field("scope"), Field("run_id"), Field("parent_run_id"), Field("task_id"), Field("activation"),
                       Field("attempt_id"), Field("tool_call_id"), Field("parts"), Field("interrupt"),
                       Field("control_error")}
  const CHILD_FIELDS := {Field("agent_id"), Field("agent_name"), Field("status"), ErrorKey}
  const OUTPUT_FIELDS := {Field("content"), Field("blocks"), Field("usage"), Field("stop_reason"), Field("metadata")}
  const CALL_FIELDS := {Field("name"), Field("arguments")}
  const STORED_FIELDS := {Field("artifact"), Field("parts"), Field("storage_error")}

  /** The fields that JSON carries unchanged, by name; a field that is left out is not there. */
  type RunFields = m: map<Key, Json> | m.Keys <= RUN_FIELDS
  type ChildFields = m: map<Key, Json> | m.Keys <= CHILD_FIELDS
  type OutputFields = m: map<Key, Json> | m.Keys <= OUTPUT_FIELDS
  type CallFields = m: map<Key, Json> | m.Keys <= CALL_FIELDS
  type StoredFields = m: map<Key, Json> | m.Keys <= STORED_FIELDS

  datatype ChildRun = ChildRun(version: int, facts: RunFields, child: Child)
  datatype Child = Child(facts: ChildFields, output: Output)
  datatype Output = Output(facts: OutputFields, calls: seq<Call>, children: seq<Child>)
  datatype Call = Call(facts: CallFields, result: ToolResult)
  datatype Stored = Stored(facts: StoredFields, result: ToolResult)
  datatype ToolResult = ToolResult(success: bool, error: string, output: Go)

  datatype Go =
    | Scalar(value: Json)
    | List(elems: seq<Go>)
    | Map(fields: map<Key, Go>)
    | Run(run: ChildRun)
    | StoredResult(stored: Stored)
    | NilPointer
    | Pointer(to: Go)

  // ---- plain JSON ----

  /** What json.Marshal makes of a value: types are gone. */
  function Plain(v: Go): Json {
    match v
    case Scalar(j) => j
    case List(vs) => Arr(seq(|vs|, i requires 0 <= i < |vs| => Plain(vs[i])))
    case Map(m) => Obj(map k | k in m :: Plain(m[k]))
    case Run(r) => Obj(r.facts + map[VersionKey := Int(r.version), ChildKey := PlainChild(r.child)])
    case StoredResult(s) => Obj(s.facts + map[ResultKey := PlainResult(s.result)])
    case NilPointer => Null
    case Pointer(w) => Plain(w)
  }

  function PlainChild(c: Child): Json { Obj(c.facts + map[OutputKey := PlainOutput(c.output)]) }

  function PlainOutput(o: Output): Json {
    var calls := seq(|o.calls|, i requires 0 <= i < |o.calls| => PlainCall(o.calls[i]));
    var children := seq(|o.children|, i requires 0 <= i < |o.children| => PlainChild(o.children[i]));
    Obj(o.facts + NonEmpty(ToolCallsKey, calls) + NonEmpty(ChildrenKey, children))
  }

  function PlainCall(c: Call): Json { Obj(c.facts + map[ResultKey := PlainResult(c.result)]) }

  function PlainResult(t: ToolResult): Json { Obj(ResultHead(t) + map[OutputKey := Plain(t.output)]) }

  function ResultHead(t: ToolResult): map<Key, Json> {
    map[SuccessKey := Bool(t.success)] + if t.error == "" then map[] else map[ErrorKey := Str(t.error)]
  }

  function NonEmpty(k: Key, js: seq<Json>): map<Key, Json> { if js == [] then map[] else map[k := Arr(js)] }

  /** What decoding into `any` makes of JSON: scalars, lists and maps, never a typed value. */
  function FromJson(j: Json): Go {
    match j
    case Arr(js) => List(seq(|js|, i requires 0 <= i < |js| => FromJson(js[i])))
    case Obj(m) => Map(map k | k in m :: FromJson(m[k]))
    case _ => Scalar(j)
  }

  // ---- encoding ----

  datatype Wire = Wire(kind: string, version: int, data: Json)

  const JSON_KIND := "json"
  const RUN_KIND := "child-run"
  const STORED_KIND := "stored-tool-result"

  function WireJson(w: Wire): Json {
    Obj(map[KindKey := Str(w.kind), WireVersionKey := Int(w.version), DataKey := w.data])
  }

  function Encode(v: Go): Wire {
    match v
    case Run(r) => Wire(RUN_KIND, 1, Obj(r.facts + map[VersionKey := Int(r.version), ChildKey := EncodeChild(r.child)]))
    case StoredResult(s) => Wire(STORED_KIND, 1, Obj(s.facts + map[ResultKey := EncodeResult(s.result)]))
    case Pointer(w) => if w.Run? || w.StoredResult? then Encode(w) else Wire(JSON_KIND, 1, Plain(v))
    case _ => Wire(JSON_KIND, 1, Plain(v))
  }

  /** The typed output stands where the embedded record's own output would. */
  function EncodeChild(c: Child): Json { Obj(c.facts + map[OutputKey := EncodeOutput(c.output)]) }

  function EncodeOutput(o: Output): Json {
    var calls := seq(|o.calls|, i requires 0 <= i < |o.calls| => EncodeCall(o.calls[i]));
    var children := seq(|o.children|, i requires 0 <= i < |o.children| => EncodeChild(o.children[i]));
    Obj(o.facts + NonEmpty(ToolCallsKey, calls) + NonEmpty(ChildrenKey, children))
  }

  function EncodeCall(c: Call): Json { Obj(c.facts + map[ResultKey := EncodeResult(c.result)]) }

  function EncodeResult(t: ToolResult): Json { Obj(ResultHead(t) + map[OutputKey := WireJson(Encode(t.output))]) }

  /** An empty list of calls or children and an empty error are left out, typed or not. */
  lemma EmptyIsLeftOut(o: Output, t: ToolResult)
    ensures forall j :: j == PlainOutput(o) || j == EncodeOutput(o) ==>
              && (ToolCallsKey in j.fields <==> o.calls != []) && (ChildrenKey in j.fields <==> o.children != [])
    ensures forall j :: j == PlainResult(t) || j == EncodeResult(t) ==> (ErrorKey in j.fields <==> t.error != "")
  {
  }

  // ---- decoding ----

  datatype Error = UnknownKind | WireVersion | ChildVersion | Shape
  datatype Result<T> = Ok(value: T) | Err(error: Error)

  function Facts(m: map<Key, Json>, names: set<Key>): (r: map<Key, Json>)
    ensures r.Keys <= names
  {
    map k | k in m && k in names :: m[k]
  }

  /** A field that is absent or null leaves the zero value. */
  predicate Given(m: map<Key, Json>, k: Key) { k in m && m[k] != Null }

  function Decode(w: Wire): Result<Go>
    decreases w.data, 2
  {
    if w.version != 1 then Err(WireVersion)
    else if w.kind == JSON_KIND then Ok(FromJson(w.data))
    else if w.kind == RUN_KIND then
      if w.data.Obj? then DecodeRun(w.data) else if w.data.Null? then Err(ChildVersion) else Err(Shape)
    else if w.kind == STORED_KIND then
      if w.data.Obj? then DecodeStored(w.data) else if w.data.Null? then Err(WireVersion) else Err(Shape)
    else Err(UnknownKind)
  }

  function IntAt(m: map<Key, Json>, k: Key): Result<int> {
    if !Given(m, k) then Ok(0) else if m[k].Int? then Ok(m[k].n) else Err(Shape)
  }

  function DecodeRun(j: Json): Result<Go>
    requires j.Obj?
    decreases j, 1
  {
    match IntAt(j.fields, VersionKey)
    case Err(e) => Err(e)
    case Ok(version) =>
      if version != 1 then Err(ChildVersion)
      else if !Given(j.fields, ChildKey) then
        Ok(Run(ChildRun(version, Facts(j.fields, RUN_FIELDS), Child(map[], Output(map[], [], [])))))
      else
        match DecodeChild(j.fields[ChildKey])
        case Err(e) => Err(e)
        case Ok(child) => Ok(Run(ChildRun(version, Facts(j.fields, RUN_FIELDS), child)))
  }

  function DecodeStored(j: Json): Result<Go>
    requires j.Obj?
    decreases j, 1
  {
    match DecodeResultAt(j)
    case Err(e) => Err(e)
    case Ok(result) => Ok(StoredResult(Stored(Facts(j.fields, STORED_FIELDS), result)))
  }

  function DecodeChild(j: Json): Result<Child>
    decreases j, 1
  {
    if j.Null? then Ok(Child(map[], Output(map[], [], [])))
    else if !j.Obj? then Err(Shape)
    else if !Given(j.fields, OutputKey) then Ok(Child(Facts(j.fields, CHILD_FIELDS), Output(map[], [], [])))
    else
      match DecodeOutput(j.fields[OutputKey])
      case Err(e) => Err(e)
      case Ok(output) => Ok(Child(Facts(j.fields, CHILD_FIELDS), output))
  }

  function ElemsAt(j: Json, k: Key): Result<seq<Json>>
    requires j.Obj?
  {
    if !Given(j.fields, k) then Ok([]) else if j.fields[k].Arr? then Ok(j.fields[k].elems) else Err(Shape)
  }

  function DecodeOutput(j: Json): Result<Output>
    decreases j, 1
  {
    if !j.Obj? then Err(Shape)
    else
      match (ElemsAt(j, ToolCallsKey), ElemsAt(j, ChildrenKey))
      case (Ok(cs), Ok(ks)) =>
        (match DecodeCalls(j, cs, |cs|)
         case Err(e) => Err(e)
         case Ok(calls) =>
           match DecodeChildren(j, ks, |ks|)
           case Err(e) => Err(e)
           case Ok(children) => Ok(Output(Facts(j.fields, OUTPUT_FIELDS), calls, children)))
      case _ => Err(Shape)
  }

  function DecodeCalls(j: Json, js: seq<Json>, n: nat): (r: Result<seq<Call>>)
    requires j.Obj? && ElemsAt(j, ToolCallsKey) == Ok(js) && n <= |js|
    ensures r.Ok? ==> |r.value| == n
    decreases j, 0, n
  {
    if n == 0 then Ok([])
    else
      match DecodeCalls(j, js, n - 1)
      case Err(e) => Err(e)
      case Ok(front) =>
        match DecodeCall(js[n - 1])
        case Err(e) => Err(e)
        case Ok(c) => Ok(front + [c])
  }

  function DecodeChildren(j: Json, js: seq<Json>, n: nat): (r: Result<seq<Child>>)
    requires j.Obj? && ElemsAt(j, ChildrenKey) == Ok(js) && n <= |js|
    ensures r.Ok? ==> |r.value| == n
    decreases j, 0, n
  {
    if n == 0 then Ok([])
    else
      match DecodeChildren(j, js, n - 1)
      case Err(e) => Err(e)
      case Ok(front) =>
        match DecodeChild(js[n - 1])
        case Err(e) => Err(e)
        case Ok(c) => Ok(front + [c])
  }

  function DecodeCall(j: Json): Result<Call>
    decreases j, 1
  {
    if j.Null? then Err(WireVersion)
    else if !j.Obj? then Err(Shape)
    else
      match DecodeResultAt(j)
      case Err(e) => Err(e)
      case Ok(result) => Ok(Call(Facts(j.fields, CALL_FIELDS), result))
  }

  function DecodeResultAt(j: Json): Result<ToolResult>
    requires j.Obj?
    decreases j, 0
  {
    if !Given(j.fields, ResultKey) then Err(WireVersion) else DecodeResult(j.fields[ResultKey])
  }

  /** The zero output has wire version 0, which is refused. */
  function DecodeResult(j: Json): Result<ToolResult>
    decreases j, 3
  {
    if !j.Obj? then Err(Shape)
    else
      var m := j.fields;
      if Given(m, SuccessKey) && !m[SuccessKey].Bool? then Err(Shape)
      else if Given(m, ErrorKey) && !m[ErrorKey].Str? then Err(Shape)
      else if !Given(m, OutputKey) then Err(WireVersion)
      else if !m[OutputKey].Obj? then Err(Shape)
      else
        match DecodeWire(m[OutputKey])
        case Err(e) => Err(e)
        case Ok(output) =>
          var error := if Given(m, ErrorKey) then m[ErrorKey].text else "";
          Ok(ToolResult(Given(m, SuccessKey) && m[SuccessKey].b, error, output))
  }

  function DecodeWire(j: Json): Result<Go>
    requires j.Obj?
    decreases j, 3
  {
    var m := j.fields;
    if Given(m, KindKey) && !m[KindKey].Str? then Err(Shape)
    else
      match IntAt(m, WireVersionKey)
      case Err(e) => Err(e)
      case Ok(version) =>
        if version != 1 then Err(WireVersion)
        else
          var kind := if Given(m, KindKey) then m[KindKey].text else "";
          if DataKey in m then Decode(Wire(kind, version, m[DataKey]))
          else if kind == JSON_KIND || kind == RUN_KIND || kind == STORED_KIND then Err(Shape)
          else Err(UnknownKind)
  }

  /** The payload a runtime keeps for one tool call. */
  const PAYLOAD_KIND := "hexagon.agent.tool-result"

  function EncodePayload(t: ToolResult): Wire { Wire(PAYLOAD_KIND, 1, EncodeResult(t)) }

  function DecodePayload(w: Wire): Result<ToolResult> {
    if w.kind != PAYLOAD_KIND then Err(UnknownKind)
    else if w.version != 1 then Err(WireVersion)
    else if w.data.Null? then Err(WireVersion)
    else DecodeResult(w.data)
  }
}
