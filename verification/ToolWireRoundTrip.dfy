/** Decoding undoes encoding at every depth, and a value comes back typed exactly when it went in typed. */
module ToolWireRoundTrip {
  import opened ToolWire

  /** Every child run on the typed path has version 1. Values inside lists and maps are plain JSON and do
      not matter. */
  predicate Current(v: Go)
    decreases v, 1
  {
    match v
    case Run(r) => r.version == 1 && CurrentOutput(r.child.output)
    case StoredResult(s) => Current(s.result.output)
    case Pointer(w) => (w.Run? || w.StoredResult?) ==> Current(w)
    case _ => true
  }

  predicate CurrentOutput(o: Output)
    decreases o, 1
  {
    CurrentCalls(o) && CurrentChildren(o)
  }

  predicate CurrentCalls(o: Output)
    decreases o, 0
  {
    forall i {:trigger o.calls[i]} :: 0 <= i < |o.calls| ==> Current(o.calls[i].result.output)
  }

  predicate CurrentChildren(o: Output)
    decreases o, 0
  {
    forall i {:trigger o.children[i]} :: 0 <= i < |o.children| ==> CurrentOutput(o.children[i].output)
  }

  /** The value as it comes back: pointers followed, untyped parts as JSON gives them. */
  function Normal(v: Go): Go {
    match v
    case Run(r) => Run(r.(child := NormalChild(r.child)))
    case StoredResult(s) => StoredResult(s.(result := NormalResult(s.result)))
    case Pointer(w) => if w.Run? || w.StoredResult? then Normal(w) else FromJson(Plain(v))
    case _ => FromJson(Plain(v))
  }

  function NormalChild(c: Child): Child { c.(output := NormalOutput(c.output)) }

  function NormalOutput(o: Output): Output {
    o.(calls := seq(|o.calls|, i requires 0 <= i < |o.calls| => NormalCall(o.calls[i])),
       children := seq(|o.children|, i requires 0 <= i < |o.children| => NormalChild(o.children[i])))
  }

  function NormalCall(c: Call): Call { c.(result := NormalResult(c.result)) }
  function NormalResult(t: ToolResult): ToolResult { t.(output := Normal(t.output)) }

  lemma FactsKept(facts: map<Key, Json>, more: map<Key, Json>, names: set<Key>)
    requires facts.Keys <= names && more.Keys !! names
    ensures Facts(facts + more, names) == facts
  {
  }

  lemma RunRoundTrip(r: ChildRun)
    requires var back := DecodeChild(EncodeChild(r.child));
             if CurrentOutput(r.child.output) then back == Ok(NormalChild(r.child)) else back.Err?
    ensures var back := Decode(Encode(Run(r)));
            if Current(Run(r)) then back == Ok(Normal(Run(r))) else back.Err?
  {
    var more := map[VersionKey := Int(r.version), ChildKey := EncodeChild(r.child)];
    FactsKept(r.facts, more, RUN_FIELDS);
    var m := r.facts + more;
    assert Encode(Run(r)) == Wire(RUN_KIND, 1, Obj(m));
    RunDecoded(m, r.version, r.facts, EncodeChild(r.child));
  }

  lemma RunDecoded(m: map<Key, Json>, version: int, facts: RunFields, child: Json)
    requires VersionKey in m && m[VersionKey] == Int(version) && ChildKey in m && m[ChildKey] == child && child.Obj?
    requires Facts(m, RUN_FIELDS) == facts
    ensures DecodeRun(Obj(m)) ==
            if version != 1 then Err(ChildVersion)
            else match DecodeChild(child)
              case Err(e) => Err(e)
              case Ok(c) => Ok(Run(ChildRun(version, facts, c)))
  {
  }

  lemma StoredRoundTrip(s: Stored)
    requires var back := DecodeResult(EncodeResult(s.result));
             if Current(s.result.output) then back == Ok(NormalResult(s.result)) else back.Err?
    ensures var back := Decode(Encode(StoredResult(s)));
            if Current(StoredResult(s)) then back == Ok(Normal(StoredResult(s))) else back.Err?
  {
    var more := map[ResultKey := EncodeResult(s.result)];
    FactsKept(s.facts, more, STORED_FIELDS);
    var m := s.facts + more;
    assert Encode(StoredResult(s)) == Wire(STORED_KIND, 1, Obj(m));
    assert DecodeResultAt(Obj(m)) == DecodeResult(EncodeResult(s.result));
    assert Decode(Wire(STORED_KIND, 1, Obj(m))) == DecodeStored(Obj(m));
  }

  /** Decoding what was encoded succeeds exactly when every child run on the typed path has version 1,
      and then gives the value back. */
  lemma {:induction false} RoundTrip(v: Go)
    ensures var back := Decode(Encode(v));
            if Current(v) then back == Ok(Normal(v)) else back.Err?
    decreases v, 1
  {
    match v
    case Run(r) =>
      ChildRoundTrip(r.child);
      RunRoundTrip(r);
    case StoredResult(s) =>
      ResultRoundTrip(s.result);
      StoredRoundTrip(s);
    case Pointer(w) =>
      if w.Run? || w.StoredResult? { RoundTrip(w); }
    case _ =>
  }

  lemma {:induction false} ChildRoundTrip(c: Child)
    ensures var back := DecodeChild(EncodeChild(c));
            if CurrentOutput(c.output) then back == Ok(NormalChild(c)) else back.Err?
    decreases c, 1
  {
    OutputRoundTrip(c.output);
    FactsKept(c.facts, map[OutputKey := EncodeOutput(c.output)], CHILD_FIELDS);
  }

  lemma {:induction false} ResultRoundTrip(t: ToolResult)
    ensures var back := DecodeResult(EncodeResult(t));
            if Current(t.output) then back == Ok(NormalResult(t)) else back.Err?
    decreases t, 1
  {
    RoundTrip(t.output);
    WireRoundTrip(Encode(t.output));
  }

  lemma WireRoundTrip(w: Wire)
    requires w.version == 1
    ensures DecodeWire(WireJson(w)) == Decode(w)
  {
  }

  lemma {:induction false} CallRoundTrip(c: Call)
    ensures var back := DecodeCall(EncodeCall(c));
            if Current(c.result.output) then back == Ok(NormalCall(c)) else back.Err?
    decreases c, 1
  {
    ResultRoundTrip(c.result);
    FactsKept(c.facts, map[ResultKey := EncodeResult(c.result)], CALL_FIELDS);
  }

  /** The list decodes to `want` unless an element fails. */
  lemma {:induction false} CallsBack(j: Json, js: seq<Json>, n: nat, want: seq<Call>, fine: seq<bool>)
    requires j.Obj? && ElemsAt(j, ToolCallsKey) == Ok(js) && n <= |js| == |want| == |fine|
    requires forall i :: 0 <= i < |js| ==> if fine[i] then DecodeCall(js[i]) == Ok(want[i]) else DecodeCall(js[i]).Err?
    ensures var back := DecodeCalls(j, js, n);
            if forall i :: 0 <= i < n ==> fine[i] then back == Ok(want[..n]) else back.Err?
  {
    if n > 0 {
      CallsBack(j, js, n - 1, want, fine);
      assert want[..n] == want[..n - 1] + [want[n - 1]];
    }
  }

  lemma {:induction false} ChildrenBack(j: Json, js: seq<Json>, n: nat, want: seq<Child>, fine: seq<bool>)
    requires j.Obj? && ElemsAt(j, ChildrenKey) == Ok(js) && n <= |js| == |want| == |fine|
    requires forall i :: 0 <= i < |js| ==>
               if fine[i] then DecodeChild(js[i]) == Ok(want[i]) else DecodeChild(js[i]).Err?
    ensures var back := DecodeChildren(j, js, n);
            if forall i :: 0 <= i < n ==> fine[i] then back == Ok(want[..n]) else back.Err?
  {
    if n > 0 {
      ChildrenBack(j, js, n - 1, want, fine);
      assert want[..n] == want[..n - 1] + [want[n - 1]];
    }
  }

  lemma {:induction false} CallsRoundTrip(o: Output, j: Json, js: seq<Json>)
    requires j.Obj? && ElemsAt(j, ToolCallsKey) == Ok(js) && |js| == |o.calls|
    requires forall i :: 0 <= i < |js| ==> js[i] == EncodeCall(o.calls[i])
    ensures var back := DecodeCalls(j, js, |js|);
            if CurrentCalls(o) then back == Ok(NormalOutput(o).calls) else back.Err?
    decreases o, 0
  {
    var want := NormalOutput(o).calls;
    var fine := seq(|js|, i requires 0 <= i < |js| => Current(o.calls[i].result.output));
    forall i | 0 <= i < |js|
      ensures if fine[i] then DecodeCall(js[i]) == Ok(want[i]) else DecodeCall(js[i]).Err?
    {
      CallRoundTrip(o.calls[i]);
    }
    CallsBack(j, js, |js|, want, fine);
    assert want[..|js|] == want;
    assert CurrentCalls(o) <==> forall i :: 0 <= i < |js| ==> fine[i];
  }

  lemma {:induction false} ChildrenRoundTrip(o: Output, j: Json, js: seq<Json>)
    requires j.Obj? && ElemsAt(j, ChildrenKey) == Ok(js) && |js| == |o.children|
    requires forall i :: 0 <= i < |js| ==> js[i] == EncodeChild(o.children[i])
    ensures var back := DecodeChildren(j, js, |js|);
            if CurrentChildren(o) then back == Ok(NormalOutput(o).children) else back.Err?
    decreases o, 0
  {
    var want := NormalOutput(o).children;
    var fine := seq(|js|, i requires 0 <= i < |js| => CurrentOutput(o.children[i].output));
    forall i | 0 <= i < |js|
      ensures if fine[i] then DecodeChild(js[i]) == Ok(want[i]) else DecodeChild(js[i]).Err?
    {
      ChildRoundTrip(o.children[i]);
    }
    ChildrenBack(j, js, |js|, want, fine);
    assert want[..|js|] == want;
    assert CurrentChildren(o) <==> forall i :: 0 <= i < |js| ==> fine[i];
  }

  lemma OutputFieldsKept(o: Output, calls: seq<Json>, children: seq<Json>)
    ensures var j := Obj(o.facts + NonEmpty(ToolCallsKey, calls) + NonEmpty(ChildrenKey, children));
            Facts(j.fields, OUTPUT_FIELDS) == o.facts
            && ElemsAt(j, ToolCallsKey) == Ok(calls) && ElemsAt(j, ChildrenKey) == Ok(children)
  {
    var more := NonEmpty(ToolCallsKey, calls) + NonEmpty(ChildrenKey, children);
    assert o.facts + NonEmpty(ToolCallsKey, calls) + NonEmpty(ChildrenKey, children) == o.facts + more;
    FactsKept(o.facts, more, OUTPUT_FIELDS);
  }

  lemma {:induction false} OutputRoundTrip(o: Output)
    ensures EncodeOutput(o).Obj?
    ensures var back := DecodeOutput(EncodeOutput(o));
            if CurrentOutput(o) then back == Ok(NormalOutput(o)) else back.Err?
    decreases o, 1
  {
    var j := EncodeOutput(o);
    var calls := seq(|o.calls|, i requires 0 <= i < |o.calls| => EncodeCall(o.calls[i]));
    var children := seq(|o.children|, i requires 0 <= i < |o.children| => EncodeChild(o.children[i]));
    OutputFieldsKept(o, calls, children);
    CallsRoundTrip(o, j, calls);
    ChildrenRoundTrip(o, j, children);
  }

  predicate IsRun(v: Go) { v.Run? || (v.Pointer? && v.to.Run?) }
  predicate IsStored(v: Go) { v.StoredResult? || (v.Pointer? && v.to.StoredResult?) }

  /** The Go type decides: a map is never taken for a child run or a stored result, whatever its fields
      say, and neither loses its type. */
  lemma TypedExactly(v: Go)
    requires Decode(Encode(v)).Ok?
    ensures var back := Decode(Encode(v)).value;
            (back.Run? <==> IsRun(v)) && (back.StoredResult? <==> IsStored(v))
  {
    RoundTrip(v);
    if !IsRun(v) && !IsStored(v) {
      assert Normal(v) == FromJson(Plain(v));
    }
  }

  /** A value that came back is a fixed point: storing it again changes nothing. */
  lemma {:induction false} NormalSettles(v: Go)
    requires Current(v)
    ensures Current(Normal(v)) && Normal(Normal(v)) == Normal(v)
    decreases v, 1
  {
    match v
    case Run(r) => OutputSettles(r.child.output);
    case StoredResult(s) => NormalSettles(s.result.output);
    case Pointer(w) => if w.Run? || w.StoredResult? { NormalSettles(w); } else { JsonSettles(Plain(v)); }
    case _ => JsonSettles(Plain(v));
  }

  lemma {:induction false} OutputSettles(o: Output)
    requires CurrentOutput(o)
    ensures CurrentOutput(NormalOutput(o)) && NormalOutput(NormalOutput(o)) == NormalOutput(o)
    decreases o, 1
  {
    var n := NormalOutput(o);
    forall i | 0 <= i < |o.calls|
      ensures Current(n.calls[i].result.output) && NormalCall(n.calls[i]) == n.calls[i]
    {
      var c := o.calls[i];
      NormalSettles(c.result.output);
      assert n.calls[i] == NormalCall(c) && NormalCall(c).result == NormalResult(c.result);
      assert n.calls[i].result.output == Normal(c.result.output);
    }
    forall i | 0 <= i < |o.children|
      ensures CurrentOutput(n.children[i].output) && NormalChild(n.children[i]) == n.children[i]
    {
      var c := o.children[i];
      OutputSettles(c.output);
      assert n.children[i] == NormalChild(c) && n.children[i].output == NormalOutput(c.output);
    }
    assert NormalOutput(NormalOutput(o)).calls == NormalOutput(o).calls;
    assert NormalOutput(NormalOutput(o)).children == NormalOutput(o).children;
  }

  lemma {:induction false} JsonSettles(j: Json)
    ensures Plain(FromJson(j)) == j
    ensures FromJson(j).Scalar? || FromJson(j).List? || FromJson(j).Map?
  {
    match j
    case Arr(js) =>
      forall i | 0 <= i < |js| ensures Plain(FromJson(js[i])) == js[i] { JsonSettles(js[i]); }
      assert Plain(FromJson(j)).elems == js;
    case Obj(m) =>
      forall k | k in m ensures Plain(FromJson(m[k])) == m[k] { JsonSettles(m[k]); }
      assert Plain(FromJson(j)).fields == m;
    case _ =>
  }

  lemma PayloadRoundTrip(t: ToolResult)
    ensures var back := DecodePayload(EncodePayload(t));
            if Current(t.output) then back == Ok(NormalResult(t)) else back.Err?
  {
    ResultRoundTrip(t);
  }
}
