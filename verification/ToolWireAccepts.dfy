/** Which stored tool outputs are read back at all. */
module ToolWireAccepts {
  import opened ToolWire

  /** A field that is absent, null or as it should be. */
  predicate Optional(m: map<Key, Json>, k: Key, fits: Json -> bool) { k !in m || m[k] == Null || fits(m[k]) }

  /** Version 1 of one of the three kinds, with data of that kind. */
  predicate Acceptable(w: Wire)
    decreases w.data, 2
  {
    && w.version == 1
    && (w.kind == JSON_KIND || (w.kind == RUN_KIND && RunOk(w.data)) || (w.kind == STORED_KIND && StoredOk(w.data)))
  }

  predicate RunOk(j: Json)
    decreases j, 1
  {
    && j.Obj? && VersionKey in j.fields && j.fields[VersionKey] == Int(1)
    && (ChildKey in j.fields ==> ChildOk(j.fields[ChildKey]))
  }

  predicate StoredOk(j: Json)
    decreases j, 1
  {
    j.Obj? && ResultKey in j.fields && ResultOk(j.fields[ResultKey])
  }

  /** A result with its typed output; success is false and the error empty where they are left out. */
  predicate ResultOk(j: Json)
    decreases j, 3
  {
    && j.Obj? && OutputKey in j.fields && TypedOk(j.fields[OutputKey])
    && Optional(j.fields, SuccessKey, (x: Json) => x.Bool?) && Optional(j.fields, ErrorKey, (x: Json) => x.Str?)
  }

  predicate TypedOk(j: Json)
    decreases j, 3
  {
    && j.Obj? && KindKey in j.fields && j.fields[KindKey].Str?
    && WireVersionKey in j.fields && j.fields[WireVersionKey] == Int(1)
    && DataKey in j.fields && Acceptable(Wire(j.fields[KindKey].text, 1, j.fields[DataKey]))
  }

  /** A null child is the empty one. */
  predicate ChildOk(j: Json)
    decreases j, 1
  {
    j == Null
    || (j.Obj? && (OutputKey in j.fields && j.fields[OutputKey] != Null ==> OutputOk(j.fields[OutputKey])))
  }

  predicate OutputOk(j: Json)
    decreases j, 1
  {
    && j.Obj?
    && Optional(j.fields, ToolCallsKey, (x: Json) => x.Arr?) && Optional(j.fields, ChildrenKey, (x: Json) => x.Arr?)
    && (ToolCallsKey in j.fields && j.fields[ToolCallsKey].Arr? ==>
          var js := j.fields[ToolCallsKey].elems; forall i :: 0 <= i < |js| ==> CallOk(js[i]))
    && (ChildrenKey in j.fields && j.fields[ChildrenKey].Arr? ==>
          var js := j.fields[ChildrenKey].elems; forall i :: 0 <= i < |js| ==> ChildOk(js[i]))
  }

  predicate CallOk(j: Json)
    decreases j, 1
  {
    j.Obj? && ResultKey in j.fields && ResultOk(j.fields[ResultKey])
  }

  /** A stored output is read exactly when it is of version 1 and of a known kind at every typed place in it, and
      each of its fields has the right form. */
  lemma {:induction false} AcceptedExactly(w: Wire)
    ensures Decode(w).Ok? <==> Acceptable(w)
    ensures w.version != 1 ==> Decode(w) == Err(WireVersion)
    ensures w.version == 1 && w.kind !in {JSON_KIND, RUN_KIND, STORED_KIND} ==> Decode(w) == Err(UnknownKind)
    decreases w.data, 2
  {
    if w.version == 1 && w.data.Obj? {
      if w.kind == RUN_KIND { RunAccepted(w.data); }
      else if w.kind == STORED_KIND { ResultAtAccepted(w.data); }
    }
  }

  lemma {:induction false} RunAccepted(j: Json)
    requires j.Obj?
    ensures DecodeRun(j).Ok? <==> RunOk(j)
    decreases j, 1
  {
    if Given(j.fields, ChildKey) { ChildAccepted(j.fields[ChildKey]); }
  }

  lemma {:induction false} ResultAtAccepted(j: Json)
    requires j.Obj?
    ensures DecodeResultAt(j).Ok? <==> ResultKey in j.fields && ResultOk(j.fields[ResultKey])
    decreases j, 0
  {
    if Given(j.fields, ResultKey) { ResultAccepted(j.fields[ResultKey]); }
  }

  lemma {:induction false} ResultAccepted(j: Json)
    ensures DecodeResult(j).Ok? <==> ResultOk(j)
    decreases j, 3
  {
    if j.Obj? && Given(j.fields, OutputKey) && j.fields[OutputKey].Obj? { TypedAccepted(j.fields[OutputKey]); }
  }

  lemma {:induction false} TypedAccepted(j: Json)
    requires j.Obj?
    ensures DecodeWire(j).Ok? <==> TypedOk(j)
    decreases j, 3
  {
    if DataKey in j.fields {
      AcceptedExactly(Wire(if Given(j.fields, KindKey) && j.fields[KindKey].Str? then j.fields[KindKey].text else "", 1,
                           j.fields[DataKey]));
    }
  }

  lemma {:induction false} ChildAccepted(j: Json)
    ensures DecodeChild(j).Ok? <==> ChildOk(j)
    decreases j, 1
  {
    if j.Obj? && Given(j.fields, OutputKey) { OutputAccepted(j.fields[OutputKey]); }
  }

  lemma {:induction false} OutputAccepted(j: Json)
    ensures DecodeOutput(j).Ok? <==> OutputOk(j)
    decreases j, 1
  {
    if j.Obj? && ElemsAt(j, ToolCallsKey).Ok? && ElemsAt(j, ChildrenKey).Ok? {
      var cs, ks := ElemsAt(j, ToolCallsKey).value, ElemsAt(j, ChildrenKey).value;
      CallsAccepted(j, cs, |cs|);
      ChildrenAccepted(j, ks, |ks|);
    }
  }

  lemma {:induction false} CallsAccepted(j: Json, js: seq<Json>, n: nat)
    requires j.Obj? && ElemsAt(j, ToolCallsKey) == Ok(js) && n <= |js|
    ensures DecodeCalls(j, js, n).Ok? <==> forall i :: 0 <= i < n ==> CallOk(js[i])
    decreases j, 0, n
  {
    if n > 0 {
      CallsAccepted(j, js, n - 1);
      if js[n - 1].Obj? { ResultAtAccepted(js[n - 1]); }
    }
  }

  lemma {:induction false} ChildrenAccepted(j: Json, js: seq<Json>, n: nat)
    requires j.Obj? && ElemsAt(j, ChildrenKey) == Ok(js) && n <= |js|
    ensures DecodeChildren(j, js, n).Ok? <==> forall i :: 0 <= i < n ==> ChildOk(js[i])
    decreases j, 0, n
  {
    if n > 0 {
      ChildrenAccepted(j, js, n - 1);
      ChildAccepted(js[n - 1]);
    }
  }

  /** A kept payload is read exactly when it is of its kind, of version 1 and a result. */
  lemma PayloadAcceptedExactly(w: Wire)
    ensures DecodePayload(w).Ok? <==> w.kind == PAYLOAD_KIND && w.version == 1 && ResultOk(w.data)
  {
    ResultAccepted(w.data);
  }

  /** What is read is of the kind that was stored: JSON gives plain values only. */
  lemma KindDecides(w: Wire)
    requires Acceptable(w)
    ensures Decode(w).Ok?
    ensures var v := Decode(w).value;
            && (v.Run? <==> w.kind == RUN_KIND) && (v.StoredResult? <==> w.kind == STORED_KIND)
            && (w.kind == JSON_KIND ==> v == FromJson(w.data))
  {
    AcceptedExactly(w);
  }
}
