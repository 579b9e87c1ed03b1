/** The converter's loops, which fill lists and maps one entry at a time. */
module SchemaLoops {
  import opened Wrappers
  import opened Schema

  lemma {:induction false} StringsAppend(js: seq<Json>, j: Json)
    ensures StringsIn(js + [j]) == StringsIn(js) + StringsIn([j])
  {
    if js == [] {
      assert js + [j] == [j];
    } else {
      assert (js + [j])[1..] == js[1..] + [j];
      StringsAppend(js[1..], j);
    }
  }

  method SchemaStringSlice(raw: Option<Json>) returns (names: seq<Text>)
    ensures names == Strings(raw)
  {
    names := [];
    if raw.Some? && raw.value.Arr? {
      var js := raw.value.elems;
      for i := 0 to |js|
        invariant names == StringsIn(js[..i])
      {
        assert js[..i + 1] == js[..i] + [js[i]];
        StringsAppend(js[..i], js[i]);
        if js[i].Str? {
          names := names + [js[i].text];
        }
      }
      assert js[..|js|] == js;
    }
  }

  lemma {:induction false} SchemasAppend(js: seq<Json>, j: Json)
    ensures SchemasIn(js + [j]) == SchemasIn(js) + if IsSchema(j) then [j] else []
  {
    if js == [] {
      assert SchemasIn([j]) == (if IsSchema(j) then [j] else []) + SchemasIn([]);
    } else {
      assert (js + [j])[1..] == js[1..] + [j];
      SchemasAppend(js[1..], j);
    }
  }

  function Parsed(js: seq<Json>): seq<Schema> {
    var kept := SchemasIn(js);
    seq(|kept|, i requires 0 <= i < |kept| => Parse(kept[i]))
  }

  lemma ParsedAppend(js: seq<Json>, j: Json)
    ensures Parsed(js + [j]) == Parsed(js) + if IsSchema(j) then [Parse(j)] else []
  {
    SchemasAppend(js, j);
  }

  method ParseSchemaList(raw: Json, k: Text) returns (l: List)
    requires raw.Obj?
    ensures l == ParseList(raw, k)
  {
    if k !in raw.fields || !raw.fields[k].Arr? {
      return NoList;
    }
    var js := raw.fields[k].elems;
    var all: seq<Schema> := [];
    for i := 0 to |js|
      invariant all == Parsed(js[..i])
    {
      assert js[..i + 1] == js[..i] + [js[i]];
      ParsedAppend(js[..i], js[i]);
      if IsSchema(js[i]) {
        all := all + [Parse(js[i])];
      }
    }
    assert js[..|js|] == js;
    return List(all);
  }

  /** The entries come up in any order. */
  method ParseSchemas(raw: Json, k: Text) returns (parsed: map<Text, Schema>)
    requires raw.Obj?
    ensures parsed == ParseMap(raw, k)
  {
    parsed := map[];
    if k in raw.fields && raw.fields[k].Obj? {
      var m := raw.fields[k].fields;
      var rest := m.Keys;
      while rest != {}
        invariant rest <= m.Keys
        invariant parsed == map p | p in m && p !in rest && IsSchema(m[p]) :: Parse(m[p])
        decreases rest
      {
        var p :| p in rest;
        rest := rest - {p};
        if IsSchema(m[p]) {
          parsed := parsed[p := Parse(m[p])];
        }
      }
    }
  }

  method SchemaListToSDK(l: seq<Schema>) returns (js: seq<Json>)
    ensures EmitList(List(l)) == Some(Arr(js))
  {
    js := [];
    for i := 0 to |l|
      invariant |js| == i && forall n :: 0 <= n < i ==> js[n] == Emit(l[n], false)
    {
      js := js + [Emit(l[i], false)];
    }
    assert EmitList(List(l)).value.elems == js;
  }
}
