/** Parsing keeps the meaning of a well-formed document, and parsing what was emitted gives the schema
    value back. */
module SchemaParse {
  import opened Wrappers
  import opened Schema
  import opened SchemaMeaning

  /** A length bound that survives: one that is read, or a least length that says nothing. */
  predicate LengthsFormed(m: map<Text, Json>) {
    && (KwMinLength in m && m[KwMinLength].Number? ==> Readable(m[KwMinLength].num) || Value(m[KwMinLength].num) <= 0.0)
    && (KwMaxLength in m && m[KwMaxLength].Number? ==> Readable(m[KwMaxLength].num))
  }

  /** A type is a name, or a list with at least one name. */
  predicate TypeFormed(m: map<Text, Json>) {
    KwType in m ==>
      match m[KwType]
      case Str(t) => t != Empty
      case Arr(_) => Strings(Get(m, KwType)) != [] && Empty !in Strings(Get(m, KwType))
      case _ => true
  }

  predicate WellFormed(raw: Json)
    decreases raw, 1
  {
    match raw
    case Bool(_) => true
    case Obj(m) =>
      && TypeFormed(m) && LengthsFormed(m)
      && (KwRef in m && m[KwRef].Str? ==> m[KwRef].text != Empty)
      && ListFormed(raw, KwAnyOf) && ListFormed(raw, KwOneOf) && ListFormed(raw, KwAllOf)
      && MapFormed(raw, KwProperties) && MapFormed(raw, KwDefs)
      && (KwItems in m && !m[KwItems].Arr? ==> WellFormed(m[KwItems]))
      && (KwAdditional in m ==> WellFormed(m[KwAdditional]))
      && (KwNot in m ==> WellFormed(m[KwNot]))
    case _ => false
  }

  predicate ListFormed(raw: Json, k: Text)
    requires raw.Obj?
    decreases raw, 0
  {
    k in raw.fields ==>
      raw.fields[k].Arr? && forall i :: 0 <= i < |raw.fields[k].elems| ==> WellFormed(raw.fields[k].elems[i])
  }

  predicate MapFormed(raw: Json, k: Text)
    requires raw.Obj?
    decreases raw, 0
  {
    k in raw.fields ==>
      raw.fields[k].Obj? && forall p :: p in raw.fields[k].fields ==> WellFormed(raw.fields[k].fields[p])
  }

  // ---- the keywords without subschemas ----

  ghost predicate FlatParsed(m: map<Text, Json>, s: Schema) {
    && s.ref == TextOf(Get(m, KwRef)) && s.kind == TextOf(Get(m, KwType))
    && s.pattern == TextOf(Get(m, KwPattern)) && s.format == TextOf(Get(m, KwFormat))
    && s.minimum == NumberOf(Get(m, KwMinimum)) && s.maximum == NumberOf(Get(m, KwMaximum))
    && s.minLength == IntOf(Get(m, KwMinLength)) && s.maxLength == IntOf(Get(m, KwMaxLength))
    && s.required == Strings(Get(m, KwRequired)) && s.rest == Rest(m)
    && s.enum == (if KwEnum in m && m[KwEnum].Arr? then Some(m[KwEnum].elems) else None)
  }

  /** The names of a type list. */
  function Union(m: map<Text, Json>): seq<Text> {
    if KwType in m && m[KwType].Arr? then Strings(Get(m, KwType)) else []
  }

  ghost predicate ListsParsed(raw: Json, s: Schema)
    requires raw.Obj?
  {
    var names, anyOf, allOf := Union(raw.fields), ParseList(raw, KwAnyOf), ParseList(raw, KwAllOf);
    && s.oneOf == ParseList(raw, KwOneOf) && s.not == ParseSub(raw, KwNot)
    && s.anyOf == (if |names| > 0 && anyOf.NoList? then List(Bares(names)) else anyOf)
    && s.allOf == (if |names| > 0 && anyOf.List? then
                     List((if allOf.List? then allOf.all else []) + [BLANK.(anyOf := List(Bares(names)))])
                   else allOf)
  }

  lemma ParseFields(raw: Json)
    requires raw.Obj?
    ensures FlatParsed(raw.fields, Parse(raw)) && ListsParsed(raw, Parse(raw))
    ensures Parse(raw).properties == ParseMap(raw, KwProperties) && Parse(raw).defs == ParseMap(raw, KwDefs)
    ensures Parse(raw).items == ParseSub(raw, KwItems)
  {
  }

  lemma KeptIsRest(raw: Json)
    requires raw.Obj?
    ensures Kept(Parse(raw)) == Rest(raw.fields)
  {
    ParseFields(raw);
    RestIsKept(raw, Parse(raw));
  }

  lemma RestIsKept(raw: Json, s: Schema)
    requires raw.Obj? && s.rest == Rest(raw.fields) && s.items == ParseSub(raw, KwItems)
    ensures Kept(s) == Rest(raw.fields)
  {
    forall k ensures k in Kept(s) <==> k in Rest(raw.fields) { }
  }

  lemma ParseBounds(m: map<Text, Json>, s: Schema, x: Json)
    requires FlatParsed(m, s) && LengthsFormed(m)
    ensures BoundsOk(m, x) <==> BoundsMeaning(s, x)
  {
  }

  lemma ParseTexts(w: World, m: map<Text, Json>, s: Schema, x: Json)
    requires FlatParsed(m, s) && (KwRef in m && m[KwRef].Str? ==> m[KwRef].text != Empty)
    ensures TextsOk(w, m, x) <==> TextsMeaning(w, s, x)
  {
  }

  lemma {:induction false} UnionMembers(js: seq<Json>, x: Json)
    ensures (exists i :: 0 <= i < |js| && js[i].Str? && HasType(js[i].text, x))
       <==> exists i :: 0 <= i < |StringsIn(js)| && HasType(StringsIn(js)[i], x)
  {
    if js != [] {
      UnionMembers(js[1..], x);
      var head := if js[0].Str? then [js[0].text] else [];
      var tail := StringsIn(js[1..]);
      assert StringsIn(js) == head + tail;
      assert forall i :: 0 <= i < |tail| ==> StringsIn(js)[|head| + i] == tail[i];
      assert forall i :: 0 <= i < |js[1..]| ==> js[1..][i] == js[i + 1];
      if i :| 0 <= i < |js| && js[i].Str? && HasType(js[i].text, x) {
        if i > 0 { assert js[1..][i - 1] == js[i]; } else { assert StringsIn(js)[0] == js[0].text; }
      }
      if i :| 0 <= i < |StringsIn(js)| && HasType(StringsIn(js)[i], x) {
        if i >= |head| {
          assert tail[i - |head|] == StringsIn(js)[i];
        }
      }
    }
  }

  predicate InUnion(names: seq<Text>, x: Json) {
    names != [] ==> exists i :: 0 <= i < |names| && HasType(names[i], x)
  }

  lemma ParseType(m: map<Text, Json>, s: Schema, x: Json)
    requires FlatParsed(m, s) && TypeFormed(m)
    ensures TypeOk(m, x) <==> KindMeaning(s.kind, x) && InUnion(Union(m), x)
  {
    if KwType in m && m[KwType].Arr? {
      UnionMembers(m[KwType].elems, x);
      assert Union(m) == StringsIn(m[KwType].elems) && s.kind == Empty;
      assert InUnion(Union(m), x) <==> TypeOk(m, x);
    }
  }

  lemma ParseFlat(w: World, raw: Json, x: Json)
    requires raw.Obj? && WellFormed(raw)
    ensures FlatOk(w, raw.fields, x) <==> FlatMeaning(w, Parse(raw), x) && InUnion(Union(raw.fields), x)
  {
    var m, s := raw.fields, Parse(raw);
    ParseFields(raw);
    KeptIsRest(raw);
    ParseValues(m, s, x);
    ParseWords(w, m, s, x);
  }

  lemma ParseValues(m: map<Text, Json>, s: Schema, x: Json)
    requires FlatParsed(m, s) && TypeFormed(m) && LengthsFormed(m)
    ensures ValuesOk(m, x) <==> ValuesMeaning(s, x) && InUnion(Union(m), x)
  {
    ParseBounds(m, s, x);
    ParseType(m, s, x);
    ParseEnum(m, s, x);
  }

  lemma ParseEnum(m: map<Text, Json>, s: Schema, x: Json)
    requires FlatParsed(m, s)
    ensures EnumOk(m, x) <==> EnumMeaning(s, x)
  {
  }

  lemma ParseWords(w: World, m: map<Text, Json>, s: Schema, x: Json)
    requires FlatParsed(m, s) && (KwRef in m && m[KwRef].Str? ==> m[KwRef].text != Empty) && Kept(s) == Rest(m)
    ensures WordsOk(w, m, x) <==> WordsMeaning(w, s, x)
  {
    ParseTexts(w, m, s, x);
    ParseRequired(m, s, x);
  }

  lemma ParseRequired(m: map<Text, Json>, s: Schema, x: Json)
    requires FlatParsed(m, s)
    ensures RequiredOk(m, x) <==> Has(s.required, x)
  {
  }

  // ---- the keywords with subschemas ----

  lemma BareMeaning(w: World, name: Text, x: Json)
    ensures Meaning(w, Bare(name), x) <==> (name != Empty ==> HasType(name, x))
  {
    SparseMeaning(w, Bare(name), x);
    BareFlat(w, name, x);
  }

  /** Where nothing else is said, the flat keywords are the meaning. */
  lemma SparseMeaning(w: World, s: Schema, x: Json)
    requires s.properties == map[] && s.additional == Unset && s.items == NoSub && s.not == NoSub
    requires s.anyOf == s.oneOf == s.allOf == NoList
    ensures Meaning(w, s, x) <==> FlatMeaning(w, s, x)
  {
  }

  lemma BareFlat(w: World, name: Text, x: Json)
    ensures FlatMeaning(w, Bare(name), x) <==> (name != Empty ==> HasType(name, x))
  {
    assert Kept(Bare(name)) == map[];
  }

  lemma OnlyList(w: World, l: List, x: Json)
    requires l.List?
    ensures Meaning(w, BLANK.(anyOf := l), x) <==> Any(Readings(w, l, x))
  {
    var s := BLANK.(anyOf := l);
    assert Kept(s) == map[];
    assert FlatMeaning(w, s, x);
    assert ListsMeaning(w, s, x) <==> Any(Readings(w, l, x));
  }

  lemma UnionMeaning(w: World, names: seq<Text>, x: Json)
    requires names != [] && Empty !in names
    ensures Any(Readings(w, List(Bares(names)), x)) <==> InUnion(names, x)
    ensures Meaning(w, BLANK.(anyOf := List(Bares(names))), x) <==> InUnion(names, x)
  {
    var rs := Readings(w, List(Bares(names)), x);
    forall i | 0 <= i < |names| ensures rs[i] == HasType(names[i], x) {
      BareMeaning(w, names[i], x);
    }
    if InUnion(names, x) {
      var i :| 0 <= i < |names| && HasType(names[i], x);
      assert rs[i];
    }
    OnlyList(w, List(Bares(names)), x);
  }

  lemma {:induction false} ParseProperties(w: World, raw: Json, x: Json)
    requires raw.Obj? && WellFormed(raw)
    ensures forall p :: Declared(raw.fields, p) <==> p in Parse(raw).properties
    ensures PropertiesOk(w, raw, x) <==> PropertiesMeaning(w, Parse(raw), x)
    decreases raw, 0
  {
    ParseFields(raw);
    var s := Parse(raw);
    assert MapFormed(raw, KwProperties);
    if x.Obj? {
      forall p | p in x.fields && p in s.properties
        ensures Valid(w, raw.fields[KwProperties].fields[p], x.fields[p]) <==> Meaning(w, s.properties[p], x.fields[p])
      {
        ParseSound(w, raw.fields[KwProperties].fields[p], x.fields[p]);
      }
    }
  }

  lemma ParseAdditionalForm(raw: Json)
    requires raw.Obj? && (KwAdditional in raw.fields ==> IsSchema(raw.fields[KwAdditional]))
    ensures var m, a := raw.fields, Parse(raw).additional;
            if KwAdditional !in m then a == Unset
            else if m[KwAdditional].Bool? then a == Flag(m[KwAdditional].b)
            else a == Each(Parse(m[KwAdditional]))
  {
  }

  lemma {:induction false} ParseAdditional(w: World, raw: Json, x: Json)
    requires raw.Obj? && WellFormed(raw)
    requires forall p :: Declared(raw.fields, p) <==> p in Parse(raw).properties
    ensures AdditionalOk(w, raw, x) <==> AdditionalMeaning(w, Parse(raw), x)
    decreases raw, 0
  {
    KeptIsRest(raw);
    ParseAdditionalForm(raw);
    var m := raw.fields;
    if x.Obj? && KwAdditional in m && m[KwAdditional].Obj? {
      forall p | p in x.fields
        ensures Valid(w, m[KwAdditional], x.fields[p]) <==> Meaning(w, Parse(m[KwAdditional]), x.fields[p])
      {
        ParseSound(w, m[KwAdditional], x.fields[p]);
      }
    }
  }

  lemma {:induction false} ParseItems(w: World, raw: Json, x: Json)
    requires raw.Obj? && WellFormed(raw)
    ensures ItemsOk(w, raw, x) <==> ItemsMeaning(w, Parse(raw), x)
    decreases raw, 0
  {
    KeptIsRest(raw);
    ParseFields(raw);
    var m := raw.fields;
    if x.Arr? && KwItems in m && IsSchema(m[KwItems]) {
      forall i | 0 <= i < |x.elems|
        ensures Valid(w, m[KwItems], x.elems[i]) <==> Meaning(w, Parse(m[KwItems]), x.elems[i])
      {
        ParseSound(w, m[KwItems], x.elems[i]);
      }
    }
  }

  lemma {:induction false} ParseVerdicts(w: World, raw: Json, k: Text, x: Json)
    requires raw.Obj? && ListFormed(raw, k)
    ensures ListAgrees(w, raw, k, ParseList(raw, k), x)
    decreases raw, 0
  {
    if k in raw.fields {
      var js := raw.fields[k].elems;
      assert SchemasIn(js) == js;
      forall i | 0 <= i < |js| ensures Valid(w, js[i], x) == Meaning(w, Parse(js[i]), x) {
        ParseSound(w, js[i], x);
      }
      assert Verdicts(w, raw, k, x) == Readings(w, ParseList(raw, k), x);
    }
  }

  lemma {:induction false} ParseNot(w: World, raw: Json, s: Schema, x: Json)
    requires raw.Obj? && (KwNot in raw.fields ==> WellFormed(raw.fields[KwNot])) && s.not == ParseSub(raw, KwNot)
    ensures NotAgrees(w, raw, s, x)
    decreases raw, 0
  {
    if KwNot in raw.fields { ParseSound(w, raw.fields[KwNot], x); }
  }

  lemma AllOfOneMore(w: World, all: seq<Schema>, t: Schema, x: Json)
    ensures All(Readings(w, List(all + [t]), x)) <==> All(Readings(w, List(all), x)) && Meaning(w, t, x)
  {
    var rs := Readings(w, List(all + [t]), x);
    assert rs == Readings(w, List(all), x) + [Meaning(w, t, x)];
    assert rs[|all|] == Meaning(w, t, x);
    if All(rs) {
      forall i | 0 <= i < |all| ensures Readings(w, List(all), x)[i] { assert rs[i]; }
    }
  }

  /** The type list goes where it takes nothing away: into a free anyOf, or as one more member of allOf. */
  lemma UnionPlaced(w: World, raw: Json, s: Schema, plain: Schema, x: Json)
    requires raw.Obj? && ListsParsed(raw, s) && TypeFormed(raw.fields)
    requires plain == s.(anyOf := ParseList(raw, KwAnyOf), allOf := ParseList(raw, KwAllOf))
    ensures ListsMeaning(w, s, x) <==> ListsMeaning(w, plain, x) && InUnion(Union(raw.fields), x)
  {
    var names := Union(raw.fields);
    if names != [] {
      UnionMeaning(w, names, x);
      if plain.anyOf.List? {
        AllOfOneMore(w, if plain.allOf.List? then plain.allOf.all else [], BLANK.(anyOf := List(Bares(names))), x);
      }
    }
  }

  lemma {:induction false} ParseLists(w: World, raw: Json, x: Json)
    requires raw.Obj? && WellFormed(raw)
    ensures ListsOk(w, raw, x) && InUnion(Union(raw.fields), x) <==> ListsMeaning(w, Parse(raw), x)
    decreases raw, 1
  {
    ParseFields(raw);
    var s := Parse(raw);
    var plain := s.(anyOf := ParseList(raw, KwAnyOf), allOf := ParseList(raw, KwAllOf));
    ParseVerdicts(w, raw, KwAnyOf, x);
    ParseVerdicts(w, raw, KwOneOf, x);
    ParseVerdicts(w, raw, KwAllOf, x);
    ParseNot(w, raw, plain, x);
    ListsAgree(w, raw, plain, x);
    UnionPlaced(w, raw, s, plain, x);
  }

  lemma BooleanSound(w: World, b: bool, x: Json)
    ensures Meaning(w, Parse(Bool(b)), x) <==> b
  {
    BlankMeaning(w, x);
    if !b {
      assert !ListsMeaning(w, BLANK.(not := Sub(BLANK)), x);
    }
  }

  lemma BlankMeaning(w: World, x: Json)
    ensures Meaning(w, BLANK, x)
  {
    assert Kept(BLANK) == map[];
    assert FlatMeaning(w, BLANK, x);
  }

  /** A well-formed document is parsed into a schema value that accepts the same instances. */
  lemma {:induction false} ParseSound(w: World, raw: Json, x: Json)
    requires IsSchema(raw) && WellFormed(raw)
    ensures Valid(w, raw, x) <==> Meaning(w, Parse(raw), x)
    decreases raw, 2
  {
    if raw.Bool? {
      BooleanSound(w, raw.b, x);
    } else {
      ParseFlat(w, raw, x);
      ParseProperties(w, raw, x);
      ParseAdditional(w, raw, x);
      ParseItems(w, raw, x);
      ParseLists(w, raw, x);
    }
  }
}