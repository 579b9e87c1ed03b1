/** Received, translated and returned: the documents a schema passes through accept the same instances,
    and a schema value survives being emitted and parsed again. */
module SchemaRoundTrip {
  import opened Wrappers
  import opened Schema
  import opened SchemaMeaning
  import opened SchemaParse

  // ---- emitted schema values parse back ----

  /** A schema value as the parser makes them: no entry shadows a keyword. */
  ghost predicate Clean(s: Schema)
    decreases s, 1
  {
    CleanTop(s) && CleanObject(s) && CleanList(s.anyOf) && CleanList(s.oneOf) && CleanList(s.allOf)
    && (s.not.Sub? ==> Clean(s.not.schema))
  }

  ghost predicate CleanTop(s: Schema) {
    && (forall k :: k in s.rest ==> IsRest(k, s.rest[k]) && (k == KwItems ==> s.items.NoSub?))
    && (forall k :: k in s.notes ==> IsNote(k, s.notes[k]))
  }

  ghost predicate CleanObject(s: Schema)
    decreases s, 0
  {
    && (forall p :: p in s.defs ==> Clean(s.defs[p])) && (forall p :: p in s.properties ==> Clean(s.properties[p]))
    && (s.items.Sub? ==> Clean(s.items.schema)) && (s.additional.Each? ==> Clean(s.additional.schema))
  }

  ghost predicate CleanList(l: List)
    decreases l
  {
    l.List? ==> forall i :: 0 <= i < |l.all| ==> Clean(l.all[i])
  }

  lemma {:induction false} ParsedListIsClean(raw: Json, k: Text)
    requires raw.Obj?
    ensures CleanList(ParseList(raw, k))
    decreases raw, 0
  {
    if k in raw.fields && raw.fields[k].Arr? {
      var kept := SchemasIn(raw.fields[k].elems);
      forall i | 0 <= i < |kept| ensures Clean(Parse(kept[i])) { ParsedIsClean(kept[i]); }
    }
  }

  lemma {:induction false} ParsedMapIsClean(raw: Json, k: Text)
    requires raw.Obj?
    ensures forall p :: p in ParseMap(raw, k) ==> Clean(ParseMap(raw, k)[p])
    decreases raw, 0
  {
    forall p | p in ParseMap(raw, k) ensures Clean(ParseMap(raw, k)[p]) { ParsedIsClean(raw.fields[k].fields[p]); }
  }

  lemma {:induction false} ParsedSubIsClean(raw: Json, k: Text)
    requires raw.Obj? && ParseSub(raw, k).Sub?
    ensures Clean(ParseSub(raw, k).schema)
    decreases raw, 0
  {
    ParsedIsClean(raw.fields[k]);
  }

  lemma BaresAreClean(names: seq<Text>)
    ensures CleanList(List(Bares(names))) && Clean(BLANK.(anyOf := List(Bares(names))))
  {
    forall i | 0 <= i < |names| ensures Clean(Bare(names[i])) { }
  }

  lemma PlacedIsClean(raw: Json, s: Schema)
    requires raw.Obj? && ListsParsed(raw, s) && CleanList(ParseList(raw, KwAnyOf)) && CleanList(ParseList(raw, KwAllOf))
    ensures CleanList(s.anyOf) && CleanList(s.allOf)
  {
    BaresAreClean(Union(raw.fields));
  }

  lemma {:induction false} ParsedObjectIsClean(raw: Json)
    requires raw.Obj?
    ensures CleanObject(Parse(raw))
    decreases raw, 1
  {
    var s := Parse(raw);
    ParseFields(raw);
    ParsedMapIsClean(raw, KwProperties);
    ParsedMapIsClean(raw, KwDefs);
    if s.items.Sub? { ParsedSubIsClean(raw, KwItems); }
    if s.additional.Each? { ParsedIsClean(raw.fields[KwAdditional]); }
  }

  lemma ParsedTopIsClean(raw: Json)
    requires raw.Obj?
    ensures CleanTop(Parse(raw))
  {
  }

  lemma {:induction false} ParsedIsClean(raw: Json)
    requires IsSchema(raw)
    ensures Clean(Parse(raw))
    decreases raw, 2
  {
    if raw.Obj? {
      var s := Parse(raw);
      ParseFields(raw);
      ParsedTopIsClean(raw);
      ParsedObjectIsClean(raw);
      ParsedListIsClean(raw, KwAnyOf);
      ParsedListIsClean(raw, KwOneOf);
      ParsedListIsClean(raw, KwAllOf);
      PlacedIsClean(raw, s);
      if s.not.Sub? { ParsedSubIsClean(raw, KwNot); }
    }
  }

  lemma FlatReparsed(m: map<Text, Json>, s: Schema, root: bool)
    requires Emitted(m, s, root)
    ensures TextOf(Get(m, KwRef)) == s.ref && TextOf(Get(m, KwType)) == Kind(s, root) && Union(m) == []
    ensures TextOf(Get(m, KwPattern)) == s.pattern && TextOf(Get(m, KwFormat)) == s.format
    ensures Strings(Get(m, KwRequired)) == s.required
    ensures (if KwEnum in m && m[KwEnum].Arr? then Some(m[KwEnum].elems) else None) == s.enum
  {
    NamesReparsed(m, s, root);
    WordsReparsed(m, s, root);
    RequiredReparsed(m, s, root);
    EnumAt(m, s, root, KwEnum);
  }

  lemma NamesReparsed(m: map<Text, Json>, s: Schema, root: bool)
    requires Emitted(m, s, root)
    ensures TextOf(Get(m, KwRef)) == s.ref && TextOf(Get(m, KwType)) == Kind(s, root) && Union(m) == []
  {
    WordAt(m, s, root, KwRef, s.ref);
    WordAt(m, s, root, KwType, Kind(s, root));
  }

  lemma WordsReparsed(m: map<Text, Json>, s: Schema, root: bool)
    requires Emitted(m, s, root)
    ensures TextOf(Get(m, KwPattern)) == s.pattern && TextOf(Get(m, KwFormat)) == s.format
  {
    WordAt(m, s, root, KwPattern, s.pattern);
    WordAt(m, s, root, KwFormat, s.format);
  }

  lemma RequiredReparsed(m: map<Text, Json>, s: Schema, root: bool)
    requires Emitted(m, s, root)
    ensures Strings(Get(m, KwRequired)) == s.required
  {
    StringsOfStrs(s.required);
    RequiredAt(m, s, root, KwRequired);
  }

  lemma BoundsReparsed(m: map<Text, Json>, s: Schema, root: bool)
    requires Emitted(m, s, root)
    ensures NumberOf(Get(m, KwMinimum)) == s.minimum && NumberOf(Get(m, KwMaximum)) == s.maximum
    ensures IntOf(Get(m, KwMinLength)) == s.minLength && IntOf(Get(m, KwMaxLength)) == s.maxLength
  {
    BoundsAt(m, s, root, KwMinimum, KwMaximum);
    LengthsAt(m, s, root, KwMinLength, KwMaxLength);
  }

  ghost predicate ItemsEmitted(m: map<Text, Json>, s: Schema) {
    if s.items.Sub? then Get(m, KwItems) == EmitSub(s.items) else (KwItems in m ==> !IsSchema(m[KwItems]))
  }

  lemma DefinitionsEmitted(m: map<Text, Json>, s: Schema, root: bool)
    requires Emitted(m, s, root)
    ensures MapEmitted(m, KwDefs, s.defs) && (s.defs != map[] ==> KwDefs in m)
  {
    DefinitionsAt(m, s, root, KwDefs);
  }

  lemma DefinitionsAt(m: map<Text, Json>, s: Schema, root: bool, k: Text)
    requires Emitted(m, s, root) && k == KwDefs
    ensures MapEmitted(m, k, s.defs) && (s.defs != map[] ==> k in m)
  {
    assert At(m, s, root, k);
  }

  lemma ItemsEntry(m: map<Text, Json>, s: Schema, root: bool)
    requires Emitted(m, s, root)
    ensures ItemsEmitted(m, s)
  {
    ItemsAt(m, s, root, KwItems);
  }

  lemma {:induction false} PropertiesReparsed(raw: Json, s: Schema)
    requires raw.Obj? && MapEmitted(raw.fields, KwProperties, s.properties) && CleanObject(s)
    ensures ParseMap(raw, KwProperties) == s.properties
    decreases s, 0
  {
    forall p | p in s.properties ensures Parse(Emit(s.properties[p], false)) == s.properties[p] {
      Reparsed(s.properties[p], false);
    }
  }

  lemma {:induction false} DefinitionsReparsed(raw: Json, s: Schema)
    requires raw.Obj? && MapEmitted(raw.fields, KwDefs, s.defs) && CleanObject(s)
    ensures ParseMap(raw, KwDefs) == s.defs
    decreases s, 0
  {
    forall p | p in s.defs ensures Parse(Emit(s.defs[p], false)) == s.defs[p] {
      Reparsed(s.defs[p], false);
    }
  }

  lemma {:induction false} ListReparsed(raw: Json, k: Text, l: List)
    requires raw.Obj? && Get(raw.fields, k) == EmitList(l) && CleanList(l)
    ensures ParseList(raw, k) == l
    decreases l
  {
    if l.List? {
      var js := raw.fields[k].elems;
      forall i | 0 <= i < |js| ensures IsSchema(js[i]) { EmitFields(l.all[i], false); }
      assert SchemasIn(js) == js;
      forall i | 0 <= i < |js| ensures Parse(js[i]) == l.all[i] { Reparsed(l.all[i], false); }
      assert ParseList(raw, k).all == l.all;
    }
  }

  lemma {:induction false} SubReparsed(raw: Json, k: Text, u: Sub)
    requires raw.Obj? && (u.Sub? ==> Get(raw.fields, k) == EmitSub(u) && Clean(u.schema))
    requires u.NoSub? && k in raw.fields ==> !IsSchema(raw.fields[k])
    ensures ParseSub(raw, k) == u
    decreases u
  {
    if u.Sub? { Reparsed(u.schema, false); }
  }

  lemma {:induction false} AdditionalReparsed(raw: Json, a: Additional)
    requires raw.Obj? && AdditionalEmitted(raw.fields, a) && (a.Each? ==> Clean(a.schema))
    ensures Parse(raw).additional == a
    decreases a
  {
    if a.Each? { Reparsed(a.schema, false); }
    ParseAdditionalForm(raw);
  }

  lemma NoteEntry(s: Schema, root: bool, k: Text)
    requires k in NOTES
    ensures Entry(s, root, k) == Get(s.notes, k)
  {
  }

  /** The annotations a document carries: title, description and dialect where they are non-empty strings, and
      a default that is not null. */
  function Annotation(m: map<Text, Json>, k: Text): Option<Json> {
    if k in m && (if k == KwDefault then m[k] != Null else m[k].Str? && m[k].text != Empty) then Some(m[k]) else None
  }

  /** A translated document has the annotations of the received one, and no others. */
  lemma AnnotationsSurvive(raw: Json, root: bool, k: Text)
    requires raw.Obj? && (k == KwTitle || k == KwDescription || k == KwDefault || k == KwDialect)
    ensures Get(Emit(Parse(raw), root).fields, k) == Annotation(raw.fields, k)
  {
    var s := Parse(raw);
    EmitFields(s, root);
    assert At(Emit(s, root).fields, s, root, k);
    NoteEntry(s, root, k);
    NotesParsed(raw, k);
  }

  lemma NotesParsed(raw: Json, k: Text)
    requires raw.Obj? && k in NOTES
    ensures Get(Parse(raw).notes, k) == Annotation(raw.fields, k)
  {
  }

  lemma NotesReparsed(raw: Json, s: Schema, root: bool)
    requires raw.Obj? && Emitted(raw.fields, s, root) && CleanTop(s)
    ensures Parse(raw).notes == s.notes
  {
    var m := raw.fields;
    forall k | k in NOTES ensures Get(m, k) == Get(s.notes, k) {
      assert At(m, s, root, k);
      NoteEntry(s, root, k);
    }
    NotesFound(m, s.notes);
  }

  lemma NotesFound(m: map<Text, Json>, notes: map<Text, Json>)
    requires forall k :: k in NOTES ==> Get(m, k) == Get(notes, k)
    requires forall k :: k in notes ==> IsNote(k, notes[k])
    ensures (map k | k in m && IsNote(k, m[k]) :: m[k]) == notes
  {
    var found := map k | k in m && IsNote(k, m[k]) :: m[k];
    forall k ensures Get(found, k) == Get(notes, k) {
      if k in NOTES { NoteFound(m, notes, found, k); }
    }
    SameMaps(found, notes);
  }

  lemma NoteFound(m: map<Text, Json>, notes: map<Text, Json>, found: map<Text, Json>, k: Text)
    requires Get(m, k) == Get(notes, k) && (k in notes ==> IsNote(k, notes[k]))
    requires k in found <==> k in m && IsNote(k, m[k])
    requires k in found ==> found[k] == m[k]
    ensures Get(found, k) == Get(notes, k)
  {
  }

  lemma SameMaps(a: map<Text, Json>, b: map<Text, Json>)
    requires forall k :: Get(a, k) == Get(b, k)
    ensures a == b
  {
    assert forall k :: (k in a <==> Get(a, k).Some?) && (k in b <==> Get(b, k).Some?);
    assert forall k :: k in a ==> Get(a, k) == Some(a[k]);
  }

  lemma RestReparsed(m: map<Text, Json>, s: Schema, root: bool)
    requires Emitted(m, s, root) && CleanTop(s)
    ensures Rest(m) == s.rest
  {
    KeptAll(s);
  }

  lemma KeptAll(s: Schema)
    requires CleanTop(s)
    ensures Kept(s) == s.rest
  {
  }

  lemma {:induction false} ListsReparsed(raw: Json, s: Schema)
    requires raw.Obj? && ListsEmitted(raw.fields, s) && Clean(s)
    ensures ParseList(raw, KwAnyOf) == s.anyOf && ParseList(raw, KwOneOf) == s.oneOf
    ensures ParseList(raw, KwAllOf) == s.allOf && ParseSub(raw, KwNot) == s.not
    decreases s, 1
  {
    ListReparsed(raw, KwAnyOf, s.anyOf);
    ListReparsed(raw, KwOneOf, s.oneOf);
    ListReparsed(raw, KwAllOf, s.allOf);
    SubReparsed(raw, KwNot, s.not);
  }

  lemma {:induction false} ObjectReparsed(raw: Json, s: Schema, root: bool)
    requires raw.Obj? && Emitted(raw.fields, s, root) && CleanObject(s)
    ensures ParseMap(raw, KwProperties) == s.properties && ParseMap(raw, KwDefs) == s.defs
    ensures ParseSub(raw, KwItems) == s.items
    decreases s, 1
  {
    PropertiesEmitted(raw.fields, s, root);
    PropertiesReparsed(raw, s);
    DefinitionsEmitted(raw.fields, s, root);
    DefinitionsReparsed(raw, s);
    ItemsEntry(raw.fields, s, root);
    SubReparsed(raw, KwItems, s.items);
  }

  lemma {:induction false} EmittedReparsed(raw: Json, s: Schema, root: bool)
    requires raw.Obj? && Emitted(raw.fields, s, root) && Clean(s)
    ensures Parse(raw) == s.(kind := Kind(s, root))
    decreases s, 2
  {
    FlatReparsed(raw.fields, s, root);
    BoundsReparsed(raw.fields, s, root);
    NotesReparsed(raw, s, root);
    RestReparsed(raw.fields, s, root);
    AdditionalEntry(raw.fields, s, root);
    AdditionalReparsed(raw, s.additional);
    ObjectReparsed(raw, s, root);
    EmittedLists(raw.fields, s, root);
    ListsReparsed(raw, s);
    ParseFields(raw);
  }

  /** A schema value is parsed back from what it is emitted as; a root without a type comes back as an
      object schema. */
  lemma {:induction false} Reparsed(s: Schema, root: bool)
    requires Clean(s)
    ensures Parse(Emit(s, root)) == s.(kind := Kind(s, root))
    decreases s, 3
  {
    EmitFields(s, root);
    EmittedReparsed(Emit(s, root), s, root);
  }

  // ---- documents ----

  /** Well-formed or not, a document settles after one translation. */
  lemma TranslationSettles(raw: Json, root: bool)
    requires IsSchema(raw)
    ensures var s := Parse(raw); Parse(Emit(s, root)) == s.(kind := Kind(s, root))
    ensures var once := Emit(Parse(raw), root); Emit(Parse(once), root) == once
  {
    var s := Parse(raw);
    ParsedIsClean(raw);
    Reparsed(s, root);
    EmitKind(s, root);
  }

  lemma EntryOfKind(s: Schema, root: bool, k: Text)
    ensures Entry(s.(kind := Kind(s, root)), root, k) == Entry(s, root, k)
  {
    var t := s.(kind := Kind(s, root));
    KeptAlike(s, t);
    EntryAlike(s, t, root, k);
  }

  lemma EntryAlike(s: Schema, t: Schema, root: bool, k: Text)
    requires t == s.(kind := t.kind) && Kind(t, root) == Kind(s, root) && Kept(t) == Kept(s)
    ensures Entry(t, root, k) == Entry(s, root, k)
  {
  }

  lemma KeptAlike(s: Schema, t: Schema)
    requires t.rest == s.rest && t.items == s.items
    ensures Kept(t) == Kept(s)
  {
  }

  lemma EmitKind(s: Schema, root: bool)
    ensures Emit(s.(kind := Kind(s, root)), root) == Emit(s, root)
  {
    var t := s.(kind := Kind(s, root));
    assert Kept(t) == Kept(s);
    forall k ensures Entry(t, root, k) == Entry(s, root, k) { EntryOfKind(s, root, k); }
    assert Emit(t, root).fields == Emit(s, root).fields;
  }

  /** A well-formed subschema accepts the same instances before and after. */
  lemma TranslationKeepsMeaning(w: World, raw: Json, x: Json)
    requires IsSchema(raw) && WellFormed(raw)
    ensures Valid(w, Emit(Parse(raw), false), x) <==> Valid(w, raw, x)
  {
    ParseSound(w, raw, x);
    EmitSound(w, Parse(raw), false, x);
  }

  /** A whole document: the instances are the same, except that one without a single type name comes to
      demand an object. */
  lemma DocumentKeepsMeaning(w: World, raw: Json, x: Json)
    requires raw.Obj? && WellFormed(raw)
    ensures Valid(w, EmitRoot(Sub(Parse(raw))), x) <==>
            Valid(w, raw, x) && (x.Obj? || (KwType in raw.fields && raw.fields[KwType].Str?))
  {
    ParseSound(w, raw, x);
    EmitSound(w, Parse(raw), true, x);
    ParseFields(raw);
  }

  /** What a reference may name: each definition keeps its name and its meaning. */
  lemma DefinitionsKeepMeaning(w: World, raw: Json, root: bool, name: Text, x: Json)
    requires raw.Obj? && WellFormed(raw) && KwDefs in raw.fields && raw.fields[KwDefs].Obj?
    requires name in raw.fields[KwDefs].fields
    ensures var m := Emit(Parse(raw), root).fields;
            KwDefs in m && m[KwDefs].Obj? && m[KwDefs].fields.Keys == raw.fields[KwDefs].fields.Keys
            && (Valid(w, m[KwDefs].fields[name], x) <==> Valid(w, raw.fields[KwDefs].fields[name], x))
  {
    var s := Parse(raw);
    EmitFields(s, root);
    DefinitionsEmitted(Emit(s, root).fields, s, root);
    DefinitionsParsed(raw);
    TranslationKeepsMeaning(w, raw.fields[KwDefs].fields[name], x);
  }

  lemma DefinitionsParsed(raw: Json)
    requires raw.Obj? && WellFormed(raw) && KwDefs in raw.fields && raw.fields[KwDefs].Obj?
    ensures var defs, m := Parse(raw).defs, raw.fields[KwDefs].fields;
            defs.Keys == m.Keys && forall p :: p in m ==> WellFormed(m[p]) && defs[p] == Parse(m[p])
  {
    ParseFields(raw);
    assert MapFormed(raw, KwDefs);
  }

  // ---- keywords alone ----

  /** The document and what it is translated to accept the same instances. */
  ghost predicate Survives(w: World, raw: Json)
    requires IsSchema(raw)
  {
    forall x {:trigger Valid(w, raw, x)} :: Valid(w, Emit(Parse(raw), false), x) <==> Valid(w, raw, x)
  }

  lemma LengthAlone(w: World, k: Text, n: Num, x: Json)
    requires k == KwMinLength || k == KwMaxLength
    ensures Valid(w, Obj(map[k := Number(n)]), x) <==> BoundsOk(map[k := Number(n)], x)
  {
    var m := map[k := Number(n)];
    assert Rest(m) == map[];
    assert FlatOk(w, m, x) <==> BoundsOk(m, x);
  }

  lemma LengthLost(w: World, k: Text, n: Num, x: Json)
    requires (k == KwMinLength || k == KwMaxLength) && !Readable(n)
    ensures Valid(w, Emit(Parse(Obj(map[k := Number(n)])), false), x)
  {
    LengthIsBlank(Obj(map[k := Number(n)]), k, n);
    BooleanSound(w, true, x);
    EmitSound(w, BLANK, false, x);
  }

  lemma LengthIsBlank(raw: Json, k: Text, n: Num)
    requires (k == KwMinLength || k == KwMaxLength) && !Readable(n) && raw == Obj(map[k := Number(n)])
    ensures Parse(raw) == BLANK
  {
    LengthFlat(raw, k, n);
    ParseFields(raw);
    ParseAdditionalForm(raw);
    LengthFields(raw, k, n, Parse(raw));
  }

  lemma LengthFields(raw: Json, k: Text, n: Num, s: Schema)
    requires (k == KwMinLength || k == KwMaxLength) && !Readable(n) && raw == Obj(map[k := Number(n)])
    requires FlatParsed(raw.fields, s) && ListsParsed(raw, s) && Rest(raw.fields) == map[] && Union(raw.fields) == []
    requires s.properties == ParseMap(raw, KwProperties) && s.defs == ParseMap(raw, KwDefs)
    requires s.items == ParseSub(raw, KwItems)
    requires s.additional == Unset && s.notes == BLANK.notes
    ensures s == BLANK
  {
    LengthLists(raw, k, n);
  }

  lemma LengthFlat(raw: Json, k: Text, n: Num)
    requires (k == KwMinLength || k == KwMaxLength) && raw == Obj(map[k := Number(n)])
    ensures Rest(raw.fields) == map[] && Union(raw.fields) == [] && Parse(raw).notes == map[]
  {
  }

  lemma LengthLists(raw: Json, k: Text, n: Num)
    requires (k == KwMinLength || k == KwMaxLength) && raw == Obj(map[k := Number(n)])
    ensures ParseList(raw, KwAnyOf) == NoList && ParseList(raw, KwOneOf) == NoList && ParseList(raw, KwAllOf) == NoList
    ensures ParseSub(raw, KwNot) == NoSub && ParseSub(raw, KwItems) == NoSub
    ensures ParseMap(raw, KwProperties) == map[] && ParseMap(raw, KwDefs) == map[]
  {
  }

  /** A least length survives exactly when it is read or says nothing: "2.0" is a well-formed bound that
      is lost. */
  lemma LeastLengthSurvives(w: World, n: Num)
    ensures Survives(w, Obj(map[KwMinLength := Number(n)])) <==> Readable(n) || Value(n) <= 0.0
  {
    var raw := Obj(map[KwMinLength := Number(n)]);
    if Readable(n) || Value(n) <= 0.0 {
      forall x ensures Valid(w, Emit(Parse(raw), false), x) <==> Valid(w, raw, x) {
        TranslationKeepsMeaning(w, raw, x);
      }
    } else {
      LengthAlone(w, KwMinLength, n, Str(Empty));
      LengthLost(w, KwMinLength, n, Str(Empty));
      assert !Valid(w, raw, Str(Empty));
    }
  }

  /** A greatest length survives exactly when it is read. */
  lemma GreatestLengthSurvives(w: World, n: Num)
    ensures Survives(w, Obj(map[KwMaxLength := Number(n)])) <==> Readable(n)
  {
    var raw := Obj(map[KwMaxLength := Number(n)]);
    if Readable(n) {
      forall x ensures Valid(w, Emit(Parse(raw), false), x) <==> Valid(w, raw, x) {
        TranslationKeepsMeaning(w, raw, x);
      }
    } else {
      var long := LongerThan(Value(n));
      LengthAlone(w, KwMaxLength, n, long);
      LengthLost(w, KwMaxLength, n, long);
    }
  }

  function LongerThan(n: real): (x: Json)
    ensures x.Str? && !Shorter(n, x)
  {
    var size: nat := if n < 0.0 then 0 else n.Floor + 1;
    var t := Other(seq(size, i => 'x'));
    assert |Chars(t)| == size;
    Str(t)
  }

  // ---- references ----

  lemma RefAlone(w: World, t: Text, x: Json)
    ensures Valid(w, Obj(map[KwRef := Str(t)]), x) <==> w.ref(t, x)
  {
    var m := map[KwRef := Str(t)];
    RefHasNoRest(t);
    assert FlatOk(w, m, x) <==> w.ref(t, x);
  }

  lemma EmptyRefIsLost(w: World, x: Json)
    ensures Valid(w, Emit(Parse(Obj(map[KwRef := Str(Empty)])), false), x)
  {
    EmptyRefIsBlank(Obj(map[KwRef := Str(Empty)]));
    BooleanSound(w, true, x);
    EmitSound(w, BLANK, false, x);
  }

  lemma RefHasNoRest(t: Text)
    ensures Rest(map[KwRef := Str(t)]) == map[]
  {
  }

  lemma BlankFields(raw: Json, s: Schema)
    requires raw == Obj(map[KwRef := Str(Empty)]) && FlatParsed(raw.fields, s) && ListsParsed(raw, s)
    requires s.properties == ParseMap(raw, KwProperties) && s.defs == ParseMap(raw, KwDefs)
    requires s.items == ParseSub(raw, KwItems)
    requires s.additional == Unset && s.notes == BLANK.notes
    ensures s == BLANK
  {
    RefHasNoRest(Empty);
  }

  lemma RefHasNoNotes(raw: Json)
    requires raw == Obj(map[KwRef := Str(Empty)])
    ensures Parse(raw).notes == map[]
  {
  }

  lemma EmptyRefIsBlank(raw: Json)
    requires raw == Obj(map[KwRef := Str(Empty)])
    ensures Parse(raw) == BLANK
  {
    ParseFields(raw);
    ParseAdditionalForm(raw);
    RefHasNoNotes(raw);
    BlankFields(raw, Parse(raw));
  }

  /** A reference survives exactly when it is not the empty string, or the empty reference says nothing: the
      converter takes the empty string for no reference at all. */
  lemma ReferenceSurvives(w: World, t: Text)
    ensures Survives(w, Obj(map[KwRef := Str(t)])) <==> t != Empty || forall x :: w.ref(Empty, x)
  {
    var raw := Obj(map[KwRef := Str(t)]);
    if t != Empty {
      forall x ensures Valid(w, Emit(Parse(raw), false), x) <==> Valid(w, raw, x) {
        TranslationKeepsMeaning(w, raw, x);
      }
    } else {
      EmptyReferenceSurvives(w);
    }
  }

  lemma EmptyReferenceSurvives(w: World)
    ensures Survives(w, Obj(map[KwRef := Str(Empty)])) <==> forall x :: w.ref(Empty, x)
  {
    var raw := Obj(map[KwRef := Str(Empty)]);
    forall x ensures Valid(w, raw, x) <==> w.ref(Empty, x) { RefAlone(w, Empty, x); }
    forall x ensures Valid(w, Emit(Parse(raw), false), x) { EmptyRefIsLost(w, x); }
    if Survives(w, raw) {
      forall x ensures w.ref(Empty, x) { assert Valid(w, raw, x); }
    }
  }
}
