/** What a JSON Schema document accepts, what a schema value accepts, and the proof that translating
    keeps it. */
module SchemaMeaning {
  import opened Wrappers
  import opened Schema

  /** Everything outside the translated keywords: what references, patterns and formats mean, and what
      the unknown keywords say on their own, which properties they take over from
      additionalProperties and how many leading elements they take over from items. */
  datatype World = World(
    ref: (Text, Json) -> bool,
    matches: (Text, Text) -> bool,
    format: (Text, Json) -> bool,
    other: (map<Text, Json>, Json) -> bool,
    taken: (map<Text, Json>, Text) -> bool,
    prefix: map<Text, Json> -> nat)

  function Chars(t: Text): string {
    match t
    case Empty => "" case Other(s) => s
    case KwType => "type" case KwEnum => "enum" case KwMinimum => "minimum" case KwMaximum => "maximum"
    case KwMinLength => "minLength" case KwMaxLength => "maxLength" case KwPattern => "pattern"
    case KwFormat => "format" case KwProperties => "properties" case KwRequired => "required"
    case KwItems => "items" case KwAnyOf => "anyOf" case KwOneOf => "oneOf" case KwAllOf => "allOf"
    case KwNot => "not" case KwAdditional => "additionalProperties" case KwRef => "$ref" case KwDefs => "$defs"
    case KwTitle => "title" case KwDescription => "description" case KwDefault => "default"
    case KwDialect => "$schema"
    case TNull => "null" case TBoolean => "boolean" case TNumber => "number" case TInteger => "integer"
    case TString => "string" case TArray => "array" case TObject => "object"
  }

  /** Section 6.1.1 of JSON Schema Validation draft 2020-12; an integer is any number without a fraction. */
  predicate HasType(t: Text, x: Json) {
    match t
    case TNull => x.Null?
    case TBoolean => x.Bool?
    case TNumber => x.Number?
    case TInteger => x.Number? && Value(x.num).Floor as real == Value(x.num)
    case TString => x.Str?
    case TArray => x.Arr?
    case TObject => x.Obj?
    case _ => false
  }

  /** Equality of instances: numbers by value. */
  predicate Same(a: Json, b: Json) {
    match (a, b)
    case (Number(m), Number(n)) => Value(m) == Value(n)
    case (Arr(xs), Arr(ys)) => |xs| == |ys| && forall i :: 0 <= i < |xs| ==> Same(xs[i], ys[i])
    case (Obj(f), Obj(g)) => f.Keys == g.Keys && forall k :: k in f ==> k in g && Same(f[k], g[k])
    case _ => a == b
  }

  predicate Among(vs: seq<Json>, x: Json) { exists i :: 0 <= i < |vs| && Same(vs[i], x) }
  predicate AtLeast(n: Num, x: Json) { x.Number? ==> Value(x.num) >= Value(n) }
  predicate AtMost(n: Num, x: Json) { x.Number? ==> Value(x.num) <= Value(n) }
  predicate Longer(n: real, x: Json) { x.Str? ==> |Chars(x.text)| as real >= n }
  predicate Shorter(n: real, x: Json) { x.Str? ==> |Chars(x.text)| as real <= n }
  predicate Has(names: seq<Text>, x: Json) { x.Obj? ==> forall i :: 0 <= i < |names| ==> names[i] in x.fields }

  /** The empty pattern matches every string; the empty format is no format. */
  predicate Fits(w: World, pattern: Text, x: Json) { pattern != Empty && x.Str? ==> w.matches(pattern, x.text) }
  predicate Formatted(w: World, format: Text, x: Json) { format != Empty ==> w.format(format, x) }

  predicate TypeOk(m: map<Text, Json>, x: Json) {
    KwType in m ==>
      match m[KwType]
      case Str(t) => HasType(t, x)
      case Arr(ts) => exists i :: 0 <= i < |ts| && ts[i].Str? && HasType(ts[i].text, x)
      case _ => true
  }

  predicate BoundsOk(m: map<Text, Json>, x: Json) {
    && (KwMinimum in m && m[KwMinimum].Number? ==> AtLeast(m[KwMinimum].num, x))
    && (KwMaximum in m && m[KwMaximum].Number? ==> AtMost(m[KwMaximum].num, x))
    && (KwMinLength in m && m[KwMinLength].Number? ==> Longer(Value(m[KwMinLength].num), x))
    && (KwMaxLength in m && m[KwMaxLength].Number? ==> Shorter(Value(m[KwMaxLength].num), x))
  }

  predicate TextsOk(w: World, m: map<Text, Json>, x: Json) {
    && (KwPattern in m && m[KwPattern].Str? ==> Fits(w, m[KwPattern].text, x))
    && (KwFormat in m && m[KwFormat].Str? ==> Formatted(w, m[KwFormat].text, x))
    && (KwRef in m && m[KwRef].Str? ==> w.ref(m[KwRef].text, x))
  }

  /** The keywords of m that have no subschemas. */
  predicate EnumOk(m: map<Text, Json>, x: Json) { KwEnum in m && m[KwEnum].Arr? ==> Among(m[KwEnum].elems, x) }
  predicate RequiredOk(m: map<Text, Json>, x: Json) { KwRequired in m ==> Has(Strings(Get(m, KwRequired)), x) }
  predicate RestOk(w: World, rest: map<Text, Json>, x: Json) { rest != map[] ==> w.other(rest, x) }

  predicate ValuesOk(m: map<Text, Json>, x: Json) {
    TypeOk(m, x) && EnumOk(m, x) && BoundsOk(m, x)
  }

  predicate WordsOk(w: World, m: map<Text, Json>, x: Json) {
    TextsOk(w, m, x) && RequiredOk(m, x) && RestOk(w, Rest(m), x)
  }

  predicate FlatOk(w: World, m: map<Text, Json>, x: Json) { ValuesOk(m, x) && WordsOk(w, m, x) }

  predicate Declared(m: map<Text, Json>, p: Text) {
    KwProperties in m && m[KwProperties].Obj? && p in m[KwProperties].fields
  }

  predicate Any(vs: seq<bool>) { exists i :: 0 <= i < |vs| && vs[i] }
  predicate All(vs: seq<bool>) { forall i :: 0 <= i < |vs| ==> vs[i] }
  predicate One(vs: seq<bool>) { Any(vs) && forall i, j :: 0 <= i < j < |vs| ==> !(vs[i] && vs[j]) }

  /** Sections 4.3.2, 10.2 and 10.3 of JSON Schema Core draft 2020-12. */
  ghost predicate Valid(w: World, raw: Json, x: Json)
    decreases raw, 1
  {
    match raw
    case Bool(b) => b
    case Obj(m) =>
      FlatOk(w, m, x) && PropertiesOk(w, raw, x) && AdditionalOk(w, raw, x) && ItemsOk(w, raw, x) && ListsOk(w, raw, x)
    case _ => true
  }

  ghost predicate PropertiesOk(w: World, raw: Json, x: Json)
    requires raw.Obj?
    decreases raw, 0, 1
  {
    x.Obj? ==>
      forall p :: p in x.fields && Declared(raw.fields, p) ==> Valid(w, raw.fields[KwProperties].fields[p], x.fields[p])
  }

  ghost predicate AdditionalOk(w: World, raw: Json, x: Json)
    requires raw.Obj?
    decreases raw, 0, 1
  {
    var m := raw.fields;
    x.Obj? && KwAdditional in m ==>
      forall p :: p in x.fields && !Declared(m, p) && !w.taken(Rest(m), p) ==> Valid(w, m[KwAdditional], x.fields[p])
  }

  ghost predicate ItemsOk(w: World, raw: Json, x: Json)
    requires raw.Obj?
    decreases raw, 0, 1
  {
    var m := raw.fields;
    KwItems in m && IsSchema(m[KwItems]) && x.Arr? ==>
      forall i :: w.prefix(Rest(m)) <= i < |x.elems| ==> Valid(w, m[KwItems], x.elems[i])
  }

  ghost predicate ListsOk(w: World, raw: Json, x: Json)
    requires raw.Obj?
    decreases raw, 0, 1
  {
    var m := raw.fields;
    && (KwAnyOf in m && m[KwAnyOf].Arr? ==> Any(Verdicts(w, raw, KwAnyOf, x)))
    && (KwOneOf in m && m[KwOneOf].Arr? ==> One(Verdicts(w, raw, KwOneOf, x)))
    && (KwAllOf in m && m[KwAllOf].Arr? ==> All(Verdicts(w, raw, KwAllOf, x)))
    && (KwNot in m && IsSchema(m[KwNot]) ==> !Valid(w, m[KwNot], x))
  }

  /** What each schema of the list under k says of x. */
  ghost function Verdicts(w: World, raw: Json, k: Text, x: Json): seq<bool>
    requires raw.Obj? && k in raw.fields && raw.fields[k].Arr?
    decreases raw, 0, 0
  {
    var js := raw.fields[k].elems;
    seq(|js|, i requires 0 <= i < |js| => Valid(w, js[i], x))
  }

  // ---- the same for schema values ----

  predicate BoundsMeaning(s: Schema, x: Json) {
    && (s.minimum.Some? ==> AtLeast(s.minimum.value, x))
    && (s.maximum.Some? ==> AtMost(s.maximum.value, x))
    && (s.minLength.Some? ==> Longer(s.minLength.value as real, x))
    && (s.maxLength.Some? ==> Shorter(s.maxLength.value as real, x))
  }

  predicate TextsMeaning(w: World, s: Schema, x: Json) {
    Fits(w, s.pattern, x) && Formatted(w, s.format, x) && (s.ref != Empty ==> w.ref(s.ref, x))
  }

  predicate KindMeaning(kind: Text, x: Json) { kind != Empty ==> HasType(kind, x) }
  predicate EnumMeaning(s: Schema, x: Json) { s.enum.Some? ==> Among(s.enum.value, x) }

  predicate ValuesMeaning(s: Schema, x: Json) {
    KindMeaning(s.kind, x) && EnumMeaning(s, x) && BoundsMeaning(s, x)
  }

  predicate WordsMeaning(w: World, s: Schema, x: Json) {
    TextsMeaning(w, s, x) && Has(s.required, x) && RestOk(w, Kept(s), x)
  }

  predicate FlatMeaning(w: World, s: Schema, x: Json) { ValuesMeaning(s, x) && WordsMeaning(w, s, x) }

  ghost predicate Meaning(w: World, s: Schema, x: Json)
    decreases s, 1
  {
    FlatMeaning(w, s, x) && PropertiesMeaning(w, s, x) && AdditionalMeaning(w, s, x) && ItemsMeaning(w, s, x)
    && ListsMeaning(w, s, x)
  }

  ghost predicate PropertiesMeaning(w: World, s: Schema, x: Json)
    decreases s, 0
  {
    x.Obj? ==> forall p :: p in x.fields && p in s.properties ==> Meaning(w, s.properties[p], x.fields[p])
  }

  ghost predicate AdditionalMeaning(w: World, s: Schema, x: Json)
    decreases s, 0
  {
    x.Obj? && s.additional != Unset ==>
      forall p :: p in x.fields && p !in s.properties && !w.taken(Kept(s), p) ==>
        if s.additional.Each? then Meaning(w, s.additional.schema, x.fields[p]) else s.additional.allowed
  }

  ghost predicate ItemsMeaning(w: World, s: Schema, x: Json)
    decreases s, 0
  {
    x.Arr? && s.items.Sub? ==>
      forall i :: w.prefix(Kept(s)) <= i < |x.elems| ==> Meaning(w, s.items.schema, x.elems[i])
  }

  ghost predicate ListsMeaning(w: World, s: Schema, x: Json)
    decreases s, 0
  {
    && (s.anyOf.List? ==> Any(Readings(w, s.anyOf, x)))
    && (s.oneOf.List? ==> One(Readings(w, s.oneOf, x)))
    && (s.allOf.List? ==> All(Readings(w, s.allOf, x)))
    && (s.not.Sub? ==> !Meaning(w, s.not.schema, x))
  }

  /** What each schema of the list says of x. */
  ghost function Readings(w: World, l: List, x: Json): seq<bool>
    requires l.List?
    decreases l
  {
    seq(|l.all|, i requires 0 <= i < |l.all| => Meaning(w, l.all[i], x))
  }

  // ---- emitting keeps the meaning of every schema value ----

  lemma StringsOfStrs(ts: seq<Text>)
    ensures StringsIn(Strs(ts).elems) == ts
  {
    if ts != [] {
      StringsOfStrs(ts[1..]);
      assert Strs(ts).elems[1..] == Strs(ts[1..]).elems;
    }
  }

  lemma EntryUnderRest(s: Schema, root: bool, k: Text)
    ensures (Entry(s, root, k).Some? && IsRest(k, Entry(s, root, k).value)) <==> k in Kept(s)
    ensures k in Kept(s) ==> Entry(s, root, k).value == Kept(s)[k]
  {
    if k == KwItems && s.items.Sub? {
      assert Emit(s.items.schema, false).Obj?;
    }
  }

  /** m holds exactly what s says under k. */
  ghost predicate At(m: map<Text, Json>, s: Schema, root: bool, k: Text) {
    Get(m, k) == Entry(s, root, k)
  }

  ghost predicate Emitted(m: map<Text, Json>, s: Schema, root: bool) {
    && (forall k {:trigger At(m, s, root, k)} :: At(m, s, root, k))
    && Rest(m) == Kept(s)
  }

  lemma EmitFields(s: Schema, root: bool)
    ensures Emit(s, root).Obj? && Emitted(Emit(s, root).fields, s, root)
  {
    var m := Emit(s, root).fields;
    forall k ensures At(m, s, root, k) {
      EntryUnderRest(s, root, k);
    }
    forall k ensures (k in Rest(m) <==> k in Kept(s)) && (k in Kept(s) ==> Rest(m)[k] == Kept(s)[k]) {
      assert At(m, s, root, k);
      EntryUnderRest(s, root, k);
    }
    assert Rest(m) == Kept(s);
  }

  /** Empty definitions and an empty list of required names are not written; empty properties are, for an object. */
  lemma EmptyFields(m: map<Text, Json>, s: Schema, root: bool)
    requires Emitted(m, s, root)
    ensures (KwDefs in m <==> s.defs != map[]) && (KwRequired in m <==> s.required != [])
    ensures KwProperties in m <==> s.properties != map[] || (KwType in m && m[KwType] == Str(TObject))
  {
    assert At(m, s, root, KwDefs) && At(m, s, root, KwRequired);
    EmptyProperties(m, s, root);
  }

  lemma EmptyProperties(m: map<Text, Json>, s: Schema, root: bool)
    requires At(m, s, root, KwType) && At(m, s, root, KwProperties)
    ensures KwProperties in m <==> s.properties != map[] || (KwType in m && m[KwType] == Str(TObject))
  {
    assert Get(m, KwType) == TextEntry(Kind(s, root));
  }

  lemma EmitBounds(m: map<Text, Json>, s: Schema, root: bool, x: Json)
    requires Emitted(m, s, root)
    ensures BoundsOk(m, x) == BoundsMeaning(s, x)
  {
    BoundsAt(m, s, root, KwMinimum, KwMaximum);
    LengthsAt(m, s, root, KwMinLength, KwMaxLength);
  }

  lemma BoundsAt(m: map<Text, Json>, s: Schema, root: bool, k: Text, l: Text)
    requires Emitted(m, s, root) && k == KwMinimum && l == KwMaximum
    ensures Get(m, k) == NumEntry(s.minimum) && Get(m, l) == NumEntry(s.maximum)
  {
    assert At(m, s, root, k) && At(m, s, root, l);
  }

  lemma LengthsAt(m: map<Text, Json>, s: Schema, root: bool, k: Text, l: Text)
    requires Emitted(m, s, root) && k == KwMinLength && l == KwMaxLength
    ensures Get(m, k) == IntEntry(s.minLength) && Get(m, l) == IntEntry(s.maxLength)
  {
    assert At(m, s, root, k) && At(m, s, root, l);
  }

  /** The keyword that holds a text, and the text. */
  predicate Word(s: Schema, root: bool, k: Text, t: Text) {
    || (k == KwRef && t == s.ref) || (k == KwType && t == Kind(s, root)) || (k == KwPattern && t == s.pattern)
    || (k == KwFormat && t == s.format)
  }

  lemma WordAt(m: map<Text, Json>, s: Schema, root: bool, k: Text, t: Text)
    requires Emitted(m, s, root) && Word(s, root, k, t)
    ensures Get(m, k) == TextEntry(t)
  {
    assert At(m, s, root, k);
  }

  lemma RequiredAt(m: map<Text, Json>, s: Schema, root: bool, k: Text)
    requires Emitted(m, s, root) && k == KwRequired
    ensures Get(m, k) == if s.required == [] then None else Some(Strs(s.required))
  {
    assert At(m, s, root, k);
  }

  lemma EmitType(m: map<Text, Json>, s: Schema, root: bool, x: Json)
    requires Emitted(m, s, root)
    ensures TypeOk(m, x) <==> KindMeaning(s.kind, x) && (s.kind == Empty && root ==> x.Obj?)
  {
    WordAt(m, s, root, KwType, Kind(s, root));
  }

  lemma EmitRequired(m: map<Text, Json>, s: Schema, root: bool, x: Json)
    requires Emitted(m, s, root)
    ensures RequiredOk(m, x) <==> Has(s.required, x)
  {
    StringsOfStrs(s.required);
    RequiredAt(m, s, root, KwRequired);
  }

  lemma EmitTexts(w: World, m: map<Text, Json>, s: Schema, root: bool, x: Json)
    requires Emitted(m, s, root)
    ensures TextsOk(w, m, x) <==> TextsMeaning(w, s, x)
  {
    WordAt(m, s, root, KwPattern, s.pattern);
    WordAt(m, s, root, KwFormat, s.format);
    WordAt(m, s, root, KwRef, s.ref);
  }

  lemma EnumAt(m: map<Text, Json>, s: Schema, root: bool, k: Text)
    requires Emitted(m, s, root) && k == KwEnum
    ensures Get(m, k) == if s.enum.Some? then Some(Arr(s.enum.value)) else None
  {
    assert At(m, s, root, k);
  }

  lemma EmitFlat(w: World, m: map<Text, Json>, s: Schema, root: bool, x: Json)
    requires Emitted(m, s, root)
    ensures FlatOk(w, m, x) <==> FlatMeaning(w, s, x) && (s.kind == Empty && root ==> x.Obj?)
  {
    EmitValues(m, s, root, x);
    EmitWords(w, m, s, root, x);
  }

  /** The keywords about the instance itself. */
  lemma EmitValues(m: map<Text, Json>, s: Schema, root: bool, x: Json)
    requires Emitted(m, s, root)
    ensures ValuesOk(m, x) <==> ValuesMeaning(s, x) && (s.kind == Empty && root ==> x.Obj?)
  {
    EmitType(m, s, root, x);
    EmitEnum(m, s, root, x);
    EmitBounds(m, s, root, x);
  }

  /** ... and the other flat ones. */
  lemma EmitWords(w: World, m: map<Text, Json>, s: Schema, root: bool, x: Json)
    requires Emitted(m, s, root)
    ensures WordsOk(w, m, x) <==> WordsMeaning(w, s, x)
  {
    EmitTexts(w, m, s, root, x);
    EmitRequired(m, s, root, x);
  }

  lemma EmitEnum(m: map<Text, Json>, s: Schema, root: bool, x: Json)
    requires Emitted(m, s, root)
    ensures EnumOk(m, x) <==> EnumMeaning(s, x)
  {
    EnumAt(m, s, root, KwEnum);
  }

  ghost predicate AdditionalEmitted(m: map<Text, Json>, a: Additional) {
    match a
    case Unset => KwAdditional !in m
    case Flag(b) => Get(m, KwAdditional) == Some(Bool(b))
    case Each(t) => Get(m, KwAdditional) == Some(Emit(t, false))
  }

  lemma AdditionalEntry(m: map<Text, Json>, s: Schema, root: bool)
    requires Emitted(m, s, root)
    ensures AdditionalEmitted(m, s.additional)
  {
    AdditionalAt(m, s, root, KwAdditional);
  }

  lemma AdditionalAt(m: map<Text, Json>, s: Schema, root: bool, k: Text)
    requires Emitted(m, s, root) && k == KwAdditional
    ensures match s.additional
            case Unset => k !in m
            case Flag(b) => Get(m, k) == Some(Bool(b))
            case Each(t) => Get(m, k) == Some(Emit(t, false))
  {
    assert At(m, s, root, k);
  }

  ghost predicate MapEmitted(m: map<Text, Json>, k: Text, t: map<Text, Schema>) {
    || (t == map[] && (k in m ==> m[k] == Obj(map[])))
    || (k in m && m[k].Obj? && m[k].fields.Keys == t.Keys && forall p :: p in t ==> m[k].fields[p] == Emit(t[p], false))
  }

  lemma PropertiesEmitted(m: map<Text, Json>, s: Schema, root: bool)
    requires Emitted(m, s, root)
    ensures MapEmitted(m, KwProperties, s.properties)
  {
    PropertiesAt(m, s, root, KwProperties);
  }

  lemma PropertiesAt(m: map<Text, Json>, s: Schema, root: bool, k: Text)
    requires Emitted(m, s, root) && k == KwProperties
    ensures MapEmitted(m, k, s.properties)
  {
    assert At(m, s, root, k);
  }

  lemma {:induction false} EmitProperties(w: World, raw: Json, s: Schema, root: bool, x: Json)
    requires raw.Obj? && Emitted(raw.fields, s, root)
    ensures forall p :: Declared(raw.fields, p) <==> p in s.properties
    ensures PropertiesOk(w, raw, x) <==> PropertiesMeaning(w, s, x)
    decreases s, 0
  {
    PropertiesEmitted(raw.fields, s, root);
    if x.Obj? {
      forall p | p in x.fields && p in s.properties
        ensures Valid(w, raw.fields[KwProperties].fields[p], x.fields[p]) <==> Meaning(w, s.properties[p], x.fields[p])
      {
        EmitSound(w, s.properties[p], false, x.fields[p]);
      }
    }
  }

  lemma {:induction false} EmitAdditional(w: World, raw: Json, s: Schema, root: bool, x: Json)
    requires raw.Obj? && Emitted(raw.fields, s, root)
    requires forall p :: Declared(raw.fields, p) <==> p in s.properties
    ensures AdditionalOk(w, raw, x) <==> AdditionalMeaning(w, s, x)
    decreases s, 0
  {
    AdditionalEntry(raw.fields, s, root);
    if x.Obj? && s.additional.Each? {
      forall p | p in x.fields
        ensures Valid(w, raw.fields[KwAdditional], x.fields[p]) <==> Meaning(w, s.additional.schema, x.fields[p])
      {
        EmitSound(w, s.additional.schema, false, x.fields[p]);
      }
    }
  }

  lemma ItemsAt(m: map<Text, Json>, s: Schema, root: bool, k: Text)
    requires Emitted(m, s, root) && k == KwItems
    ensures Get(m, k) == if s.items.Sub? then Some(Emit(s.items.schema, false)) else Get(Kept(s), k)
  {
    assert At(m, s, root, k);
  }

  lemma {:induction false} EmitItems(w: World, raw: Json, s: Schema, root: bool, x: Json)
    requires raw.Obj? && Emitted(raw.fields, s, root)
    ensures ItemsOk(w, raw, x) <==> ItemsMeaning(w, s, x)
    decreases s, 0
  {
    var m := raw.fields;
    ItemsAt(m, s, root, KwItems);
    if x.Arr? && s.items.Sub? {
      forall i | 0 <= i < |x.elems|
        ensures Valid(w, m[KwItems], x.elems[i]) <==> Meaning(w, s.items.schema, x.elems[i])
      {
        EmitSound(w, s.items.schema, false, x.elems[i]);
      }
    }
  }

  /** The list under k in the document and l give the same answers. */
  ghost predicate ListAgrees(w: World, raw: Json, k: Text, l: List, x: Json)
    requires raw.Obj?
  {
    && ((k in raw.fields && raw.fields[k].Arr?) <==> l.List?)
    && (l.List? ==> Verdicts(w, raw, k, x) == Readings(w, l, x))
  }

  lemma {:induction false} EmitVerdicts(w: World, raw: Json, k: Text, l: List, x: Json)
    requires raw.Obj? && Get(raw.fields, k) == EmitList(l)
    ensures ListAgrees(w, raw, k, l, x)
    decreases l
  {
    if l.List? {
      forall i | 0 <= i < |l.all|
        ensures Valid(w, raw.fields[k].elems[i], x) == Meaning(w, l.all[i], x)
      {
        EmitSound(w, l.all[i], false, x);
      }
    }
  }

  ghost predicate ListsEmitted(m: map<Text, Json>, s: Schema) {
    && Get(m, KwAnyOf) == EmitList(s.anyOf) && Get(m, KwOneOf) == EmitList(s.oneOf)
    && Get(m, KwAllOf) == EmitList(s.allOf) && Get(m, KwNot) == EmitSub(s.not)
  }

  lemma EmittedLists(m: map<Text, Json>, s: Schema, root: bool)
    requires Emitted(m, s, root)
    ensures ListsEmitted(m, s)
  {
    AlternativesEmitted(m, s, root);
    RestrictionsEmitted(m, s, root);
  }

  lemma RestrictionsEmitted(m: map<Text, Json>, s: Schema, root: bool)
    requires Emitted(m, s, root)
    ensures Get(m, KwAllOf) == EmitList(s.allOf) && Get(m, KwNot) == EmitSub(s.not)
  {
    ConjunctionEmitted(m, s, root);
    NegationEmitted(m, s, root);
  }

  lemma NegationEmitted(m: map<Text, Json>, s: Schema, root: bool)
    requires Emitted(m, s, root)
    ensures Get(m, KwNot) == EmitSub(s.not)
  {
    NegationAt(m, s, root, KwNot);
  }

  lemma NegationAt(m: map<Text, Json>, s: Schema, root: bool, k: Text)
    requires Emitted(m, s, root) && k == KwNot
    ensures Get(m, k) == EmitSub(s.not)
  {
    assert At(m, s, root, k);
  }

  lemma ConjunctionEmitted(m: map<Text, Json>, s: Schema, root: bool)
    requires Emitted(m, s, root)
    ensures Get(m, KwAllOf) == EmitList(s.allOf)
  {
    ListAt(m, s, root, KwAllOf, s.allOf);
  }

  lemma AlternativesEmitted(m: map<Text, Json>, s: Schema, root: bool)
    requires Emitted(m, s, root)
    ensures Get(m, KwAnyOf) == EmitList(s.anyOf) && Get(m, KwOneOf) == EmitList(s.oneOf)
  {
    ListAt(m, s, root, KwAnyOf, s.anyOf);
    ListAt(m, s, root, KwOneOf, s.oneOf);
  }

  lemma ListAt(m: map<Text, Json>, s: Schema, root: bool, k: Text, l: List)
    requires Emitted(m, s, root)
    requires (k == KwAnyOf && l == s.anyOf) || (k == KwOneOf && l == s.oneOf) || (k == KwAllOf && l == s.allOf)
    ensures Get(m, k) == EmitList(l)
  {
    assert At(m, s, root, k);
  }

  ghost predicate NotAgrees(w: World, raw: Json, s: Schema, x: Json)
    requires raw.Obj?
  {
    && ((KwNot in raw.fields && IsSchema(raw.fields[KwNot])) <==> s.not.Sub?)
    && (s.not.Sub? ==> (Valid(w, raw.fields[KwNot], x) <==> Meaning(w, s.not.schema, x)))
  }

  lemma {:induction false} EmitNot(w: World, raw: Json, s: Schema, x: Json)
    requires raw.Obj? && Get(raw.fields, KwNot) == EmitSub(s.not)
    ensures NotAgrees(w, raw, s, x)
    decreases s, 0
  {
    if s.not.Sub? { EmitSound(w, s.not.schema, false, x); }
  }

  lemma ListsAgree(w: World, raw: Json, s: Schema, x: Json)
    requires raw.Obj? && NotAgrees(w, raw, s, x) && ListAgrees(w, raw, KwAnyOf, s.anyOf, x)
    requires ListAgrees(w, raw, KwOneOf, s.oneOf, x) && ListAgrees(w, raw, KwAllOf, s.allOf, x)
    ensures ListsOk(w, raw, x) <==> ListsMeaning(w, s, x)
  {
  }

  lemma {:induction false} EmitLists(w: World, raw: Json, s: Schema, x: Json)
    requires raw.Obj? && ListsEmitted(raw.fields, s)
    ensures ListsOk(w, raw, x) <==> ListsMeaning(w, s, x)
    decreases s, 1
  {
    EmitVerdicts(w, raw, KwAnyOf, s.anyOf, x);
    EmitVerdicts(w, raw, KwOneOf, s.oneOf, x);
    EmitVerdicts(w, raw, KwAllOf, s.allOf, x);
    EmitNot(w, raw, s, x);
    ListsAgree(w, raw, s, x);
  }

  lemma {:induction false} EmittedSound(w: World, raw: Json, s: Schema, root: bool, x: Json)
    requires raw.Obj? && Emitted(raw.fields, s, root)
    ensures Valid(w, raw, x) <==> Meaning(w, s, x) && (root && s.kind == Empty ==> x.Obj?)
    decreases s, 2
  {
    EmitFlat(w, raw.fields, s, root, x);
    EmitProperties(w, raw, s, root, x);
    EmitAdditional(w, raw, s, root, x);
    EmitItems(w, raw, s, root, x);
    EmittedLists(raw.fields, s, root);
    EmitLists(w, raw, s, x);
  }

  /** Every schema value is emitted as a document that accepts the same instances; at the root, where a
      schema without a type becomes an object schema, the same objects and nothing else. */
  lemma {:induction false} EmitSound(w: World, s: Schema, root: bool, x: Json)
    ensures Valid(w, Emit(s, root), x) <==> Meaning(w, s, x) && (root && s.kind == Empty ==> x.Obj?)
    decreases s, 3
  {
    EmitFields(s, root);
    EmittedSound(w, Emit(s, root), s, root, x);
  }
}
