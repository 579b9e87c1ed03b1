/** The translation of JSON Schema documents to the framework's own schema values and back, with an
    evaluator for each side. */
module Schema {
  import opened Wrappers

  /** A string; the words the translation or the evaluator asks for by name have constructors of
      their own, every other string is `Other`. */
  datatype Text =
    | Empty | KwType | KwEnum | KwMinimum | KwMaximum | KwMinLength | KwMaxLength | KwPattern | KwFormat
    | KwProperties | KwRequired | KwItems | KwAnyOf | KwOneOf | KwAllOf | KwNot | KwAdditional | KwRef | KwDefs
    | KwTitle | KwDescription | KwDefault | KwDialect
    | TNull | TBoolean | TNumber | TInteger | TString | TArray | TObject
    | Other(chars: string)

  /** A number of a decoded document: a literal written as an integer, a literal with a fraction or an
      exponent, or a float64 by the decimal it prints as. */
  datatype Num = Whole(n: int) | Decimal(d: real) | Float(f: real)

  datatype Json =
    | Null
    | Bool(b: bool)
    | Number(num: Num)
    | Str(text: Text)
    | Arr(elems: seq<Json>)
    | Obj(fields: map<Text, Json>)

  function Value(n: Num): real {
    match n
    case Whole(i) => i as real
    case Decimal(d) => d
    case Float(f) => f
  }

  predicate IsInt64(n: int) { -0x8000_0000_0000_0000 <= n < 0x8000_0000_0000_0000 }
  type Int64 = n: int | IsInt64(n) witness 0

  // ---- the framework's schema value ----

  datatype Schema = Schema(
    ref: Text, defs: map<Text, Schema>,
    kind: Text, enum: Option<seq<Json>>,
    minimum: Option<Num>, maximum: Option<Num>,
    minLength: Option<Int64>, maxLength: Option<Int64>,
    pattern: Text, format: Text,
    properties: map<Text, Schema>, required: seq<Text>, items: Sub, additional: Additional,
    anyOf: List, oneOf: List, allOf: List, not: Sub,
    notes: map<Text, Json>,   // title, description, default and dialect
    rest: map<Text, Json>)    // keywords the framework does not know

  datatype Sub = NoSub | Sub(schema: Schema)
  datatype List = NoList | List(all: seq<Schema>)
  datatype Additional = Unset | Flag(allowed: bool) | Each(schema: Schema)

  const BLANK := Schema(Empty, map[], Empty, None, None, None, None, None, Empty, Empty, map[], [], NoSub, Unset,
                        NoList, NoList, NoList, NoSub, map[], map[])

  const NOTES := {KwTitle, KwDescription, KwDefault, KwDialect}
  const KEYWORDS := NOTES + {KwType, KwEnum, KwMinimum, KwMaximum, KwMinLength, KwMaxLength, KwPattern, KwFormat,
                             KwProperties, KwRequired, KwItems, KwAnyOf, KwOneOf, KwAllOf, KwNot, KwAdditional,
                             KwRef, KwDefs}

  // ---- parsing ----

  function Get(m: map<Text, Json>, k: Text): Option<Json> {
    if k in m then Some(m[k]) else None
  }

  predicate IsSchema(j: Json) { j.Bool? || j.Obj? }

  function TextOf(j: Option<Json>): Text {
    if j.Some? && j.value.Str? then j.value.text else Empty
  }

  /** The strings among the elements, in order; nothing for a value that is not a list. */
  function Strings(j: Option<Json>): seq<Text> {
    if j.Some? && j.value.Arr? then StringsIn(j.value.elems) else []
  }

  function StringsIn(js: seq<Json>): seq<Text> {
    if js == [] then [] else (if js[0].Str? then [js[0].text] else []) + StringsIn(js[1..])
  }

  function NumberOf(j: Option<Json>): Option<Num> {
    if j.Some? && j.value.Number? then Some(j.value.num) else None
  }

  /** An integer literal, or a float64 equal to an integer, that fits 64 bits. A literal with a fraction
      or an exponent is not read, whatever its value. */
  predicate Readable(n: Num) {
    match n
    case Whole(i) => IsInt64(i)
    case Decimal(_) => false
    case Float(f) => f.Floor as real == f && IsInt64(f.Floor)
  }

  function IntOf(j: Option<Json>): Option<Int64> {
    if j.Some? && j.value.Number? && Readable(j.value.num) then Some(Value(j.value.num).Floor) else None
  }

  /** The annotations kept: strings other than the empty one, and any default but null. */
  predicate IsNote(k: Text, j: Json) {
    k in NOTES && if k == KwDefault then j != Null else j.Str? && j.text != Empty
  }

  predicate IsRest(k: Text, j: Json) {
    k !in KEYWORDS || (k == KwItems && j.Arr?)
  }

  function Rest(m: map<Text, Json>): map<Text, Json> {
    map k | k in m && IsRest(k, m[k]) :: m[k]
  }

  function SchemasIn(js: seq<Json>): (r: seq<Json>)
    ensures forall i :: 0 <= i < |r| ==> IsSchema(r[i]) && r[i] in js
    ensures (forall i :: 0 <= i < |js| ==> IsSchema(js[i])) ==> r == js
  {
    if js == [] then [] else (if IsSchema(js[0]) then [js[0]] else []) + SchemasIn(js[1..])
  }

  function Bare(name: Text): Schema { BLANK.(kind := name) }

  function Bares(names: seq<Text>): seq<Schema> { seq(|names|, i requires 0 <= i < |names| => Bare(names[i])) }

  function Parse(raw: Json): Schema
    requires IsSchema(raw)
    decreases raw, 1
  {
    match raw
    case Bool(b) => if b then BLANK else BLANK.(not := Sub(BLANK))
    case Obj(m) =>
      var names := if KwType in m && m[KwType].Arr? then Strings(Get(m, KwType)) else [];
      var anyOf := ParseList(raw, KwAnyOf);
      var allOf := ParseList(raw, KwAllOf);
      Schema(
        TextOf(Get(m, KwRef)), ParseMap(raw, KwDefs),
        TextOf(Get(m, KwType)), if KwEnum in m && m[KwEnum].Arr? then Some(m[KwEnum].elems) else None,
        NumberOf(Get(m, KwMinimum)), NumberOf(Get(m, KwMaximum)),
        IntOf(Get(m, KwMinLength)), IntOf(Get(m, KwMaxLength)),
        TextOf(Get(m, KwPattern)), TextOf(Get(m, KwFormat)),
        ParseMap(raw, KwProperties), Strings(Get(m, KwRequired)), ParseSub(raw, KwItems),
        if KwAdditional !in m then Unset
        else match m[KwAdditional]
             case Bool(b) => Flag(b)
             case Obj(_) => Each(Parse(m[KwAdditional]))
             case _ => Unset,
        if |names| > 0 && anyOf.NoList? then List(Bares(names)) else anyOf,
        ParseList(raw, KwOneOf),
        if |names| > 0 && anyOf.List? then
          List((if allOf.List? then allOf.all else []) + [BLANK.(anyOf := List(Bares(names)))])
        else allOf,
        ParseSub(raw, KwNot),
        map k | k in m && IsNote(k, m[k]) :: m[k],
        Rest(m))
  }

  function ParseSub(raw: Json, k: Text): Sub
    requires raw.Obj?
    decreases raw, 0
  {
    if k in raw.fields && IsSchema(raw.fields[k]) then Sub(Parse(raw.fields[k])) else NoSub
  }

  function ParseList(raw: Json, k: Text): List
    requires raw.Obj?
    decreases raw, 0
  {
    if k in raw.fields && raw.fields[k].Arr? then
      var kept := SchemasIn(raw.fields[k].elems);
      List(seq(|kept|, i requires 0 <= i < |kept| => Parse(kept[i])))
    else NoList
  }

  function ParseMap(raw: Json, k: Text): map<Text, Schema>
    requires raw.Obj?
    decreases raw, 0
  {
    if k in raw.fields && raw.fields[k].Obj? then
      var m := raw.fields[k].fields;
      map p | p in m && IsSchema(m[p]) :: Parse(m[p])
    else map[]
  }

  // ---- emitting ----

  function Kept(s: Schema): map<Text, Json> {
    map k | k in s.rest && (k !in KEYWORDS || (k == KwItems && s.items.NoSub? && s.rest[k].Arr?)) :: s.rest[k]
  }

  function Kind(s: Schema, root: bool): Text {
    if s.kind == Empty && root then TObject else s.kind
  }

  function TextEntry(t: Text): Option<Json> {
    if t == Empty then None else Some(Str(t))
  }

  function Strs(ts: seq<Text>): Json {
    Arr(seq(|ts|, i requires 0 <= i < |ts| => Str(ts[i])))
  }

  function NumEntry(n: Option<Num>): Option<Json> { if n.Some? then Some(Number(n.value)) else None }

  function IntEntry(n: Option<Int64>): Option<Json> { if n.Some? then Some(Number(Whole(n.value))) else None }


  function EmitList(l: List): Option<Json>
    decreases l
  {
    if l.List? then Some(Arr(seq(|l.all|, i requires 0 <= i < |l.all| => Emit(l.all[i], false)))) else None
  }

  function EmitSub(u: Sub): Option<Json>
    decreases u
  {
    if u.Sub? then Some(Emit(u.schema, false)) else None
  }

  /** What the emitted object holds under k. */
  function Entry(s: Schema, root: bool, k: Text): Option<Json>
    decreases s, 0
  {
    match k
    case KwRef => TextEntry(s.ref)
    case KwDefs => if s.defs == map[] then None else Some(Obj(map p | p in s.defs :: Emit(s.defs[p], false)))
    case KwType => TextEntry(Kind(s, root))
    case KwEnum => if s.enum.Some? then Some(Arr(s.enum.value)) else None
    case KwMinimum => NumEntry(s.minimum)
    case KwMaximum => NumEntry(s.maximum)
    case KwMinLength => IntEntry(s.minLength)
    case KwMaxLength => IntEntry(s.maxLength)
    case KwPattern => TextEntry(s.pattern)
    case KwFormat => TextEntry(s.format)
    case KwProperties =>
      if s.properties != map[] then Some(Obj(map p | p in s.properties :: Emit(s.properties[p], false)))
      else if Kind(s, root) == TObject then Some(Obj(map[]))
      else None
    case KwRequired => if s.required == [] then None else Some(Strs(s.required))
    case KwItems => if s.items.Sub? then Some(Emit(s.items.schema, false)) else Get(Kept(s), KwItems)
    case KwAdditional =>
      (match s.additional
       case Unset => None
       case Flag(b) => Some(Bool(b))
       case Each(t) => Some(Emit(t, false)))
    case KwAnyOf => EmitList(s.anyOf)
    case KwOneOf => EmitList(s.oneOf)
    case KwAllOf => EmitList(s.allOf)
    case KwNot => EmitSub(s.not)
    case _ => if k in NOTES then Get(s.notes, k) else Get(Kept(s), k)
  }

  function Emit(s: Schema, root: bool): (r: Json)
    ensures r.Obj?
    decreases s, 1
  {
    Obj(map k | k in KEYWORDS + s.rest.Keys && Entry(s, root, k).Some? :: Entry(s, root, k).value)
  }

  /** A document from the framework's side; without a schema it is the one that takes any object. */
  function EmitRoot(s: Sub): Json {
    if s.Sub? then Emit(s.schema, true)
    else Obj(map[KwType := Str(TObject), KwProperties := Obj(map[])])
  }
}
