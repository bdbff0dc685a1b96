/**
 What a schema asks of a value, in the dialect of src/codex/params.rs: `oneOf` and `anyOf` both
 mean "some branch" and hide the keywords beside them, `additionalProperties: false` is read only
 beside `properties`, and every other keyword of JSON Schema Validation draft-07 is ignored.
 */
module Schema {
  import opened Wrappers
  import opened Json

  datatype PatternVerdict = Matches | Misses | Invalid

  /** The regular expression engine: pattern and text to verdict. */
  type Regex = (string, string) -> PatternVerdict

  predicate SingleTypeMatches(kind: string, value: Value) {
    if kind == "object" then value.Obj?
    else if kind == "array" then value.Arr?
    else if kind == "string" then value.Str?
    else if kind == "boolean" then value.Bool?
    else if kind == "null" then value.Null?
    else if kind == "integer" then
      value.Num? && value.n.Int? && -0x8000_0000_0000_0000 <= value.n.i < 0x1_0000_0000_0000_0000
    else if kind == "number" then value.Num?
    else true
  }

  predicate TypeMatches(expected: Value, value: Value) {
    match expected
    case Str(kind) => SingleTypeMatches(kind, value)
    case Arr(kinds) => exists kind :: kind in Strings(kinds) && SingleTypeMatches(kind, value)
    case _ => true
  }

  function AsReal(n: Number): real {
    match n
    case Int(i) => i as real
    case Float(r) => r
  }

  predicate TypeOk(schema: Value, value: Value) {
    var expected := schema.Get("type");
    expected.Some? ==> TypeMatches(expected.value, value)
  }

  predicate EnumOk(schema: Value, value: Value) {
    var allowed := schema.Get("enum");
    allowed.Some? && allowed.value.Arr? ==> value in allowed.value.items
  }

  predicate MinimumOk(schema: Value, value: Value) {
    var minimum := schema.Get("minimum");
    minimum.Some? && minimum.value.Num? && value.Num? ==> AsReal(minimum.value.n) <= AsReal(value.n)
  }

  predicate MinLengthOk(schema: Value, value: Value) {
    var minimum := schema.Get("minLength");
    minimum.Some? && minimum.value.Num? && minimum.value.n.Int? && 0 <= minimum.value.n.i < 0x1_0000_0000_0000_0000 && value.Str?
    ==> minimum.value.n.i <= |value.s|
  }

  predicate PatternOk(rx: Regex, schema: Value, value: Value) {
    var pattern := schema.Get("pattern");
    pattern.Some? && pattern.value.Str? && value.Str? ==> rx(pattern.value.s, value.s).Matches?
  }

  function Required(schema: Value): set<string> {
    var names := schema.Get("required");
    if names.Some? then Strings(Items(names.value)) else {}
  }

  function Properties(schema: Value): map<string, Value> {
    var properties := schema.Get("properties");
    if properties.Some? then Fields(properties.value) else map[]
  }

  /** `properties` is present as an object and `additionalProperties` is false. */
  predicate Closed(schema: Value) {
    && schema.Get("properties").Some? && schema.Get("properties").value.Obj?
    && schema.Get("additionalProperties") == Some(Bool(false))
  }

  predicate ObjectOk(schema: Value, value: Value) {
    value.Obj? ==>
      && Required(schema) <= value.fields.Keys
      && (Closed(schema) ==> value.fields.Keys <= Properties(schema).Keys)
  }

  /** The keywords that speak of the value itself and not of its parts. */
  predicate LocalOk(rx: Regex, schema: Value, value: Value) {
    && EnumOk(schema, value) && MinimumOk(schema, value) && MinLengthOk(schema, value)
    && PatternOk(rx, schema, value) && ObjectOk(schema, value)
  }

  function Branches(schema: Value, keyword: string): Option<seq<Value>> {
    var branches := schema.Get(keyword);
    if branches.Some? && branches.value.Arr? then Some(branches.value.items) else None
  }

  /** The branches of `oneOf`, or else of `anyOf`. */
  function Union(schema: Value): Option<seq<Value>> {
    if Branches(schema, "oneOf").Some? then Branches(schema, "oneOf") else Branches(schema, "anyOf")
  }

  function AllOf(schema: Value): seq<Value> {
    Branches(schema, "allOf").GetOr([])
  }

  /** A sub-schema and the value it speaks of; `hops` JSON levels lie between a schema and its sub-schema. */
  datatype Part = Part(schema: Value, value: Value, hops: nat)

  /** What is left to check: nothing can help, some part must be accepted, or every part. */
  datatype Goal = Never | Any(parts: set<Part>) | Every(parts: set<Part>)

  function BranchParts(branches: seq<Value>, value: Value): set<Part> {
    set b | b in branches :: Part(b, value, 2)
  }

  function PropertyParts(schema: Value, value: Value): set<Part> {
    var properties := Properties(schema);
    set name | name in Fields(value) && name in properties :: Part(properties[name], Fields(value)[name], 2)
  }

  function EachItem(items: Value, values: seq<Value>): set<Part> {
    set v | v in values :: Part(items, v, 1)
  }

  function ItemParts(schema: Value, value: Value): set<Part> {
    if schema.Get("items").None? then {} else EachItem(schema.Get("items").value, Items(value))
  }

  /** The schema read one level deep. */
  function Goals(rx: Regex, schema: Value, value: Value): (goal: Goal)
    ensures !goal.Never? ==> forall p :: p in goal.parts ==> p.schema < schema
  {
    if !schema.Obj? then Every({})
    else if Union(schema).Some? then Any(BranchParts(Union(schema).value, value))
    else if TypeOk(schema, value) && LocalOk(rx, schema, value) then
      Every(BranchParts(AllOf(schema), value) + PropertyParts(schema, value) + ItemParts(schema, value))
    else Never
  }

  /** A way to read schemas; the lemmas about caps hold for every one. */
  type Dialect = (Value, Value) -> Goal

  function CodexDialect(rx: Regex): Dialect {
    (schema, value) => Goals(rx, schema, value)
  }
}
