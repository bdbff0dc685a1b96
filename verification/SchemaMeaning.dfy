/**
 What the keywords of src/codex/params.rs mean, spelled out for schemas as they are written: which
 values each type name admits, and when a bound, a list, a branch or a property lets a value through.
 */
module SchemaMeaning {
  import opened Wrappers
  import opened Json
  import opened Schema
  import opened Validator

  /** The verdict of `validate`: no problems. */
  ghost predicate Admits(rx: Regex, schema: Value, v: Value) {
    CheckOk(CodexDialect(rx), schema, v, 0)
  }

  function One(keyword: string, argument: Value): Value {
    Obj(map[keyword := argument])
  }

  lemma OneHas(keyword: string, argument: Value)
    ensures One(keyword, argument).Obj? && One(keyword, argument).Get(keyword) == Some(argument)
    ensures forall k :: k != keyword ==> One(keyword, argument).Get(k).None?
  {
  }

  /** A schema without parts is a matter of the value alone. */
  lemma WithoutParts(rx: Regex, schema: Value, v: Value, depth: nat)
    requires schema.Obj? && depth < MAX_DEPTH && Union(schema).None? && AllOf(schema) == []
    requires Properties(schema) == map[] && schema.Get("items").None?
    ensures CheckOk(CodexDialect(rx), schema, v, depth) <==> TypeOk(schema, v) && LocalOk(rx, schema, v)
  {
    assert BranchParts([], v) == {} && PropertyParts(schema, v) == {};
  }

  lemma OneKeyword(rx: Regex, keyword: string, argument: Value, v: Value)
    requires keyword !in {"oneOf", "anyOf", "allOf", "properties", "items"}
    ensures var s := One(keyword, argument); Admits(rx, s, v) <==> TypeOk(s, v) && LocalOk(rx, s, v)
  {
    OneHas(keyword, argument);
    WithoutParts(rx, One(keyword, argument), v, 0);
  }

  // ---- types ---------------------------------------------------------------------------------

  lemma TypeKeyword(rx: Regex, argument: Value, v: Value)
    ensures Admits(rx, One("type", argument), v) <==> TypeMatches(argument, v)
  {
    OneKeyword(rx, "type", argument, v);
    OneHas("type", argument);
  }

  lemma TypeName(rx: Regex, name: string, v: Value)
    ensures Admits(rx, One("type", Str(name)), v) <==> SingleTypeMatches(name, v)
  {
    TypeKeyword(rx, Str(name), v);
  }

  /** Each type name admits the values of its kind and no others. */
  lemma TypeNames(rx: Regex, v: Value)
    ensures Admits(rx, One("type", Str("object")), v) <==> v.Obj?
    ensures Admits(rx, One("type", Str("array")), v) <==> v.Arr?
    ensures Admits(rx, One("type", Str("string")), v) <==> v.Str?
    ensures Admits(rx, One("type", Str("boolean")), v) <==> v.Bool?
    ensures Admits(rx, One("type", Str("null")), v) <==> v.Null?
    ensures Admits(rx, One("type", Str("number")), v) <==> v.Num?
  {
    TypeName(rx, "object", v);
    TypeName(rx, "array", v);
    TypeName(rx, "string", v);
    TypeName(rx, "boolean", v);
    TypeName(rx, "null", v);
    TypeName(rx, "number", v);
  }

  /** An integer is one that 64 bits hold, signed or not; an unknown type name admits everything. */
  lemma IntegersAndUnknownNames(rx: Regex, v: Value, name: string)
    ensures Admits(rx, One("type", Str("integer")), v) <==>
              v.Num? && v.n.Int? && -9_223_372_036_854_775_808 <= v.n.i <= 18_446_744_073_709_551_615
    ensures name !in {"object", "array", "string", "boolean", "null", "number", "integer"} ==> Admits(rx, One("type", Str(name)), v)
  {
    TypeName(rx, "integer", v);
    TypeName(rx, name, v);
  }

  /** A list of types admits what some name in it admits. */
  lemma TypeLists(rx: Regex, names: seq<Value>, v: Value)
    ensures Admits(rx, One("type", Arr(names)), v) <==> exists i :: 0 <= i < |names| && names[i].Str? && Admits(rx, One("type", names[i]), v)
  {
    TypeKeyword(rx, Arr(names), v);
    forall i | 0 <= i < |names| ensures Admits(rx, One("type", names[i]), v) <==> TypeMatches(names[i], v) {
      TypeKeyword(rx, names[i], v);
    }
    if TypeMatches(Arr(names), v) {
      var kind :| kind in Strings(names) && SingleTypeMatches(kind, v);
      var i :| 0 <= i < |names| && names[i] == Str(kind);
      assert TypeMatches(names[i], v);
    }
    if i :| 0 <= i < |names| && names[i].Str? && Admits(rx, One("type", names[i]), v) {
      assert names[i] in names && names[i].s in Strings(names);
    }
  }

  // ---- bounds and lists ------------------------------------------------------------------------

  /** A minimum bounds numbers, integers and floats alike, from below, and nothing else. */
  lemma Minimum(rx: Regex, bound: Number, v: Value)
    ensures Admits(rx, One("minimum", Num(bound)), v) <==>
              var least := match bound case Int(i) => i as real case Float(r) => r;
              match v
              case Num(Int(i)) => least <= i as real
              case Num(Float(r)) => least <= r
              case _ => true
  {
    OneKeyword(rx, "minimum", Num(bound), v);
    OneHas("minimum", Num(bound));
  }

  /** A minimum length counts the characters of strings. */
  lemma MinLength(rx: Regex, bound: nat, v: Value)
    requires bound < 0x1_0000_0000_0000_0000
    ensures Admits(rx, One("minLength", Num(Int(bound))), v) <==> !v.Str? || bound <= |v.s|
  {
    OneKeyword(rx, "minLength", Num(Int(bound)), v);
    OneHas("minLength", Num(Int(bound)));
  }

  /** An enumeration admits the values in it. */
  lemma Enumeration(rx: Regex, allowed: seq<Value>, v: Value)
    ensures Admits(rx, One("enum", Arr(allowed)), v) <==> v in allowed
  {
    OneKeyword(rx, "enum", Arr(allowed), v);
    OneHas("enum", Arr(allowed));
  }

  /** A pattern admits the strings it matches and everything that is no string; an invalid one admits no string. */
  lemma PatternText(rx: Regex, pattern: string, v: Value)
    ensures Admits(rx, One("pattern", Str(pattern)), v) <==> !v.Str? || rx(pattern, v.s) == Matches
  {
    OneKeyword(rx, "pattern", Str(pattern), v);
    OneHas("pattern", Str(pattern));
  }

  /** Required names are asked of objects only. */
  lemma RequiredNames(rx: Regex, names: seq<Value>, v: Value)
    ensures Admits(rx, One("required", Arr(names)), v) <==>
              !v.Obj? || forall i :: 0 <= i < |names| && names[i].Str? ==> names[i].s in v.fields
  {
    OneKeyword(rx, "required", Arr(names), v);
    OneHas("required", Arr(names));
    if v.Obj? {
      assert Required(One("required", Arr(names))) == Strings(names);
      if Strings(names) <= v.fields.Keys {
        forall i | 0 <= i < |names| && names[i].Str? ensures names[i].s in v.fields {
          assert names[i] in names && names[i].s in Strings(names);
        }
      }
    }
  }

  /** A keyword whose argument is not of its kind asks nothing. */
  lemma MalformedList(rx: Regex, argument: Value, v: Value)
    requires !argument.Arr?
    ensures Admits(rx, One("enum", argument), v) && Admits(rx, One("required", argument), v)
  {
    OneKeyword(rx, "enum", argument, v);
    OneHas("enum", argument);
    OneKeyword(rx, "required", argument, v);
    OneHas("required", argument);
  }

  lemma MalformedBound(rx: Regex, argument: Value, v: Value)
    ensures !argument.Num? ==> Admits(rx, One("minimum", argument), v)
    ensures !(argument.Num? && argument.n.Int? && 0 <= argument.n.i < 0x1_0000_0000_0000_0000) ==> Admits(rx, One("minLength", argument), v)
  {
    OneKeyword(rx, "minimum", argument, v);
    OneHas("minimum", argument);
    OneKeyword(rx, "minLength", argument, v);
    OneHas("minLength", argument);
  }

  lemma MalformedText(rx: Regex, argument: Value, v: Value)
    requires !argument.Str?
    ensures Admits(rx, One("pattern", argument), v) && (!argument.Arr? ==> Admits(rx, One("type", argument), v))
  {
    OneKeyword(rx, "pattern", argument, v);
    OneHas("pattern", argument);
    TypeKeyword(rx, argument, v);
  }

  lemma NoObjectAsksNothing(rx: Regex, schema: Value, v: Value)
    requires !schema.Obj?
    ensures Admits(rx, schema, v)
  {
  }

  // ---- branches, properties and items ----------------------------------------------------------

  /** Every part is checked one level down. */
  ghost predicate AllAdmitted(rx: Regex, parts: set<Part>) {
    forall p :: p in parts ==> CheckOk(CodexDialect(rx), p.schema, p.value, 1)
  }

  lemma PlainSchema(rx: Regex, schema: Value, v: Value)
    requires schema.Obj? && Union(schema).None?
    ensures Admits(rx, schema, v) <==>
              && TypeOk(schema, v) && LocalOk(rx, schema, v) && AllAdmitted(rx, BranchParts(AllOf(schema), v))
              && AllAdmitted(rx, PropertyParts(schema, v)) && AllAdmitted(rx, ItemParts(schema, v))
  {
    var a, b, c := BranchParts(AllOf(schema), v), PropertyParts(schema, v), ItemParts(schema, v);
    if TypeOk(schema, v) && LocalOk(rx, schema, v) {
      assert Goals(rx, schema, v) == Every(a + b + c);
      assert AllAdmitted(rx, a + b + c) <==> AllAdmitted(rx, a) && AllAdmitted(rx, b) && AllAdmitted(rx, c);
    }
  }

  /** `oneOf` asks for some branch and hides everything beside it. */
  lemma OneOf(rx: Regex, fields: map<string, Value>, v: Value)
    requires "oneOf" in fields && fields["oneOf"].Arr?
    ensures Admits(rx, Obj(fields), v) <==> exists b :: b in fields["oneOf"].items && CheckOk(CodexDialect(rx), b, v, 1)
  {
    SomeBranch(rx, Obj(fields), fields["oneOf"].items, v);
  }

  /** `anyOf` does so too, where no `oneOf` comes before it. */
  lemma AnyOf(rx: Regex, fields: map<string, Value>, v: Value)
    requires "anyOf" in fields && fields["anyOf"].Arr? && !("oneOf" in fields && fields["oneOf"].Arr?)
    ensures Admits(rx, Obj(fields), v) <==> exists b :: b in fields["anyOf"].items && CheckOk(CodexDialect(rx), b, v, 1)
  {
    SomeBranch(rx, Obj(fields), fields["anyOf"].items, v);
  }

  lemma SomeBranch(rx: Regex, schema: Value, branches: seq<Value>, v: Value)
    requires schema.Obj? && Union(schema) == Some(branches)
    ensures Admits(rx, schema, v) <==> exists b :: b in branches && CheckOk(CodexDialect(rx), b, v, 1)
  {
    assert Goals(rx, schema, v) == Any(BranchParts(branches, v));
    if b :| b in branches && CheckOk(CodexDialect(rx), b, v, 1) {
      assert Part(b, v, 2) in BranchParts(branches, v);
    }
  }

  /** `allOf` asks for every branch. */
  lemma AllOfThem(rx: Regex, branches: seq<Value>, v: Value)
    ensures Admits(rx, One("allOf", Arr(branches)), v) <==> forall b :: b in branches ==> CheckOk(CodexDialect(rx), b, v, 1)
  {
    OneHas("allOf", Arr(branches));
    PlainSchema(rx, One("allOf", Arr(branches)), v);
    BranchesAdmitted(rx, branches, v);
  }

  lemma BranchesAdmitted(rx: Regex, branches: seq<Value>, v: Value)
    ensures AllAdmitted(rx, BranchParts(branches, v)) <==> forall b :: b in branches ==> CheckOk(CodexDialect(rx), b, v, 1)
  {
    if AllAdmitted(rx, BranchParts(branches, v)) {
      forall b | b in branches ensures CheckOk(CodexDialect(rx), b, v, 1) {
        assert Part(b, v, 2) in BranchParts(branches, v);
      }
    }
  }

  /** `items` asks it of every item of an array. */
  lemma EveryItem(rx: Regex, items: Value, v: Value)
    ensures Admits(rx, One("items", items), v) <==> !v.Arr? || forall x :: x in v.items ==> CheckOk(CodexDialect(rx), items, x, 1)
  {
    OneHas("items", items);
    PlainSchema(rx, One("items", items), v);
    ItemsAdmitted(rx, items, Items(v));
  }

  lemma ItemsAdmitted(rx: Regex, items: Value, values: seq<Value>)
    ensures AllAdmitted(rx, EachItem(items, values)) <==> forall x :: x in values ==> CheckOk(CodexDialect(rx), items, x, 1)
  {
    if AllAdmitted(rx, EachItem(items, values)) {
      forall x | x in values ensures CheckOk(CodexDialect(rx), items, x, 1) {
        assert Part(items, x, 1) in EachItem(items, values);
      }
    }
  }

  /** Properties are asked of the entries an object has; only `false` closes it to others. */
  lemma PropertiesAndOthers(rx: Regex, properties: map<string, Value>, additional: Value, v: Value)
    ensures var schema := Obj(map["properties" := Obj(properties), "additionalProperties" := additional]);
            Admits(rx, schema, v) <==> !v.Obj? || forall name :: name in v.fields ==>
              if name in properties then CheckOk(CodexDialect(rx), properties[name], v.fields[name], 1) else additional != Bool(false)
  {
    var schema := Obj(map["properties" := Obj(properties), "additionalProperties" := additional]);
    PropertiesHas(properties, additional);
    PlainSchema(rx, schema, v);
    EntriesAdmitted(rx, schema, properties, v);
  }

  lemma PropertiesHas(properties: map<string, Value>, additional: Value)
    ensures var schema := Obj(map["properties" := Obj(properties), "additionalProperties" := additional]);
            && Properties(schema) == properties && (Closed(schema) <==> additional == Bool(false))
            && Union(schema).None? && AllOf(schema) == [] && schema.Get("items").None?
            && (forall k :: k !in {"properties", "additionalProperties"} ==> schema.Get(k).None?)
  {
  }

  lemma EntriesAdmitted(rx: Regex, schema: Value, properties: map<string, Value>, v: Value)
    requires Properties(schema) == properties
    ensures AllAdmitted(rx, PropertyParts(schema, v)) <==>
              forall name :: name in Fields(v) && name in properties ==> CheckOk(CodexDialect(rx), properties[name], Fields(v)[name], 1)
  {
    if AllAdmitted(rx, PropertyParts(schema, v)) {
      forall name | name in Fields(v) && name in properties ensures CheckOk(CodexDialect(rx), properties[name], Fields(v)[name], 1) {
        assert Part(properties[name], Fields(v)[name], 2) in PropertyParts(schema, v);
      }
    }
  }

  // ---- keywords together -----------------------------------------------------------------------

  /** What a keyword asks when it stands alone; one that is missing asks nothing. */
  ghost predicate Asks(rx: Regex, schema: Value, keyword: string, v: Value) {
    schema.Get(keyword).Some? ==> Admits(rx, One(keyword, schema.Get(keyword).value), v)
  }

  lemma TypeAlone(rx: Regex, schema: Value, v: Value)
    ensures TypeOk(schema, v) <==> Asks(rx, schema, "type", v)
  {
    var argument := schema.Get("type");
    if argument.Some? {
      TypeKeyword(rx, argument.value, v);
    }
  }

  lemma EnumAlone(rx: Regex, schema: Value, v: Value)
    ensures EnumOk(schema, v) <==> Asks(rx, schema, "enum", v)
  {
    var argument := schema.Get("enum");
    if argument.Some? {
      OneKeyword(rx, "enum", argument.value, v);
      OneHas("enum", argument.value);
    }
  }

  lemma MinimumAlone(rx: Regex, schema: Value, v: Value)
    ensures MinimumOk(schema, v) <==> Asks(rx, schema, "minimum", v)
  {
    var argument := schema.Get("minimum");
    if argument.Some? {
      OneKeyword(rx, "minimum", argument.value, v);
      OneHas("minimum", argument.value);
    }
  }

  lemma MinLengthAlone(rx: Regex, schema: Value, v: Value)
    ensures MinLengthOk(schema, v) <==> Asks(rx, schema, "minLength", v)
  {
    var argument := schema.Get("minLength");
    if argument.Some? {
      OneKeyword(rx, "minLength", argument.value, v);
      OneHas("minLength", argument.value);
    }
  }

  lemma PatternAlone(rx: Regex, schema: Value, v: Value)
    ensures PatternOk(rx, schema, v) <==> Asks(rx, schema, "pattern", v)
  {
    var argument := schema.Get("pattern");
    if argument.Some? {
      OneKeyword(rx, "pattern", argument.value, v);
      OneHas("pattern", argument.value);
    }
  }

  lemma RequiredAlone(rx: Regex, schema: Value, v: Value)
    ensures (v.Obj? ==> Required(schema) <= v.fields.Keys) <==> Asks(rx, schema, "required", v)
  {
    var argument := schema.Get("required");
    if argument.Some? {
      OneKeyword(rx, "required", argument.value, v);
      OneHas("required", argument.value);
    }
  }

  lemma AllOfAlone(rx: Regex, schema: Value, v: Value)
    ensures AllAdmitted(rx, BranchParts(AllOf(schema), v)) <==> Asks(rx, schema, "allOf", v)
  {
    var argument := schema.Get("allOf");
    if argument.Some? {
      OneHas("allOf", argument.value);
      PlainSchema(rx, One("allOf", argument.value), v);
    }
  }

  lemma ItemsAlone(rx: Regex, schema: Value, v: Value)
    ensures AllAdmitted(rx, ItemParts(schema, v)) <==> Asks(rx, schema, "items", v)
  {
    var argument := schema.Get("items");
    if argument.Some? {
      OneHas("items", argument.value);
      PlainSchema(rx, One("items", argument.value), v);
    }
  }

  /** What `properties` and `additionalProperties` ask together. */
  ghost predicate EntriesOk(rx: Regex, fields: map<string, Value>, v: Value) {
    "properties" in fields && fields["properties"].Obj? && v.Obj? ==>
      forall name :: name in v.fields ==>
        if name in fields["properties"].fields then CheckOk(CodexDialect(rx), fields["properties"].fields[name], v.fields[name], 1)
        else !("additionalProperties" in fields && fields["additionalProperties"] == Bool(false))
  }

  lemma EntriesAlone(rx: Regex, fields: map<string, Value>, v: Value)
    ensures var schema := Obj(fields);
            (v.Obj? && Closed(schema) ==> v.fields.Keys <= Properties(schema).Keys) && AllAdmitted(rx, PropertyParts(schema, v))
            <==> EntriesOk(rx, fields, v)
  {
    EntriesAdmitted(rx, Obj(fields), Properties(Obj(fields)), v);
  }

  /**
   Without a union a schema admits exactly the values that each of its keywords admits when it stands
   alone, `additionalProperties` being read beside `properties`; other keywords ask nothing.
   */
  lemma KeywordsAddUp(rx: Regex, fields: map<string, Value>, v: Value)
    requires forall k :: k in {"oneOf", "anyOf"} && k in fields ==> !fields[k].Arr?
    ensures Admits(rx, Obj(fields), v) <==>
              && EntriesOk(rx, fields, v)
              && forall k :: k in {"type", "enum", "minimum", "minLength", "pattern", "required", "allOf", "items"} ==>
                   Asks(rx, Obj(fields), k, v)
  {
    var schema := Obj(fields);
    PlainSchema(rx, schema, v);
    TypeAlone(rx, schema, v);
    EnumAlone(rx, schema, v);
    MinimumAlone(rx, schema, v);
    MinLengthAlone(rx, schema, v);
    PatternAlone(rx, schema, v);
    RequiredAlone(rx, schema, v);
    AllOfAlone(rx, schema, v);
    ItemsAlone(rx, schema, v);
    EntriesAlone(rx, fields, v);
  }
}
