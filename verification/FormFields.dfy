/**
 `flatten_schema` of src/discord/actions.rs: a schema tree compiled to a flat list of form fields.
 */
module FormFields {
  import opened Wrappers
  import opened Json
  import opened PathAlgebra
  import Schema

  const MAX_SCHEMA_DEPTH: nat := 12

  /** Label, description, kind and allowed values are read off the path and the schema when needed. */
  datatype Field = Field(path: Path, schema: Value, required: bool, default: Option<Value>)

  function NewField(path: Path, schema: Value, required: bool): Field {
    Field(path, schema, required, schema.Get("default"))
  }

  predicate IsUnion(schema: Value) {
    exists key | key in {"oneOf", "anyOf"} :: var branches := schema.Get(key); branches.Some? && |Items(branches.value)| > 1
  }

  predicate Usable(branch: Value) {
    branch.Get("type") != Some(Str("null")) && branch.Get("const").None?
  }

  function FirstUsable(branches: seq<Value>): (branch: Option<Value>)
    ensures branch.Some? ==> branch.value in branches
  {
    if branches == [] then None else if Usable(branches[0]) then Some(branches[0]) else FirstUsable(branches[1..])
  }

  function UsableBranch(schema: Value, keyword: string): (branch: Option<Value>)
    ensures branch.Some? ==> branch.value < schema
  {
    var branches := Schema.Branches(schema, keyword);
    if branches.Some? then FirstUsable(branches.value) else None
  }

  /** `select_schema_branch`. */
  function Select(schema: Value): (selected: Value)
    ensures selected == schema || selected < schema
  {
    if UsableBranch(schema, "oneOf").Some? then UsableBranch(schema, "oneOf").value
    else if UsableBranch(schema, "anyOf").Some? then UsableBranch(schema, "anyOf").value
    else UsableBranch(schema, "allOf").GetOr(schema)
  }

  predicate Opens(schema: Value, depth: nat) {
    depth < MAX_SCHEMA_DEPTH && schema.Get("properties").Some? && schema.Get("properties").value.Obj?
  }

  /**
   The field a form shows for the path, if it shows one: follow the path's names through the
   properties until they run out at a schema that does not open any further.
   */
  function FieldAt(schema: Value, done: Path, path: Path, required: bool, depth: nat): (field: Option<Field>)
    decreases schema
  {
    if done != [] && IsUnion(schema) then
      if path == done then Some(NewField(path, schema, required)) else None
    else
      var selected := Select(schema);
      if Opens(selected, depth) then
        var properties := Schema.Properties(selected);
        if |done| < |path| && path[|done|] in properties then
          var name := path[|done|];
          FieldAt(properties[name], done + [name], path, name in Schema.Required(selected), depth + 1)
        else None
      else if done != [] && path == done then Some(NewField(path, selected, required))
      else None
  }

  predicate HasPath(fields: seq<Field>, path: Path) {
    exists i :: 0 <= i < |fields| && fields[i].path == path
  }

  /** The fields are those the paths lead to, each once, in any order. */
  ghost predicate IsForm(fields: seq<Field>, shown: Path -> Option<Field>) {
    && (forall i :: 0 <= i < |fields| ==> shown(fields[i].path) == Some(fields[i]))
    && (forall p: Path :: shown(p).Some? ==> HasPath(fields, p))
    && (forall i, j :: 0 <= i < j < |fields| ==> fields[i].path != fields[j].path)
  }

  lemma FormsAdd(a: seq<Field>, b: seq<Field>, f: Path -> Option<Field>, g: Path -> Option<Field>, h: Path -> Option<Field>)
    requires IsForm(a, f) && IsForm(b, g)
    requires forall p: Path :: f(p).None? || g(p).None?
    requires forall p: Path :: h(p) == if f(p).Some? then f(p) else g(p)
    ensures IsForm(a + b, h)
  {
    forall i, j | 0 <= i < j < |a + b| ensures (a + b)[i].path != (a + b)[j].path {
      if i < |a| <= j {
        assert f(a[i].path).Some? && g(b[j - |a|].path).Some?;
      }
    }
    forall p: Path | h(p).Some? ensures HasPath(a + b, p) {
      if f(p).Some? {
        var i :| 0 <= i < |a| && a[i].path == p;
        assert (a + b)[i].path == p;
      } else {
        var i :| 0 <= i < |b| && b[i].path == p;
        assert (a + b)[|a| + i].path == p;
      }
    }
  }

  lemma FormOfOne(field: Field, shown: Path -> Option<Field>)
    requires forall p: Path :: shown(p) == if p == field.path then Some(field) else None
    ensures IsForm([field], shown)
  {
    assert [field][0].path == field.path;
  }

  /** The `&mut Vec` that the recursion fills. */
  class FieldList {
    var fields: seq<Field>

    constructor ()
      ensures fields == []
    {
      fields := [];
    }

    method Push(field: Field)
      modifies this
      ensures fields == old(fields) + [field]
    {
      fields := fields + [field];
    }
  }

  ghost function Shown(schema: Value, done: Path, required: bool, depth: nat): Path -> Option<Field> {
    (path: Path) => FieldAt(schema, done, path, required, depth)
  }

  /** What is shown below an open schema for some of its properties. */
  ghost function ShownBelow(selected: Value, done: Path, names: set<string>, depth: nat): Path -> Option<Field>
    requires names <= Schema.Properties(selected).Keys
  {
    (path: Path) =>
      if |done| < |path| && path[|done|] in names then
        FieldAt(Schema.Properties(selected)[path[|done|]], done + [path[|done|]], path, path[|done|] in Schema.Required(selected), depth + 1)
      else None
  }

  method Flatten(schema: Value, path: Path, required: bool, depth: nat, list: FieldList)
    modifies list
    ensures old(list.fields) <= list.fields
    ensures IsForm(list.fields[|old(list.fields)|..], Shown(schema, path, required, depth))
    decreases schema
  {
    if path != [] && IsUnion(schema) {
      list.Push(NewField(path, schema, required));
      FormOfOne(NewField(path, schema, required), Shown(schema, path, required, depth));
      assert list.fields[|old(list.fields)|..] == [NewField(path, schema, required)];
      return;
    }
    var selected := Select(schema);
    if Opens(selected, depth) {
      FlattenProperties(selected, path, depth, list);
      assert forall p: Path :: Shown(schema, path, required, depth)(p) == ShownBelow(selected, path, Schema.Properties(selected).Keys, depth)(p);
      return;
    }
    if path != [] {
      list.Push(NewField(path, selected, required));
      FormOfOne(NewField(path, selected, required), Shown(schema, path, required, depth));
      assert list.fields[|old(list.fields)|..] == [NewField(path, selected, required)];
    }
  }

  /** The loop over the properties, in any order of them. */
  method FlattenProperties(selected: Value, path: Path, depth: nat, list: FieldList)
    modifies list
    ensures old(list.fields) <= list.fields
    ensures IsForm(list.fields[|old(list.fields)|..], ShownBelow(selected, path, Schema.Properties(selected).Keys, depth))
    decreases selected, 0
  {
    var properties := Schema.Properties(selected);
    var left := properties.Keys;
    ghost var start := |list.fields|;
    while left != {}
      invariant left <= properties.Keys && old(list.fields) <= list.fields
      invariant IsForm(list.fields[start..], ShownBelow(selected, path, properties.Keys - left, depth))
      decreases |left|
    {
      var name :| name in left;
      ghost var before := list.fields;
      Flatten(properties[name], path + [name], name in Schema.Required(selected), depth + 1, list);
      NextProperty(selected, path, depth, left, name, start, before, list.fields);
      left := left - {name};
    }
    assert properties.Keys - left == properties.Keys;
  }

  /** A path shows either what one more property shows or what those before it show. */
  lemma NextShown(selected: Value, path: Path, depth: nat, done: set<string>, name: string, p: Path)
    requires done <= Schema.Properties(selected).Keys && name in Schema.Properties(selected) && name !in done
    ensures var f := ShownBelow(selected, path, done, depth)(p);
            var g := Shown(Schema.Properties(selected)[name], path + [name], name in Schema.Required(selected), depth + 1)(p);
            && (f.None? || g.None?)
            && ShownBelow(selected, path, done + {name}, depth)(p) == if f.Some? then f else g
  {
    if Shown(Schema.Properties(selected)[name], path + [name], name in Schema.Required(selected), depth + 1)(p).Some? {
      FieldsLieBelow(Schema.Properties(selected)[name], path + [name], p, name in Schema.Required(selected), depth + 1);
      assert p[|path|] == (path + [name])[|path|];
    }
  }

  lemma NextProperty(
      selected: Value, path: Path, depth: nat, left: set<string>, name: string, start: nat, before: seq<Field>, after: seq<Field>)
    requires name in left && left <= Schema.Properties(selected).Keys && start <= |before| && before <= after
    requires IsForm(before[start..], ShownBelow(selected, path, Schema.Properties(selected).Keys - left, depth))
    requires IsForm(after[|before|..], Shown(Schema.Properties(selected)[name], path + [name], name in Schema.Required(selected), depth + 1))
    ensures IsForm(after[start..], ShownBelow(selected, path, Schema.Properties(selected).Keys - (left - {name}), depth))
  {
    var done := Schema.Properties(selected).Keys - left;
    var f := ShownBelow(selected, path, done, depth);
    var g := Shown(Schema.Properties(selected)[name], path + [name], name in Schema.Required(selected), depth + 1);
    var h := ShownBelow(selected, path, done + {name}, depth);
    assert Schema.Properties(selected).Keys - (left - {name}) == done + {name};
    forall p: Path ensures (f(p).None? || g(p).None?) && h(p) == if f(p).Some? then f(p) else g(p) {
      NextShown(selected, path, depth, done, name, p);
    }
    FormsAdd(before[start..], after[|before|..], f, g, h);
    assert after[start..] == before[start..] + after[|before|..];
  }

  /** A field's path leads through the place its schema was found at, and no field is nameless. */
  lemma {:induction false} FieldsLieBelow(schema: Value, done: Path, path: Path, required: bool, depth: nat)
    requires FieldAt(schema, done, path, required, depth).Some?
    ensures done <= path && path != [] && FieldAt(schema, done, path, required, depth).value.path == path
    decreases schema
  {
    var selected := Select(schema);
    if !(done != [] && IsUnion(schema)) && Opens(selected, depth) {
      var name := path[|done|];
      FieldsLieBelow(Schema.Properties(selected)[name], done + [name], path, name in Schema.Required(selected), depth + 1);
      assert done + [name] <= path && done <= done + [name];
    }
  }

  /** No field lies below another. */
  lemma {:induction false} FieldsAreApart(schema: Value, done: Path, p: Path, q: Path, required: bool, depth: nat)
    requires FieldAt(schema, done, p, required, depth).Some? && FieldAt(schema, done, q, required, depth).Some? && p <= q
    ensures p == q
    decreases schema
  {
    var selected := Select(schema);
    if !(done != [] && IsUnion(schema)) && Opens(selected, depth) {
      var name := p[|done|];
      assert q[|done|] == name;
      FieldsAreApart(Schema.Properties(selected)[name], done + [name], p, q, name in Schema.Required(selected), depth + 1);
    }
  }

  method FieldsFromSchema(schema: Value) returns (fields: seq<Field>)
    ensures IsForm(fields, Shown(schema, [], false, 0))
  {
    var list := new FieldList();
    Flatten(schema, [], false, 0, list);
    assert list.fields == list.fields[0..];
    return list.fields;
  }

  /** The paths of the fields: distinct, none empty, none a prefix of another. */
  predicate ApartFields(fields: seq<Field>) {
    && (forall i :: 0 <= i < |fields| ==> fields[i].path != [])
    && (forall i, j :: 0 <= i < |fields| && 0 <= j < |fields| && i != j ==> Apart(fields[i].path, fields[j].path))
  }

  lemma FormsAreApart(schema: Value, fields: seq<Field>)
    requires IsForm(fields, Shown(schema, [], false, 0))
    ensures ApartFields(fields)
  {
    var shown := Shown(schema, [], false, 0);
    forall i | 0 <= i < |fields| ensures fields[i].path != [] {
      assert shown(fields[i].path).Some?;
      FieldsLieBelow(schema, [], fields[i].path, false, 0);
    }
    forall i, j | 0 <= i < |fields| && 0 <= j < |fields| && i != j ensures !(fields[i].path <= fields[j].path) {
      assert shown(fields[i].path).Some? && shown(fields[j].path).Some?;
      if fields[i].path <= fields[j].path {
        FieldsAreApart(schema, [], fields[i].path, fields[j].path, false, 0);
      }
    }
  }
}
