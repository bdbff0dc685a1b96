/**
 `bind_schema_task_ids` of src/discord/bot.rs: every task identifier that the schema reaches in
 the parameters of an advanced call is tied to the channel's task.
 */
module TaskBinding {
  import opened Wrappers
  import opened Json
  import Schema

  function LowerAlphanumeric(c: char): string {
    if 'A' <= c <= 'Z' then [((c as int) + 32) as char]
    else if 'a' <= c <= 'z' || '0' <= c <= '9' then [c]
    else ""
  }

  function Canonical(key: string): string {
    if key == "" then "" else LowerAlphanumeric(key[0]) + Canonical(key[1..])
  }

  predicate IsIdKey(key: string) {
    Canonical(key) in {"threadid", "conversationid", "taskid"}
  }

  /** The object with every identifier in place. */
  function Bound(value: Value, schema: Value, id: string): Value
    decreases value
  {
    match value
    case Obj(fields) =>
      var properties := Schema.Properties(schema);
      Obj(map k | k in fields.Keys + (set p | p in properties && IsIdKey(p)) ::
        if k !in properties then fields[k] else if IsIdKey(k) then Str(id) else Bound(fields[k], properties[k], id))
    case Arr(items) =>
      var itemSchema := schema.Get("items");
      if itemSchema.None? then value
      else Arr(seq(|items|, i requires 0 <= i < |items| => Bound(items[i], itemSchema.value, id)))
    case _ => value
  }

  /** Some identifier in reach is already there and is another one, or no string at all. */
  predicate Conflicts(value: Value, schema: Value, id: string)
    decreases value
  {
    match value
    case Obj(fields) =>
      var properties := Schema.Properties(schema);
      exists k | k in fields && k in properties ::
        if IsIdKey(k) then fields[k] != Str(id) else Conflicts(fields[k], properties[k], id)
    case Arr(items) =>
      var itemSchema := schema.Get("items");
      itemSchema.Some? && exists i | 0 <= i < |items| :: Conflicts(items[i], itemSchema.value, id)
    case _ => false
  }

  /** What the loop over the properties has made of the object once it has seen some of them. */
  function BoundKeys(fields: map<string, Value>, properties: map<string, Value>, seen: set<string>, id: string): map<string, Value> {
    map k | k in fields.Keys + (set p | p in seen && p in properties && IsIdKey(p)) ::
      if k !in seen || k !in properties then fields[k] else if IsIdKey(k) then Str(id) else Bound(fields[k], properties[k], id)
  }

  predicate KeyConflicts(fields: map<string, Value>, properties: map<string, Value>, key: string, id: string)
    requires key in properties
  {
    key in fields && if IsIdKey(key) then fields[key] != Str(id) else Conflicts(fields[key], properties[key], id)
  }

  method Bind(value: Value, schema: Value, id: string) returns (ok: bool, bound: Value)
    ensures ok <==> !Conflicts(value, schema, id)
    ensures ok ==> bound == Bound(value, schema, id)
    decreases value, 1
  {
    match value {
      case Obj(fields) =>
        var after;
        ok, after := BindFields(value, Schema.Properties(schema), id);
        bound := Obj(after);
        if ok {
          assert after == Bound(value, schema, id).fields;
        }
      case Arr(items) =>
        var itemSchema := schema.Get("items");
        if itemSchema.None? {
          return true, value;
        }
        var after;
        ok, after := BindItems(value, itemSchema.value, id);
        bound := Arr(after);
      case _ => return true, value;
    }
  }

  /** The loop over the properties, in any order of them. */
  method BindFields(value: Value, properties: map<string, Value>, id: string) returns (ok: bool, after: map<string, Value>)
    requires value.Obj?
    ensures ok <==> forall k :: k in properties ==> !KeyConflicts(value.fields, properties, k, id)
    ensures ok ==> after == BoundKeys(value.fields, properties, properties.Keys, id)
    decreases value, 0
  {
    var fields := value.fields;
    after := fields;
    var left := properties.Keys;
    while left != {}
      invariant left <= properties.Keys
      invariant forall k :: k in properties && k !in left ==> !KeyConflicts(fields, properties, k, id)
      invariant after == BoundKeys(fields, properties, properties.Keys - left, id)
      decreases |left|
    {
      var key :| key in left;
      NextKey(fields, properties, left, key, id);
      if IsIdKey(key) {
        if key in after {
          if after[key] != Str(id) {
            return false, after;
          }
        } else {
          after := after[key := Str(id)];
        }
      } else if key in after {
        var child;
        ok, child := Bind(after[key], properties[key], id);
        if !ok {
          return false, after;
        }
        after := after[key := child];
      }
      left := left - {key};
    }
    return true, after;
  }

  lemma NextKey(fields: map<string, Value>, properties: map<string, Value>, left: set<string>, key: string, id: string)
    requires key in left && left <= properties.Keys
    ensures var before, after := BoundKeys(fields, properties, properties.Keys - left, id),
                                 BoundKeys(fields, properties, properties.Keys - (left - {key}), id);
            && (key in before <==> key in fields) && (key in fields ==> before[key] == fields[key])
            && after == if IsIdKey(key) then before[key := Str(id)]
                        else if key in fields then before[key := Bound(fields[key], properties[key], id)]
                        else before
  {
  }

  method BindItems(value: Value, itemSchema: Value, id: string) returns (ok: bool, after: seq<Value>)
    requires value.Arr?
    ensures ok <==> forall i :: 0 <= i < |value.items| ==> !Conflicts(value.items[i], itemSchema, id)
    ensures ok ==> after == seq(|value.items|, i requires 0 <= i < |value.items| => Bound(value.items[i], itemSchema, id))
    decreases value, 0
  {
    var items := value.items;
    after := [];
    for i := 0 to |items|
      invariant |after| == i && forall k :: 0 <= k < i ==> after[k] == Bound(items[k], itemSchema, id) && !Conflicts(items[k], itemSchema, id)
    {
      var child;
      ok, child := Bind(items[i], itemSchema, id);
      if !ok {
        return false, after + items[i..];
      }
      after := after + [child];
    }
    return true, after;
  }

  // ---- what binding means --------------------------------------------------------------------

  datatype Step = Key(name: string) | Index(i: nat)

  function Descend(value: Value, step: Step): Option<Value> {
    match step
    case Key(name) => value.Get(name)
    case Index(i) => if i < |Items(value)| then Some(Items(value)[i]) else None
  }

  function Look(value: Value, path: seq<Step>): Option<Value> {
    if path == [] then Some(value)
    else if Descend(value, path[0]).None? then None
    else Look(Descend(value, path[0]).value, path[1..])
  }

  /** What the schema says of the place one step down, where it looks further. */
  function SubSchema(value: Value, schema: Value, step: Step): Option<Value> {
    match step
    case Key(name) => if value.Obj? && name in Schema.Properties(schema) && !IsIdKey(name) then Some(Schema.Properties(schema)[name]) else None
    case Index(_) => if value.Arr? then schema.Get("items") else None
  }

  /** The place of an identifier: a path through properties and items ends at an identifier's name in an object. */
  predicate IdPlace(value: Value, schema: Value, path: seq<Step>) {
    if |path| == 0 then false
    else if |path| == 1 then value.Obj? && path[0].Key? && path[0].name in Schema.Properties(schema) && IsIdKey(path[0].name)
    else
      var child, below := Descend(value, path[0]), SubSchema(value, schema, path[0]);
      child.Some? && below.Some? && IdPlace(child.value, below.value, path[1..])
  }

  lemma BoundChild(value: Value, schema: Value, id: string, step: Step)
    requires Descend(value, step).Some? && SubSchema(value, schema, step).Some?
    ensures Descend(Bound(value, schema, id), step)
         == Some(Bound(Descend(value, step).value, SubSchema(value, schema, step).value, id))
  {
  }

  /** Every identifier in reach is the channel's task afterwards. */
  lemma {:induction false} IdsAreBound(value: Value, schema: Value, id: string, path: seq<Step>)
    requires IdPlace(value, schema, path)
    ensures Look(Bound(value, schema, id), path) == Some(Str(id))
    decreases path
  {
    if |path| > 1 {
      BoundChild(value, schema, id, path[0]);
      IdsAreBound(Descend(value, path[0]).value, SubSchema(value, schema, path[0]).value, id, path[1..]);
    }
  }

  /** Binding fails exactly when some place in reach already holds something else. */
  lemma {:induction false} ConflictIsElsewhereBound(value: Value, schema: Value, id: string)
    ensures Conflicts(value, schema, id) <==>
              exists path :: IdPlace(value, schema, path) && Look(value, path).Some? && Look(value, path) != Some(Str(id))
  {
    if Conflicts(value, schema, id) {
      var path := ConflictPlace(value, schema, id);
    }
    forall path | IdPlace(value, schema, path) && Look(value, path).Some? && Look(value, path) != Some(Str(id))
      ensures Conflicts(value, schema, id)
    {
      PlaceConflicts(value, schema, id, path);
    }
  }

  lemma {:induction false} ConflictPlace(value: Value, schema: Value, id: string) returns (path: seq<Step>)
    requires Conflicts(value, schema, id)
    ensures IdPlace(value, schema, path) && Look(value, path).Some? && Look(value, path) != Some(Str(id))
    decreases value
  {
    match value
    case Obj(fields) =>
      var properties := Schema.Properties(schema);
      var k :| k in fields && k in properties && if IsIdKey(k) then fields[k] != Str(id) else Conflicts(fields[k], properties[k], id);
      if IsIdKey(k) {
        path := [Key(k)];
        assert Look(value, path) == Some(fields[k]) by { assert path[1..] == []; }
      } else {
        var rest := ConflictPlace(fields[k], properties[k], id);
        path := Longer(value, schema, Key(k), rest);
      }
    case Arr(items) =>
      var itemSchema := schema.Get("items").value;
      var i :| 0 <= i < |items| && Conflicts(items[i], itemSchema, id);
      var rest := ConflictPlace(items[i], itemSchema, id);
      path := Longer(value, schema, Index(i), rest);
  }

  lemma Longer(value: Value, schema: Value, step: Step, rest: seq<Step>) returns (path: seq<Step>)
    requires Descend(value, step).Some? && SubSchema(value, schema, step).Some?
    requires IdPlace(Descend(value, step).value, SubSchema(value, schema, step).value, rest)
    ensures IdPlace(value, schema, path) && Look(value, path) == Look(Descend(value, step).value, rest)
  {
    path := [step] + rest;
    assert path[1..] == rest;
  }

  lemma {:induction false} PlaceConflicts(value: Value, schema: Value, id: string, path: seq<Step>)
    requires IdPlace(value, schema, path) && Look(value, path).Some? && Look(value, path) != Some(Str(id))
    ensures Conflicts(value, schema, id)
    decreases path
  {
    if |path| == 1 {
      assert Look(value, path) == value.Get(path[0].name);
    } else {
      PlaceConflicts(Descend(value, path[0]).value, SubSchema(value, schema, path[0]).value, id, path[1..]);
    }
  }

  /** Of the same kind, and the same value where there is nothing below it. */
  predicate SameKind(a: Value, b: Value) {
    (a.Obj? && b.Obj?) || (a.Arr? && b.Arr? && |a.items| == |b.items|) || a == b
  }

  /** Nothing is changed or removed: what was there is there, of the same kind and, at the leaves, equal. */
  lemma {:induction false} NothingElseChanges(value: Value, schema: Value, id: string, path: seq<Step>)
    requires !Conflicts(value, schema, id) && Look(value, path).Some?
    ensures Look(Bound(value, schema, id), path).Some? && SameKind(Look(value, path).value, Look(Bound(value, schema, id), path).value)
    decreases path
  {
    if path != [] {
      var child := Descend(value, path[0]).value;
      if SubSchema(value, schema, path[0]).Some? {
        BoundChild(value, schema, id, path[0]);
        NothingElseChanges(child, SubSchema(value, schema, path[0]).value, id, path[1..]);
      } else {
        assert Descend(Bound(value, schema, id), path[0]) == Some(child);
      }
    }
  }

  lemma StringsHaveNoParts(text: string, path: seq<Step>)
    ensures Look(Str(text), path).Some? ==> path == []
  {
  }

  lemma KeptChild(value: Value, schema: Value, id: string, step: Step)
    requires !Conflicts(value, schema, id) && Descend(value, step).Some?
    ensures SubSchema(value, schema, step).None? ==> Descend(Bound(value, schema, id), step) == Descend(value, step)
  {
  }

  /** Nothing is inserted but identifiers. */
  lemma {:induction false} OnlyIdsAreInserted(value: Value, schema: Value, id: string, path: seq<Step>)
    requires !Conflicts(value, schema, id) && Look(value, path).None? && Look(Bound(value, schema, id), path).Some?
    ensures IdPlace(value, schema, path)
    decreases path
  {
    if Descend(value, path[0]).None? {
      assert Descend(Bound(value, schema, id), path[0]) == Some(Str(id));
      StringsHaveNoParts(id, path[1..]);
    } else {
      KeptChild(value, schema, id, path[0]);
      if SubSchema(value, schema, path[0]).Some? {
        BoundChild(value, schema, id, path[0]);
        OnlyIdsAreInserted(Descend(value, path[0]).value, SubSchema(value, schema, path[0]).value, id, path[1..]);
      }
    }
  }

  /** Binding again finds nothing to object to and nothing to do. */
  lemma {:induction false} BindingIsIdempotent(value: Value, schema: Value, id: string)
    ensures !Conflicts(Bound(value, schema, id), schema, id)
    ensures Bound(Bound(value, schema, id), schema, id) == Bound(value, schema, id)
    decreases value
  {
    var once := Bound(value, schema, id);
    match value
    case Obj(fields) =>
      var properties := Schema.Properties(schema);
      forall k | k in fields && k in properties && !IsIdKey(k)
        ensures !Conflicts(once.fields[k], properties[k], id) && Bound(once.fields[k], properties[k], id) == once.fields[k]
      {
        BindingIsIdempotent(fields[k], properties[k], id);
      }
      assert Bound(once, schema, id).fields == once.fields;
    case Arr(items) =>
      var itemSchema := schema.Get("items");
      if itemSchema.Some? {
        forall i | 0 <= i < |items|
          ensures !Conflicts(once.items[i], itemSchema.value, id) && Bound(once.items[i], itemSchema.value, id) == once.items[i]
        {
          BindingIsIdempotent(items[i], itemSchema.value, id);
        }
        assert Bound(once, schema, id).items == once.items;
      }
    case _ =>
  }

  // ---- which keys are identifiers ------------------------------------------------------------------

  predicate AsciiAlphanumeric(c: char) {
    'A' <= c <= 'Z' || 'a' <= c <= 'z' || '0' <= c <= '9'
  }

  /** The same letters in any case; digits and others only as they are. */
  predicate SameUpToCase(a: string, b: string) {
    |a| == |b| && forall i :: 0 <= i < |a| ==> a[i] == b[i] || ('a' <= b[i] <= 'z' && a[i] as int == b[i] as int - 32)
  }

  function Letters(key: string): string {
    if key == "" then "" else (if AsciiAlphanumeric(key[0]) then [key[0]] else "") + Letters(key[1..])
  }

  function SmallLetter(c: char): char {
    if 'A' <= c <= 'Z' then (c as int + 32) as char else c
  }

  /** Letter by letter, what is left of a key is its letters and digits in small letters. */
  predicate Shrinks(letters: string, small: string) {
    |small| == |letters| && forall i :: 0 <= i < |letters| ==> small[i] == SmallLetter(letters[i])
  }

  lemma {:induction false} CanonicalIsSmall(key: string)
    ensures Shrinks(Letters(key), Canonical(key))
  {
    if key != "" {
      CanonicalIsSmall(key[1..]);
      if AsciiAlphanumeric(key[0]) {
        assert Letters(key) == [key[0]] + Letters(key[1..]) && Canonical(key) == [SmallLetter(key[0])] + Canonical(key[1..]);
      } else {
        assert Letters(key) == Letters(key[1..]) && Canonical(key) == Canonical(key[1..]);
      }
    }
  }

  lemma SmallSpelling(letters: string, small: string, word: string)
    requires Shrinks(letters, small) && forall i :: 0 <= i < |word| ==> 'a' <= word[i] <= 'z'
    ensures small == word <==> SameUpToCase(letters, word)
  {
    if SameUpToCase(letters, word) {
      assert forall i :: 0 <= i < |word| ==> small[i] == word[i];
    }
  }

  lemma CanonicalSpelling(key: string, word: string)
    requires forall i :: 0 <= i < |word| ==> 'a' <= word[i] <= 'z'
    ensures Canonical(key) == word <==> SameUpToCase(Letters(key), word)
  {
    CanonicalIsSmall(key);
    SmallSpelling(Letters(key), Canonical(key), word);
  }

  /** A key names a task if, but for separators and case, it is one of three words. */
  lemma IdentifierSpellings(key: string)
    ensures IsIdKey(key) <==>
              || SameUpToCase(Letters(key), "threadid") || SameUpToCase(Letters(key), "conversationid") || SameUpToCase(Letters(key), "taskid")
  {
    CanonicalSpelling(key, "threadid");
    CanonicalSpelling(key, "conversationid");
    CanonicalSpelling(key, "taskid");
  }
}
