/**
 Forms spelled out for schemas as they are written: which branch stands for a schema, what field a
 property becomes, how deep the form goes, and what a draft of a flat record offers and starts with.
 */
module FormMeaning {
  import opened Wrappers
  import opened Json
  import opened PathAlgebra
  import opened FormFields
  import opened ActionForm
  import Schema

  // ---- branches ---------------------------------------------------------------------------------

  /** The branch is `null` or a constant. */
  predicate PassedOver(branch: Value) {
    branch.Get("type") == Some(Str("null")) || branch.Get("const").Some?
  }

  predicate AllPassedOver(schema: Value, keyword: string) {
    schema.Get(keyword).Some? ==> forall branch | branch in Items(schema.Get(keyword).value) :: PassedOver(branch)
  }

  lemma {:induction false} FirstNotPassedOver(branches: seq<Value>, i: nat)
    requires i <= |branches| && forall j :: 0 <= j < i ==> PassedOver(branches[j])
    requires i < |branches| ==> !PassedOver(branches[i])
    ensures FirstUsable(branches) == if i < |branches| then Some(branches[i]) else None
  {
    if i > 0 {
      FirstNotPassedOver(branches[1..], i - 1);
    }
  }

  lemma NothingUsable(schema: Value, keyword: string)
    requires AllPassedOver(schema, keyword)
    ensures UsableBranch(schema, keyword).None?
  {
    if schema.Get(keyword).Some? {
      var branches := Items(schema.Get(keyword).value);
      FirstNotPassedOver(branches, |branches|);
    }
  }

  /**
   A schema stands for its first branch that is neither `null` nor a constant, under `oneOf` before
   `anyOf` before `allOf`.
   */
  lemma BranchesAreChosen(schema: Value, keyword: string, branches: seq<Value>, i: nat)
    requires schema.Get(keyword) == Some(Arr(branches)) && i < |branches|
    requires (forall j :: 0 <= j < i ==> PassedOver(branches[j])) && !PassedOver(branches[i])
    requires keyword in {"oneOf", "anyOf", "allOf"}
    requires keyword != "oneOf" ==> AllPassedOver(schema, "oneOf")
    requires keyword == "allOf" ==> AllPassedOver(schema, "anyOf")
    ensures Select(schema) == branches[i]
  {
    FirstNotPassedOver(branches, i);
    if keyword != "oneOf" {
      NothingUsable(schema, "oneOf");
    }
    if keyword == "allOf" {
      NothingUsable(schema, "anyOf");
    }
  }

  /** A schema without such a branch stands for itself. */
  lemma NoBranchIsChosen(schema: Value)
    requires AllPassedOver(schema, "oneOf") && AllPassedOver(schema, "anyOf") && AllPassedOver(schema, "allOf")
    ensures Select(schema) == schema
  {
    NothingUsable(schema, "oneOf");
    NothingUsable(schema, "anyOf");
    NothingUsable(schema, "allOf");
  }

  /** A property with a choice of two or more is one field, whatever else its schema says. */
  lemma UnionsAreOneField(schema: Value, keyword: string, branches: seq<Value>, place: Path, path: Path, required: bool, depth: nat)
    requires keyword in {"oneOf", "anyOf"} && schema.Get(keyword) == Some(Arr(branches)) && |branches| >= 2 && place != []
    ensures FieldAt(schema, place, path, required, depth) ==
              if path == place then Some(Field(place, schema, required, schema.Get("default"))) else None
  {
    assert keyword in {"oneOf", "anyOf"} && schema.Get(keyword).Some? && |Items(schema.Get(keyword).value)| > 1;
    assert IsUnion(schema);
  }

  // ---- records ----------------------------------------------------------------------------------

  /** A schema without branches and properties. */
  predicate Plain(schema: Value) {
    schema.Get("oneOf").None? && schema.Get("anyOf").None? && schema.Get("allOf").None? && schema.Get("properties").None?
  }

  function Record(properties: map<string, Value>, required: seq<Value>): Value {
    Obj(map["properties" := Obj(properties), "required" := Arr(required)])
  }

  predicate PlainRecord(properties: map<string, Value>) {
    forall name | name in properties :: Plain(properties[name])
  }

  lemma PlainField(schema: Value, place: Path, path: Path, required: bool, depth: nat)
    requires Plain(schema) && place != []
    ensures FieldAt(schema, place, path, required, depth) ==
              if path == place then Some(Field(place, schema, required, schema.Get("default"))) else None
  {
    NoBranchIsChosen(schema);
  }

  lemma RecordParts(properties: map<string, Value>, required: seq<Value>)
    ensures var record := Record(properties, required);
            && !IsUnion(record) && Select(record) == record && Opens(record, 0)
            && Schema.Properties(record) == properties
            && forall name :: name in Schema.Required(record) <==> Str(name) in required
  {
    var record := Record(properties, required);
    NoBranchIsChosen(record);
    assert record.Get("required") == Some(Arr(required));
    forall name ensures name in Schema.Required(record) <==> Str(name) in required {
      assert name in Strings(required) <==> Str(name) in required by {
        if Str(name) in required {
          assert Str(name).Str? && Str(name).s == name;
        }
      }
    }
  }

  /** A record shows one field for each property, required if it is listed, with its schema and default. */
  lemma RecordsShowTheirProperties(properties: map<string, Value>, required: seq<Value>, path: Path)
    requires PlainRecord(properties)
    ensures FieldAt(Record(properties, required), [], path, false, 0) ==
              if |path| != 1 || path[0] !in properties then None
              else Some(Field(path, properties[path[0]], Str(path[0]) in required, properties[path[0]].Get("default")))
  {
    RecordParts(properties, required);
    if path != [] && path[0] in properties {
      assert [] + [path[0]] == [path[0]];
      PlainField(properties[path[0]], [path[0]], path, Str(path[0]) in required, 1);
    }
  }

  // ---- depth ------------------------------------------------------------------------------------

  /** Properties within properties, `n` of them, around a text. */
  function Chain(n: nat): Value {
    if n == 0 then Obj(map["type" := Str("string")]) else Obj(map["properties" := Obj(map["a" := Chain(n - 1)])])
  }

  function Names(n: nat): (path: Path)
    ensures |path| == n
  {
    seq(n, i => "a")
  }

  lemma ChainParts(n: nat, depth: nat)
    ensures !IsUnion(Chain(n)) && Select(Chain(n)) == Chain(n)
    ensures Opens(Chain(n), depth) <==> n > 0 && depth < 12
    ensures n > 0 ==> Schema.Properties(Chain(n)) == map["a" := Chain(n - 1)]
  {
    NoBranchIsChosen(Chain(n));
  }

  /** Whether the form shows the path below the `depth`-th of the names. */
  function ShownInChain(path: Path): (nat, nat) -> bool {
    (n: nat, depth: nat) => FieldAt(Chain(n), Names(depth), path, false, depth).Some?
  }

  /** One more name is asked for while there are properties and no more than twelve names. */
  ghost predicate Opening(shown: (nat, nat) -> bool, path: Path, n: nat, depth: nat) {
    shown(n, depth) <==>
      if n > 0 && depth < 12 then |path| > depth && path[depth] == "a" && shown(n - 1, depth + 1) else path == Names(depth)
  }

  lemma ChainOpens(path: Path, n: nat, depth: nat)
    requires depth <= 12 && n + depth > 0
    ensures Opening(ShownInChain(path), path, n, depth)
  {
    ChainParts(n, depth);
    if n > 0 && depth < 12 {
      assert Names(depth) + ["a"] == Names(depth + 1) && "a" !in Schema.Required(Chain(n));
    }
  }

  lemma {:induction false} OpeningEnds(shown: (nat, nat) -> bool, path: Path, n: nat, depth: nat)
    requires depth <= 12 && n + depth > 0 && forall m: nat, k: nat :: k <= 12 && m + k > 0 ==> Opening(shown, path, m, k)
    ensures shown(n, depth) <==> path == Names(if n + depth <= 12 then n + depth else 12)
    decreases n
  {
    assert Opening(shown, path, n, depth);
    if n > 0 && depth < 12 {
      OpeningEnds(shown, path, n - 1, depth + 1);
    }
  }

  /** However deep the properties, a form names at most twelve; the rest is the value of one field. */
  lemma FormsStopAtTwelve(n: nat, path: Path)
    requires n > 0
    ensures FieldAt(Chain(n), [], path, false, 0).Some? <==> path == Names(if n <= 12 then n else 12)
  {
    assert Names(0) == [];
    forall m: nat, k: nat | k <= 12 && m + k > 0 ensures Opening(ShownInChain(path), path, m, k) {
      ChainOpens(path, m, k);
    }
    OpeningEnds(ShownInChain(path), path, n, 0);
    assert ShownInChain(path)(n, 0) <==> FieldAt(Chain(n), Names(0), path, false, 0).Some?;
  }

  // ---- drafts -----------------------------------------------------------------------------------

  /**
   What the draft of a record offers: a field for each property but the task's ids when there is a
   task, with the directory as the default of `cwd` where the schema has none.
   */
  lemma DraftsOfRecords(properties: map<string, Value>, required: seq<Value>, taskId: Option<string>, cwd: Option<string>, path: Path)
    requires PlainRecord(properties)
    ensures Offers(Some(Record(properties, required)), false, taskId, cwd)(path) ==
              if |path| != 1 || path[0] !in properties || (taskId.Some? && (path[0] == "threadId" || path[0] == "conversationId")) then None
              else
                var default := properties[path[0]].Get("default");
                Some(Field(path, properties[path[0]], Str(path[0]) in required,
                           if default.None? && path[0] == "cwd" && cwd.Some? then Some(Str(cwd.value)) else default))
  {
    RecordsShowTheirProperties(properties, required, path);
    assert |path| == 1 ==> path == [path[0]];
  }

  lemma OneWrite(start: map<string, Value>, key: string, value: Value)
    ensures Apply(Obj(start), [Write([key], value)]) == Obj(start[key := value])
  {
    assert [key][1..] == [];
    assert Set(Obj(start), [key], value) == Obj(start[key := value]);
    ApplyFirst(Obj(start), Write([key], value), []);
    assert [Write([key], value)] + [] == [Write([key], value)];
  }

  function WithId(start: map<string, Value>, injected: bool, key: string, taskId: Option<string>): map<string, Value> {
    if injected && taskId.Some? then start[key := Str(taskId.value)] else start
  }

  lemma InjectedInto(start: map<string, Value>, schema: Option<Value>, taskId: Option<string>, key: string)
    ensures Apply(Obj(start), InjectedWrite(schema, false, taskId, key)) ==
              Obj(WithId(start, SchemaField(schema, false, [key]).Some?, key, taskId))
  {
    if taskId.Some? {
      OneWrite(start, key, Str(taskId.value));
    }
  }

  lemma InjectedIntoRecord(start: map<string, Value>, properties: map<string, Value>, required: seq<Value>, taskId: Option<string>, key: string)
    requires PlainRecord(properties)
    ensures Apply(Obj(start), InjectedWrite(Some(Record(properties, required)), false, taskId, key)) ==
              Obj(WithId(start, key in properties, key, taskId))
  {
    InjectedInto(start, Some(Record(properties, required)), taskId, key);
    RecordsShowTheirProperties(properties, required, [key]);
  }

  lemma RecordsStartEmpty(properties: map<string, Value>, required: seq<Value>)
    ensures StartParams(Some(Record(properties, required))) == Obj(map[])
  {
    assert Record(properties, required).Get("type").None?;
  }

  lemma BothIds(properties: map<string, Value>, taskId: Option<string>)
    ensures WithId(WithId(map[], "threadId" in properties, "threadId", taskId), "conversationId" in properties, "conversationId", taskId)
            == map name | name in {"threadId", "conversationId"} && name in properties && taskId.Some? :: Str(taskId.value)
  {
  }

  /** What the draft of a record starts with: the task's id under each of its two names that is a property. */
  lemma DraftsStartWithTheTask(properties: map<string, Value>, required: seq<Value>, taskId: Option<string>)
    requires PlainRecord(properties)
    ensures var schema := Some(Record(properties, required));
            Apply(StartParams(schema), InjectedWrites(schema, false, taskId)) ==
              Obj(map name | name in {"threadId", "conversationId"} && name in properties && taskId.Some? :: Str(taskId.value))
  {
    RecordsStartEmpty(properties, required);
    var once := WithId(map[], "threadId" in properties, "threadId", taskId);
    InjectedIntoRecord(map[], properties, required, taskId, "threadId");
    InjectedIntoRecord(once, properties, required, taskId, "conversationId");
    ApplyAppend(Obj(map[]), InjectedWrite(Some(Record(properties, required)), false, taskId, "threadId"),
                InjectedWrite(Some(Record(properties, required)), false, taskId, "conversationId"));
    BothIds(properties, taskId);
  }

  /** A method that takes no input offers nothing, and starts from null exactly if its type is `null`. */
  lemma DraftsWithoutFields(schema: Option<Value>, taskId: Option<string>, cwd: Option<string>, path: Path)
    ensures Offers(schema, true, taskId, cwd)(path).None?
    ensures Apply(StartParams(schema), InjectedWrites(schema, true, taskId)) ==
              if schema.Some? && schema.value.Get("type") == Some(Str("null")) then Null else Obj(map[])
  {
  }
}
