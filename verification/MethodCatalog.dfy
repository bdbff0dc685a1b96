/**
 The two collectors of src/codex/capabilities.rs: the names of all methods in a schema, and the
 methods with what the schema says of them.
 */
module MethodCatalog {
  import opened Wrappers
  import opened Json
  import RefExpansion

  datatype MethodCapability = MethodCapability(description: Option<string>, title: Option<string>, params: Option<Value>)

  function AsString(v: Option<Value>): Option<string> {
    if v.Some? && v.value.Str? then Some(v.value.s) else None
  }

  /** `properties.method.enum` of a schema node. */
  function MethodEnum(node: Value): seq<Value> {
    match node.Get("properties")
    case None => []
    case Some(properties) =>
      match properties.Get("method")
      case None => []
      case Some(named) => Items(named.Get("enum").GetOr(Null))
  }

  function Names(node: Value): set<string> {
    Strings(MethodEnum(node))
  }

  function ParamsSchema(node: Value): Option<Value> {
    match node.Get("properties")
    case None => None
    case Some(properties) => properties.Get("params")
  }

  /** Everything below a value, itself included. */
  function Nodes(value: Value): set<Value> {
    {value} +
    match value
    case Obj(fields) => set k, node | k in fields && node in Nodes(fields[k]) :: node
    case Arr(items) => set i, node | 0 <= i < |items| && node in Nodes(items[i]) :: node
    case _ => {}
  }

  function FieldNodes(fields: map<string, Value>, keys: set<string>): set<Value> {
    set k, node | k in keys && k in fields && node in Nodes(fields[k]) :: node
  }

  function ItemNodes(items: seq<Value>): set<Value> {
    set i, node | 0 <= i < |items| && node in Nodes(items[i]) :: node
  }

  lemma NextField(fields: map<string, Value>, left: set<string>, key: string)
    requires key in left && left <= fields.Keys
    ensures FieldNodes(fields, fields.Keys - (left - {key})) == FieldNodes(fields, fields.Keys - left) + Nodes(fields[key])
  {
    assert fields.Keys - (left - {key}) == fields.Keys - left + {key};
  }

  lemma NextItem(items: seq<Value>, i: nat)
    requires i < |items|
    ensures ItemNodes(items[..i + 1]) == ItemNodes(items[..i]) + Nodes(items[i])
  {
    assert items[..i + 1] == items[..i] + [items[i]];
    forall node | node in ItemNodes(items[..i]) ensures node in ItemNodes(items[..i + 1]) {
      var k :| 0 <= k < i && node in Nodes(items[..i][k]);
      assert items[..i + 1][k] == items[..i][k];
    }
    assert items[..i + 1][i] == items[i];
  }

  predicate Occurs(name: string, nodes: set<Value>) {
    exists node :: node in nodes && name in Names(node)
  }

  predicate OccursWithParams(name: string, nodes: set<Value>) {
    exists node :: node in nodes && name in Names(node) && ParamsSchema(node).Some?
  }

  /** The names were added, and no others. */
  ghost predicate Added(before: set<string>, after: set<string>, nodes: set<Value>) {
    forall name :: name in after <==> name in before || Occurs(name, nodes)
  }

  class NameSet {
    var names: set<string>

    constructor ()
      ensures names == {}
    {
      names := {};
    }
  }

  lemma AddedThen(a: set<string>, b: set<string>, c: set<string>, first: set<Value>, second: set<Value>)
    requires Added(a, b, first) && Added(b, c, second)
    ensures Added(a, c, first + second)
  {
    forall name ensures Occurs(name, first + second) <==> Occurs(name, first) || Occurs(name, second) {
      OccursInEither(name, first, second);
    }
  }

  lemma OccursInEither(name: string, first: set<Value>, second: set<Value>)
    ensures Occurs(name, first + second) <==> Occurs(name, first) || Occurs(name, second)
  {
  }

  lemma ItsOwnNames(before: set<string>, value: Value)
    ensures Added(before, before + Names(value), {value})
  {
    forall name ensures Occurs(name, {value}) <==> name in Names(value) {
      assert value in {value};
    }
  }

  method CollectEnums(value: Value, methods: NameSet)
    modifies methods
    ensures Added(old(methods.names), methods.names, Nodes(value))
    decreases value, 1
  {
    ghost var before := methods.names;
    ItsOwnNames(before, value);
    methods.names := methods.names + Names(value);
    ghost var own := methods.names;
    if value.Obj? {
      EnumsOfFields(value, methods);
      AddedThen(before, own, methods.names, {value}, FieldNodes(value.fields, value.fields.Keys));
      assert Nodes(value) == {value} + FieldNodes(value.fields, value.fields.Keys);
    } else if value.Arr? {
      EnumsOfItems(value, methods);
      AddedThen(before, own, methods.names, {value}, ItemNodes(value.items));
      assert Nodes(value) == {value} + ItemNodes(value.items);
    }
  }

  /** The loop over an object's values, in any order of its keys. */
  method EnumsOfFields(value: Value, methods: NameSet)
    requires value.Obj?
    modifies methods
    ensures Added(old(methods.names), methods.names, FieldNodes(value.fields, value.fields.Keys))
    decreases value, 0
  {
    var fields := value.fields;
    var left := fields.Keys;
    assert Added(methods.names, methods.names, FieldNodes(fields, {}));
    assert fields.Keys - left == {};
    while left != {}
      invariant left <= fields.Keys
      invariant Added(old(methods.names), methods.names, FieldNodes(fields, fields.Keys - left))
      decreases |left|
    {
      var key :| key in left;
      ghost var before := methods.names;
      CollectEnums(fields[key], methods);
      AddedThen(old(methods.names), before, methods.names, FieldNodes(fields, fields.Keys - left), Nodes(fields[key]));
      NextField(fields, left, key);
      left := left - {key};
    }
    assert fields.Keys - left == fields.Keys;
  }

  method EnumsOfItems(value: Value, methods: NameSet)
    requires value.Arr?
    modifies methods
    ensures Added(old(methods.names), methods.names, ItemNodes(value.items))
    decreases value, 0
  {
    var items := value.items;
    assert Added(methods.names, methods.names, ItemNodes(items[..0]));
    for i := 0 to |items|
      invariant Added(old(methods.names), methods.names, ItemNodes(items[..i]))
    {
      ghost var before := methods.names;
      CollectEnums(items[i], methods);
      AddedThen(old(methods.names), before, methods.names, ItemNodes(items[..i]), Nodes(items[i]));
      NextItem(items, i);
    }
    assert items[..|items|] == items;
  }

  // ---- the methods and their parameters --------------------------------------------------------

  function Describe(node: Value, root: Value): MethodCapability {
    var params := ParamsSchema(node);
    MethodCapability(AsString(node.Get("description")), AsString(node.Get("title")),
                     if params.Some? then Some(RefExpansion.Resolve(params.value, root, 0)) else None)
  }

  /** An alias branch of a method already seen: the branch with parameters wins, and a description fills a gap. */
  function Merge(existing: MethodCapability, metadata: MethodCapability): MethodCapability {
    if existing.params.None? && metadata.params.Some? then metadata
    else if existing.description.None? && metadata.description.Some? then existing.(description := metadata.description)
    else existing
  }

  type Catalog = map<string, MethodCapability>

  predicate HasParams(catalog: Catalog, name: string) {
    name in catalog && catalog[name].params.Some?
  }

  /** The node names the method, and its parameters are what the catalog tells. */
  predicate Tells(node: Value, root: Value, name: string, params: Value) {
    name in Names(node) && Describe(node, root).params == Some(params)
  }

  predicate Told(nodes: set<Value>, root: Value, name: string, params: Value) {
    exists node :: node in nodes && Tells(node, root, name, params)
  }

  /**
   The methods were registered: those that occur, with parameters exactly if some occurrence has
   any, and then those of an occurrence, unless the catalog had parameters before.
   */
  ghost predicate Registered(before: Catalog, after: Catalog, nodes: set<Value>, root: Value) {
    && (forall name: string {:trigger name in after} {:trigger name in before} ::
          name in after <==> name in before || Occurs(name, nodes))
    && (forall name: string {:trigger HasParams(after, name)} :: HasParams(after, name) <==> HasParams(before, name) || OccursWithParams(name, nodes))
    && (forall name: string {:trigger HasParams(after, name)} :: HasParams(after, name) ==>
          if HasParams(before, name) then after[name].params == before[name].params else Told(nodes, root, name, after[name].params.value))
  }

  predicate Describes(node: Value, root: Value, name: string, told: MethodCapability) {
    name in Names(node) && Describe(node, root) == told
  }

  /** What may be told of a method: what the catalog had of it, or what an occurrence says. */
  predicate Source(before: Catalog, nodes: set<Value>, root: Value, name: string, told: MethodCapability) {
    (name in before && before[name] == told) || exists node :: node in nodes && Describes(node, root, name, told)
  }

  predicate Filled(told: MethodCapability, first: MethodCapability, second: MethodCapability) {
    told == if first.description.Some? then first else first.(description := second.description)
  }

  ghost predicate ComposedOf(before: Catalog, nodes: set<Value>, root: Value, name: string, told: MethodCapability) {
    exists first, second :: Source(before, nodes, root, name, first) && Source(before, nodes, root, name, second) && Filled(told, first, second)
  }

  /** Every entry is one source as it stands, title and parameters included, or with the description of another. */
  ghost predicate Composed(before: Catalog, after: Catalog, nodes: set<Value>, root: Value) {
    forall name: string {:trigger name in after} :: name in after ==> ComposedOf(before, nodes, root, name, after[name])
  }

  lemma Unchanged(catalog: Catalog, nodes: set<Value>, root: Value)
    ensures Composed(catalog, catalog, nodes, root)
  {
    forall name: string | name in catalog ensures ComposedOf(catalog, nodes, root, name, catalog[name]) {
      assert Source(catalog, nodes, root, name, catalog[name]) && Filled(catalog[name], catalog[name], catalog[name]);
    }
  }

  /** A source of the second leg is a source of both, or an entry made of two. */
  lemma SourceThen(a: Catalog, b: Catalog, first: set<Value>, second: set<Value>, root: Value, name: string, told: MethodCapability)
    requires Composed(a, b, first, root) && Source(b, second, root, name, told)
    ensures ComposedOf(a, first + second, root, name, told)
  {
    if node :| node in second && Describes(node, root, name, told) {
      assert node in first + second;
      assert Source(a, first + second, root, name, told) && Filled(told, told, told);
    } else {
      var x, y :| Source(a, first, root, name, x) && Source(a, first, root, name, y) && Filled(told, x, y);
      assert Source(a, first + second, root, name, x) && Source(a, first + second, root, name, y);
    }
  }

  lemma ComposedThen(a: Catalog, b: Catalog, c: Catalog, first: set<Value>, second: set<Value>, root: Value)
    requires Composed(a, b, first, root) && Composed(b, c, second, root)
    ensures Composed(a, c, first + second, root)
  {
    forall name: string | name in c ensures ComposedOf(a, first + second, root, name, c[name]) {
      var x, y :| Source(b, second, root, name, x) && Source(b, second, root, name, y) && Filled(c[name], x, y);
      SourceThen(a, b, first, second, root, name, x);
      SourceThen(a, b, first, second, root, name, y);
      FilledTwice(a, first + second, root, name, x, y, c[name]);
    }
  }

  lemma FilledTwice(before: Catalog, nodes: set<Value>, root: Value, name: string, x: MethodCapability, y: MethodCapability, told: MethodCapability)
    requires ComposedOf(before, nodes, root, name, x) && ComposedOf(before, nodes, root, name, y) && Filled(told, x, y)
    ensures ComposedOf(before, nodes, root, name, told)
  {
    var x1, x2 :| Source(before, nodes, root, name, x1) && Source(before, nodes, root, name, x2) && Filled(x, x1, x2);
    var y1, y2 :| Source(before, nodes, root, name, y1) && Source(before, nodes, root, name, y2) && Filled(y, y1, y2);
    if x.description.Some? {
      assert Filled(told, x1, x2);
    } else if y1.description.Some? {
      assert Filled(told, x1, y1);
    } else {
      assert Filled(told, x1, y2);
    }
  }

  lemma NextComposed(before: Catalog, after: Catalog, node: Value, root: Value, name: string)
    requires Composed(before, after, {node}, root) && name in Names(node)
    ensures var metadata := Describe(node, root);
            Composed(before, after[name := if name in after then Merge(after[name], metadata) else metadata], {node}, root)
  {
    var metadata := Describe(node, root);
    var next := after[name := if name in after then Merge(after[name], metadata) else metadata];
    forall other: string | other in next ensures ComposedOf(before, {node}, root, other, next[other]) {
      if other == name {
        assert node in {node} && Describes(node, root, name, metadata);
        assert Source(before, {node}, root, name, metadata) && Filled(metadata, metadata, metadata);
        if name in after {
          assert ComposedOf(before, {node}, root, name, after[name]);
          assert Filled(Merge(after[name], metadata), after[name], metadata) || Merge(after[name], metadata) == metadata;
          if Filled(Merge(after[name], metadata), after[name], metadata) {
            FilledTwice(before, {node}, root, name, after[name], metadata, next[name]);
          }
        }
      } else {
        assert next[other] == after[other];
      }
    }
  }

  class MethodTable {
    var methods: Catalog

    constructor ()
      ensures methods == map[]
    {
      methods := map[];
    }
  }

  lemma WithParamsInEither(name: string, first: set<Value>, second: set<Value>)
    ensures OccursWithParams(name, first + second) <==> OccursWithParams(name, first) || OccursWithParams(name, second)
  {
  }

  lemma RegisteredThen(a: Catalog, b: Catalog, c: Catalog, first: set<Value>, second: set<Value>, root: Value)
    requires Registered(a, b, first, root) && Registered(b, c, second, root)
    ensures Registered(a, c, first + second, root)
  {
    forall name: string ensures name in c <==> name in a || Occurs(name, first + second) {
      OccursInEither(name, first, second);
      assert name in b <==> name in a || Occurs(name, first);
    }
    forall name: string ensures HasParams(c, name) <==> HasParams(a, name) || OccursWithParams(name, first + second) {
      WithParamsInEither(name, first, second);
      assert HasParams(b, name) <==> HasParams(a, name) || OccursWithParams(name, first);
    }
    forall name: string | HasParams(c, name)
      ensures if HasParams(a, name) then c[name].params == a[name].params else Told(first + second, root, name, c[name].params.value)
    {
      assert HasParams(b, name) ==> if HasParams(a, name) then b[name].params == a[name].params else Told(first, root, name, b[name].params.value);
    }
  }

  /** The table after the first names of one node's list. */
  ghost predicate NamesRegistered(before: Catalog, after: Catalog, node: Value, root: Value, names: set<string>) {
    && (forall name: string {:trigger name in after} {:trigger name in before} :: name in after <==> name in before || name in names)
    && (forall name: string {:trigger HasParams(after, name)} ::
          HasParams(after, name) <==> HasParams(before, name) || (name in names && ParamsSchema(node).Some?))
    && (forall name: string {:trigger HasParams(after, name)} :: HasParams(after, name) ==>
          after[name].params == if HasParams(before, name) then before[name].params else Describe(node, root).params)
  }

  lemma NextName(before: Catalog, after: Catalog, node: Value, root: Value, names: set<string>, name: string)
    requires NamesRegistered(before, after, node, root, names)
    ensures var metadata := Describe(node, root);
            NamesRegistered(before, after[name := if name in after then Merge(after[name], metadata) else metadata], node, root, names + {name})
  {
    var metadata := Describe(node, root);
    var next := after[name := if name in after then Merge(after[name], metadata) else metadata];
    forall other: string
      ensures HasParams(next, other) <==> HasParams(before, other) || (other in names + {name} && ParamsSchema(node).Some?)
      ensures HasParams(next, other) ==>
                next[other].params == if HasParams(before, other) then before[other].params else Describe(node, root).params
    {
      assert HasParams(after, other) <==> HasParams(before, other) || (other in names && ParamsSchema(node).Some?);
    }
  }

  /** One node's methods, in the order of its list. */
  method RegisterNode(node: Value, root: Value, table: MethodTable)
    modifies table
    ensures Registered(old(table.methods), table.methods, {node}, root)
    ensures Composed(old(table.methods), table.methods, {node}, root)
  {
    var values, metadata := MethodEnum(node), Describe(node, root);
    Unchanged(table.methods, {node}, root);
    for i := 0 to |values|
      invariant NamesRegistered(old(table.methods), table.methods, node, root, Strings(values[..i]))
      invariant Composed(old(table.methods), table.methods, {node}, root)
    {
      assert values[..i + 1] == values[..i] + [values[i]];
      if values[i].Str? {
        var name := values[i].s;
        NextName(old(table.methods), table.methods, node, root, Strings(values[..i]), name);
        NextComposed(old(table.methods), table.methods, node, root, name);
        table.methods := table.methods[name := if name in table.methods then Merge(table.methods[name], metadata) else metadata];
        assert Strings(values[..i + 1]) == Strings(values[..i]) + {name};
      } else {
        assert Strings(values[..i + 1]) == Strings(values[..i]);
      }
    }
    assert values[..|values|] == values;
    NodeRegistered(old(table.methods), table.methods, node, root);
  }

  lemma NodeRegistered(before: Catalog, after: Catalog, node: Value, root: Value)
    requires NamesRegistered(before, after, node, root, Names(node))
    ensures Registered(before, after, {node}, root)
  {
    assert node in {node};
    forall name: string ensures Occurs(name, {node}) <==> name in Names(node) {
    }
    forall name: string ensures OccursWithParams(name, {node}) <==> name in Names(node) && ParamsSchema(node).Some? {
    }
    forall name: string | HasParams(after, name) && !HasParams(before, name) ensures Told({node}, root, name, after[name].params.value) {
      assert Tells(node, root, name, after[name].params.value);
    }
  }

  method CollectMetadata(value: Value, root: Value, table: MethodTable)
    modifies table
    ensures Registered(old(table.methods), table.methods, Nodes(value), root)
    ensures Composed(old(table.methods), table.methods, Nodes(value), root)
    decreases value, 1
  {
    ghost var before := table.methods;
    RegisterNode(value, root, table);
    ghost var own := table.methods;
    if value.Obj? {
      MetadataOfFields(value, root, table);
      RegisteredThen(before, own, table.methods, {value}, FieldNodes(value.fields, value.fields.Keys), root);
      ComposedThen(before, own, table.methods, {value}, FieldNodes(value.fields, value.fields.Keys), root);
      assert Nodes(value) == {value} + FieldNodes(value.fields, value.fields.Keys);
    } else if value.Arr? {
      MetadataOfItems(value, root, table);
      RegisteredThen(before, own, table.methods, {value}, ItemNodes(value.items), root);
      ComposedThen(before, own, table.methods, {value}, ItemNodes(value.items), root);
      assert Nodes(value) == {value} + ItemNodes(value.items);
    }
  }

  method MetadataOfFields(value: Value, root: Value, table: MethodTable)
    requires value.Obj?
    modifies table
    ensures Registered(old(table.methods), table.methods, FieldNodes(value.fields, value.fields.Keys), root)
    ensures Composed(old(table.methods), table.methods, FieldNodes(value.fields, value.fields.Keys), root)
    decreases value, 0
  {
    var fields := value.fields;
    var left := fields.Keys;
    assert Registered(table.methods, table.methods, FieldNodes(fields, {}), root);
    Unchanged(table.methods, FieldNodes(fields, {}), root);
    assert fields.Keys - left == {};
    while left != {}
      invariant left <= fields.Keys
      invariant Registered(old(table.methods), table.methods, FieldNodes(fields, fields.Keys - left), root)
      invariant Composed(old(table.methods), table.methods, FieldNodes(fields, fields.Keys - left), root)
      decreases |left|
    {
      var key :| key in left;
      ghost var before := table.methods;
      CollectMetadata(fields[key], root, table);
      RegisteredThen(old(table.methods), before, table.methods, FieldNodes(fields, fields.Keys - left), Nodes(fields[key]), root);
      ComposedThen(old(table.methods), before, table.methods, FieldNodes(fields, fields.Keys - left), Nodes(fields[key]), root);
      NextField(fields, left, key);
      left := left - {key};
    }
    assert fields.Keys - left == fields.Keys;
  }

  method MetadataOfItems(value: Value, root: Value, table: MethodTable)
    requires value.Arr?
    modifies table
    ensures Registered(old(table.methods), table.methods, ItemNodes(value.items), root)
    ensures Composed(old(table.methods), table.methods, ItemNodes(value.items), root)
    decreases value, 0
  {
    var items := value.items;
    assert Registered(table.methods, table.methods, ItemNodes(items[..0]), root);
    Unchanged(table.methods, ItemNodes(items[..0]), root);
    for i := 0 to |items|
      invariant Registered(old(table.methods), table.methods, ItemNodes(items[..i]), root)
      invariant Composed(old(table.methods), table.methods, ItemNodes(items[..i]), root)
    {
      ghost var before := table.methods;
      CollectMetadata(items[i], root, table);
      RegisteredThen(old(table.methods), before, table.methods, ItemNodes(items[..i]), Nodes(items[i]), root);
      ComposedThen(old(table.methods), before, table.methods, ItemNodes(items[..i]), Nodes(items[i]), root);
      NextItem(items, i);
    }
    assert items[..|items|] == items;
  }

  /**
   What a catalog built from a schema alone tells of a method: title and parameters are those of one
   occurrence, and so is the description, unless that occurrence has none and another one's is told.
   */
  lemma CatalogsQuote(schema: Value, catalog: Catalog, name: string) returns (first: Value, second: Value)
    requires Composed(map[], catalog, Nodes(schema), schema) && name in catalog
    ensures first in Nodes(schema) && second in Nodes(schema) && name in Names(first) && name in Names(second)
    ensures var told := catalog[name];
            && told.title == AsString(first.Get("title"))
            && told.params == (if ParamsSchema(first).Some? then Some(RefExpansion.Resolve(ParamsSchema(first).value, schema, 0)) else None)
            && told.description == AsString((if AsString(first.Get("description")).Some? then first else second).Get("description"))
  {
    var x, y :| Source(map[], Nodes(schema), schema, name, x) && Source(map[], Nodes(schema), schema, name, y) && Filled(catalog[name], x, y);
    first :| first in Nodes(schema) && Describes(first, schema, name, x);
    second :| second in Nodes(schema) && Describes(second, schema, name, y);
  }

  // ---- nodes and names, spelled out --------------------------------------------------------------

  datatype Step = Entry(key: string) | Item(index: nat)

  /** The value reached from another by entries and items. */
  function At(value: Value, way: seq<Step>): Option<Value> {
    if way == [] then Some(value)
    else
      match way[0]
      case Entry(key) => if value.Get(key).Some? then At(value.Get(key).value, way[1..]) else None
      case Item(i) => if i < |Items(value)| then At(Items(value)[i], way[1..]) else None
  }

  lemma {:induction false} ReachedIsNode(value: Value, way: seq<Step>)
    requires At(value, way).Some?
    ensures At(value, way).value in Nodes(value)
  {
    if way != [] {
      match way[0]
      case Entry(key) => ReachedIsNode(value.Get(key).value, way[1..]);
      case Item(i) => ReachedIsNode(Items(value)[i], way[1..]);
    }
  }

  lemma {:induction false} NodeIsReached(value: Value, node: Value) returns (way: seq<Step>)
    requires node in Nodes(value)
    ensures At(value, way) == Some(node)
  {
    if node == value {
      way := [];
    } else if value.Obj? {
      var k :| k in value.fields && node in Nodes(value.fields[k]);
      var rest := NodeIsReached(value.fields[k], node);
      way := [Entry(k)] + rest;
      assert way[1..] == rest;
    } else {
      var i :| 0 <= i < |value.items| && node in Nodes(value.items[i]);
      var rest := NodeIsReached(value.items[i], node);
      way := [Item(i)] + rest;
      assert way[1..] == rest;
    }
  }

  /** The nodes are all that entries and items lead to. */
  lemma NodesAreReached(value: Value, node: Value)
    ensures node in Nodes(value) <==> exists way :: At(value, way) == Some(node)
  {
    if node in Nodes(value) {
      var way := NodeIsReached(value, node);
    }
    if way :| At(value, way) == Some(node) {
      ReachedIsNode(value, way);
    }
  }

  lemma StringsAre(items: seq<Value>, name: string)
    ensures name in Strings(items) <==> Str(name) in items
  {
    if Str(name) in items {
      assert Str(name).Str? && Str(name).s == name;
    }
  }

  /** A node names the strings listed at `properties`, `method`, `enum`, and its parameters are at `properties`, `params`. */
  lemma NodesName(node: Value, name: string)
    ensures name in Names(node) <==>
              exists items: seq<Value> :: At(node, [Entry("properties"), Entry("method"), Entry("enum")]) == Some(Arr(items)) && Str(name) in items
    ensures ParamsSchema(node) == At(node, [Entry("properties"), Entry("params")])
  {
    StringsAre(MethodEnum(node), name);
    TwoEntries(node, "properties", "params");
    ThreeEntries(node, "properties", "method", "enum");
    if name in Names(node) {
      assert At(node, [Entry("properties"), Entry("method"), Entry("enum")]) == Some(Arr(MethodEnum(node)));
    }
  }

  lemma OneEntry(node: Value, a: string)
    ensures At(node, [Entry(a)]) == node.Get(a)
  {
    assert [Entry(a)][1..] == [];
  }

  lemma TwoEntries(node: Value, a: string, b: string)
    ensures At(node, [Entry(a), Entry(b)]) == if node.Get(a).Some? then node.Get(a).value.Get(b) else None
  {
    assert [Entry(a), Entry(b)][1..] == [Entry(b)];
    if node.Get(a).Some? {
      OneEntry(node.Get(a).value, b);
    }
  }

  lemma ThreeEntries(node: Value, a: string, b: string, c: string)
    ensures At(node, [Entry(a), Entry(b), Entry(c)]) ==
              if node.Get(a).Some? && node.Get(a).value.Get(b).Some? then node.Get(a).value.Get(b).value.Get(c) else None
  {
    assert [Entry(a), Entry(b), Entry(c)][1..] == [Entry(b), Entry(c)];
    if node.Get(a).Some? {
      TwoEntries(node.Get(a).value, b, c);
    }
  }

  /** The two collectors agree on the methods there are. */
  lemma {:induction false} CollectorsAgree(schema: Value, names: set<string>, catalog: Catalog)
    requires Added({}, names, Nodes(schema)) && Registered(map[], catalog, Nodes(schema), schema)
    ensures catalog.Keys == names
    ensures forall name :: name in names ==> (catalog[name].params.Some? <==> OccursWithParams(name, Nodes(schema)))
  {
    forall name ensures name in catalog <==> name in names {
    }
    forall name | name in names ensures catalog[name].params.Some? <==> OccursWithParams(name, Nodes(schema)) {
      assert HasParams(catalog, name) <==> OccursWithParams(name, Nodes(schema));
    }
  }
}
