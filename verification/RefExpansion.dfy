/**
 `resolve_local_refs` of src/codex/capabilities.rs, and what the validator makes of its output.

 The meaning of a schema with local references is its unfolding (section 8.3 of JSON Schema Core
 draft-07), cut off after a number of steps; a schema that refers to itself has no other.
 */
module RefExpansion {
  import opened Wrappers
  import opened Json
  import opened JsonPointer
  import opened Schema
  import opened Validator
  import opened CappedUnfolding

  /** What a local `$ref` of this node points at, if it does. */
  function Target(node: Value, root: Value): Option<Value> {
    var reference := node.Get("$ref");
    if reference.Some? && reference.value.Str? && reference.value.s != "" && reference.value.s[0] == '#'
    then Pointer(root, reference.value.s[1..])
    else None
  }

  function Resolve(node: Value, root: Value, depth: nat): Value
    decreases MAX_HOPS - depth
  {
    if depth >= MAX_HOPS then node
    else if Target(node, root).Some? then Resolve(Target(node, root).value, root, depth + 1)
    else
      match node
      case Obj(fields) => Obj(map k | k in fields :: Resolve(fields[k], root, depth + 1))
      case Arr(items) => Arr(seq(|items|, i requires 0 <= i < |items| => Resolve(items[i], root, depth + 1)))
      case _ => node
  }

  /** Schemas as the relay reads them; `Unfolds` of this language is their meaning. */
  function Codex(rx: Regex, root: Value): Language {
    Language(CodexDialect(rx), schema => Target(schema, root), (schema, hops: nat) => Resolve(schema, root, hops))
  }

  // ---- schemas whose references sit where schemas do ---------------------------------------

  /** No node below has a reference that resolves. */
  ghost predicate RefFree(node: Value, root: Value)
    decreases node
  {
    && Target(node, root).None?
    && (node.Obj? ==> forall k :: k in node.fields ==> RefFree(node.fields[k], root))
    && (node.Arr? ==> forall i :: 0 <= i < |node.items| ==> RefFree(node.items[i], root))
  }

  const PLAIN_KEYWORDS: set<string> :=
    {"type", "enum", "minimum", "minLength", "pattern", "required", "additionalProperties"}
  const SCHEMA_KEYWORDS: set<string> := {"oneOf", "anyOf", "allOf", "properties"}

  /** Up to `steps` steps of unfolding, references occur only as schemas, and without sibling keywords. */
  ghost predicate Tidy(steps: nat, root: Value, schema: Value)
    decreases steps
  {
    steps == 0 || !schema.Obj? ||
    if Target(schema, root).Some? then
      && schema.fields.Keys !! PLAIN_KEYWORDS + SCHEMA_KEYWORDS + {"items"}
      && Tidy(steps - 1, root, Target(schema, root).value)
    else
      && (forall k :: k in PLAIN_KEYWORDS && k in schema.fields ==> RefFree(schema.fields[k], root))
      && (forall k :: k in SCHEMA_KEYWORDS && k in schema.fields ==> Target(schema.fields[k], root).None?)
      && (forall c :: c in Children(schema) ==> Tidy(steps - 1, root, c))
  }

  lemma {:induction false} RefFreeStays(node: Value, root: Value, depth: nat)
    requires RefFree(node, root)
    ensures Resolve(node, root, depth) == node
    decreases node
  {
    if depth < MAX_HOPS {
      match node
      case Obj(fields) =>
        forall k | k in fields ensures Resolve(fields[k], root, depth + 1) == fields[k] {
          RefFreeStays(fields[k], root, depth + 1);
        }
      case Arr(items) =>
        forall i | 0 <= i < |items| ensures Resolve(items[i], root, depth + 1) == items[i] {
          RefFreeStays(items[i], root, depth + 1);
        }
      case _ =>
    }
  }

  // ---- expansion goes through the keywords -------------------------------------------------

  function Expand(part: Part, root: Value, depth: nat): Part {
    Part(Resolve(part.schema, root, depth + part.hops), part.value, part.hops)
  }

  function ExpandGoal(goal: Goal, root: Value, depth: nat): Goal {
    match goal
    case Never => Never
    case Any(parts) => Any(set p | p in parts :: Expand(p, root, depth))
    case Every(parts) => Every(set p | p in parts :: Expand(p, root, depth))
  }

  /** A node without a reference keeps its kind, and its children expand one level down. */
  lemma NodeResolved(node: Value, root: Value, depth: nat)
    requires Target(node, root).None?
    ensures var r := Resolve(node, root, depth);
            && r.Obj? == node.Obj? && r.Arr? == node.Arr?
            && Fields(r).Keys == Fields(node).Keys && |Items(r)| == |Items(node)|
            && (forall k :: k in Fields(node) ==> Fields(r)[k] == Resolve(Fields(node)[k], root, depth + 1))
            && (forall i :: 0 <= i < |Items(node)| ==> Items(r)[i] == Resolve(Items(node)[i], root, depth + 1))
  {
  }

  /** What one step of tidiness says about a node that is not a reference. */
  ghost predicate TidyHere(root: Value, schema: Value) {
    && schema.Obj? && Target(schema, root).None?
    && (forall k :: k in PLAIN_KEYWORDS && k in schema.fields ==> RefFree(schema.fields[k], root))
    && (forall k :: k in SCHEMA_KEYWORDS && k in schema.fields ==> Target(schema.fields[k], root).None?)
  }

  lemma PlainKeywordResolved(root: Value, schema: Value, depth: nat, keyword: string)
    requires TidyHere(root, schema) && keyword in PLAIN_KEYWORDS
    ensures Resolve(schema, root, depth).Get(keyword) == schema.Get(keyword)
  {
    NodeResolved(schema, root, depth);
    if keyword in schema.fields {
      RefFreeStays(schema.fields[keyword], root, depth + 1);
    }
  }

  lemma BranchesResolved(root: Value, schema: Value, depth: nat, keyword: string)
    requires TidyHere(root, schema) && keyword in SCHEMA_KEYWORDS
    ensures var before, after := Branches(schema, keyword), Branches(Resolve(schema, root, depth), keyword);
            && before.Some? == after.Some?
            && (before.Some? ==>
                  && |after.value| == |before.value|
                  && forall i :: 0 <= i < |before.value| ==> after.value[i] == Resolve(before.value[i], root, depth + 2))
  {
    NodeResolved(schema, root, depth);
    if keyword in schema.fields {
      NodeResolved(schema.fields[keyword], root, depth + 1);
    }
  }

  lemma PropertiesResolved(root: Value, schema: Value, depth: nat)
    requires TidyHere(root, schema)
    ensures var before, after := Properties(schema), Properties(Resolve(schema, root, depth));
            && before.Keys == after.Keys
            && forall k :: k in before ==> after[k] == Resolve(before[k], root, depth + 2)
    ensures Closed(Resolve(schema, root, depth)) == Closed(schema)
  {
    NodeResolved(schema, root, depth);
    PlainKeywordResolved(root, schema, depth, "additionalProperties");
    if "properties" in schema.fields {
      NodeResolved(schema.fields["properties"], root, depth + 1);
    }
  }

  lemma LocalResolved(rx: Regex, root: Value, schema: Value, value: Value, depth: nat)
    requires TidyHere(root, schema)
    ensures TypeOk(Resolve(schema, root, depth), value) == TypeOk(schema, value)
    ensures LocalOk(rx, Resolve(schema, root, depth), value) == LocalOk(rx, schema, value)
  {
    forall k | k in PLAIN_KEYWORDS ensures Resolve(schema, root, depth).Get(k) == schema.Get(k) {
      PlainKeywordResolved(root, schema, depth, k);
    }
    PropertiesResolved(root, schema, depth);
  }

  lemma BranchPartsResolved(before: seq<Value>, after: seq<Value>, root: Value, value: Value, depth: nat)
    requires |after| == |before| && forall i :: 0 <= i < |before| ==> after[i] == Resolve(before[i], root, depth + 2)
    ensures BranchParts(after, value) == set p | p in BranchParts(before, value) :: Expand(p, root, depth)
  {
    var expanded := set p | p in BranchParts(before, value) :: Expand(p, root, depth);
    forall q | q in BranchParts(after, value) ensures q in expanded {
      var i :| 0 <= i < |after| && q == Part(after[i], value, 2);
      assert Part(before[i], value, 2) in BranchParts(before, value);
    }
    forall q | q in expanded ensures q in BranchParts(after, value) {
      var i :| 0 <= i < |before| && q == Expand(Part(before[i], value, 2), root, depth);
      assert after[i] in after;
    }
  }

  lemma PropertyPartsResolved(root: Value, schema: Value, value: Value, depth: nat)
    requires TidyHere(root, schema)
    ensures PropertyParts(Resolve(schema, root, depth), value)
         == set p | p in PropertyParts(schema, value) :: Expand(p, root, depth)
  {
    PropertiesResolved(root, schema, depth);
    var after := Resolve(schema, root, depth);
    var expanded := set p | p in PropertyParts(schema, value) :: Expand(p, root, depth);
    forall q | q in PropertyParts(after, value) ensures q in expanded {
      var k :| k in Fields(value) && k in Properties(after) && q == Part(Properties(after)[k], Fields(value)[k], 2);
      assert Part(Properties(schema)[k], Fields(value)[k], 2) in PropertyParts(schema, value);
    }
    forall q | q in expanded ensures q in PropertyParts(after, value) {
      var k :| k in Fields(value) && k in Properties(schema)
            && q == Expand(Part(Properties(schema)[k], Fields(value)[k], 2), root, depth);
    }
  }

  lemma EachItemResolved(root: Value, items: Value, values: seq<Value>, depth: nat)
    ensures EachItem(Resolve(items, root, depth + 1), values)
         == set p | p in EachItem(items, values) :: Expand(p, root, depth)
  {
    var after := Resolve(items, root, depth + 1);
    var expanded := set p | p in EachItem(items, values) :: Expand(p, root, depth);
    forall q | q in EachItem(after, values) ensures q in expanded {
      assert Part(items, q.value, 1) in EachItem(items, values);
    }
  }

  lemma ItemPartsResolved(root: Value, schema: Value, value: Value, depth: nat)
    requires TidyHere(root, schema)
    ensures ItemParts(Resolve(schema, root, depth), value)
         == set p | p in ItemParts(schema, value) :: Expand(p, root, depth)
  {
    NodeResolved(schema, root, depth);
    if "items" in schema.fields {
      EachItemResolved(root, schema.fields["items"], Items(value), depth);
    }
  }

  lemma KeywordPartsResolved(root: Value, schema: Value, value: Value, depth: nat, keyword: string)
    requires TidyHere(root, schema) && keyword in SCHEMA_KEYWORDS
    ensures var before, after := Branches(schema, keyword), Branches(Resolve(schema, root, depth), keyword);
            && before.Some? == after.Some?
            && BranchParts(after.GetOr([]), value)
               == set p | p in BranchParts(before.GetOr([]), value) :: Expand(p, root, depth)
  {
    BranchesResolved(root, schema, depth, keyword);
    BranchPartsResolved(
      Branches(schema, keyword).GetOr([]), Branches(Resolve(schema, root, depth), keyword).GetOr([]), root, value, depth);
  }

  lemma UnionGoalsResolved(rx: Regex, root: Value, schema: Value, value: Value, depth: nat)
    requires TidyHere(root, schema) && Union(schema).Some?
    ensures Goals(rx, Resolve(schema, root, depth), value) == ExpandGoal(Goals(rx, schema, value), root, depth)
  {
    NodeResolved(schema, root, depth);
    UnionResolved(root, schema, value, depth);
  }

  lemma PlainGoalsResolved(rx: Regex, root: Value, schema: Value, value: Value, depth: nat)
    requires TidyHere(root, schema) && Union(schema).None?
    ensures Goals(rx, Resolve(schema, root, depth), value) == ExpandGoal(Goals(rx, schema, value), root, depth)
  {
    NodeResolved(schema, root, depth);
    UnionResolved(root, schema, value, depth);
    LocalResolved(rx, root, schema, value, depth);
    PlainPartsResolved(root, schema, value, depth);
  }

  /** Reading the expanded schema one level deep is expanding what was read. */
  lemma GoalsResolved(rx: Regex, root: Value, schema: Value, value: Value, depth: nat)
    requires TidyHere(root, schema)
    ensures Goals(rx, Resolve(schema, root, depth), value) == ExpandGoal(Goals(rx, schema, value), root, depth)
  {
    if Union(schema).Some? {
      UnionGoalsResolved(rx, root, schema, value, depth);
    } else {
      PlainGoalsResolved(rx, root, schema, value, depth);
    }
  }

  lemma UnionResolved(root: Value, schema: Value, value: Value, depth: nat)
    requires TidyHere(root, schema)
    ensures var before, after := Union(schema), Union(Resolve(schema, root, depth));
            && before.Some? == after.Some?
            && BranchParts(after.GetOr([]), value)
               == set p | p in BranchParts(before.GetOr([]), value) :: Expand(p, root, depth)
  {
    KeywordPartsResolved(root, schema, value, depth, "oneOf");
    KeywordPartsResolved(root, schema, value, depth, "anyOf");
  }

  function PlainParts(schema: Value, value: Value): set<Part> {
    BranchParts(AllOf(schema), value) + PropertyParts(schema, value) + ItemParts(schema, value)
  }

  lemma PlainPartsResolved(root: Value, schema: Value, value: Value, depth: nat)
    requires TidyHere(root, schema)
    ensures PlainParts(Resolve(schema, root, depth), value)
         == set p | p in PlainParts(schema, value) :: Expand(p, root, depth)
  {
    KeywordPartsResolved(root, schema, value, depth, "allOf");
    PropertyPartsResolved(root, schema, value, depth);
    ItemPartsResolved(root, schema, value, depth);
    var a, b, c := BranchParts(AllOf(schema), value), PropertyParts(schema, value), ItemParts(schema, value);
    ImagesAdd(a, b, root, depth);
    ImagesAdd(a + b, c, root, depth);
  }

  lemma ImagesAdd(a: set<Part>, b: set<Part>, root: Value, depth: nat)
    ensures (set p | p in a + b :: Expand(p, root, depth))
         == (set p | p in a :: Expand(p, root, depth)) + (set p | p in b :: Expand(p, root, depth))
  {
  }

  // ---- expanding, then validating --------------------------------------------------------

  lemma WithoutKeywords(rx: Regex, schema: Value, value: Value)
    requires schema.Obj? && schema.fields.Keys !! PLAIN_KEYWORDS + SCHEMA_KEYWORDS + {"items"}
    ensures Goals(rx, schema, value) == Every({})
  {
    forall k | k in PLAIN_KEYWORDS + SCHEMA_KEYWORDS + {"items"} ensures schema.Get(k).None? {
    }
  }

  lemma SameExpansion(rx: Regex, root: Value, goal: Goal, hops: nat)
    ensures ExpandGoal(goal, root, hops) == ExpandedGoal(goal, Codex(rx, root), hops)
  {
    if !goal.Never? {
      assert forall p :: p in goal.parts ==> Expanded(p, Codex(rx, root), hops) == Expand(p, root, hops);
    }
  }

  lemma CodexCommutes(rx: Regex, root: Value, schema: Value, value: Value, hops: nat, steps: nat)
    requires 0 < steps && Tidy(steps, root, schema) && Target(schema, root).None?
    ensures var lang := Codex(rx, root);
            lang.read(lang.expand(schema, hops), value) == ExpandedGoal(lang.read(schema, value), lang, hops)
  {
    if schema.Obj? {
      assert TidyHere(root, schema);
      GoalsResolved(rx, root, schema, value, hops);
      SameExpansion(rx, root, Goals(rx, schema, value), hops);
    }
  }

  ghost function TidyFor(root: Value): Tidiness {
    (n: nat, schema) => Tidy(n, root, schema)
  }

  lemma CodexPartsAreTidy(rx: Regex, root: Value)
    ensures TidyParts(Codex(rx, root), TidyFor(root))
  {
    forall n: nat, s, v, p | 0 < n && Tidy(n, root, s) && Target(s, root).None? && !Goals(rx, s, v).Never? && p in Goals(rx, s, v).parts
      ensures Tidy(n - 1, root, p.schema)
    {
      GoalsAreChildren(rx, s, v);
    }
  }

  lemma CodexExpansionCommutes(rx: Regex, root: Value)
    ensures ExpansionCommutes(Codex(rx, root), TidyFor(root))
  {
    forall n: nat, s, v, hops: nat | 0 < n && Tidy(n, root, s) && Target(s, root).None?
      ensures Codex(rx, root).read(Codex(rx, root).expand(s, hops), v)
           == ExpandedGoal(Codex(rx, root).read(s, v), Codex(rx, root), hops)
    {
      CodexCommutes(rx, root, s, v, hops, n);
    }
  }

  lemma CodexReferencesAccept(rx: Regex, root: Value)
    ensures CappedReferencesAccept(Codex(rx, root), TidyFor(root))
  {
    forall n: nat, s, v, hops: nat | 0 < n && Tidy(n, root, s) && Target(s, root).Some? && hops >= MAX_HOPS
      ensures Goals(rx, Resolve(s, root, hops), v) == Every({})
    {
      WithoutKeywords(rx, s, v);
    }
  }

  lemma CodexTargetsAreTidy(rx: Regex, root: Value)
    ensures TidyTargets(Codex(rx, root), TidyFor(root))
  {
    forall n: nat, s | 0 < n && Tidy(n, root, s) && Target(s, root).Some?
      ensures Tidy(n - 1, root, Target(s, root).value)
    {
    }
  }

  lemma CodexReferencesHop(rx: Regex, root: Value)
    ensures ReferencesHop(Codex(rx, root))
  {
    forall s, hops: nat | Target(s, root).Some? && hops < MAX_HOPS
      ensures Resolve(s, root, hops) == Resolve(Target(s, root).value, root, hops + 1)
    {
    }
  }

  lemma {:induction false} CodexIsLawful(rx: Regex, root: Value)
    ensures Lawful(Codex(rx, root), TidyFor(root))
  {
    CodexPartsAreTidy(rx, root);
    CodexExpansionCommutes(rx, root);
    CodexReferencesAccept(rx, root);
    CodexTargetsAreTidy(rx, root);
    CodexReferencesHop(rx, root);
  }

  /** Never wrongly rejected: accepted by the unfolding for every number of steps, accepted after expansion. */
  lemma ExpandedNeverRejects(rx: Regex, root: Value, schema: Value, value: Value, hops: nat, depth: nat)
    requires forall n: nat :: Tidy(n, root, schema)
    requires UnfoldsForever(Codex(rx, root), schema, value)
    ensures CheckOk(CodexDialect(rx), Resolve(schema, root, hops), value, depth)
  {
    var n := Left(MAX_DEPTH, depth) + Left(MAX_HOPS, hops);
    CodexIsLawful(rx, root);
    ExpansionIsSound(n, Codex(rx, root), TidyFor(root), schema, value, hops, depth);
  }

  /** What the relay accepts after expansion, exactly: the unfolding with everything beyond either cap accepted. */
  lemma ExpandedIsCappedUnfolding(rx: Regex, root: Value, schema: Value, value: Value, hops: nat, depth: nat)
    requires forall n: nat :: Tidy(n, root, schema)
    ensures CheckOk(CodexDialect(rx), Resolve(schema, root, hops), value, depth)
       <==> CappedUnfolds(Codex(rx, root), schema, value, hops, depth)
  {
    var n := Left(MAX_DEPTH, depth) + Left(MAX_HOPS, hops);
    CodexIsLawful(rx, root);
    ExpansionIsCappedUnfolding(n, Codex(rx, root), TidyFor(root), schema, value, hops, depth);
  }

  /** Within the caps the two agree; cyclic schemas are no exception as long as the value is shallow. */
  lemma ExpandedAgreesWithinCaps(rx: Regex, root: Value, schema: Value, value: Value, hops: nat, depth: nat)
    requires forall n: nat :: Tidy(n, root, schema)
    requires Fits(Codex(rx, root), schema, value, hops, depth)
    ensures CheckOk(CodexDialect(rx), Resolve(schema, root, hops), value, depth)
       <==> UnfoldsForever(Codex(rx, root), schema, value)
  {
    var lang := Codex(rx, root);
    if CheckOk(lang.read, lang.expand(schema, hops), value, depth) {
      CodexIsLawful(rx, root);
      forall n: nat ensures Unfolds(n, lang, schema, value) {
        assert TidyFor(root)(n, schema);
        ExpansionIsComplete(n, lang, TidyFor(root), schema, value, hops, depth);
      }
    }
    if UnfoldsForever(lang, schema, value) {
      ExpandedNeverRejects(rx, root, schema, value, hops, depth);
    }
  }

  // ---- the caps do let values through: a linked list ---------------------------------------

  const LINK: Value := Obj(map["$ref" := Str("#")])
  const NODE: Value := Obj(map["type" := Str("object"), "properties" := Obj(map["next" := LINK])])

  /** A list of `n` objects that ends in null, which is not a node. */
  function List(n: nat): Value {
    if n == 0 then Null else Obj(map["next" := List(n - 1)])
  }

  lemma NodeGoal(rx: Regex, link: Value, value: Value)
    ensures var node := Obj(map["type" := Str("object"), "properties" := Obj(map["next" := link])]);
            Goals(rx, node, value) == if !value.Obj? then Never
                                      else if "next" in value.fields then Every({Part(link, value.fields["next"], 2)})
                                      else Every({})
  {
  }

  lemma NodeTargets()
    ensures Target(NODE, NODE).None? && Target(NODE.fields["properties"], NODE).None? && Target(LINK, NODE) == Some(NODE)
  {
  }

  lemma NodeExpanded(hops: nat)
    requires hops < MAX_HOPS
    ensures Resolve(NODE, NODE, hops)
         == Obj(map["type" := Str("object"), "properties" := Obj(map["next" := Resolve(LINK, NODE, hops + 2)])])
  {
    NodeTargets();
    var properties := NODE.fields["properties"];
    var expanded := Resolve(properties, NODE, hops + 1);
    if hops + 1 < MAX_HOPS {
      assert expanded.fields == map["next" := Resolve(LINK, NODE, hops + 2)];
    }
    assert Resolve(NODE, NODE, hops).fields == map["type" := Str("object"), "properties" := expanded];
  }

  lemma NodeUnfolds(rx: Regex, n: nat, steps: nat)
    requires 2 <= steps
    ensures Unfolds(steps, Codex(rx, NODE), NODE, List(n)) <==> 0 < n && Unfolds(steps - 2, Codex(rx, NODE), NODE, List(n - 1))
  {
    NodeTargets();
    NodeGoal(rx, LINK, List(n));
    if 0 < n {
      var p := Part(LINK, List(n - 1), 2);
      assert Goals(rx, NODE, List(n)) == Every({p});
      assert Unfolds(steps - 1, Codex(rx, NODE), LINK, List(n - 1)) == Unfolds(steps - 2, Codex(rx, NODE), NODE, List(n - 1));
    }
  }

  /** Two steps of unfolding lead from a node to the next. */
  ghost predicate UnfoldsDown(lang: Language, list: nat -> Value, n: nat, steps: nat) {
    2 <= steps ==> (Unfolds(steps, lang, NODE, list(n)) <==> 0 < n && Unfolds(steps - 2, lang, NODE, list(n - 1)))
  }

  lemma {:induction false} RejectedDown(lang: Language, list: nat -> Value, n: nat, steps: nat)
    requires (forall m: nat, k: nat :: UnfoldsDown(lang, list, m, k)) && 2 * n + 2 <= steps
    ensures !Unfolds(steps, lang, NODE, list(n))
  {
    assert UnfoldsDown(lang, list, n, steps);
    if n > 0 {
      RejectedDown(lang, list, n - 1, steps - 2);
    }
  }

  /** The unfolding rejects every such list, however long. */
  lemma UnfoldingRejectsLists(rx: Regex, n: nat, steps: nat)
    requires 2 * n + 2 <= steps
    ensures !Unfolds(steps, Codex(rx, NODE), NODE, List(n))
  {
    forall m: nat, k: nat ensures UnfoldsDown(Codex(rx, NODE), List, m, k) {
      if 2 <= k {
        NodeUnfolds(rx, m, k);
      }
    }
    RejectedDown(Codex(rx, NODE), List, n, steps);
  }

  lemma NodeChecked(rx: Regex, node: Value, link: Value, n: nat, depth: nat)
    requires node == Obj(map["type" := Str("object"), "properties" := Obj(map["next" := link])]) && depth < MAX_DEPTH
    ensures CheckOk(CodexDialect(rx), node, List(n), depth) <==> 0 < n && CheckOk(CodexDialect(rx), link, List(n - 1), depth + 1)
  {
    NodeGoal(rx, link, List(n));
    if 0 < n {
      var p := Part(link, List(n - 1), 2);
      assert p in Every({p}).parts;
    }
  }

  lemma LinkAcceptsAnything(rx: Regex, value: Value, depth: nat)
    ensures CheckOk(CodexDialect(rx), LINK, value, depth)
  {
    WithoutKeywords(rx, LINK, value);
  }

  /** The root node as the expansion leaves it `j` nodes down: a node takes three hops. */
  function NodeAt(j: nat): Value {
    Resolve(NODE, NODE, 3 * j)
  }

  /** Ten nodes below the root only a bare reference is left, and that accepts anything. */
  ghost predicate StepsDown(lang: Dialect, node: nat -> Value, n: nat, j: nat) {
    CheckOk(lang, node(j), List(n), j) <==> 0 < n && (j == 10 || CheckOk(lang, node(j + 1), List(n - 1), j + 1))
  }

  lemma NextNode(rx: Regex, n: nat, j: nat)
    requires j <= 10
    ensures StepsDown(CodexDialect(rx), NodeAt, n, j)
  {
    var node, link := NodeAt(j), Resolve(LINK, NODE, 3 * j + 2);
    assert node == Obj(map["type" := Str("object"), "properties" := Obj(map["next" := link])]) by { NodeExpanded(3 * j); }
    assert link == if j < 10 then NodeAt(j + 1) else LINK by { NodeTargets(); }
    NodeChecked(rx, node, link, n, j);
    if n > 0 && j == 10 {
      LinkAcceptsAnything(rx, List(n - 1), j + 1);
    }
  }

  lemma {:induction false} CountDown(lang: Dialect, node: nat -> Value, n: nat, j: nat)
    requires (forall m: nat, k: nat :: k <= 10 ==> StepsDown(lang, node, m, k)) && j <= 10
    ensures CheckOk(lang, node(j), List(n), j) <==> 10 < n + j
    decreases 10 - j
  {
    assert StepsDown(lang, node, n, j);
    if 0 < n && j < 10 {
      CountDown(lang, node, n - 1, j + 1);
    }
  }

  /**
   `j` nodes down the expanded schema rejects the list exactly while an expanded node is left for
   its end: from the root, lists of eleven and more nodes get through.
   */
  lemma ExpansionLosesLists(rx: Regex, n: nat, j: nat)
    requires j <= 10
    ensures CheckOk(CodexDialect(rx), NodeAt(j), List(n), j) <==> 10 < n + j
  {
    forall m: nat, k: nat | k <= 10 ensures StepsDown(CodexDialect(rx), NodeAt, m, k) {
      NextNode(rx, m, k);
    }
    CountDown(CodexDialect(rx), NodeAt, n, j);
  }

  /** Expanding the node schema keeps what it means exactly for lists of up to ten nodes. */
  lemma ListsAgreeExactlyUpToTen(rx: Regex, n: nat)
    ensures (CheckOk(CodexDialect(rx), Resolve(NODE, NODE, 0), List(n), 0) <==> UnfoldsForever(Codex(rx, NODE), NODE, List(n))) <==> n <= 10
  {
    ExpansionLosesLists(rx, n, 0);
    UnfoldingRejectsLists(rx, n, 2 * n + 2);
  }

  // ---- fitting the caps is needed: two families ------------------------------------------------

  /** A node of the list takes three hops and one level of depth. */
  ghost predicate FitsDown(lang: Language, node: Value, list: nat -> Value, n: nat, j: nat) {
    Fits(lang, node, list(n), 3 * j, j) <==> n == 0 || (j < 10 && Fits(lang, node, list(n - 1), 3 * j + 3, j + 1))
  }

  /** The node reads its link for the rest of the list, and the link leads back to it. */
  ghost predicate LinksBack(lang: Language, node: Value, link: Value, list: nat -> Value, n: nat) {
    && lang.target(node).None? && lang.target(link) == Some(node)
    && lang.read(node, list(n)) == if n == 0 then Never else Every({Part(link, list(n - 1), 2)})
  }

  lemma OnePartFits(lang: Language, schema: Value, value: Value, hops: nat, depth: nat, p: Part)
    requires lang.target(schema).None? && lang.read(schema, value) == Every({p})
    ensures Fits(lang, schema, value, hops, depth) <==> depth < MAX_DEPTH && Fits(lang, p.schema, p.value, hops + p.hops, depth + 1)
  {
    assert p in {p};
  }

  lemma NeverFits(lang: Language, schema: Value, value: Value, hops: nat, depth: nat)
    requires lang.target(schema).None? && lang.read(schema, value) == Never
    ensures Fits(lang, schema, value, hops, depth) <==> depth < MAX_DEPTH
  {
  }

  lemma RoundFits(lang: Language, node: Value, link: Value, value: Value, next: Value, hops: nat, depth: nat)
    requires lang.target(node).None? && lang.target(link) == Some(node) && lang.read(node, value) == Every({Part(link, next, 2)})
    ensures Fits(lang, node, value, hops, depth)
       <==> depth < MAX_DEPTH && hops + 2 < MAX_HOPS && Fits(lang, node, next, hops + 3, depth + 1)
  {
    OnePartFits(lang, node, value, hops, depth, Part(link, next, 2));
  }

  lemma LinkedFits(lang: Language, node: Value, link: Value, list: nat -> Value, n: nat, j: nat)
    requires LinksBack(lang, node, link, list, n) && j <= 10
    ensures FitsDown(lang, node, list, n, j)
  {
    if n == 0 {
      NeverFits(lang, node, list(n), 3 * j, j);
    } else {
      RoundFits(lang, node, link, list(n), list(n - 1), 3 * j, j);
    }
  }

  lemma NodeLinksBack(rx: Regex, n: nat)
    ensures LinksBack(Codex(rx, NODE), NODE, LINK, List, n)
  {
    NodeTargets();
    NodeGoal(rx, LINK, List(n));
  }

  lemma {:induction false} ListsFitDown(lang: Language, node: Value, list: nat -> Value, n: nat, j: nat)
    requires (forall m: nat, k: nat :: k <= 10 ==> FitsDown(lang, node, list, m, k)) && j <= 10
    ensures Fits(lang, node, list(n), 3 * j, j) <==> n + j <= 10
    decreases 10 - j
  {
    assert FitsDown(lang, node, list, n, j);
    if 0 < n && j < 10 {
      ListsFitDown(lang, node, list, n - 1, j + 1);
    }
  }

  lemma TidyNode(steps: nat, root: Value, schema: Value, child: Value)
    requires TidyHere(root, schema) && Children(schema) <= {child} && (child in Children(schema) ==> Tidy(steps, root, child))
    ensures Tidy(steps + 1, root, schema)
  {
  }

  lemma TidyReference(steps: nat, root: Value, link: Value)
    requires link.Obj? && link.fields.Keys == {"$ref"} && Target(link, root) == Some(root) && Tidy(steps, root, root)
    ensures Tidy(steps + 1, root, link)
  {
  }

  lemma NodeIsTidy()
    ensures TidyHere(NODE, NODE) && Children(NODE) == {LINK}
  {
    NodeTargets();
    assert NODE.fields.Keys == {"type", "properties"};
    assert Properties(NODE) == map["next" := LINK];
    assert Children(NODE) == (map["next" := LINK]).Values;
    assert (map["next" := LINK])["next"] == LINK;
  }

  lemma {:induction false} NodesAreTidy(steps: nat, node: Value, link: Value)
    requires TidyHere(node, node) && Children(node) == {link}
    requires link.Obj? && link.fields.Keys == {"$ref"} && Target(link, node) == Some(node)
    ensures Tidy(steps, node, node) && Tidy(steps, node, link)
  {
    if 0 < steps {
      NodesAreTidy(steps - 1, node, link);
      TidyNode(steps - 1, node, node, link);
      TidyReference(steps - 1, node, link);
    }
  }

  /** The node is tidy, cyclic as it is, so what is proved of tidy schemas is proved of it. */
  lemma ListSchemaIsTidy(steps: nat)
    ensures TidyFor(NODE)(steps, NODE)
  {
    NodeIsTidy();
    LinkOf(NODE);
    NodesAreTidy(steps, NODE, LINK);
  }

  /** On the lists, expansion keeps the meaning exactly if the value fits, and the reference cap decides that. */
  lemma ListsAgreeExactlyWhenTheyFit(rx: Regex, n: nat)
    ensures (CheckOk(CodexDialect(rx), Resolve(NODE, NODE, 0), List(n), 0) <==> UnfoldsForever(Codex(rx, NODE), NODE, List(n)))
       <==> Fits(Codex(rx, NODE), NODE, List(n), 0, 0)
    ensures Fits(Codex(rx, NODE), NODE, List(n), 0, 0) <==> n <= 10
  {
    forall m: nat, k: nat | k <= 10 ensures FitsDown(Codex(rx, NODE), NODE, List, m, k) {
      NodeLinksBack(rx, m);
      LinkedFits(Codex(rx, NODE), NODE, LINK, List, m, k);
    }
    ListsFitDown(Codex(rx, NODE), NODE, List, n, 0);
    ListsAgreeExactlyUpToTen(rx, n);
  }

  lemma {:induction false} WrappedIsRefFree(n: nat, root: Value)
    ensures RefFree(Wrapped(n), root)
  {
    if n > 0 {
      WrappedIsRefFree(n - 1, root);
      assert RefFree(Arr([Wrapped(n - 1)]), root);
    }
  }

  ghost predicate PlainlyWrapped(lang: Language, n: nat) {
    lang.target(Wrapped(n)).None? && Unwraps(lang.read, n)
  }

  lemma {:induction false} WrappedFitsDown(lang: Language, n: nat, hops: nat, depth: nat)
    requires forall k: nat :: PlainlyWrapped(lang, k)
    ensures Fits(lang, Wrapped(n), Bool(true), hops, depth) <==> n + depth < MAX_DEPTH
    decreases n
  {
    assert PlainlyWrapped(lang, n);
    if n == 0 {
      NeverFits(lang, Wrapped(n), Bool(true), hops, depth);
    } else {
      OnePartFits(lang, Wrapped(n), Bool(true), hops, depth, Part(Wrapped(n - 1), Bool(true), 2));
      if depth < MAX_DEPTH {
        WrappedFitsDown(lang, n - 1, hops + 2, depth + 1);
      }
    }
  }

  lemma {:induction false} WrappedIsRejectedDown(lang: Language, n: nat, steps: nat)
    requires (forall k: nat :: PlainlyWrapped(lang, k)) && n < steps
    ensures !Unfolds(steps, lang, Wrapped(n), Bool(true))
  {
    assert PlainlyWrapped(lang, n);
    if n > 0 {
      var p := Part(Wrapped(n - 1), Bool(true), 2);
      assert lang.read(Wrapped(n), Bool(true)) == Every({p}) && p in {p};
      WrappedIsRejectedDown(lang, n - 1, steps - 1);
    }
  }

  lemma LinkFollowed(lang: Language, n: nat)
    requires (forall k: nat :: PlainlyWrapped(lang, k)) && lang.target(LINK) == Some(Wrapped(n))
    ensures Fits(lang, LINK, Bool(true), 0, 0) <==> n < MAX_DEPTH
    ensures !UnfoldsForever(lang, LINK, Bool(true))
  {
    WrappedFitsDown(lang, n, 1, 0);
    WrappedIsRejectedDown(lang, n, n + 1);
    assert !Unfolds(n + 2, lang, LINK, Bool(true));
  }

  lemma WrappedIsPlain(rx: Regex, root: Value, n: nat)
    ensures PlainlyWrapped(Codex(rx, root), n)
  {
    WrappedIsRefFree(n, root);
    WrappedGoal(rx, n);
  }

  lemma LinkToRoot(root: Value)
    requires RefFree(root, root)
    ensures Target(LINK, root) == Some(root) && Resolve(LINK, root, 0) == root
  {
    RefFreeStays(root, root, 1);
  }

  /** Nothing but the next layer is below this one. */
  ghost predicate TidyLayer(root: Value, wrapped: nat -> Value, n: nat) {
    TidyHere(root, wrapped(n)) && Children(wrapped(n)) == if n == 0 then {} else {wrapped(n - 1)}
  }

  lemma LayerIsTidy(root: Value, wrapped: nat -> Value, steps: nat, n: nat)
    requires TidyLayer(root, wrapped, n) && (0 < n ==> Tidy(steps, root, wrapped(n - 1)))
    ensures Tidy(steps + 1, root, wrapped(n))
  {
    TidyNode(steps, root, wrapped(n), if n == 0 then root else wrapped(n - 1));
  }

  ghost predicate LayerKeeps(tidy: Tidiness, wrapped: nat -> Value, steps: nat, n: nat) {
    tidy(0, wrapped(n)) && ((0 < n ==> tidy(steps, wrapped(n - 1))) ==> tidy(steps + 1, wrapped(n)))
  }

  lemma {:induction false} LayersAreTidy(tidy: Tidiness, wrapped: nat -> Value, steps: nat, n: nat)
    requires forall k: nat, m: nat :: LayerKeeps(tidy, wrapped, k, m)
    ensures tidy(steps, wrapped(n))
  {
    assert LayerKeeps(tidy, wrapped, if steps == 0 then 0 else steps - 1, n);
    if 0 < steps && 0 < n {
      LayersAreTidy(tidy, wrapped, steps - 1, n - 1);
    }
  }

  lemma WrappedIsLayered(root: Value, n: nat)
    ensures TidyLayer(root, Wrapped, n)
  {
    WrappedIsRefFree(n, root);
    WrappedChildren(n);
    assert Wrapped(n).fields.Keys == if n == 0 then {"type"} else {"allOf"};
  }

  lemma WrappedKeepsTidy(root: Value, steps: nat, n: nat)
    ensures LayerKeeps(TidyFor(root), Wrapped, steps, n)
  {
    WrappedIsLayered(root, n);
    if 0 < n ==> TidyFor(root)(steps, Wrapped(n - 1)) {
      LayerIsTidy(root, Wrapped, steps, n);
    }
  }

  lemma WrappedIsTidy(root: Value, steps: nat, n: nat)
    ensures TidyFor(root)(steps, Wrapped(n))
  {
    forall k: nat, m: nat ensures LayerKeeps(TidyFor(root), Wrapped, k, m) {
      WrappedKeepsTidy(root, k, m);
    }
    LayersAreTidy(TidyFor(root), Wrapped, steps, n);
  }

  /** The schema, and whatever refers to all of it, unfolds tidily for ever. */
  ghost predicate TidyForever(tidy: Tidiness, schema: Value) {
    forall steps: nat :: tidy(steps, schema)
  }

  lemma ReferenceStaysTidy(steps: nat, root: Value)
    requires TidyFor(root)(steps, root)
    ensures TidyFor(root)(steps + 1, LINK)
  {
    LinkOf(root);
    TidyReference(steps, root, LINK);
  }

  lemma ReferenceIsTidy(root: Value)
    requires TidyForever(TidyFor(root), root)
    ensures TidyForever(TidyFor(root), LINK)
  {
    forall steps: nat ensures TidyFor(root)(steps, LINK) {
      if 0 < steps {
        assert TidyFor(root)(steps - 1, root);
        ReferenceStaysTidy(steps - 1, root);
      }
    }
  }

  lemma WrappedIsTidyForever(root: Value, n: nat)
    ensures TidyForever(TidyFor(root), Wrapped(n))
  {
    forall steps: nat ensures TidyFor(root)(steps, Wrapped(n)) {
      WrappedIsTidy(root, steps, n);
    }
  }

  /** So is the reference to nested levels. */
  lemma DeepTargetIsTidy(n: nat)
    ensures TidyForever(TidyFor(Wrapped(n)), LINK)
  {
    WrappedIsTidyForever(Wrapped(n), n);
    ReferenceIsTidy(Wrapped(n));
  }

  lemma LinkOf(root: Value)
    ensures LINK.fields.Keys == {"$ref"} && Target(LINK, root) == Some(root)
  {
  }

  /** On a reference to a schema of `n` nested levels it does so exactly if the value fits as well, and the depth cap decides that. */
  lemma DeepTargetsAgreeExactlyWhenTheyFit(rx: Regex, n: nat)
    ensures var root := Wrapped(n);
            (CheckOk(CodexDialect(rx), Resolve(LINK, root, 0), Bool(true), 0) <==> UnfoldsForever(Codex(rx, root), LINK, Bool(true)))
            <==> Fits(Codex(rx, root), LINK, Bool(true), 0, 0)
    ensures Fits(Codex(rx, Wrapped(n)), LINK, Bool(true), 0, 0) <==> n < 24
  {
    var root := Wrapped(n);
    assert Codex(rx, root).target(LINK) == Some(root) && Resolve(LINK, root, 0) == root by {
      WrappedIsRefFree(n, root);
      LinkToRoot(root);
    }
    forall k: nat ensures PlainlyWrapped(Codex(rx, root), k) {
      WrappedIsPlain(rx, root, k);
    }
    LinkFollowed(Codex(rx, root), n);
    CapIsTight(rx, n, 0);
  }
}
