/**
 What `validate` of src/codex/params.rs decides: a declarative acceptance predicate without caps,
 the capped check, and exactly how far the depth cap separates the two.
 */
module Validator {
  import opened Wrappers
  import opened Json
  import opened Schema

  const MAX_DEPTH: nat := 24

  /** The declarative meaning of a schema. */
  ghost predicate Accepts(rx: Regex, schema: Value, value: Value)
    decreases schema
  {
    match Goals(rx, schema, value)
    case Never => false
    case Any(parts) => exists p :: p in parts && Accepts(rx, p.schema, p.value)
    case Every(parts) => forall p :: p in parts ==> Accepts(rx, p.schema, p.value)
  }

  /** The same for any dialect, except that a schema reached below `MAX_DEPTH` levels accepts anything. */
  ghost predicate CheckOk(g: Dialect, schema: Value, value: Value, depth: nat)
    decreases MAX_DEPTH - depth
  {
    depth >= MAX_DEPTH ||
    match g(schema, value)
    case Never => false
    case Any(parts) => exists p :: p in parts && CheckOk(g, p.schema, p.value, depth + 1)
    case Every(parts) => forall p :: p in parts ==> CheckOk(g, p.schema, p.value, depth + 1)
  }

  // ---- the depth cap -------------------------------------------------------------------

  lemma {:induction false} WeakerWithCap(rx: Regex, g: Dialect, schema: Value, value: Value, depth: nat)
    requires (forall s, v {:trigger Goals(rx, s, v)} :: g(s, v) == Goals(rx, s, v)) && Accepts(rx, schema, value)
    ensures CheckOk(g, schema, value, depth)
    decreases schema
  {
    match Goals(rx, schema, value)
    case Any(parts) =>
      var p :| p in parts && Accepts(rx, p.schema, p.value);
      WeakerWithCap(rx, g, p.schema, p.value, depth + 1);
    case Every(parts) =>
      forall p | p in parts ensures CheckOk(g, p.schema, p.value, depth + 1) {
        WeakerWithCap(rx, g, p.schema, p.value, depth + 1);
      }
  }

  /** The cap only ever weakens acceptance. */
  lemma {:induction false} CapOnlyWeakens(rx: Regex, schema: Value, value: Value, depth: nat)
    requires Accepts(rx, schema, value)
    ensures CheckOk(CodexDialect(rx), schema, value, depth)
  {
    WeakerWithCap(rx, CodexDialect(rx), schema, value, depth);
  }

  /** The check of this schema and value stays within `levels` schema levels. */
  ghost predicate Within(g: Dialect, schema: Value, value: Value, levels: nat)
    decreases levels
  {
    var goal := g(schema, value);
    goal.Never? || goal.parts == {} ||
    (0 < levels && forall p :: p in goal.parts ==> Within(g, p.schema, p.value, levels - 1))
  }

  lemma WithinPart(g: Dialect, schema: Value, value: Value, levels: nat, p: Part)
    requires Within(g, schema, value, levels) && !g(schema, value).Never? && p in g(schema, value).parts
    ensures 0 < levels && Within(g, p.schema, p.value, levels - 1)
  {
  }

  lemma {:induction false} WithinTheCap(rx: Regex, g: Dialect, schema: Value, value: Value, depth: nat, levels: nat)
    requires forall s, v {:trigger Goals(rx, s, v)} :: g(s, v) == Goals(rx, s, v)
    requires depth + levels < MAX_DEPTH && Within(g, schema, value, levels) && CheckOk(g, schema, value, depth)
    ensures Accepts(rx, schema, value)
    decreases levels
  {
    match g(schema, value)
    case Any(parts) =>
      var p :| p in parts && CheckOk(g, p.schema, p.value, depth + 1);
      WithinPart(g, schema, value, levels, p);
      WithinTheCap(rx, g, p.schema, p.value, depth + 1, levels - 1);
    case Every(parts) =>
      forall p | p in parts ensures Accepts(rx, p.schema, p.value) {
        WithinPart(g, schema, value, levels, p);
        WithinTheCap(rx, g, p.schema, p.value, depth + 1, levels - 1);
      }
  }

  /** Within the cap the verdict is exact, for this value even if the schema nests deeper elsewhere. */
  lemma {:induction false} CapIsExact(rx: Regex, schema: Value, value: Value, depth: nat, levels: nat)
    requires depth + levels < MAX_DEPTH && Within(CodexDialect(rx), schema, value, levels)
    ensures CheckOk(CodexDialect(rx), schema, value, depth) <==> Accepts(rx, schema, value)
  {
    if CheckOk(CodexDialect(rx), schema, value, depth) {
      WithinTheCap(rx, CodexDialect(rx), schema, value, depth, levels);
    } else if Accepts(rx, schema, value) {
      CapOnlyWeakens(rx, schema, value, depth);
    }
  }

  /** The sub-schemas a check may descend into, one level down. */
  function Children(schema: Value): set<Value> {
    var union := Union(schema);
    if union.Some? then set b | b in union.value
    else
      var items := schema.Get("items");
      (set b | b in AllOf(schema)) + Properties(schema).Values + (if items.Some? then {items.value} else {})
  }

  /** The schema nests at most `levels` schema levels, whatever the value. */
  ghost predicate Nested(schema: Value, levels: nat)
    decreases levels
  {
    Children(schema) != {} ==> 0 < levels && forall c :: c in Children(schema) ==> Nested(c, levels - 1)
  }

  lemma GoalsAreChildren(rx: Regex, schema: Value, value: Value)
    ensures var goal := Goals(rx, schema, value); !goal.Never? ==> forall p :: p in goal.parts ==> p.schema in Children(schema)
  {
    var goal := Goals(rx, schema, value);
    if !goal.Never? {
      forall p | p in goal.parts ensures p.schema in Children(schema) {
        if p in PropertyParts(schema, value) {
          var name :| name in Fields(value) && name in Properties(schema) && p.schema == Properties(schema)[name];
          assert Properties(schema)[name] in Properties(schema).Values;
        }
      }
    }
  }

  lemma NestedPart(rx: Regex, schema: Value, value: Value, levels: nat, p: Part)
    requires Nested(schema, levels) && !Goals(rx, schema, value).Never? && p in Goals(rx, schema, value).parts
    ensures 0 < levels && Nested(p.schema, levels - 1)
  {
    GoalsAreChildren(rx, schema, value);
  }

  lemma PartsWithin(g: Dialect, schema: Value, value: Value, levels: nat)
    requires !g(schema, value).Never? && 0 < levels
    requires forall p :: p in g(schema, value).parts ==> Within(g, p.schema, p.value, levels - 1)
    ensures Within(g, schema, value, levels)
  {
  }

  lemma {:induction false} NestedIsWithin(rx: Regex, schema: Value, value: Value, levels: nat)
    requires Nested(schema, levels)
    ensures Within(CodexDialect(rx), schema, value, levels)
    decreases levels
  {
    var goal := Goals(rx, schema, value);
    if !goal.Never? && goal.parts != {} {
      forall p | p in goal.parts ensures 0 < levels && Within(CodexDialect(rx), p.schema, p.value, levels - 1) {
        NestedPart(rx, schema, value, levels, p);
        NestedIsWithin(rx, p.schema, p.value, levels - 1);
      }
      PartsWithin(CodexDialect(rx), schema, value, levels);
    }
  }

  /** From depth 0: a schema nested fewer than 24 levels is validated exactly. */
  lemma ShallowSchemasAreExact(rx: Regex, schema: Value, value: Value, depth: nat, levels: nat)
    requires depth + levels < MAX_DEPTH && Nested(schema, levels)
    ensures CheckOk(CodexDialect(rx), schema, value, depth) <==> Accepts(rx, schema, value)
  {
    NestedIsWithin(rx, schema, value, levels);
    CapIsExact(rx, schema, value, depth, levels);
  }

  /** `{"type": "null"}` below `n` levels of `allOf`. */
  function Wrapped(n: nat): Value {
    if n == 0 then Obj(map["type" := Str("null")]) else Obj(map["allOf" := Arr([Wrapped(n - 1)])])
  }

  lemma WrappedGoal(rx: Regex, n: nat)
    ensures Goals(rx, Wrapped(n), Bool(true)) == if n == 0 then Never else Every({Part(Wrapped(n - 1), Bool(true), 2)})
  {
    if n > 0 {
      var wrapped := Wrapped(n);
      assert AllOf(wrapped) == [Wrapped(n - 1)];
      assert BranchParts([Wrapped(n - 1)], Bool(true)) == {Part(Wrapped(n - 1), Bool(true), 2)};
    }
  }

  lemma WrappedAccepts(rx: Regex, n: nat)
    ensures Accepts(rx, Wrapped(n), Bool(true)) <==> 0 < n && Accepts(rx, Wrapped(n - 1), Bool(true))
  {
    WrappedGoal(rx, n);
  }

  lemma WrappedIsNeverAccepted(rx: Regex, n: nat)
    ensures !Accepts(rx, Wrapped(n), Bool(true))
  {
    WrappedAccepts(rx, 0);
    for k := 0 to n
      invariant !Accepts(rx, Wrapped(k), Bool(true))
    {
      WrappedAccepts(rx, k + 1);
    }
  }

  ghost predicate Unwraps(g: Dialect, n: nat) {
    g(Wrapped(n), Bool(true)) == if n == 0 then Never else Every({Part(Wrapped(n - 1), Bool(true), 2)})
  }

  lemma OneLevelDown(g: Dialect, n: nat, depth: nat)
    requires Unwraps(g, n) && depth < MAX_DEPTH
    ensures CheckOk(g, Wrapped(n), Bool(true), depth) <==> 0 < n && CheckOk(g, Wrapped(n - 1), Bool(true), depth + 1)
  {
    if n > 0 {
      var part := Part(Wrapped(n - 1), Bool(true), 2);
      assert part in {part};
    }
  }

  lemma {:induction false} UnwrappingDown(g: Dialect, n: nat, depth: nat)
    requires forall k: nat :: Unwraps(g, k)
    ensures CheckOk(g, Wrapped(n), Bool(true), depth) <==> n + depth >= MAX_DEPTH
    decreases n
  {
    if depth < MAX_DEPTH {
      assert Unwraps(g, n);
      OneLevelDown(g, n, depth);
      if n > 0 {
        UnwrappingDown(g, n - 1, depth + 1);
      }
    }
  }

  /** The cap is as low as stated: the wrongly typed value gets through exactly from 24 levels on. */
  lemma CapIsTight(rx: Regex, n: nat, depth: nat)
    ensures CheckOk(CodexDialect(rx), Wrapped(n), Bool(true), depth) <==> n + depth >= 24
  {
    forall k: nat ensures Unwraps(CodexDialect(rx), k) {
      WrappedGoal(rx, k);
    }
    UnwrappingDown(CodexDialect(rx), n, depth);
  }

  lemma WrappedChildren(n: nat)
    ensures Children(Wrapped(n)) == if n == 0 then {} else {Wrapped(n - 1)}
  {
    if n > 0 {
      var fields := Wrapped(n).fields;
      assert fields.Keys == {"allOf"};
      assert Wrapped(n).Get("allOf") == Some(Arr([Wrapped(n - 1)]));
      assert AllOf(Wrapped(n)) == [Wrapped(n - 1)];
    } else {
      assert Wrapped(0).fields.Keys == {"type"};
    }
  }

  lemma OnlyChild(schema: Value, child: Value, levels: nat)
    requires Children(schema) == {child} && Nested(child, levels)
    ensures Nested(schema, levels + 1)
  {
  }

  lemma NoChild(schema: Value, levels: nat)
    requires Children(schema) == {}
    ensures Nested(schema, levels)
  {
  }

  lemma {:induction false} WrappedIsNested(n: nat)
    ensures Nested(Wrapped(n), n)
  {
    WrappedChildren(n);
    if n == 0 {
      NoChild(Wrapped(0), 0);
    } else {
      WrappedIsNested(n - 1);
      OnlyChild(Wrapped(n), Wrapped(n - 1), n - 1);
    }
  }

  /** The check decides the meaning of all schemas nested at most `n` levels, on all values, exactly if `n` is below the cap. */
  lemma ExactExactlyBelowTheCap(rx: Regex, n: nat)
    ensures (forall schema, value :: Nested(schema, n) ==> (CheckOk(CodexDialect(rx), schema, value, 0) <==> Accepts(rx, schema, value)))
            <==> n < 24
  {
    if n < MAX_DEPTH {
      forall schema, value | Nested(schema, n)
        ensures CheckOk(CodexDialect(rx), schema, value, 0) <==> Accepts(rx, schema, value)
      {
        ShallowSchemasAreExact(rx, schema, value, 0, n);
      }
    } else {
      WrappedIsNested(n);
      CapIsTight(rx, n, 0);
      WrappedIsNeverAccepted(rx, n);
    }
  }
}
