/**
 Unfolding references with a cap on the hops and checking with a cap on the depth, for any way
 of reading schemas, following references and expanding them that obeys a few laws.
 */
module CappedUnfolding {
  import opened Wrappers
  import opened Json
  import opened Schema
  import opened Validator

  const MAX_HOPS: nat := 32

  /** How schemas are read, what a reference leads to, and what a node is expanded to `hops` levels down. */
  datatype Language = Language(read: Dialect, target: Value -> Option<Value>, expand: (Value, nat) -> Value)

  /** The value is accepted as far as `steps` steps of following references and descending can tell. */
  ghost predicate Unfolds(steps: nat, lang: Language, schema: Value, value: Value) {
    steps == 0 ||
    if lang.target(schema).Some? then Unfolds(steps - 1, lang, lang.target(schema).value, value)
    else
      match lang.read(schema, value)
      case Never => false
      case Any(parts) => exists p :: p in parts && Unfolds(steps - 1, lang, p.schema, p.value)
      case Every(parts) => forall p :: p in parts ==> Unfolds(steps - 1, lang, p.schema, p.value)
  }

  /** However far the references are followed, nothing speaks against the value. */
  ghost predicate UnfoldsForever(lang: Language, schema: Value, value: Value) {
    forall steps: nat :: Unfolds(steps, lang, schema, value)
  }

  /** Checking this value meets every reference and every demand before either cap is reached. */
  ghost predicate Fits(lang: Language, schema: Value, value: Value, hops: nat, depth: nat)
    decreases Left(MAX_DEPTH, depth), Left(MAX_HOPS, hops)
  {
    if lang.target(schema).Some? then hops < MAX_HOPS && Fits(lang, lang.target(schema).value, value, hops + 1, depth)
    else
      var goal := lang.read(schema, value);
      goal == Every({}) ||
      (depth < MAX_DEPTH &&
       (goal.Never? || forall p :: p in goal.parts ==> Fits(lang, p.schema, p.value, hops + p.hops, depth + 1)))
  }

  function Left(cap: nat, used: nat): nat {
    if used < cap then cap - used else 0
  }

  function Expanded(part: Part, lang: Language, hops: nat): Part {
    Part(lang.expand(part.schema, hops + part.hops), part.value, part.hops)
  }

  function ExpandedGoal(goal: Goal, lang: Language, hops: nat): Goal {
    match goal
    case Never => Never
    case Any(parts) => Any(set p | p in parts :: Expanded(p, lang, hops))
    case Every(parts) => Every(set p | p in parts :: Expanded(p, lang, hops))
  }

  /** `tidy(n, s)`: up to `n` steps of unfolding, references occur only where schemas do and without siblings. */
  type Tidiness = (nat, Value) -> bool

  ghost predicate TidyTargets(lang: Language, tidy: Tidiness) {
    forall n: nat, s :: 0 < n && tidy(n, s) && lang.target(s).Some? ==> tidy(n - 1, lang.target(s).value)
  }

  ghost predicate TidyParts(lang: Language, tidy: Tidiness) {
    forall n: nat, s, v, p :: 0 < n && tidy(n, s) && lang.target(s).None? && !lang.read(s, v).Never? && p in lang.read(s, v).parts ==>
      tidy(n - 1, p.schema)
  }

  /** Reading an expanded schema is expanding what is read. */
  ghost predicate ExpansionCommutes(lang: Language, tidy: Tidiness) {
    forall n: nat, s, v, hops: nat :: 0 < n && tidy(n, s) && lang.target(s).None? ==>
      lang.read(lang.expand(s, hops), v) == ExpandedGoal(lang.read(s, v), lang, hops)
  }

  ghost predicate CappedReferencesAccept(lang: Language, tidy: Tidiness) {
    forall n: nat, s, v, hops: nat :: 0 < n && tidy(n, s) && lang.target(s).Some? && hops >= MAX_HOPS ==>
      lang.read(lang.expand(s, hops), v) == Every({})
  }

  ghost predicate ReferencesHop(lang: Language) {
    forall s, hops: nat :: lang.target(s).Some? && hops < MAX_HOPS ==>
      lang.expand(s, hops) == lang.expand(lang.target(s).value, hops + 1)
  }

  ghost predicate Lawful(lang: Language, tidy: Tidiness) {
    && TidyTargets(lang, tidy) && TidyParts(lang, tidy) && ExpansionCommutes(lang, tidy)
    && CappedReferencesAccept(lang, tidy) && ReferencesHop(lang)
  }

  /**
   Expansion never turns acceptance into rejection: a value that the unfolding accepts for as many
   steps as the two caps leave room for is accepted by the capped check of the expanded schema.
   */
  lemma {:induction false} ExpansionIsSound(
      steps: nat, lang: Language, tidy: Tidiness, schema: Value, value: Value, hops: nat, depth: nat)
    requires Lawful(lang, tidy) && Left(MAX_DEPTH, depth) + Left(MAX_HOPS, hops) <= steps
    requires tidy(steps, schema) && Unfolds(steps, lang, schema, value)
    ensures CheckOk(lang.read, lang.expand(schema, hops), value, depth)
    decreases steps, 1
  {
    if depth < MAX_DEPTH {
      if lang.target(schema).Some? {
        if hops < MAX_HOPS {
          ExpansionIsSound(steps - 1, lang, tidy, lang.target(schema).value, value, hops + 1, depth);
        }
      } else {
        var goal, after := lang.read(schema, value), lang.read(lang.expand(schema, hops), value);
        assert after == ExpandedGoal(goal, lang, hops);
        if goal.Any? {
          var p :| p in goal.parts && Unfolds(steps - 1, lang, p.schema, p.value);
          PartIsSound(steps, lang, tidy, schema, value, p, hops, depth);
          assert Expanded(p, lang, hops) in after.parts;
        } else if goal.Every? {
          forall p | p in goal.parts ensures CheckOk(lang.read, Expanded(p, lang, hops).schema, p.value, depth + 1) {
            PartIsSound(steps, lang, tidy, schema, value, p, hops, depth);
          }
        }
      }
    }
  }

  lemma PartIsSound(steps: nat, lang: Language, tidy: Tidiness, schema: Value, value: Value, p: Part, hops: nat, depth: nat)
    requires Lawful(lang, tidy) && depth < MAX_DEPTH && Left(MAX_DEPTH, depth) + Left(MAX_HOPS, hops) <= steps
    requires tidy(steps, schema) && lang.target(schema).None?
    requires !lang.read(schema, value).Never? && p in lang.read(schema, value).parts && Unfolds(steps - 1, lang, p.schema, p.value)
    ensures CheckOk(lang.read, Expanded(p, lang, hops).schema, p.value, depth + 1)
    decreases steps, 0
  {
    ExpansionIsSound(steps - 1, lang, tidy, p.schema, p.value, hops + p.hops, depth + 1);
  }

  lemma AcceptedPart(lang: Language, parts: set<Part>, after: set<Part>, hops: nat, depth: nat) returns (p: Part)
    requires after == set p | p in parts :: Expanded(p, lang, hops)
    requires exists q :: q in after && CheckOk(lang.read, q.schema, q.value, depth)
    ensures p in parts && CheckOk(lang.read, Expanded(p, lang, hops).schema, p.value, depth)
  {
    var q :| q in after && CheckOk(lang.read, q.schema, q.value, depth);
    p :| p in parts && q == Expanded(p, lang, hops);
  }

  /** Within the caps the check of the expanded schema accepts only what the unfolding accepts. */
  lemma {:induction false} ExpansionIsComplete(
      steps: nat, lang: Language, tidy: Tidiness, schema: Value, value: Value, hops: nat, depth: nat)
    requires Lawful(lang, tidy) && tidy(steps, schema) && Fits(lang, schema, value, hops, depth)
    requires CheckOk(lang.read, lang.expand(schema, hops), value, depth)
    ensures Unfolds(steps, lang, schema, value)
    decreases steps, 1
  {
    if 0 < steps {
      if lang.target(schema).Some? {
        ExpansionIsComplete(steps - 1, lang, tidy, lang.target(schema).value, value, hops + 1, depth);
      } else if lang.read(schema, value) != Every({}) {
        var goal, after := lang.read(schema, value), lang.read(lang.expand(schema, hops), value);
        assert after == ExpandedGoal(goal, lang, hops);
        if goal.Any? {
          var p := AcceptedPart(lang, goal.parts, after.parts, hops, depth + 1);
          PartIsComplete(steps, lang, tidy, schema, value, p, hops, depth);
        } else if goal.Every? {
          forall p | p in goal.parts ensures Unfolds(steps - 1, lang, p.schema, p.value) {
            assert Expanded(p, lang, hops) in after.parts;
            PartIsComplete(steps, lang, tidy, schema, value, p, hops, depth);
          }
        }
      }
    }
  }

  lemma PartIsComplete(steps: nat, lang: Language, tidy: Tidiness, schema: Value, value: Value, p: Part, hops: nat, depth: nat)
    requires Lawful(lang, tidy) && 0 < steps && tidy(steps, schema) && lang.target(schema).None? && Fits(lang, schema, value, hops, depth)
    requires !lang.read(schema, value).Never? && p in lang.read(schema, value).parts
    requires CheckOk(lang.read, Expanded(p, lang, hops).schema, p.value, depth + 1)
    ensures Unfolds(steps - 1, lang, p.schema, p.value)
    decreases steps, 0
  {
    ExpansionIsComplete(steps - 1, lang, tidy, p.schema, p.value, hops + p.hops, depth + 1);
  }

  // ---- exactly what is accepted ------------------------------------------------------------

  /** Unfolding on the way down, where whatever lies beyond either cap is accepted. */
  ghost predicate CappedUnfolds(lang: Language, schema: Value, value: Value, hops: nat, depth: nat)
    decreases Left(MAX_DEPTH, depth), Left(MAX_HOPS, hops)
  {
    depth >= MAX_DEPTH ||
    if lang.target(schema).Some? then hops >= MAX_HOPS || CappedUnfolds(lang, lang.target(schema).value, value, hops + 1, depth)
    else
      match lang.read(schema, value)
      case Never => false
      case Any(parts) => exists p :: p in parts && CappedUnfolds(lang, p.schema, p.value, hops + p.hops, depth + 1)
      case Every(parts) => forall p :: p in parts ==> CappedUnfolds(lang, p.schema, p.value, hops + p.hops, depth + 1)
  }

  /** The capped check of an expanded schema is the capped unfolding: both directions, for every schema and value. */
  lemma {:induction false} ExpansionIsCappedUnfolding(
      steps: nat, lang: Language, tidy: Tidiness, schema: Value, value: Value, hops: nat, depth: nat)
    requires Lawful(lang, tidy) && Left(MAX_DEPTH, depth) + Left(MAX_HOPS, hops) <= steps && tidy(steps, schema)
    ensures CheckOk(lang.read, lang.expand(schema, hops), value, depth) <==> CappedUnfolds(lang, schema, value, hops, depth)
    decreases steps, 2
  {
    if depth < MAX_DEPTH {
      if lang.target(schema).None? {
        GoalIsCappedUnfolding(steps, lang, tidy, schema, value, hops, depth);
      } else if hops < MAX_HOPS {
        ExpansionIsCappedUnfolding(steps - 1, lang, tidy, lang.target(schema).value, value, hops + 1, depth);
      }
    }
  }

  lemma GoalIsCappedUnfolding(steps: nat, lang: Language, tidy: Tidiness, schema: Value, value: Value, hops: nat, depth: nat)
    requires Lawful(lang, tidy) && depth < MAX_DEPTH && Left(MAX_DEPTH, depth) + Left(MAX_HOPS, hops) <= steps
    requires tidy(steps, schema) && lang.target(schema).None?
    ensures CheckOk(lang.read, lang.expand(schema, hops), value, depth) <==> CappedUnfolds(lang, schema, value, hops, depth)
    decreases steps, 1
  {
    var goal, after := lang.read(schema, value), lang.read(lang.expand(schema, hops), value);
    assert after == ExpandedGoal(goal, lang, hops);
    if !goal.Never? {
      forall p | p in goal.parts ensures PartAgrees(lang, p, hops, depth + 1) {
        PartIsCappedUnfolding(steps, lang, tidy, schema, value, p, hops, depth);
      }
      PartsAgree(lang, goal.parts, after.parts, hops, depth + 1);
    }
  }

  ghost predicate PartAgrees(lang: Language, p: Part, hops: nat, depth: nat) {
    CheckOk(lang.read, Expanded(p, lang, hops).schema, p.value, depth) <==> CappedUnfolds(lang, p.schema, p.value, hops + p.hops, depth)
  }

  lemma PartsAgree(lang: Language, parts: set<Part>, after: set<Part>, hops: nat, depth: nat)
    requires after == (set p | p in parts :: Expanded(p, lang, hops)) && forall p :: p in parts ==> PartAgrees(lang, p, hops, depth)
    ensures (exists q :: q in after && CheckOk(lang.read, q.schema, q.value, depth))
       <==> exists p :: p in parts && CappedUnfolds(lang, p.schema, p.value, hops + p.hops, depth)
    ensures (forall q :: q in after ==> CheckOk(lang.read, q.schema, q.value, depth))
       <==> forall p :: p in parts ==> CappedUnfolds(lang, p.schema, p.value, hops + p.hops, depth)
  {
    forall p | p in parts
      ensures Expanded(p, lang, hops) in after && PartAgrees(lang, p, hops, depth)
    {
    }
    forall q | q in after ensures exists p :: p in parts && q == Expanded(p, lang, hops) {
    }
  }

  lemma PartIsCappedUnfolding(
      steps: nat, lang: Language, tidy: Tidiness, schema: Value, value: Value, p: Part, hops: nat, depth: nat)
    requires Lawful(lang, tidy) && depth < MAX_DEPTH && Left(MAX_DEPTH, depth) + Left(MAX_HOPS, hops) <= steps
    requires tidy(steps, schema) && lang.target(schema).None?
    requires !lang.read(schema, value).Never? && p in lang.read(schema, value).parts
    ensures PartAgrees(lang, p, hops, depth + 1)
    decreases steps, 0
  {
    ExpansionIsCappedUnfolding(steps - 1, lang, tidy, p.schema, p.value, hops + p.hops, depth + 1);
  }
}
