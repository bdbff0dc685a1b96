/**
 The loops of `validate` in src/codex/params.rs: recursive checks that share one list of problems,
 stop early and cap the list, and still decide exactly what the capped check decides.
 */
module SchemaCheck {
  import opened Wrappers
  import opened Json
  import opened Schema
  import opened Validator

  const MAX_ERRORS: nat := 12

  datatype Step = Key(name: string) | Index(i: nat)

  datatype Complaint =
    | NoBranch | WrongType | NotInEnum | BelowMinimum | TooShort | PatternMissed | PatternInvalid
    | MissingRequired(name: string) | UnknownProperty(name: string)

  /** One line of the report; the path leads from the parameters to the offending value. */
  datatype Problem = Problem(path: seq<Step>, complaint: Complaint)

  /** The `&mut Vec` the checks share. */
  class Report {
    var problems: seq<Problem>

    constructor ()
      ensures problems == []
    {
      problems := [];
    }

    method Push(path: seq<Step>, complaint: Complaint)
      modifies this
      ensures problems == old(problems) + [Problem(path, complaint)]
    {
      problems := problems + [Problem(path, complaint)];
    }
  }

  /** The report only grew; with room in it, it grew exactly when the verdict is no. */
  ghost predicate Reported(before: seq<Problem>, after: seq<Problem>, ok: bool) {
    before <= after && (|before| < MAX_ERRORS ==> (after == before <==> ok))
  }

  // ---- what a problem may say ----------------------------------------------------------------

  /** Whether a complaint about the value at the end of a path is true. */
  type Blame = (seq<Step>, Complaint) -> bool

  /** Every new problem is about a place below the path, and what it says of it is true. */
  ghost predicate Grounded(before: seq<Problem>, after: seq<Problem>, path: seq<Step>, blame: Blame) {
    && before <= after
    && forall i :: |before| <= i < |after| ==> path <= after[i].path && blame(after[i].path[|path|..], after[i].complaint)
  }

  predicate LocallyWrong(rx: Regex, schema: Value, value: Value, complaint: Complaint) {
    match complaint
    case NotInEnum => !EnumOk(schema, value)
    case BelowMinimum => !MinimumOk(schema, value)
    case TooShort => !MinLengthOk(schema, value)
    case PatternMissed => AgainstPattern(rx, schema, value, Misses)
    case PatternInvalid => AgainstPattern(rx, schema, value, Invalid)
    case MissingRequired(name) => value.Obj? && name in Required(schema) && name !in value.fields
    case UnknownProperty(name) => value.Obj? && Closed(schema) && name in value.fields && name !in Properties(schema)
    case _ => false
  }

  predicate AgainstPattern(rx: Regex, schema: Value, value: Value, verdict: PatternVerdict) {
    var pattern := schema.Get("pattern");
    pattern.Some? && pattern.value.Str? && value.Str? && rx(pattern.value.s, value.s) == verdict
  }

  /** The complaint is true of the value that the path leads to, under a schema that speaks of it. */
  ghost predicate Wrong(rx: Regex, schema: Value, value: Value, depth: nat, path: seq<Step>, complaint: Complaint)
    decreases MAX_DEPTH - depth, 1
  {
    depth < MAX_DEPTH &&
    if Union(schema).Some? then
      path == [] && complaint.NoBranch? && forall b :: b in Union(schema).value ==> !CheckOk(CodexDialect(rx), b, value, depth + 1)
    else
      || WrongBelow(rx, schema, value, depth, path, complaint)
      || (path == [] && complaint.WrongType? && !TypeOk(schema, value))
      || (path == [] && LocallyWrong(rx, schema, value, complaint))
  }

  /** Wrong under a branch of `allOf`, in an entry or in an item. */
  ghost predicate WrongBelow(rx: Regex, schema: Value, value: Value, depth: nat, path: seq<Step>, complaint: Complaint)
    requires depth < MAX_DEPTH
    decreases MAX_DEPTH - depth, 0
  {
    || (exists b :: b in AllOf(schema) && Wrong(rx, b, value, depth + 1, path, complaint))
    || (path != [] && path[0].Key? && path[0].name in Fields(value) && path[0].name in Properties(schema)
        && Wrong(rx, Properties(schema)[path[0].name], Fields(value)[path[0].name], depth + 1, path[1..], complaint))
    || (path != [] && path[0].Index? && schema.Get("items").Some? && path[0].i < |Items(value)|
        && Wrong(rx, schema.Get("items").value, Items(value)[path[0].i], depth + 1, path[1..], complaint))
  }

  ghost function WrongAt(rx: Regex, schema: Value, value: Value, depth: nat): Blame {
    (path: seq<Step>, complaint: Complaint) => Wrong(rx, schema, value, depth, path, complaint)
  }

  ghost function WrongHere(rx: Regex, schema: Value, value: Value): Blame {
    (path: seq<Step>, complaint: Complaint) => path == [] && LocallyWrong(rx, schema, value, complaint)
  }

  ghost function WrongInBranch(rx: Regex, branches: seq<Value>, value: Value, depth: nat): Blame {
    (path: seq<Step>, complaint: Complaint) => exists b :: b in branches && Wrong(rx, b, value, depth, path, complaint)
  }

  ghost function WrongInEntries(rx: Regex, schema: Value, value: Value, depth: nat): Blame {
    (path: seq<Step>, complaint: Complaint) =>
      || (path == [] && LocallyWrong(rx, schema, value, complaint))
      || (path != [] && path[0].Key? && path[0].name in Fields(value) && path[0].name in Properties(schema)
          && Wrong(rx, Properties(schema)[path[0].name], Fields(value)[path[0].name], depth, path[1..], complaint))
  }

  ghost function WrongInItems(rx: Regex, items: Value, values: seq<Value>, depth: nat): Blame {
    (path: seq<Step>, complaint: Complaint) =>
      path != [] && path[0].Index? && path[0].i < |values| && Wrong(rx, items, values[path[0].i], depth, path[1..], complaint)
  }

  lemma GroundedThen(a: seq<Problem>, b: seq<Problem>, c: seq<Problem>, path: seq<Step>, blame: Blame)
    requires Grounded(a, b, path, blame) && Grounded(b, c, path, blame)
    ensures Grounded(a, c, path, blame)
  {
  }

  lemma GroundedUnder(a: seq<Problem>, b: seq<Problem>, path: seq<Step>, narrow: Blame, wide: Blame)
    requires Grounded(a, b, path, narrow) && forall p, c :: narrow(p, c) ==> wide(p, c)
    ensures Grounded(a, b, path, wide)
  {
  }

  lemma GroundedBelow(a: seq<Problem>, b: seq<Problem>, path: seq<Step>, step: Step, below: Blame, blame: Blame)
    requires Grounded(a, b, path + [step], below) && forall p, c :: below(p, c) ==> blame([step] + p, c)
    ensures Grounded(a, b, path, blame)
  {
    forall i | |a| <= i < |b| ensures path <= b[i].path && blame(b[i].path[|path|..], b[i].complaint) {
      assert b[i].path[|path|..] == [step] + b[i].path[|path + [step]|..];
    }
  }

  lemma GroundedPush(a: seq<Problem>, path: seq<Step>, complaint: Complaint, blame: Blame)
    requires blame([], complaint)
    ensures Grounded(a, a + [Problem(path, complaint)], path, blame)
  {
    assert path[|path|..] == [];
  }

  // ---- the loops of check --------------------------------------------------------------------

  /** A complaint that is due is one more problem, a true one; otherwise nothing changes. */
  method Complain(due: bool, path: seq<Step>, complaint: Complaint, ghost blame: Blame, report: Report)
    requires due ==> blame([], complaint)
    modifies report
    ensures Reported(old(report.problems), report.problems, !due)
    ensures Grounded(old(report.problems), report.problems, path, blame)
  {
    if due {
      GroundedPush(report.problems, path, complaint, blame);
      report.Push(path, complaint);
    }
  }

  lemma Blamed(rx: Regex, schema: Value, value: Value, complaint: Complaint)
    ensures WrongHere(rx, schema, value)([], complaint) <==> LocallyWrong(rx, schema, value, complaint)
  {
  }

  method LocalChecks(rx: Regex, schema: Value, value: Value, path: seq<Step>, report: Report)
    modifies report
    ensures Reported(old(report.problems), report.problems,
                     EnumOk(schema, value) && MinimumOk(schema, value) && MinLengthOk(schema, value) && PatternOk(rx, schema, value))
    ensures Grounded(old(report.problems), report.problems, path, WrongHere(rx, schema, value))
  {
    ghost var blame := WrongHere(rx, schema, value);
    Blamed(rx, schema, value, NotInEnum);
    assert !EnumOk(schema, value) ==> blame([], NotInEnum);
    Complain(!EnumOk(schema, value), path, NotInEnum, blame, report);
    Blamed(rx, schema, value, BelowMinimum);
    assert !MinimumOk(schema, value) ==> blame([], BelowMinimum);
    Complain(!MinimumOk(schema, value), path, BelowMinimum, blame, report);
    Blamed(rx, schema, value, TooShort);
    assert !MinLengthOk(schema, value) ==> blame([], TooShort);
    Complain(!MinLengthOk(schema, value), path, TooShort, blame, report);
    var pattern := schema.Get("pattern");
    if pattern.Some? && pattern.value.Str? && value.Str? {
      var verdict := rx(pattern.value.s, value.s);
      var complaint := if verdict.Misses? then PatternMissed else PatternInvalid;
      Blamed(rx, schema, value, complaint);
      assert !verdict.Matches? ==> blame([], complaint);
      Complain(!verdict.Matches?, path, complaint, blame, report);
    }
  }

  method CheckRequired(ghost rx: Regex, schema: Value, value: Value, path: seq<Step>, report: Report)
    requires value.Obj?
    modifies report
    ensures Reported(old(report.problems), report.problems, Required(schema) <= value.fields.Keys)
    ensures Grounded(old(report.problems), report.problems, path, WrongHere(rx, schema, value))
  {
    var required := schema.Get("required");
    var names := if required.Some? then Items(required.value) else [];
    assert Required(schema) == Strings(names);
    for i := 0 to |names|
      invariant Reported(old(report.problems), report.problems, Strings(names[..i]) <= value.fields.Keys)
      invariant Grounded(old(report.problems), report.problems, path, WrongHere(rx, schema, value))
    {
      NextRequired(names, i);
      if names[i].Str? {
        assert names[i].s in Required(schema);
        assert LocallyWrong(rx, schema, value, MissingRequired(names[i].s)) <==> names[i].s !in value.fields;
        Complain(names[i].s !in value.fields, path, MissingRequired(names[i].s), WrongHere(rx, schema, value), report);
      }
    }
    assert names[..|names|] == names;
  }

  lemma NextRequired(names: seq<Value>, i: nat)
    requires i < |names|
    ensures Strings(names[..i + 1]) == Strings(names[..i]) + if names[i].Str? then {names[i].s} else {}
    ensures names[i].Str? ==> names[i].s in Strings(names)
  {
    assert names[..i + 1] == names[..i] + [names[i]];
    assert names[i] in names;
  }

  /** Whether one of the branches, each with a report of its own, has nothing to complain about. */
  method AnyBranchAccepts(rx: Regex, branches: seq<Value>, value: Value, depth: nat) returns (matched: bool)
    ensures matched <==> exists b :: b in branches && CheckOk(CodexDialect(rx), b, value, depth)
    decreases MAX_DEPTH - depth, 1
  {
    for i := 0 to |branches|
      invariant forall j :: 0 <= j < i ==> !CheckOk(CodexDialect(rx), branches[j], value, depth)
    {
      var branchReport := new Report();
      Check(rx, branches[i], value, [], depth, branchReport);
      if branchReport.problems == [] {
        assert branches[i] in branches && CheckOk(CodexDialect(rx), branches[i], value, depth);
        return true;
      }
    }
    return false;
  }

  ghost predicate BranchesOk(rx: Regex, branches: seq<Value>, value: Value, depth: nat) {
    forall b :: b in branches ==> CheckOk(CodexDialect(rx), b, value, depth)
  }

  method CheckAllOf(rx: Regex, branches: seq<Value>, value: Value, path: seq<Step>, depth: nat, report: Report)
    modifies report
    ensures Reported(old(report.problems), report.problems, BranchesOk(rx, branches, value, depth))
    ensures Grounded(old(report.problems), report.problems, path, WrongInBranch(rx, branches, value, depth))
    decreases MAX_DEPTH - depth, 1
  {
    for i := 0 to |branches|
      invariant Reported(old(report.problems), report.problems, BranchesOk(rx, branches[..i], value, depth))
      invariant Grounded(old(report.problems), report.problems, path, WrongInBranch(rx, branches, value, depth))
    {
      NextBranch(rx, branches, i, value, depth);
      ghost var before := report.problems;
      Check(rx, branches[i], value, path, depth, report);
      GroundedUnder(before, report.problems, path, WrongAt(rx, branches[i], value, depth), WrongInBranch(rx, branches, value, depth));
      GroundedThen(old(report.problems), before, report.problems, path, WrongInBranch(rx, branches, value, depth));
    }
    assert branches[..|branches|] == branches;
  }

  lemma NextBranch(rx: Regex, branches: seq<Value>, i: nat, value: Value, depth: nat)
    requires i < |branches|
    ensures BranchesOk(rx, branches[..i + 1], value, depth) <==>
              BranchesOk(rx, branches[..i], value, depth) && CheckOk(CodexDialect(rx), branches[i], value, depth)
    ensures branches[i] in branches
  {
    assert branches[..i + 1] == branches[..i] + [branches[i]];
  }

  ghost predicate PropertiesOk(rx: Regex, schema: Value, value: Value, names: set<string>, depth: nat)
    requires names <= Fields(value).Keys
  {
    forall name :: name in names ==> PropertyOk(rx, schema, value, name, depth)
  }

  ghost predicate PropertyOk(rx: Regex, schema: Value, value: Value, name: string, depth: nat)
    requires name in Fields(value)
  {
    var properties := Properties(schema);
    if name in properties then CheckOk(CodexDialect(rx), properties[name], Fields(value)[name], depth) else !Closed(schema)
  }

  method CheckProperty(rx: Regex, schema: Value, value: Value, name: string, path: seq<Step>, depth: nat, report: Report)
    requires value.Obj? && name in value.fields
    modifies report
    ensures Reported(old(report.problems), report.problems, PropertyOk(rx, schema, value, name, depth))
    ensures Grounded(old(report.problems), report.problems, path, WrongInEntries(rx, schema, value, depth))
    decreases MAX_DEPTH - depth, 1
  {
    var properties := Properties(schema);
    ghost var blame := WrongInEntries(rx, schema, value, depth);
    if name in properties {
      Check(rx, properties[name], value.fields[name], path + [Key(name)], depth, report);
      EntryBlame(rx, schema, value, name, depth);
      GroundedBelow(old(report.problems), report.problems, path, Key(name), WrongAt(rx, properties[name], value.fields[name], depth), blame);
    } else {
      assert LocallyWrong(rx, schema, value, UnknownProperty(name)) <==> Closed(schema);
      Complain(Closed(schema), path, UnknownProperty(name), blame, report);
    }
  }

  lemma EntryBlame(rx: Regex, schema: Value, value: Value, name: string, depth: nat)
    requires name in Fields(value) && name in Properties(schema)
    ensures forall p, c :: WrongAt(rx, Properties(schema)[name], Fields(value)[name], depth)(p, c) ==>
              WrongInEntries(rx, schema, value, depth)([Key(name)] + p, c)
  {
    forall p, c | WrongAt(rx, Properties(schema)[name], Fields(value)[name], depth)(p, c)
      ensures WrongInEntries(rx, schema, value, depth)([Key(name)] + p, c)
    {
      assert ([Key(name)] + p)[1..] == p;
    }
  }

  /** The entries of the object, in any order. */
  method CheckProperties(rx: Regex, schema: Value, value: Value, path: seq<Step>, depth: nat, report: Report)
    requires value.Obj?
    modifies report
    ensures Reported(old(report.problems), report.problems, PropertiesOk(rx, schema, value, value.fields.Keys, depth))
    ensures Grounded(old(report.problems), report.problems, path, WrongInEntries(rx, schema, value, depth))
    decreases MAX_DEPTH - depth, 2
  {
    var names := value.fields.Keys;
    while names != {}
      invariant names <= value.fields.Keys
      invariant Reported(old(report.problems), report.problems, PropertiesOk(rx, schema, value, value.fields.Keys - names, depth))
      invariant Grounded(old(report.problems), report.problems, path, WrongInEntries(rx, schema, value, depth))
      decreases |names|
    {
      var name :| name in names;
      NextProperty(rx, schema, value, names, name, depth);
      ghost var before := report.problems;
      CheckProperty(rx, schema, value, name, path, depth, report);
      GroundedThen(old(report.problems), before, report.problems, path, WrongInEntries(rx, schema, value, depth));
      names := names - {name};
    }
    assert value.fields.Keys - names == value.fields.Keys;
  }

  lemma NextProperty(rx: Regex, schema: Value, value: Value, names: set<string>, name: string, depth: nat)
    requires value.Obj? && names <= value.fields.Keys && name in names
    ensures var keys := value.fields.Keys;
            PropertiesOk(rx, schema, value, keys - (names - {name}), depth) <==>
              PropertiesOk(rx, schema, value, keys - names, depth) && PropertyOk(rx, schema, value, name, depth)
  {
    assert value.fields.Keys - (names - {name}) == value.fields.Keys - names + {name};
  }

  ghost predicate ItemsOk(rx: Regex, items: Value, values: seq<Value>, depth: nat) {
    forall v :: v in values ==> CheckOk(CodexDialect(rx), items, v, depth)
  }

  method CheckItems(rx: Regex, items: Value, values: seq<Value>, path: seq<Step>, depth: nat, report: Report)
    modifies report
    ensures Reported(old(report.problems), report.problems, ItemsOk(rx, items, values, depth))
    ensures Grounded(old(report.problems), report.problems, path, WrongInItems(rx, items, values, depth))
    decreases MAX_DEPTH - depth, 1
  {
    for i := 0 to |values|
      invariant Reported(old(report.problems), report.problems, ItemsOk(rx, items, values[..i], depth))
      invariant Grounded(old(report.problems), report.problems, path, WrongInItems(rx, items, values, depth))
    {
      NextItem(rx, items, values, i, depth);
      ghost var before := report.problems;
      Check(rx, items, values[i], path + [Index(i)], depth, report);
      ItemBlame(rx, items, values, i, depth);
      GroundedBelow(before, report.problems, path, Index(i), WrongAt(rx, items, values[i], depth), WrongInItems(rx, items, values, depth));
      GroundedThen(old(report.problems), before, report.problems, path, WrongInItems(rx, items, values, depth));
    }
    assert values[..|values|] == values;
  }

  lemma NextItem(rx: Regex, items: Value, values: seq<Value>, i: nat, depth: nat)
    requires i < |values|
    ensures ItemsOk(rx, items, values[..i + 1], depth) <==>
              ItemsOk(rx, items, values[..i], depth) && CheckOk(CodexDialect(rx), items, values[i], depth)
  {
    assert values[..i + 1] == values[..i] + [values[i]];
  }

  lemma ItemBlame(rx: Regex, items: Value, values: seq<Value>, i: nat, depth: nat)
    requires i < |values|
    ensures forall p, c :: WrongAt(rx, items, values[i], depth)(p, c) ==> WrongInItems(rx, items, values, depth)([Index(i)] + p, c)
  {
    forall p, c | WrongAt(rx, items, values[i], depth)(p, c) ensures WrongInItems(rx, items, values, depth)([Index(i)] + p, c) {
      assert ([Index(i)] + p)[1..] == p;
    }
  }

  method CheckUnion(rx: Regex, branches: seq<Value>, value: Value, path: seq<Step>, depth: nat, ghost blame: Blame, report: Report)
    requires (forall b :: b in branches ==> !CheckOk(CodexDialect(rx), b, value, depth)) ==> blame([], NoBranch)
    modifies report
    ensures Reported(old(report.problems), report.problems, exists b :: b in branches && CheckOk(CodexDialect(rx), b, value, depth))
    ensures Grounded(old(report.problems), report.problems, path, blame)
    decreases MAX_DEPTH - depth, 2
  {
    var matched := AnyBranchAccepts(rx, branches, value, depth);
    Complain(!matched, path, NoBranch, blame, report);
  }

  lemma UnionGoal(rx: Regex, schema: Value, value: Value, depth: nat)
    requires depth < MAX_DEPTH && schema.Obj? && Union(schema).Some?
    ensures CheckOk(CodexDialect(rx), schema, value, depth) <==> exists b :: b in Union(schema).value && CheckOk(CodexDialect(rx), b, value, depth + 1)
  {
    if b :| b in Union(schema).value && CheckOk(CodexDialect(rx), b, value, depth + 1) {
      assert Part(b, value, 2) in Goals(rx, schema, value).parts;
    }
  }

  /** The keywords after `type`, as the code takes them. */
  ghost predicate PartsOk(rx: Regex, schema: Value, value: Value, depth: nat) {
    && EnumOk(schema, value) && MinimumOk(schema, value) && MinLengthOk(schema, value) && PatternOk(rx, schema, value)
    && (value.Obj? ==> Required(schema) <= value.fields.Keys)
    && (value.Obj? ==> PropertiesOk(rx, schema, value, value.fields.Keys, depth))
    && (schema.Get("items").Some? && value.Arr? ==> ItemsOk(rx, schema.Get("items").value, value.items, depth))
  }

  lemma PlainGoal(rx: Regex, schema: Value, value: Value, depth: nat)
    requires depth < MAX_DEPTH && schema.Obj? && Union(schema).None?
    ensures CheckOk(CodexDialect(rx), schema, value, depth) <==>
              BranchesOk(rx, AllOf(schema), value, depth + 1) && TypeOk(schema, value) && PartsOk(rx, schema, value, depth + 1)
  {
    var goal := Goals(rx, schema, value);
    if CheckOk(CodexDialect(rx), schema, value, depth) {
      forall b | b in AllOf(schema) ensures CheckOk(CodexDialect(rx), b, value, depth + 1) {
        assert Part(b, value, 2) in goal.parts;
      }
      if value.Obj? {
        forall name | name in value.fields ensures PropertyOk(rx, schema, value, name, depth + 1) {
          if name in Properties(schema) {
            assert Part(Properties(schema)[name], value.fields[name], 2) in goal.parts;
          }
        }
      }
      if schema.Get("items").Some? && value.Arr? {
        forall v | v in value.items ensures CheckOk(CodexDialect(rx), schema.Get("items").value, v, depth + 1) {
          assert Part(schema.Get("items").value, v, 1) in goal.parts;
        }
      }
    }
  }

  lemma BranchesAreWrong(rx: Regex, schema: Value, value: Value, depth: nat, path: seq<Step>, complaint: Complaint)
    requires depth < MAX_DEPTH && Union(schema).None?
    ensures WrongInBranch(rx, AllOf(schema), value, depth + 1)(path, complaint) ==> Wrong(rx, schema, value, depth, path, complaint)
  {
  }

  lemma EntriesAreWrong(rx: Regex, schema: Value, value: Value, depth: nat, path: seq<Step>, complaint: Complaint)
    requires depth < MAX_DEPTH && Union(schema).None?
    ensures WrongInEntries(rx, schema, value, depth + 1)(path, complaint) ==> Wrong(rx, schema, value, depth, path, complaint)
  {
  }

  lemma ItemsAreWrong(rx: Regex, schema: Value, value: Value, depth: nat, path: seq<Step>, complaint: Complaint)
    requires depth < MAX_DEPTH && Union(schema).None?
    ensures schema.Get("items").Some? && WrongInItems(rx, schema.Get("items").value, Items(value), depth + 1)(path, complaint) ==>
              Wrong(rx, schema, value, depth, path, complaint)
  {
  }

  method CheckParts(rx: Regex, schema: Value, value: Value, path: seq<Step>, depth: nat, report: Report)
    requires depth < MAX_DEPTH && Union(schema).None?
    modifies report
    ensures Reported(old(report.problems), report.problems, PartsOk(rx, schema, value, depth + 1))
    ensures Grounded(old(report.problems), report.problems, path, WrongAt(rx, schema, value, depth))
    decreases MAX_DEPTH - (depth + 1), 3
  {
    ghost var blame := WrongAt(rx, schema, value, depth);
    forall p, c {
      EntriesAreWrong(rx, schema, value, depth, p, c);
    }
    forall p, c {
      ItemsAreWrong(rx, schema, value, depth, p, c);
    }
    ghost var first := report.problems;
    LocalChecks(rx, schema, value, path, report);
    GroundedUnder(first, report.problems, path, WrongHere(rx, schema, value), blame);
    if value.Obj? {
      ghost var second := report.problems;
      CheckRequired(rx, schema, value, path, report);
      GroundedUnder(second, report.problems, path, WrongHere(rx, schema, value), blame);
      GroundedThen(first, second, report.problems, path, blame);
      ghost var third := report.problems;
      CheckProperties(rx, schema, value, path, depth + 1, report);
      GroundedUnder(third, report.problems, path, WrongInEntries(rx, schema, value, depth + 1), blame);
      GroundedThen(first, third, report.problems, path, blame);
    }
    var items := schema.Get("items");
    if items.Some? && value.Arr? {
      ghost var last := report.problems;
      CheckItems(rx, items.value, value.items, path, depth + 1, report);
      GroundedUnder(last, report.problems, path, WrongInItems(rx, items.value, value.items, depth + 1), blame);
      GroundedThen(first, last, report.problems, path, blame);
    }
  }

  method CheckPlain(rx: Regex, schema: Value, value: Value, path: seq<Step>, depth: nat, report: Report)
    requires depth < MAX_DEPTH && Union(schema).None?
    modifies report
    ensures Reported(old(report.problems), report.problems,
                     BranchesOk(rx, AllOf(schema), value, depth + 1) && TypeOk(schema, value) && PartsOk(rx, schema, value, depth + 1))
    ensures Grounded(old(report.problems), report.problems, path, WrongAt(rx, schema, value, depth))
    decreases MAX_DEPTH - (depth + 1), 4
  {
    ghost var blame := WrongAt(rx, schema, value, depth);
    forall p, c {
      BranchesAreWrong(rx, schema, value, depth, p, c);
    }
    ghost var first := report.problems;
    CheckAllOf(rx, AllOf(schema), value, path, depth + 1, report);
    GroundedUnder(first, report.problems, path, WrongInBranch(rx, AllOf(schema), value, depth + 1), blame);
    ghost var second := report.problems;
    if !TypeOk(schema, value) {
      Complain(true, path, WrongType, blame, report);
      GroundedThen(first, second, report.problems, path, blame);
      return;
    }
    CheckParts(rx, schema, value, path, depth, report);
    GroundedThen(first, second, report.problems, path, blame);
  }

  method CheckObject(rx: Regex, schema: Value, value: Value, path: seq<Step>, depth: nat, report: Report)
    requires schema.Obj? && depth < MAX_DEPTH
    modifies report
    ensures Reported(old(report.problems), report.problems, CheckOk(CodexDialect(rx), schema, value, depth))
    ensures Grounded(old(report.problems), report.problems, path, WrongAt(rx, schema, value, depth))
    decreases MAX_DEPTH - (depth + 1), 5
  {
    var union := Union(schema);
    if union.Some? {
      CheckUnion(rx, union.value, value, path, depth + 1, WrongAt(rx, schema, value, depth), report);
      UnionGoal(rx, schema, value, depth);
    } else {
      CheckPlain(rx, schema, value, path, depth, report);
      PlainGoal(rx, schema, value, depth);
    }
  }

  method Check(rx: Regex, schema: Value, value: Value, path: seq<Step>, depth: nat, report: Report)
    modifies report
    ensures Reported(old(report.problems), report.problems, CheckOk(CodexDialect(rx), schema, value, depth))
    ensures Grounded(old(report.problems), report.problems, path, WrongAt(rx, schema, value, depth))
    decreases MAX_DEPTH - depth, 0
  {
    if depth < MAX_DEPTH && |report.problems| < MAX_ERRORS && schema.Obj? {
      CheckObject(rx, schema, value, path, depth, report);
    }
  }

  /** No problems exactly if the value passes, at most twelve, and each of them true of the place it names. */
  method Validate(rx: Regex, schema: Value, params: Value) returns (problems: seq<Problem>)
    ensures |problems| <= 12
    ensures problems == [] <==> CheckOk(CodexDialect(rx), schema, params, 0)
    ensures forall i :: 0 <= i < |problems| ==> Wrong(rx, schema, params, 0, problems[i].path, problems[i].complaint)
  {
    var report := new Report();
    Check(rx, schema, params, [], 0, report);
    problems := if |report.problems| > MAX_ERRORS then report.problems[..MAX_ERRORS] else report.problems;
    forall i | 0 <= i < |problems| ensures Wrong(rx, schema, params, 0, problems[i].path, problems[i].complaint) {
      assert report.problems[i].path[0..] == report.problems[i].path;
    }
  }
}
