/**
 `ActionDraft` of src/discord/actions.rs: the form of a method, filled page by page.
 */
module ActionForm {
  import opened Wrappers
  import opened Json
  import opened PathAlgebra
  import opened FormFields
  import Text

  const FIELDS_PER_PAGE: nat := 5
  const THREAD_ID := "threadId"
  const CONVERSATION_ID := "conversationId"

  // ---- the draft of a capability ----------------------------------------------------------

  function StartParams(schema: Option<Value>): Value {
    if schema.Some? && schema.value.Get("type") == Some(Str("null")) then Null else Obj(map[])
  }

  function SchemaField(schema: Option<Value>, noInput: bool, path: Path): Option<Field> {
    if noInput || schema.None? then None else FieldAt(schema.value, [], path, false, 0)
  }

  function InjectedWrite(schema: Option<Value>, noInput: bool, taskId: Option<string>, key: string): seq<Write> {
    if taskId.Some? && SchemaField(schema, noInput, [key]).Some? then [Write([key], Str(taskId.value))] else []
  }

  /** The task's id, written where the method has a field for it. */
  function InjectedWrites(schema: Option<Value>, noInput: bool, taskId: Option<string>): seq<Write> {
    InjectedWrite(schema, noInput, taskId, THREAD_ID) + InjectedWrite(schema, noInput, taskId, CONVERSATION_ID)
  }

  function WithCwd(field: Field, cwd: Option<string>): Field {
    if cwd.Some? && field.path == ["cwd"] && field.default.None? then field.(default := Some(Str(cwd.value))) else field
  }

  /** The field the draft offers for a path. */
  function Offered(schema: Option<Value>, noInput: bool, taskId: Option<string>, cwd: Option<string>, path: Path): Option<Field> {
    var field := SchemaField(schema, noInput, path);
    if field.None? || (taskId.Some? && path in {[THREAD_ID], [CONVERSATION_ID]}) then None
    else Some(WithCwd(field.value, cwd))
  }

  /** `Vec::retain` with the key as the only one to go. */
  function Retained(fields: seq<Field>, key: string): seq<Field> {
    if fields == [] then []
    else Retained(fields[..|fields| - 1], key) + if fields[|fields| - 1].path == [key] then [] else [fields[|fields| - 1]]
  }

  lemma {:induction false} RetainedFields(fields: seq<Field>, key: string)
    ensures forall f :: f in Retained(fields, key) <==> f in fields && f.path != [key]
    ensures (forall i, j :: 0 <= i < j < |fields| ==> fields[i].path != fields[j].path) ==>
              forall i, j :: 0 <= i < j < |Retained(fields, key)| ==> Retained(fields, key)[i].path != Retained(fields, key)[j].path
  {
    if fields != [] {
      RetainedFields(fields[..|fields| - 1], key);
      var kept := Retained(fields[..|fields| - 1], key);
      assert forall f :: f in fields <==> f in fields[..|fields| - 1] || f == fields[|fields| - 1];
      forall i | 0 <= i < |kept| ensures exists k :: 0 <= k < |fields| - 1 && kept[i] == fields[k] {
        assert kept[i] in fields[..|fields| - 1];
      }
    }
  }

  ghost function Except(shown: Path -> Option<Field>, key: string): Path -> Option<Field> {
    (path: Path) => if path == [key] then None else shown(path)
  }

  lemma RetainedForm(fields: seq<Field>, shown: Path -> Option<Field>, key: string)
    requires IsForm(fields, shown)
    ensures IsForm(Retained(fields, key), Except(shown, key))
  {
    RetainedFields(fields, key);
    var kept := Retained(fields, key);
    forall i | 0 <= i < |kept| ensures Except(shown, key)(kept[i].path) == Some(kept[i]) {
      assert kept[i] in kept;
    }
    forall p: Path | Except(shown, key)(p).Some? ensures HasPath(kept, p) {
      var i :| 0 <= i < |fields| && fields[i].path == p;
      assert fields[i] in kept;
    }
  }

  lemma FormPaths(fields: seq<Field>, shown: Path -> Option<Field>, path: Path)
    requires IsForm(fields, shown)
    ensures HasPath(fields, path) <==> shown(path).Some?
  {
    if i :| 0 <= i < |fields| && fields[i].path == path {
      assert shown(fields[i].path) == Some(fields[i]);
    }
  }

  ghost function Offers(schema: Option<Value>, noInput: bool, taskId: Option<string>, cwd: Option<string>): Path -> Option<Field> {
    (path: Path) => Offered(schema, noInput, taskId, cwd, path)
  }

  ghost function FromSchema(schema: Option<Value>, noInput: bool): Path -> Option<Field> {
    (path: Path) => SchemaField(schema, noInput, path)
  }

  /** What is offered before defaults: the schema's fields, less those the task's id has filled. */
  ghost function Uninjected(schema: Option<Value>, noInput: bool, taskId: Option<string>): Path -> Option<Field> {
    if taskId.None? then FromSchema(schema, noInput)
    else Except(Except(FromSchema(schema, noInput), THREAD_ID), CONVERSATION_ID)
  }

  lemma SameForm(fields: seq<Field>, f: Path -> Option<Field>, g: Path -> Option<Field>)
    requires IsForm(fields, f) && forall p: Path :: f(p) == g(p)
    ensures IsForm(fields, g)
  {
  }

  method InjectId(fields: seq<Field>, params: Value, key: string, id: string) returns (left: seq<Field>, filled: Value)
    ensures left == if HasPath(fields, [key]) then Retained(fields, key) else fields
    ensures filled == if HasPath(fields, [key]) then Set(params, [key], Str(id)) else params
  {
    left, filled := fields, params;
    if HasPath(fields, [key]) {
      filled := SetPath(params, [key], Str(id));
      left := Retained(fields, key);
    }
  }

  lemma InjectedForm(fields: seq<Field>, shown: Path -> Option<Field>, key: string)
    requires IsForm(fields, shown)
    ensures IsForm(if HasPath(fields, [key]) then Retained(fields, key) else fields, Except(shown, key))
  {
    FormPaths(fields, shown, [key]);
    if HasPath(fields, [key]) {
      RetainedForm(fields, shown, key);
    } else {
      SameForm(fields, shown, Except(shown, key));
    }
  }

  method FillCwd(fields: seq<Field>, cwd: string) returns (filled: seq<Field>)
    ensures |filled| == |fields| && forall i :: 0 <= i < |fields| ==> filled[i] == WithCwd(fields[i], Some(cwd))
  {
    filled := fields;
    for i := 0 to |fields|
      invariant |filled| == |fields|
      invariant forall k :: 0 <= k < |fields| ==> filled[k] == if k < i then WithCwd(fields[k], Some(cwd)) else fields[k]
    {
      if filled[i].path == ["cwd"] && filled[i].default.None? {
        filled := filled[i := filled[i].(default := Some(Str(cwd)))];
      }
    }
  }

  lemma FilledForm(fields: seq<Field>, filled: seq<Field>, shown: Path -> Option<Field>, offered: Path -> Option<Field>, cwd: Option<string>)
    requires IsForm(fields, shown) && |filled| == |fields| && forall i :: 0 <= i < |fields| ==> filled[i] == WithCwd(fields[i], cwd)
    requires forall p: Path :: offered(p) == if shown(p).None? then None else Some(WithCwd(shown(p).value, cwd))
    ensures IsForm(filled, offered)
  {
    forall p: Path | offered(p).Some? ensures HasPath(filled, p) {
      var i :| 0 <= i < |fields| && fields[i].path == p;
      assert filled[i].path == p;
    }
    forall i | 0 <= i < |filled| ensures offered(filled[i].path) == Some(filled[i]) {
      assert shown(fields[i].path) == Some(fields[i]);
    }
  }

  // ---- submitting pages ----------------------------------------------------------------

  /** `parse_field_value`: what a field makes of trimmed, non-empty text. */
  type Parser = (Field, string) -> Option<Value>

  /** One entry of a submitted page: the field's place on the page and the text entered. */
  datatype Entry = Entry(index: nat, raw: string)

  datatype Outcome = Refused | Kept | Wrote(write: Write)

  function EntryOutcome(parse: Parser, fields: seq<Field>, page: nat, entry: Entry): Outcome {
    var k := page * FIELDS_PER_PAGE + entry.index;
    if k >= |fields| then Refused
    else
      var field, raw := fields[k], Text.Trim(entry.raw);
      if raw == "" then
        if field.default.Some? then Wrote(Write(field.path, field.default.value)) else if field.required then Refused else Kept
      else
        var value := parse(field, raw);
        if value.None? then Refused else Wrote(Write(field.path, value.value))
  }

  predicate Accepted(parse: Parser, fields: seq<Field>, page: nat, entries: seq<Entry>) {
    forall i :: 0 <= i < |entries| ==> !EntryOutcome(parse, fields, page, entries[i]).Refused?
  }

  /** What a page writes; an entry that is refused ends the page, and what was written stays. */
  function PageWrites(parse: Parser, fields: seq<Field>, page: nat, entries: seq<Entry>): seq<Write> {
    if entries == [] then []
    else
      match EntryOutcome(parse, fields, page, entries[0])
      case Refused => []
      case Kept => PageWrites(parse, fields, page, entries[1..])
      case Wrote(write) => [write] + PageWrites(parse, fields, page, entries[1..])
  }

  lemma ApplyFirst(v: Value, write: Write, rest: seq<Write>)
    ensures Apply(v, [write] + rest) == Apply(Set(v, write.path, write.value), rest)
  {
    ApplyAppend(v, [write], rest);
    assert Apply(v, []) == v && [write][..0] == [];
  }

  lemma Injecting(schema: Option<Value>, noInput: bool, taskId: Option<string>, filled: Value)
    requires filled == (
      var start := StartParams(schema);
      if taskId.None? then start
      else
        var once := if SchemaField(schema, noInput, [THREAD_ID]).Some? then Set(start, [THREAD_ID], Str(taskId.value)) else start;
        if SchemaField(schema, noInput, [CONVERSATION_ID]).Some? then Set(once, [CONVERSATION_ID], Str(taskId.value)) else once)
    ensures filled == Apply(StartParams(schema), InjectedWrites(schema, noInput, taskId))
  {
    var start := StartParams(schema);
    var first, second := InjectedWrite(schema, noInput, taskId, THREAD_ID), InjectedWrite(schema, noInput, taskId, CONVERSATION_ID);
    ApplyAppend(start, first, second);
    if first != [] {
      ApplyFirst(start, first[0], []);
      assert first == [first[0]] + [];
    }
    var once := Apply(start, first);
    if second != [] {
      ApplyFirst(once, second[0], []);
      assert second == [second[0]] + [];
    }
  }

  /** The loop over the two names of the task's id. */
  method InjectIds(schema: Option<Value>, noInput: bool, taskId: Option<string>, fields: seq<Field>, params: Value)
    returns (left: seq<Field>, filled: Value)
    requires IsForm(fields, FromSchema(schema, noInput)) && params == StartParams(schema)
    ensures IsForm(left, Uninjected(schema, noInput, taskId))
    ensures filled == Apply(StartParams(schema), InjectedWrites(schema, noInput, taskId))
  {
    left, filled := fields, params;
    if taskId.Some? {
      ghost var shown := FromSchema(schema, noInput);
      left, filled := InjectId(left, filled, THREAD_ID, taskId.value);
      FormPaths(fields, shown, [THREAD_ID]);
      InjectedForm(fields, shown, THREAD_ID);
      ghost var once := left;
      left, filled := InjectId(left, filled, CONVERSATION_ID, taskId.value);
      FormPaths(once, Except(shown, THREAD_ID), [CONVERSATION_ID]);
      InjectedForm(once, Except(shown, THREAD_ID), CONVERSATION_ID);
    }
    Injecting(schema, noInput, taskId, filled);
  }

  class ActionDraft {
    var fields: seq<Field>
    var params: Value
    var page: nat

    constructor FromCapability(schema: Option<Value>, noInput: bool, taskId: Option<string>, cwd: Option<string>)
      ensures IsForm(fields, Offers(schema, noInput, taskId, cwd))
      ensures params == Apply(StartParams(schema), InjectedWrites(schema, noInput, taskId))
      ensures page == 0
    {
      var left := [];
      if schema.Some? && !noInput {
        left := FieldsFromSchema(schema.value);
        SameForm(left, Shown(schema.value, [], false, 0), FromSchema(schema, noInput));
      }
      var filled := StartParams(schema);
      left, filled := InjectIds(schema, noInput, taskId, left, filled);
      var offered := left;
      if cwd.Some? {
        offered := FillCwd(left, cwd.value);
      }
      FilledForm(left, offered, Uninjected(schema, noInput, taskId), Offers(schema, noInput, taskId, cwd), cwd);
      fields, params, page := offered, filled, 0;
    }

    /** One round of the loop: refused entries write nothing. */
    method ApplyEntry(parse: Parser, number: nat, entry: Entry) returns (ok: bool)
      modifies this`params
      ensures ok <==> !EntryOutcome(parse, fields, number, entry).Refused?
      ensures params == AfterEntry(old(params), EntryOutcome(parse, fields, number, entry))
    {
      var k := number * FIELDS_PER_PAGE + entry.index;
      if k >= |fields| {
        return false;
      }
      var field, raw := fields[k], Text.Trim(entry.raw);
      if raw == "" {
        if field.required && field.default.None? {
          return false;
        }
        if field.default.Some? {
          params := SetPath(params, field.path, field.default.value);
        }
        return true;
      }
      var value := parse(field, raw);
      if value.None? {
        return false;
      }
      params := SetPath(params, field.path, value.value);
      return true;
    }

    /** `apply_page_values`, the entries in the order of the map that holds them. */
    method ApplyPageValues(parse: Parser, number: nat, entries: seq<Entry>) returns (ok: bool)
      modifies this`params, this`page
      ensures ok <==> Accepted(parse, fields, number, entries)
      ensures ok <==> forall i :: 0 <= i < |entries| ==>
                var k, text := number * FIELDS_PER_PAGE + entries[i].index, Text.Trim(entries[i].raw);
                k < |fields| && if text == "" then fields[k].default.Some? || !fields[k].required else parse(fields[k], text).Some?
      ensures params == Apply(old(params), PageWrites(parse, fields, number, entries))
      ensures page == if ok then number else old(page)
      ensures ok && ApartFields(fields) ==>
                forall i :: 0 <= i < |entries| && (forall j :: i < j < |entries| ==> entries[j].index != entries[i].index) ==>
                  var k, text := number * FIELDS_PER_PAGE + entries[i].index, Text.Trim(entries[i].raw);
                  && k < |fields|
                  && (text != "" ==> Lookup(params, fields[k].path) == parse(fields[k], text))
                  && (text == "" && fields[k].default.Some? ==> Lookup(params, fields[k].path) == fields[k].default)
      ensures ApartFields(fields) ==>
                forall k :: 0 <= k < |fields| && (forall i :: 0 <= i < |entries| && number * FIELDS_PER_PAGE + entries[i].index == k ==>
                                                    Text.Trim(entries[i].raw) == "" && fields[k].default.None?) ==>
                  Lookup(params, fields[k].path) == Lookup(old(params), fields[k].path)
    {
      if ApartFields(fields) { PageLeaves(parse, fields, number, entries, params); }
      AcceptedMeans(parse, fields, number, entries);
      for i := 0 to |entries|
        invariant Accepted(parse, fields, number, entries[..i]) && page == old(page)
        invariant Apply(params, PageWrites(parse, fields, number, entries[i..])) == Apply(old(params), PageWrites(parse, fields, number, entries))
      {
        EntryFirst(params, parse, fields, number, entries, i);
        ok := ApplyEntry(parse, number, entries[i]);
        AcceptedNext(parse, fields, number, entries, i);
        if !ok {
          return false;
        }
      }
      assert entries[..|entries|] == entries;
      page := number;
      return true;
    }
  }

  // ---- what a page leaves ---------------------------------------------------------------------

  /** No entry can be refused: its field exists, blank text has a default or may stay blank, and other text parses. */
  lemma AcceptedMeans(parse: Parser, fields: seq<Field>, page: nat, entries: seq<Entry>)
    ensures Accepted(parse, fields, page, entries) <==> forall i :: 0 <= i < |entries| ==>
              var k, text := page * FIELDS_PER_PAGE + entries[i].index, Text.Trim(entries[i].raw);
              k < |fields| && if text == "" then fields[k].default.Some? || !fields[k].required else parse(fields[k], text).Some?
  {
    if Accepted(parse, fields, page, entries) {
      forall i | 0 <= i < |entries|
        ensures var k, text := page * FIELDS_PER_PAGE + entries[i].index, Text.Trim(entries[i].raw);
                k < |fields| && if text == "" then fields[k].default.Some? || !fields[k].required else parse(fields[k], text).Some?
      {
        assert !EntryOutcome(parse, fields, page, entries[i]).Refused?;
      }
    }
  }

  /** The entry says nothing of the field: it is for another one, or is blank where there is no default. */
  predicate Silent(fields: seq<Field>, page: nat, entry: Entry, k: nat)
    requires k < |fields|
  {
    page * FIELDS_PER_PAGE + entry.index == k ==> Text.Trim(entry.raw) == "" && fields[k].default.None?
  }

  /** The entry is reached: no entry up to it is refused. */
  predicate Taken(parse: Parser, fields: seq<Field>, page: nat, entries: seq<Entry>, i: nat) {
    i < |entries| && forall j :: 0 <= j <= i ==>
      var k, text := page * FIELDS_PER_PAGE + entries[j].index, Text.Trim(entries[j].raw);
      k < |fields| && if text == "" then fields[k].default.Some? || !fields[k].required else parse(fields[k], text).Some?
  }

  lemma TakenTail(parse: Parser, fields: seq<Field>, page: nat, entries: seq<Entry>)
    requires entries != []
    ensures EntryOutcome(parse, fields, page, entries[0]).Refused? <==> !Taken(parse, fields, page, entries, 0)
    ensures forall i: nat :: Taken(parse, fields, page, entries, i + 1) <==>
              Taken(parse, fields, page, entries, 0) && Taken(parse, fields, page, entries[1..], i)
  {
    forall i: nat
      ensures Taken(parse, fields, page, entries, i + 1) <==>
                Taken(parse, fields, page, entries, 0) && Taken(parse, fields, page, entries[1..], i)
    {
      TakenNext(parse, fields, page, entries, i);
    }
  }

  lemma TakenNext(parse: Parser, fields: seq<Field>, page: nat, entries: seq<Entry>, i: nat)
    requires entries != []
    ensures Taken(parse, fields, page, entries, i + 1) <==>
              Taken(parse, fields, page, entries, 0) && Taken(parse, fields, page, entries[1..], i)
  {
    var rest := entries[1..];
    if i + 1 < |entries| {
      assert forall j :: 0 <= j <= i ==> rest[j] == entries[j + 1];
      assert forall j :: 0 < j <= i + 1 ==> entries[j] == rest[j - 1];
    }
  }

  /** Every entry that is reached is silent about the field, from the `from`-th on. */
  ghost predicate SilentFrom(parse: Parser, fields: seq<Field>, page: nat, entries: seq<Entry>, from: nat, k: nat)
    requires k < |fields|
  {
    forall i: nat :: from <= i && Taken(parse, fields, page, entries, i) ==> Silent(fields, page, entries[i], k)
  }

  lemma SilentTail(parse: Parser, fields: seq<Field>, page: nat, entries: seq<Entry>, from: nat, k: nat)
    requires k < |fields| && entries != [] && 0 < from && SilentFrom(parse, fields, page, entries, from, k)
    requires Taken(parse, fields, page, entries, 0)
    ensures SilentFrom(parse, fields, page, entries[1..], from - 1, k)
  {
    TakenTail(parse, fields, page, entries);
    forall i: nat | from - 1 <= i && Taken(parse, fields, page, entries[1..], i) ensures Silent(fields, page, entries[1..][i], k) {
      assert Taken(parse, fields, page, entries, i + 1);
    }
  }

  /** A write for another field leaves this one alone. */
  lemma OtherField(parse: Parser, fields: seq<Field>, page: nat, entry: Entry, start: Value, k: nat)
    requires ApartFields(fields) && k < |fields| && Silent(fields, page, entry, k)
    ensures Lookup(AfterEntry(start, EntryOutcome(parse, fields, page, entry)), fields[k].path) == Lookup(start, fields[k].path)
  {
    var outcome, other := EntryOutcome(parse, fields, page, entry), page * FIELDS_PER_PAGE + entry.index;
    if outcome.Wrote? {
      assert Apart(fields[other].path, fields[k].path);
      LookupApart(start, outcome.write.path, outcome.write.value, fields[k].path);
    }
  }

  lemma {:induction false} SilentPage(parse: Parser, fields: seq<Field>, page: nat, entries: seq<Entry>, start: Value, k: nat)
    requires ApartFields(fields) && k < |fields| && SilentFrom(parse, fields, page, entries, 0, k)
    ensures Lookup(Apply(start, PageWrites(parse, fields, page, entries)), fields[k].path) == Lookup(start, fields[k].path)
  {
    if entries != [] {
      var outcome := EntryOutcome(parse, fields, page, entries[0]);
      EntryFirst(start, parse, fields, page, entries, 0);
      assert entries[0..] == entries;
      if !outcome.Refused? {
        TakenTail(parse, fields, page, entries);
        SilentTail(parse, fields, page, entries, 1, k);
        SilentPage(parse, fields, page, entries[1..], AfterEntry(start, outcome), k);
        OtherField(parse, fields, page, entries[0], start, k);
      }
    }
  }

  /** What text says of a field: its default if the text is blank, and else what the text parses to. */
  function Said(parse: Parser, field: Field, raw: string): Option<Value> {
    if Text.Trim(raw) == "" then field.default else parse(field, Text.Trim(raw))
  }

  /** An entry that says something leaves it with its field. */
  lemma ThisField(parse: Parser, fields: seq<Field>, page: nat, entry: Entry, start: Value)
    requires !EntryOutcome(parse, fields, page, entry).Refused?
    ensures var k := page * FIELDS_PER_PAGE + entry.index;
            && k < |fields|
            && (Said(parse, fields[k], entry.raw).Some? ==>
                  Lookup(AfterEntry(start, EntryOutcome(parse, fields, page, entry)), fields[k].path) == Said(parse, fields[k], entry.raw))
  {
    var outcome := EntryOutcome(parse, fields, page, entry);
    if outcome.Wrote? {
      LookupSet(start, outcome.write.path, outcome.write.value);
    }
  }

  lemma FirstEntryCounts(parse: Parser, fields: seq<Field>, page: nat, entries: seq<Entry>, start: Value, k: nat)
    requires ApartFields(fields) && Taken(parse, fields, page, entries, 0) && k == page * FIELDS_PER_PAGE + entries[0].index < |fields|
    requires SilentFrom(parse, fields, page, entries, 1, k) && Said(parse, fields[k], entries[0].raw).Some?
    ensures Lookup(Apply(start, PageWrites(parse, fields, page, entries)), fields[k].path) == Said(parse, fields[k], entries[0].raw)
  {
    var next := AfterEntry(start, EntryOutcome(parse, fields, page, entries[0]));
    assert Lookup(next, fields[k].path) == Said(parse, fields[k], entries[0].raw) by {
      FirstIsTaken(parse, fields, page, entries);
      ThisField(parse, fields, page, entries[0], start);
    }
    SilentTail(parse, fields, page, entries, 1, k);
    SilentPage(parse, fields, page, entries[1..], next, k);
    ReachedThrough(parse, fields, page, entries, start);
  }

  lemma FirstIsTaken(parse: Parser, fields: seq<Field>, page: nat, entries: seq<Entry>)
    requires Taken(parse, fields, page, entries, 0)
    ensures !EntryOutcome(parse, fields, page, entries[0]).Refused?
  {
  }

  lemma ReachedThrough(parse: Parser, fields: seq<Field>, page: nat, entries: seq<Entry>, start: Value)
    requires Taken(parse, fields, page, entries, 0)
    ensures Apply(start, PageWrites(parse, fields, page, entries))
         == Apply(AfterEntry(start, EntryOutcome(parse, fields, page, entries[0])), PageWrites(parse, fields, page, entries[1..]))
  {
    FirstIsTaken(parse, fields, page, entries);
    EntryFirst(start, parse, fields, page, entries, 0);
    assert entries[0..] == entries;
  }

  /** The last entry that is reached and says something of the field leaves it with what it says. */
  lemma {:induction false} LastEntryCounts(parse: Parser, fields: seq<Field>, page: nat, entries: seq<Entry>, start: Value, i: nat, k: nat)
    requires ApartFields(fields) && Taken(parse, fields, page, entries, i) && k == page * FIELDS_PER_PAGE + entries[i].index < |fields|
    requires SilentFrom(parse, fields, page, entries, i + 1, k) && Said(parse, fields[k], entries[i].raw).Some?
    ensures Lookup(Apply(start, PageWrites(parse, fields, page, entries)), fields[k].path) == Said(parse, fields[k], entries[i].raw)
  {
    if i == 0 {
      FirstEntryCounts(parse, fields, page, entries, start, k);
    } else {
      assert Taken(parse, fields, page, entries, 0);
      TakenNext(parse, fields, page, entries, i - 1);
      SilentTail(parse, fields, page, entries, i + 1, k);
      ReachedThrough(parse, fields, page, entries, start);
      LastEntryCounts(parse, fields, page, entries[1..], AfterEntry(start, EntryOutcome(parse, fields, page, entries[0])), i - 1, k);
    }
  }

  lemma PageLeaves(parse: Parser, fields: seq<Field>, page: nat, entries: seq<Entry>, start: Value)
    requires ApartFields(fields)
    ensures var params := Apply(start, PageWrites(parse, fields, page, entries));
            && (Accepted(parse, fields, page, entries) ==>
                  forall i :: 0 <= i < |entries| && (forall j :: i < j < |entries| ==> entries[j].index != entries[i].index) ==>
                    var k := page * FIELDS_PER_PAGE + entries[i].index;
                    k < |fields| && (Said(parse, fields[k], entries[i].raw).Some? ==>
                                       Lookup(params, fields[k].path) == Said(parse, fields[k], entries[i].raw)))
            && (forall k :: 0 <= k < |fields| && (forall i :: 0 <= i < |entries| ==> Silent(fields, page, entries[i], k)) ==>
                  Lookup(params, fields[k].path) == Lookup(start, fields[k].path))
  {
    forall k | 0 <= k < |fields| && (forall i :: 0 <= i < |entries| ==> Silent(fields, page, entries[i], k))
      ensures Lookup(Apply(start, PageWrites(parse, fields, page, entries)), fields[k].path) == Lookup(start, fields[k].path)
    {
      SilentPage(parse, fields, page, entries, start, k);
    }
    if Accepted(parse, fields, page, entries) {
      AcceptedMeans(parse, fields, page, entries);
      forall i | 0 <= i < |entries| && (forall j :: i < j < |entries| ==> entries[j].index != entries[i].index)
        ensures var k := page * FIELDS_PER_PAGE + entries[i].index;
                k < |fields| && (Said(parse, fields[k], entries[i].raw).Some? ==>
                                   Lookup(Apply(start, PageWrites(parse, fields, page, entries)), fields[k].path) == Said(parse, fields[k], entries[i].raw))
      {
        LastOfItsIndex(parse, fields, page, entries, start, i);
      }
    }
  }

  lemma LastOfItsIndex(parse: Parser, fields: seq<Field>, page: nat, entries: seq<Entry>, start: Value, i: nat)
    requires ApartFields(fields) && Accepted(parse, fields, page, entries) && i < |entries|
    requires forall j :: i < j < |entries| ==> entries[j].index != entries[i].index
    ensures var k := page * FIELDS_PER_PAGE + entries[i].index;
            k < |fields| && (Said(parse, fields[k], entries[i].raw).Some? ==>
                               Lookup(Apply(start, PageWrites(parse, fields, page, entries)), fields[k].path) == Said(parse, fields[k], entries[i].raw))
  {
    AcceptedMeans(parse, fields, page, entries);
    var k := page * FIELDS_PER_PAGE + entries[i].index;
    assert Taken(parse, fields, page, entries, i);
    assert SilentFrom(parse, fields, page, entries, i + 1, k);
    if Said(parse, fields[k], entries[i].raw).Some? {
      LastEntryCounts(parse, fields, page, entries, start, i, k);
    }
  }

  lemma AcceptedNext(parse: Parser, fields: seq<Field>, page: nat, entries: seq<Entry>, i: nat)
    requires i < |entries|
    ensures Accepted(parse, fields, page, entries[..i + 1]) <==>
              Accepted(parse, fields, page, entries[..i]) && !EntryOutcome(parse, fields, page, entries[i]).Refused?
    ensures EntryOutcome(parse, fields, page, entries[i]).Refused? ==> !Accepted(parse, fields, page, entries)
  {
    assert entries[..i + 1][i] == entries[i];
    assert forall j :: 0 <= j < i ==> entries[..i + 1][j] == entries[..i][j];
  }

  function AfterEntry(params: Value, outcome: Outcome): Value {
    if outcome.Wrote? then Set(params, outcome.write.path, outcome.write.value) else params
  }

  lemma EntryFirst(params: Value, parse: Parser, fields: seq<Field>, page: nat, entries: seq<Entry>, i: nat)
    requires i < |entries|
    ensures var outcome := EntryOutcome(parse, fields, page, entries[i]);
            Apply(params, PageWrites(parse, fields, page, entries[i..])) ==
              if outcome.Refused? then params
              else Apply(AfterEntry(params, outcome), PageWrites(parse, fields, page, entries[i + 1..]))
  {
    assert entries[i..][0] == entries[i] && entries[i..][1..] == entries[i + 1..];
    var outcome := EntryOutcome(parse, fields, page, entries[i]);
    if outcome.Wrote? {
      ApplyFirst(params, outcome.write, PageWrites(parse, fields, page, entries[i + 1..]));
    }
  }

  // ---- form filling is faithful -------------------------------------------------------------

  /** The fields of a draft are apart from each other and from the ids that were filled in. */
  lemma DraftIsApart(schema: Option<Value>, noInput: bool, taskId: Option<string>, cwd: Option<string>, fields: seq<Field>)
    requires IsForm(fields, Offers(schema, noInput, taskId, cwd))
    ensures ApartFields(fields)
    ensures forall w, f :: w in InjectedWrites(schema, noInput, taskId) && f in fields ==> Apart(w.path, f.path)
  {
    var offers := Offers(schema, noInput, taskId, cwd);
    forall i | 0 <= i < |fields| ensures fields[i].path != [] && SchemaField(schema, noInput, fields[i].path).Some? {
      assert offers(fields[i].path) == Some(fields[i]);
      FieldsLieBelow(schema.value, [], fields[i].path, false, 0);
    }
    forall i, j | 0 <= i < |fields| && 0 <= j < |fields| && i != j ensures !(fields[i].path <= fields[j].path) {
      SchemaFieldsAreApart(schema, noInput, fields[i].path, fields[j].path);
    }
    forall w, f | w in InjectedWrites(schema, noInput, taskId) && f in fields ensures Apart(w.path, f.path) {
      assert SchemaField(schema, noInput, w.path).Some? && w.path in {[THREAD_ID], [CONVERSATION_ID]};
      var i :| 0 <= i < |fields| && fields[i] == f;
      assert offers(fields[i].path) == Some(fields[i]);
      SchemaFieldsAreApart(schema, noInput, w.path, f.path);
      SchemaFieldsAreApart(schema, noInput, f.path, w.path);
    }
  }

  lemma SchemaFieldsAreApart(schema: Option<Value>, noInput: bool, p: Path, q: Path)
    requires SchemaField(schema, noInput, p).Some? && SchemaField(schema, noInput, q).Some? && p != q
    ensures !(p <= q)
  {
    if p <= q {
      FieldsAreApart(schema.value, [], p, q, false, 0);
    }
  }

  /** A submitted page; submissions may repeat pages, come in any order and be refused half-way. */
  datatype Submission = Submission(page: nat, entries: seq<Entry>)

  /** What submissions write. */
  type Pages = Submission -> seq<Write>

  function Writes(parse: Parser, fields: seq<Field>): Pages {
    (submission: Submission) => PageWrites(parse, fields, submission.page, submission.entries)
  }

  function RunWrites(pages: Pages, run: seq<Submission>): seq<Write> {
    if run == [] then [] else RunWrites(pages, run[..|run| - 1]) + pages(run[|run| - 1])
  }

  function FieldPaths(fields: seq<Field>): set<Path> {
    set i | 0 <= i < |fields| :: fields[i].path
  }

  lemma {:induction false} PageWritesFields(parse: Parser, fields: seq<Field>, page: nat, entries: seq<Entry>)
    ensures PathsIn(PageWrites(parse, fields, page, entries), FieldPaths(fields))
  {
    if entries != [] {
      PageWritesFields(parse, fields, page, entries[1..]);
    }
  }

  ghost predicate WriteOnly(pages: Pages, paths: set<Path>) {
    forall s :: PathsIn(pages(s), paths)
  }

  lemma PagesWriteFields(parse: Parser, fields: seq<Field>)
    ensures WriteOnly(Writes(parse, fields), FieldPaths(fields))
  {
    forall s ensures PathsIn(Writes(parse, fields)(s), FieldPaths(fields)) {
      PageWritesFields(parse, fields, s.page, s.entries);
    }
  }

  lemma {:induction false} RunWritesPaths(pages: Pages, run: seq<Submission>, paths: set<Path>)
    requires WriteOnly(pages, paths)
    ensures PathsIn(RunWrites(pages, run), paths)
  {
    if run != [] {
      RunWritesPaths(pages, run[..|run| - 1], paths);
      assert PathsIn(pages(run[|run| - 1]), paths);
    }
  }

  lemma RunWritesFields(parse: Parser, fields: seq<Field>, run: seq<Submission>)
    ensures PathsIn(RunWrites(Writes(parse, fields), run), FieldPaths(fields))
  {
    PagesWriteFields(parse, fields);
    RunWritesPaths(Writes(parse, fields), run, FieldPaths(fields));
  }

  /** After any run of submissions every field holds its last written value, and an unwritten one what it held. */
  lemma FieldsHoldTheirLastValues(parse: Parser, fields: seq<Field>, start: Value, run: seq<Submission>, i: nat)
    requires ApartFields(fields) && i < |fields|
    ensures var writes, path := RunWrites(Writes(parse, fields), run), fields[i].path;
            Lookup(Apply(start, writes), path) == if path in LastValues(writes) then Some(LastValues(writes)[path]) else Lookup(start, path)
  {
    RunWritesFields(parse, fields, run);
    assert FieldPaths(fields) + {fields[i].path} == FieldPaths(fields);
    LastValueIsRead(start, RunWrites(Writes(parse, fields), run), FieldPaths(fields), fields[i].path);
  }

  lemma InjectedIdIsApart(
      schema: Option<Value>, noInput: bool, taskId: Option<string>, cwd: Option<string>, fields: seq<Field>, key: string)
    requires IsForm(fields, Offers(schema, noInput, taskId, cwd))
    requires taskId.Some? && key in {THREAD_ID, CONVERSATION_ID} && SchemaField(schema, noInput, [key]).Some?
    ensures [key] !in FieldPaths(fields) && Antichain(FieldPaths(fields) + {[key]})
  {
    DraftIsApart(schema, noInput, taskId, cwd, fields);
    assert Write([key], Str(taskId.value)) in InjectedWrites(schema, noInput, taskId);
    forall i | 0 <= i < |fields| ensures Apart([key], fields[i].path) && fields[i].path != [key] {
      assert fields[i] in fields;
    }
  }

  /** No submission alters the task's id. */
  lemma InjectedIdsStay(
      parse: Parser, schema: Option<Value>, noInput: bool, taskId: Option<string>, cwd: Option<string>,
      fields: seq<Field>, run: seq<Submission>, key: string)
    requires IsForm(fields, Offers(schema, noInput, taskId, cwd))
    requires taskId.Some? && key in {THREAD_ID, CONVERSATION_ID} && SchemaField(schema, noInput, [key]).Some?
    ensures var params := Apply(Apply(StartParams(schema), InjectedWrites(schema, noInput, taskId)), RunWrites(Writes(parse, fields), run));
            params.Get(key) == Some(Str(taskId.value))
  {
    var start, writes := Apply(StartParams(schema), InjectedWrites(schema, noInput, taskId)), RunWrites(Writes(parse, fields), run);
    InjectedIdIsApart(schema, noInput, taskId, cwd, fields, key);
    UnwrittenIsKept(parse, fields, start, run, key);
    InjectedIsWritten(schema, noInput, taskId, key);
    assert Lookup(Apply(start, writes), [key]) == Some(Str(taskId.value));
  }

  lemma UnwrittenIsKept(parse: Parser, fields: seq<Field>, start: Value, run: seq<Submission>, key: string)
    requires [key] !in FieldPaths(fields) && Antichain(FieldPaths(fields) + {[key]})
    ensures Lookup(Apply(start, RunWrites(Writes(parse, fields), run)), [key]) == Lookup(start, [key])
  {
    var writes := RunWrites(Writes(parse, fields), run);
    RunWritesFields(parse, fields, run);
    LastValueIsRead(start, writes, FieldPaths(fields), [key]);
    WrittenPaths(writes, FieldPaths(fields));
    assert [key] !in LastValues(writes).Keys;
  }

  lemma InjectedIsWritten(schema: Option<Value>, noInput: bool, taskId: Option<string>, key: string)
    requires taskId.Some? && key in {THREAD_ID, CONVERSATION_ID} && SchemaField(schema, noInput, [key]).Some?
    ensures Lookup(Apply(StartParams(schema), InjectedWrites(schema, noInput, taskId)), [key]) == Some(Str(taskId.value))
  {
    var writes, paths := InjectedWrites(schema, noInput, taskId), {[THREAD_ID], [CONVERSATION_ID]};
    var first, second := InjectedWrite(schema, noInput, taskId, THREAD_ID), InjectedWrite(schema, noInput, taskId, CONVERSATION_ID);
    assert Antichain(paths) && paths + {[key]} == paths;
    LastValueIsRead(StartParams(schema), writes, paths, [key]);
    LastValuesAppend(first, second);
    assert first == [] || (first == [first[0]] && LastValues(first) == map[[THREAD_ID] := Str(taskId.value)]);
    assert second == [] || (second == [second[0]] && LastValues(second) == map[[CONVERSATION_ID] := Str(taskId.value)]);
  }

  // ---- the order of the pages ---------------------------------------------------------------

  /** Runs that leave the same last value in every field leave the same parameters. */
  lemma OnlyLastSubmissionsCount(parse: Parser, fields: seq<Field>, start: Value, first: seq<Submission>, second: seq<Submission>)
    requires ApartFields(fields)
    requires LastValues(RunWrites(Writes(parse, fields), first)) == LastValues(RunWrites(Writes(parse, fields), second))
    ensures Apply(start, RunWrites(Writes(parse, fields), first)) == Apply(start, RunWrites(Writes(parse, fields), second))
  {
    RunWritesFields(parse, fields, first);
    RunWritesFields(parse, fields, second);
    OnlyLastValuesCount(start, RunWrites(Writes(parse, fields), first), RunWrites(Writes(parse, fields), second), FieldPaths(fields));
  }

  /** The entries are those of the form on display: at most a page of them. */
  predicate OnThePage(submission: Submission) {
    forall i :: 0 <= i < |submission.entries| ==> submission.entries[i].index < FIELDS_PER_PAGE
  }

  /** The fields on display on a page. */
  function PagePaths(fields: seq<Field>, page: nat): set<Path> {
    set k | page * FIELDS_PER_PAGE <= k < page * FIELDS_PER_PAGE + FIELDS_PER_PAGE && k < |fields| :: fields[k].path
  }

  lemma {:induction false} PageWritesItsFields(parse: Parser, fields: seq<Field>, page: nat, entries: seq<Entry>)
    requires OnThePage(Submission(page, entries))
    ensures PathsIn(PageWrites(parse, fields, page, entries), PagePaths(fields, page))
  {
    if entries != [] {
      assert entries[0].index < FIELDS_PER_PAGE;
      assert OnThePage(Submission(page, entries[1..]));
      PageWritesItsFields(parse, fields, page, entries[1..]);
    }
  }

  lemma PagesShareNoFields(fields: seq<Field>, one: nat, other: nat)
    requires ApartFields(fields) && one != other
    ensures PagePaths(fields, one) !! PagePaths(fields, other)
  {
    forall i, j | 0 <= i < |fields| && 0 <= j < |fields| && fields[i].path == fields[j].path ensures i == j {
    }
  }

  ghost predicate WriteTheirPages(pages: Pages, fields: seq<Field>) {
    forall s :: OnThePage(s) ==> LastValues(pages(s)).Keys <= PagePaths(fields, s.page)
  }

  lemma PagesWriteTheirFields(parse: Parser, fields: seq<Field>)
    ensures WriteTheirPages(Writes(parse, fields), fields)
  {
    forall s | OnThePage(s) ensures LastValues(Writes(parse, fields)(s)).Keys <= PagePaths(fields, s.page) {
      PageWritesItsFields(parse, fields, s.page, s.entries);
      WrittenPaths(Writes(parse, fields)(s), PagePaths(fields, s.page));
    }
  }

  lemma {:induction false} OtherPagesWriteElsewhere(pages: Pages, fields: seq<Field>, run: seq<Submission>, page: nat)
    requires ApartFields(fields) && WriteTheirPages(pages, fields) && forall s :: s in run ==> OnThePage(s) && s.page != page
    ensures LastValues(RunWrites(pages, run)).Keys !! PagePaths(fields, page)
  {
    if run != [] {
      var n := |run| - 1;
      var last := run[n];
      assert last in run;
      OtherPagesWriteElsewhere(pages, fields, run[..n], page);
      PagesShareNoFields(fields, last.page, page);
      LastValuesAppend(RunWrites(pages, run[..n]), pages(last));
    }
  }

  lemma {:induction false} RunWritesAppend(pages: Pages, first: seq<Submission>, second: seq<Submission>)
    ensures RunWrites(pages, first + second) == RunWrites(pages, first) + RunWrites(pages, second)
  {
    if second == [] {
      assert first + second == first;
    } else {
      var n := |second| - 1;
      RunWritesAppend(pages, first, second[..n]);
      assert (first + second)[..|first + second| - 1] == first + second[..n];
    }
  }

  predicate EachPageOnce(run: seq<Submission>) {
    forall i, j :: 0 <= i < j < |run| ==> run[i].page != run[j].page
  }

  /** A submission may be moved behind submissions of other pages. */
  lemma MovedToTheEnd(pages: Pages, fields: seq<Field>, before: seq<Submission>, moved: Submission, after: seq<Submission>)
    requires ApartFields(fields) && WriteTheirPages(pages, fields)
    requires OnThePage(moved) && forall s :: s in after ==> OnThePage(s) && s.page != moved.page
    ensures LastValues(RunWrites(pages, before + [moved] + after)) == LastValues(RunWrites(pages, before + after + [moved]))
  {
    assert RunWrites(pages, [moved]) == pages(moved) by {
      assert [moved][..0] == [] && RunWrites(pages, []) == [];
    }
    OtherPagesWriteElsewhere(pages, fields, after, moved.page);
    LastValuesSwap(RunWrites(pages, before), RunWrites(pages, [moved]), RunWrites(pages, after));
    RunWritesThree(pages, before, [moved], after);
    RunWritesThree(pages, before, after, [moved]);
  }

  lemma RunWritesThree(pages: Pages, a: seq<Submission>, b: seq<Submission>, c: seq<Submission>)
    ensures RunWrites(pages, a + b + c) == RunWrites(pages, a) + RunWrites(pages, b) + RunWrites(pages, c)
  {
    RunWritesAppend(pages, a + b, c);
    RunWritesAppend(pages, a, b);
  }

  lemma RunsExtend(pages: Pages, first: seq<Submission>, second: seq<Submission>, last: Submission)
    requires LastValues(RunWrites(pages, first)) == LastValues(RunWrites(pages, second))
    ensures LastValues(RunWrites(pages, first + [last])) == LastValues(RunWrites(pages, second + [last]))
  {
    RunWritesAppend(pages, first, [last]);
    RunWritesAppend(pages, second, [last]);
    LastValuesAppend(RunWrites(pages, first), RunWrites(pages, [last]));
    LastValuesAppend(RunWrites(pages, second), RunWrites(pages, [last]));
  }

  lemma WithoutOne<T>(s: seq<T>, k: nat)
    requires k < |s|
    ensures multiset(s[..k] + s[k + 1..]) == multiset(s) - multiset{s[k]}
  {
    assert s == s[..k] + [s[k]] + s[k + 1..];
  }

  lemma OneOut<T>(first: seq<T>, second: seq<T>) returns (k: nat)
    requires first != [] && multiset(first) == multiset(second)
    ensures k < |second| && second[k] == first[|first| - 1]
    ensures multiset(first[..|first| - 1]) == multiset(second[..k] + second[k + 1..])
  {
    var n := |first| - 1;
    assert first[n] in multiset(second);
    k :| 0 <= k < |second| && second[k] == first[n];
    WithoutOne(first, n);
    WithoutOne(second, k);
    assert first[..n] + first[n + 1..] == first[..n];
  }

  lemma PagesLeft(run: seq<Submission>, k: nat)
    requires k < |run| && EachPageOnce(run) && forall s :: s in run ==> OnThePage(s)
    ensures EachPageOnce(run[..k] + run[k + 1..]) && forall s :: s in run[..k] + run[k + 1..] ==> OnThePage(s)
    ensures forall s :: s in run[k + 1..] ==> OnThePage(s) && s.page != run[k].page
  {
  }

  lemma Inserted(
      pages: Pages, fields: seq<Field>, run: seq<Submission>, before: seq<Submission>, s: Submission, after: seq<Submission>)
    requires ApartFields(fields) && WriteTheirPages(pages, fields)
    requires OnThePage(s) && forall t :: t in after ==> OnThePage(t) && t.page != s.page
    requires LastValues(RunWrites(pages, run)) == LastValues(RunWrites(pages, before + after))
    ensures LastValues(RunWrites(pages, run + [s])) == LastValues(RunWrites(pages, before + [s] + after))
  {
    RunsExtend(pages, run, before + after, s);
    MovedToTheEnd(pages, fields, before, s, after);
  }

  lemma {:induction false} SamePagesSameValues(pages: Pages, fields: seq<Field>, first: seq<Submission>, second: seq<Submission>)
    requires ApartFields(fields) && WriteTheirPages(pages, fields)
    requires multiset(first) == multiset(second) && EachPageOnce(second) && forall s :: s in second ==> OnThePage(s)
    ensures LastValues(RunWrites(pages, first)) == LastValues(RunWrites(pages, second))
    decreases |first|
  {
    if first == [] {
      assert |multiset(second)| == 0;
    } else {
      var n := |first| - 1;
      var k := OneOut(first, second);
      var before, after := second[..k], second[k + 1..];
      assert LastValues(RunWrites(pages, first[..n])) == LastValues(RunWrites(pages, before + after)) by {
        PagesLeft(second, k);
        SamePagesSameValues(pages, fields, first[..n], before + after);
      }
      assert LastValues(RunWrites(pages, first[..n] + [first[n]])) == LastValues(RunWrites(pages, before + [second[k]] + after)) by {
        PagesLeft(second, k);
        Inserted(pages, fields, first[..n], before, second[k], after);
      }
      assert first == first[..n] + [first[n]] && second == before + [second[k]] + after;
    }
  }

  /** Pages that are submitted once each may be submitted in any order. */
  lemma {:induction false} PageOrderDoesNotMatter(parse: Parser, fields: seq<Field>, start: Value, first: seq<Submission>, second: seq<Submission>)
    requires ApartFields(fields) && multiset(first) == multiset(second) && EachPageOnce(second)
    requires forall s :: s in second ==> OnThePage(s)
    ensures Apply(start, RunWrites(Writes(parse, fields), first)) == Apply(start, RunWrites(Writes(parse, fields), second))
  {
    PagesWriteTheirFields(parse, fields);
    SamePagesSameValues(Writes(parse, fields), fields, first, second);
    OnlyLastSubmissionsCount(parse, fields, start, first, second);
  }

  // ---- pages -------------------------------------------------------------------------------

  function Min(a: nat, b: nat): nat {
    if a < b then a else b
  }

  function PageCount(fields: seq<Field>): nat {
    ((if fields == [] then 1 else |fields|) + FIELDS_PER_PAGE - 1) / FIELDS_PER_PAGE
  }

  function PageFields(fields: seq<Field>, page: nat): seq<Field> {
    var start := Min(page * FIELDS_PER_PAGE, |fields|);
    fields[start..Min(start + FIELDS_PER_PAGE, |fields|)]
  }

  function FirstPages(fields: seq<Field>, pages: nat): seq<Field> {
    if pages == 0 then [] else FirstPages(fields, pages - 1) + PageFields(fields, pages - 1)
  }

  lemma {:induction false} PagesInOrder(fields: seq<Field>, pages: nat)
    ensures FirstPages(fields, pages) == fields[..Min(pages * FIELDS_PER_PAGE, |fields|)]
  {
    if pages > 0 {
      PagesInOrder(fields, pages - 1);
    }
  }

  /** The pages show every field once, five at a time but for the last, and an entry's place on its page finds its field. */
  lemma PagesShowEveryField(fields: seq<Field>)
    ensures fields == [] ==> PageCount(fields) == 1
    ensures fields != [] ==> PageFields(fields, PageCount(fields) - 1) != []
    ensures forall page: nat :: page < PageCount(fields) - 1 ==> |PageFields(fields, page)| == 5
    ensures FirstPages(fields, PageCount(fields)) == fields
    ensures forall page: nat :: |PageFields(fields, page)| <= FIELDS_PER_PAGE
    ensures forall page: nat, k: nat :: k < |PageFields(fields, page)| ==>
              page * FIELDS_PER_PAGE + k < |fields| && PageFields(fields, page)[k] == fields[page * FIELDS_PER_PAGE + k]
  {
    PagesInOrder(fields, PageCount(fields));
    assert PageCount(fields) * FIELDS_PER_PAGE >= |fields|;
  }

  // ---- runs of the object --------------------------------------------------------------------

  lemma OneMore(parse: Parser, fields: seq<Field>, start: Value, run: seq<Submission>, n: nat)
    requires n < |run|
    ensures Apply(Apply(start, RunWrites(Writes(parse, fields), run[..n])), PageWrites(parse, fields, run[n].page, run[n].entries))
         == Apply(start, RunWrites(Writes(parse, fields), run[..n + 1]))
  {
    assert run[..n + 1][..n] == run[..n];
    ApplyAppend(start, RunWrites(Writes(parse, fields), run[..n]), Writes(parse, fields)(run[n]));
  }

  /** The entry of the submission is reached. */
  predicate Reached(parse: Parser, fields: seq<Field>, run: seq<Submission>, n: nat, i: nat) {
    n < |run| && Taken(parse, fields, run[n].page, run[n].entries, i)
  }

  /** No entry that is reached after this one says anything of the field. */
  ghost predicate SilentAfter(parse: Parser, fields: seq<Field>, run: seq<Submission>, n: nat, i: nat, k: nat)
    requires k < |fields|
  {
    forall m: nat, j: nat :: Reached(parse, fields, run, m, j) && (n < m || (n == m && i < j)) ==>
      Silent(fields, run[m].page, run[m].entries[j], k)
  }

  /** No entry that is reached says anything of the field. */
  ghost predicate NeverSpoken(parse: Parser, fields: seq<Field>, run: seq<Submission>, k: nat)
    requires k < |fields|
  {
    forall m: nat, j: nat :: Reached(parse, fields, run, m, j) ==> Silent(fields, run[m].page, run[m].entries[j], k)
  }

  lemma ReachedBefore(parse: Parser, fields: seq<Field>, run: seq<Submission>, n: nat)
    requires n <= |run|
    ensures forall m: nat, j: nat :: Reached(parse, fields, run[..n], m, j) ==> Reached(parse, fields, run, m, j) && run[..n][m] == run[m]
  {
  }

  lemma LastSubmission(parse: Parser, fields: seq<Field>, start: Value, run: seq<Submission>)
    requires run != []
    ensures var n := |run| - 1;
            Apply(start, RunWrites(Writes(parse, fields), run))
            == Apply(Apply(start, RunWrites(Writes(parse, fields), run[..n])), PageWrites(parse, fields, run[n].page, run[n].entries))
  {
    OneMore(parse, fields, start, run, |run| - 1);
    assert run[..|run|] == run;
  }

  /** A field of which nothing that is reached says anything holds what it held. */
  lemma {:induction false} UnspokenFieldStays(parse: Parser, fields: seq<Field>, start: Value, run: seq<Submission>, k: nat)
    requires ApartFields(fields) && k < |fields| && NeverSpoken(parse, fields, run, k)
    ensures Lookup(Apply(start, RunWrites(Writes(parse, fields), run)), fields[k].path) == Lookup(start, fields[k].path)
  {
    if run != [] {
      var n := |run| - 1;
      ReachedBefore(parse, fields, run, n);
      UnspokenFieldStays(parse, fields, start, run[..n], k);
      LastSubmission(parse, fields, start, run);
      assert SilentFrom(parse, fields, run[n].page, run[n].entries, 0, k) by {
        forall i: nat | Taken(parse, fields, run[n].page, run[n].entries, i) ensures Silent(fields, run[n].page, run[n].entries[i], k) {
          assert Reached(parse, fields, run, n, i);
        }
      }
      SilentPage(parse, fields, run[n].page, run[n].entries, Apply(start, RunWrites(Writes(parse, fields), run[..n])), k);
    }
  }

  /** The last entry of a run that is reached and says something of a field leaves the field with what it says. */
  lemma {:induction false} LastSaidIsHeld(parse: Parser, fields: seq<Field>, start: Value, run: seq<Submission>, n: nat, i: nat, k: nat)
    requires ApartFields(fields) && k < |fields| && Reached(parse, fields, run, n, i)
    requires k == run[n].page * FIELDS_PER_PAGE + run[n].entries[i].index && Said(parse, fields[k], run[n].entries[i].raw).Some?
    requires SilentAfter(parse, fields, run, n, i, k)
    ensures Lookup(Apply(start, RunWrites(Writes(parse, fields), run)), fields[k].path) == Said(parse, fields[k], run[n].entries[i].raw)
  {
    var last := |run| - 1;
    var before := Apply(start, RunWrites(Writes(parse, fields), run[..last]));
    LastSubmission(parse, fields, start, run);
    assert SilentFrom(parse, fields, run[last].page, run[last].entries, if n == last then i + 1 else 0, k) by {
      forall j: nat | (n == last ==> i < j) && Taken(parse, fields, run[last].page, run[last].entries, j)
        ensures Silent(fields, run[last].page, run[last].entries[j], k)
      {
        assert Reached(parse, fields, run, last, j);
      }
    }
    if n == last {
      LastEntryCounts(parse, fields, run[n].page, run[n].entries, before, i, k);
    } else {
      ReachedBefore(parse, fields, run, last);
      LastSaidIsHeld(parse, fields, start, run[..last], n, i, k);
      SilentPage(parse, fields, run[last].page, run[last].entries, before, k);
    }
  }

  /** A draft and any run of submissions to it; the task's ids are in the parameters in the end. */
  method FillForm(parse: Parser, schema: Option<Value>, noInput: bool, taskId: Option<string>, cwd: Option<string>, run: seq<Submission>)
    returns (draft: ActionDraft)
    ensures IsForm(draft.fields, Offers(schema, noInput, taskId, cwd)) && ApartFields(draft.fields)
    ensures draft.params
         == Apply(Apply(StartParams(schema), InjectedWrites(schema, noInput, taskId)), RunWrites(Writes(parse, draft.fields), run))
    ensures forall key :: taskId.Some? && key in {THREAD_ID, CONVERSATION_ID} && SchemaField(schema, noInput, [key]).Some? ==>
              draft.params.Get(key) == Some(Str(taskId.value))
    ensures forall n: nat, i: nat :: Reached(parse, draft.fields, run, n, i) ==>
              var k := run[n].page * FIELDS_PER_PAGE + run[n].entries[i].index;
              k < |draft.fields| &&
              (Said(parse, draft.fields[k], run[n].entries[i].raw).Some? && SilentAfter(parse, draft.fields, run, n, i, k) ==>
                 Lookup(draft.params, draft.fields[k].path) == Said(parse, draft.fields[k], run[n].entries[i].raw))
  {
    draft := new ActionDraft.FromCapability(schema, noInput, taskId, cwd);
    ghost var fields, start := draft.fields, draft.params;
    for n := 0 to |run|
      invariant fresh(draft) && draft.fields == fields
      invariant draft.params == Apply(start, RunWrites(Writes(parse, fields), run[..n]))
    {
      OneMore(parse, fields, start, run, n);
      var ok := draft.ApplyPageValues(parse, run[n].page, run[n].entries);
    }
    assert run[..|run|] == run;
    DraftIsApart(schema, noInput, taskId, cwd, fields);
    forall n: nat, i: nat | Reached(parse, fields, run, n, i)
      ensures var k := run[n].page * FIELDS_PER_PAGE + run[n].entries[i].index;
              k < |fields| &&
              (Said(parse, fields[k], run[n].entries[i].raw).Some? && SilentAfter(parse, fields, run, n, i, k) ==>
                 Lookup(draft.params, fields[k].path) == Said(parse, fields[k], run[n].entries[i].raw))
    {
      var k := run[n].page * FIELDS_PER_PAGE + run[n].entries[i].index;
      if Said(parse, fields[k], run[n].entries[i].raw).Some? && SilentAfter(parse, fields, run, n, i, k) {
        LastSaidIsHeld(parse, fields, start, run, n, i, k);
      }
    }
    forall key | taskId.Some? && key in {THREAD_ID, CONVERSATION_ID} && SchemaField(schema, noInput, [key]).Some?
      ensures draft.params.Get(key) == Some(Str(taskId.value))
    {
      InjectedIdsStay(parse, schema, noInput, taskId, cwd, fields, run, key);
    }
  }
}
