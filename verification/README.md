# Verified models of the Codex Discord relay

This project models the parts of the relay where a mistake is hard to see by reading one function, and
proves what they promise for every input and every interleaving. `dafny verify dfyconfig.toml` checks all
of it.

- **Connection** (`Connection`, `ConnectionSafety`, `ConnectionTheorems`, `ConnectionReplies`,
  `ConnectionOutcomes`, `ConnectionProgress`, `ConnectionWitnesses`): the app-server client as a step
  system. Every lock acquisition, atomic access and map operation of `ensure_initialized`, `spawn_locked`,
  `request_raw`, `write_json`, `write_json_for_generation`, `disconnect`, `lose_connection` and the reader
  is one step; a rely-guarantee invariant holds in every interleaving, and the theorems follow from it.
  Frames are those of JSON-RPC 2.0, sections 4, 4.1 and 5.
- **Line framing** (`LineFraming`): the bounded line reader refines "split the byte stream at newlines".
- **Schema pipeline** (`Json`, `JsonPointer`, `Schema`, `Validator`, `SchemaCheck`, `SchemaMeaning`,
  `CappedUnfolding`, `RefExpansion`, `MethodCatalog`): the relay's dialect of JSON Schema draft-07, the
  recursive checks with their caps against a declarative predicate, what each keyword admits, the expansion of local references (JSON Schema Core draft-07,
  section 8.3; RFC 6901, section 4) against unfolding them step by step, and the method catalog.
- **Forms** (`PathAlgebra`, `FormFields`, `ActionForm`, `FormMeaning`, `KeyValueForm`, `LineMeaning`, `Text`): a schema compiled to form
  fields, pages written into one JSON document, and key=value text read as an object.
- **Relay state** (`TaskBinding`, `StreamHealing`, `RealtimeAudio`, `Wav`, `GodLifecycle`, `GodSafety`,
  `GodProgress`, `PendingReplies`, `PendingProgress`): task identifiers in advanced calls, streamed answers, recorded audio, the dispatch
  barrier with its cleanup leases, and who may answer a server request.
- **Tables** (`Tables`, `AuditRetention`, `Outbox`, `OutboxDelivery`): retention and delivery, with tables
  as sequences of rows in the order of their ids.

Objects are maps, so code that walks the entries of an object is modelled by a loop over the keys in an
arbitrary order, and what is proved holds for every order. Loops and updates in place are methods proved
against functions; the laws are lemmas about those functions. Step systems give each thread a program
counter, and a run is any sequence of steps by any threads; what may not happen is proved of every run, and
what must be possible of a thread that runs alone from any state it can be in (the `Progress` modules). The regular expression engine, the float, base64
and JSON parsers, the field parser and the clock are parameters, so every result holds whatever they do.

Four statements one might expect of the code are false of it; each has an input or a run that shows so, and
the exact condition under which it does hold.

- The schema check decides the declarative meaning. It does so for all values and all schemas nested at most
  n levels exactly if n is below 24 (`Validator.ExactExactlyBelowTheCap`).
- Expanding the references of a schema keeps its meaning. For a recursive node schema and the lists of n nodes
  it does so exactly if n is at most 10 (`RefExpansion.ListsAgreeExactlyUpToTen`); any schema accepts after
  expansion exactly what its unfolding accepts when everything beyond either cap is let through
  (`RefExpansion.ExpandedIsCappedUnfolding`).
- Printed objects parse back. They do unless the first key starts with a brace, and then the text is taken for
  JSON (`KeyValueForm.BracedKeysAreLost`, `KeyValueForm.ParsingUndoesPrinting`).
- Pruning the audit table at each insertion is pruning the whole history once. It is so for every earlier table
  and all limits exactly if the clock did not go back (`AuditRetention.BatchExactlyWhenTimesAscend`).

That no server request is lost does hold, and rests on two places: the handler that answers a request
would lose it over a decision of which it can make no reply (`PendingReplies.LostExactlyWhenMisdecided`), and no
card offers its owner such a decision (`PendingReplies.NoRequestIsLost`); nothing less of the cards would do
(`PendingReplies.NothingIsLostExactlyBySoundCards`).

## Model

| member | source | states |
|---|---|---|
| `ConnectionSafety.RunsKeepInvariant` | `src/codex/client.rs:864-1120` | one invariant over locks, atomics, slots, pipes, waiters and every task's place holds in every state of every interleaving |
| `ConnectionSafety.OthersMayRely` | `src/codex/client.rs:864-1281` | what a task relies on between its steps survives any step of another task |
| `ConnectionTheorems.AtMostOneChild` | `src/codex/client.rs:893-976` | at most one process that was spawned and not killed is alive |
| `ConnectionTheorems.ConnectedIsOneProcess` | `src/codex/client.rs:922-926` | while `connected`, generation, stdin and child name the same process |
| `ConnectionTheorems.InitializedMeansHandshake` | `src/codex/client.rs:880-891` | the initialized generation is a process that answered `initialize` and was then sent `initialized` |
| `ConnectionTheorems.RepliesStayInTheirGeneration` | `src/codex/client.rs:1047-1095` | no byte of a reply bound to a generation reaches the stdin of any other process |
| `ConnectionTheorems.StaleReplyChangesNothing` | `src/codex/client.rs:1047-1095` | a reply for an older generation can change nothing but that generation's own pipe and never starts a teardown |
| `ConnectionTheorems.StaleLossChangesNothing` | `src/codex/client.rs:1247-1267` | `lose_connection` of an older generation changes neither the connection nor any waiter |
| `ConnectionTheorems.NoOrphanedWaiter` | `src/codex/client.rs:978-1045` | a pending request that saw `connected` belongs to the current generation, which is connected or is about to be drained |
| `ConnectionTheorems.WaitersAreKnown` | `src/codex/client.rs:978-1022` | the sender of a request that awaits its reply is in the pending map, has been used, or was taken by a teardown that is telling the waiters, and only one of these |
| `ConnectionTheorems.PendingIsOwned` | `src/codex/client.rs:978-1022` | every pending id belongs to exactly one running request that has not returned |
| `ConnectionTheorems.OneOutcome` | `src/codex/client.rs:978-1022` | a request returns once; its outcome stays and its id is out of the pending map for good |
| `ConnectionTheorems.ResponsesAreGenuine` | `src/codex/client.rs:1214-1245` | a response comes from the one process that received the request and answered it afterwards |
| `ConnectionTheorems.HistoryIsKept` | `src/codex/client.rs:893-976` | generations never fall, pipes are never rewritten and no outcome changes along a run |
| `ConnectionReplies.RetriesNeverArriveTwice` | `src/codex/client.rs:1047-1095` | replies to a request made one at a time, retries of failed ones included, arrive at most once, and only at the process that asked |
| `ConnectionReplies.GoneForGood` | `src/codex/client.rs:893-976` | a generation that is superseded, or was connected and is no longer, stays so |
| `ConnectionReplies.FailureGivesUpTheGeneration` | `src/codex/client.rs:1086-1094` | a reply that failed after its first tests has given its generation up before its caller is told |
| `ConnectionOutcomes.OutcomesHaveCauses` | `src/codex/client.rs:978-1022` | every outcome a request returned has its cause earlier in the run: a response was delivered by the reader of the process that gave it, a timeout ran out while nothing had come, a loss was seen, met by the write or told by a teardown |
| `ConnectionOutcomes.WaitersReturnWhatTheyWereTold` | `src/codex/client.rs:998-1022` | a waiter whose outcome is there when it leaves its wait returns exactly that outcome, for good |
| `ConnectionOutcomes.RepliesEndForACause` | `src/codex/client.rs:1047-1095` | a reply is reported as delivered only when its frame has just gone into the pipe of its own process, as unsent only when the client was found down or with another process, as failed only when it was begun |
| `ConnectionProgress.RequestsReturnTheirAnswers` | `src/codex/client.rs:978-1022` | from any state at rest a request returns the answer the process gives, result or error |
| `ConnectionProgress.RequestsTimeOut` | `src/codex/client.rs:998-1022` | from any state at rest a request without an answer times out and its sender is withdrawn |
| `ConnectionProgress.NotificationsAreSent` | `src/codex/client.rs:1024-1045` | from any state at rest a notification reaches the current process |
| `ConnectionProgress.RepliesAreDelivered` | `src/codex/client.rs:1047-1095` | from any state at rest a reply to a request of the current generation arrives there and is reported as delivered |
| `ConnectionProgress.DownClientsConnect` | `src/codex/client.rs:893-976` | whenever the client is down a task that ensures the connection gets a new process of the next generation, and a reader for it |
| `ConnectionProgress.HandshakesComplete` | `src/codex/client.rs:864-891` | a new connection is initialized by request, answer and notification, in this order |
| `ConnectionProgress.TeardownsComplete` | `src/codex/client.rs:1247-1281` | a teardown of the current connection leaves no waiter untold, no child and no stdin |
| `ConnectionProgress.ReconnectingReopens` | `src/codex/client.rs:529-533` | reconnecting tears the connection down and leaves the client open for a new one |
| `ConnectionProgress.ClosingShutsTheClient` | `src/codex/client.rs:535-538` | closing tears it down, and afterwards no request gets past its first test |
| `ConnectionProgress.CallsHappen` | `src/codex/client.rs:864-1022` | an interleaving of a fresh client ends with a call that returned its answer, result or error |
| `ConnectionWitnesses.ConnectionsHappen` | `src/codex/client.rs:864-929` | an interleaving leads from a fresh client to a connected one |
| `ConnectionWitnesses.HandshakesHappen` | `src/codex/client.rs:880-891` | an interleaving completes the handshake |
| `ConnectionWitnesses.WaitersAreDrained` | `src/codex/client.rs:1247-1281` | an interleaving ends a waiting request with the loss of its connection |
| `ConnectionWitnesses.ArrivedRepliesCanFail` | `src/codex/client.rs:1065-1084` | an interleaving reports a reply that got through as failed |
| `LineFraming.ReadBoundedLine` | `src/codex/client.rs:1164-1199` | the loop over buffers returns the next line of the remaining byte stream, its end, or a refusal, and consumes exactly that |
| `LineFraming.ReadLines` | `src/codex/client.rs:941-971` | repeated reading yields the lines of the byte stream up to the end or the first line that is too long |
| `LineFraming.RefusedExactly` | `src/codex/client.rs:1164-1199` | a line is refused exactly when more than the limit comes before the next newline or the end |
| `LineFraming.LinesRoundTrip` | `src/codex/client.rs:1164-1199` | reading back lines written with either line end recovers them |
| `LineFraming.LastLineRoundTrip` | `src/codex/client.rs:1164-1199` | so does a last line without a line end, which is returned before the end of the stream |
| `LineFraming.LinesAreBounded` | `src/codex/client.rs:1164-1199` | no line holds a newline or exceeds the limit |
| `LineFraming.ChunkingDoesNotMatter` | `src/codex/client.rs:1164-1199` | two ways of cutting the same bytes into non-empty buffers give the same lines |
| `JsonPointer.PrintedPointers` | `src/codex/capabilities.rs:241-246` | a pointer printed from a path of keys, with escapes, leads where the path leads |
| `SchemaCheck.Validate` | `src/codex/params.rs:22-27` | no problems exactly if the capped check accepts, at most twelve, and each names a place where what it says is true |
| `SchemaCheck.Check` | `src/codex/params.rs:29-144` | with room in the shared list it grows exactly when the value fails, and only by true problems below its path |
| `SchemaCheck.AnyBranchAccepts` | `src/codex/params.rs:41-56` | some branch leaves its own list empty exactly if some branch accepts, the error cap notwithstanding |
| `SchemaCheck.CheckProperties` | `src/codex/params.rs:117-134` | over the entries in any order, the list grows exactly when some entry fails or is unknown to a closed schema |
| `Validator.CapOnlyWeakens` | `src/codex/params.rs:30-32` | whatever the declarative meaning accepts, the capped check accepts at any depth |
| `Validator.CapIsExact` | `src/codex/params.rs:30-32` | where checking this value stays within the cap, the check and the meaning agree |
| `Validator.ShallowSchemasAreExact` | `src/codex/params.rs:30-32` | for schemas nested fewer than 24 levels they agree on every value |
| `Validator.CapIsTight` | `src/codex/params.rs:30-32` | a wrongly typed value below n levels of `allOf` gets through exactly when n and the depth reach 24 |
| `Validator.WrappedIsNeverAccepted` | `src/codex/params.rs:57-61` | that value is rejected by the meaning at every nesting |
| `Validator.ExactExactlyBelowTheCap` | `src/codex/params.rs:30-32` | the check agrees with the meaning on all values and all schemas nested at most n levels exactly if n is below 24 |
| `SchemaMeaning.TypeNames` | `src/codex/params.rs:181-192` | for each of the seven type names, which values the schema of that name admits |
| `SchemaMeaning.IntegersAndUnknownNames` | `src/codex/params.rs:181-192` | an integer is one that fits 64 bits, signed or not, and an unknown name admits everything |
| `SchemaMeaning.TypeLists` | `src/codex/params.rs:170-179` | a list of types admits what some name in it admits |
| `SchemaMeaning.Minimum` | `src/codex/params.rs:62-144` | a minimum bounds numbers of either kind and nothing else |
| `SchemaMeaning.MinLength` | `src/codex/params.rs:62-144` | a minimum length counts the characters of strings and asks nothing of other values |
| `SchemaMeaning.Enumeration` | `src/codex/params.rs:62-144` | an enumeration admits exactly the values in it |
| `SchemaMeaning.PatternText` | `src/codex/params.rs:62-144` | a pattern admits the strings it matches and everything that is no string |
| `SchemaMeaning.RequiredNames` | `src/codex/params.rs:62-144` | required names are asked of objects, all of them, and of nothing else |
| `SchemaMeaning.PropertiesAndOthers` | `src/codex/params.rs:117-134` | an object is admitted exactly if its entries are, and a closed one only if it has no others |
| `SchemaMeaning.OneOf` | `src/codex/params.rs:41-56` | `oneOf` asks for some branch and hides every keyword beside it, `anyOf` included |
| `SchemaMeaning.AnyOf` | `src/codex/params.rs:41-56` | `anyOf` does so where there is no `oneOf` |
| `SchemaMeaning.AllOfThem` | `src/codex/params.rs:57-61` | `allOf` asks for every branch, one level down |
| `SchemaMeaning.EveryItem` | `src/codex/params.rs:135-144` | `items` asks it of every item of an array, and nothing of other values |
| `SchemaMeaning.NoObjectAsksNothing` | `src/codex/params.rs:33-35` | a schema that is no object admits everything |
| `SchemaMeaning.MalformedBound` | `src/codex/params.rs:83-99` | a bound that is no number asks nothing |
| `SchemaMeaning.KeywordsAddUp` | `src/codex/params.rs:29-144` | without a union a schema admits exactly what each of its keywords admits when it stands alone |
| `CappedUnfolding.ExpansionIsSound` | `src/codex/capabilities.rs:237-262` | for any lawful reading of schemas, acceptance by enough unfolding steps implies acceptance after capped expansion |
| `CappedUnfolding.ExpansionIsComplete` | `src/codex/capabilities.rs:237-262` | within both caps the expanded check accepts only what every unfolding accepts |
| `CappedUnfolding.ExpansionIsCappedUnfolding` | `src/codex/capabilities.rs:237-262` | for any lawful reading of schemas the capped check of the expansion is the unfolding in which everything beyond either cap is accepted |
| `RefExpansion.CodexIsLawful` | `src/codex/capabilities.rs:237-262` | the relay's dialect and expansion obey the laws: reading an expanded schema is expanding what is read |
| `RefExpansion.ExpandedNeverRejects` | `src/codex/capabilities.rs:237-262` | a value that no unfolding speaks against, cyclic schemas included, is never rejected after expansion |
| `RefExpansion.ExpandedIsCappedUnfolding` | `src/codex/capabilities.rs:237-262` | a value passes after expansion exactly if the relay's unfolding, with everything beyond either cap accepted, accepts it |
| `RefExpansion.ExpandedAgreesWithinCaps` | `src/codex/capabilities.rs:237-262` | where the unfolding fits both caps, validating the expansion agrees with unfolding for ever |
| `RefExpansion.UnfoldingRejectsLists` | `src/codex/capabilities.rs:237-262` | a recursive node schema rejects every list that does not end in a node |
| `RefExpansion.ExpansionLosesLists` | `src/codex/capabilities.rs:237-262` | its expansion rejects such a list exactly up to ten nodes; longer ones get through |
| `RefExpansion.ListsAgreeExactlyUpToTen` | `src/codex/capabilities.rs:237-262` | on a list of n nodes validating the expansion agrees with unfolding for ever exactly if n is at most 10 |
| `RefExpansion.ListsAgreeExactlyWhenTheyFit` | `src/codex/capabilities.rs:237-262` | on these lists fitting the caps is also needed for agreement, and the cap on references decides it |
| `RefExpansion.ListSchemaIsTidy` | `src/codex/capabilities.rs:237-262` | the recursive node schema is one of those that the results about expansion speak of |
| `RefExpansion.DeepTargetIsTidy` | `src/codex/capabilities.rs:237-262` | so is the reference to a schema of n nested levels |
| `RefExpansion.DeepTargetsAgreeExactlyWhenTheyFit` | `src/codex/params.rs:30-32` | on a reference to a schema of n nested levels fitting is needed as well, and the cap of 24 levels decides it |
| `MethodCatalog.CollectEnums` | `src/codex/capabilities.rs:150-172` | adds exactly the names that occur anywhere below the value, in any order of visiting |
| `MethodCatalog.CollectMetadata` | `src/codex/capabilities.rs:174-232` | registers exactly those methods, with parameters exactly if some occurrence has any, taken from such an occurrence |
| `MethodCatalog.CatalogsQuote` | `src/codex/capabilities.rs:174-232` | title and parameters of a method are those of one occurrence, and so is its description unless that one has none and another does |
| `MethodCatalog.NodesAreReached` | `src/codex/capabilities.rs:150-172` | what is visited is what entries and items lead to, at any depth |
| `MethodCatalog.NodesName` | `src/codex/capabilities.rs:187-195` | a node names the strings at `properties`, `method`, `enum`, and has the parameters at `properties`, `params` |
| `MethodCatalog.CollectorsAgree` | `src/codex/capabilities.rs:150-232` | the keys of the catalog are the names of the simple collector |
| `PathAlgebra.SetPath` | `src/discord/actions.rs:2134-2154` | the walk that opens objects on its way is the recursive write at a path |
| `PathAlgebra.LookupSet` | `src/discord/actions.rs:2134-2154` | what is written at a path is read there |
| `PathAlgebra.LookupApart` | `src/discord/actions.rs:2134-2154` | a write leaves every path apart from its own as it was |
| `PathAlgebra.SetsCommute` | `src/discord/actions.rs:2134-2154` | writes at paths apart from each other commute |
| `PathAlgebra.OnlyLastValuesCount` | `src/discord/actions.rs:2134-2154` | over an antichain of paths the document depends only on the last value written at each |
| `PathAlgebra.LastValueIsRead` | `src/discord/actions.rs:2134-2154` | every path then holds its last value, and an unwritten one what it held |
| `FormFields.Flatten` | `src/discord/actions.rs:1829-1878` | appends exactly the fields that following a path through the properties leads to, each once |
| `FormFields.FieldsFromSchema` | `src/discord/actions.rs:1823-1827` | the form of a schema shows exactly the paths at which the schema stops opening |
| `FormFields.FieldsAreApart` | `src/discord/actions.rs:1829-1878` | no field lies below another |
| `FormFields.FormsAreApart` | `src/discord/actions.rs:1829-1878` | field paths are distinct, non-empty and pairwise no prefixes |
| `FormMeaning.BranchesAreChosen` | `src/discord/actions.rs:1905-1917` | a schema stands for its first branch that is neither null nor a constant, under `oneOf` before `anyOf` before `allOf` |
| `FormMeaning.UnionsAreOneField` | `src/discord/actions.rs:1836-1846` | a property with a choice of two or more is one field with the whole of its schema |
| `FormMeaning.RecordsShowTheirProperties` | `src/discord/actions.rs:1861-1872` | a record of plain properties shows one field for each, required if listed, with its schema and default |
| `FormMeaning.FormsStopAtTwelve` | `src/discord/actions.rs:1849-1878` | however deep properties nest, a field names at most twelve, and the twelfth stands for the rest |
| `FormMeaning.DraftsOfRecords` | `src/discord/actions.rs:1615-1662` | the draft of a record offers its properties less the two task ids, with the directory as default of `cwd` where it has none |
| `FormMeaning.DraftsStartWithTheTask` | `src/discord/actions.rs:1632-1652` | its parameters start as the task's id under exactly those of the two names that are properties |
| `FormMeaning.DraftsWithoutFields` | `src/discord/actions.rs:1622-1634` | a method without input offers nothing and starts as null exactly if its type is `null` |
| `ActionForm.ActionDraft.FromCapability` | `src/discord/actions.rs:1615-1662` | the draft offers exactly the schema's fields less the injected ids, with the directory default, and starts with the ids written |
| `ActionForm.ActionDraft.ApplyPageValues` | `src/discord/actions.rs:1710-1738` | succeeds exactly if every entry has a field and its trimmed text parses, or is blank with a default or not required; then the last entry of a field leaves what its text parses to, or the default, and a field of which nothing is said keeps what it held; the page moves only on success |
| `ActionForm.FillForm` | `src/discord/actions.rs:1615-1738` | after a draft and any run of submissions, refused ones included, a field holds what the last entry that was reached and said something of it says, and the task's ids are in place |
| `ActionForm.LastSaidIsHeld` | `src/discord/actions.rs:1710-1738` | over any run the last entry of a field that is not passed over in silence leaves it with the parsed text or the default |
| `ActionForm.UnspokenFieldStays` | `src/discord/actions.rs:1710-1738` | a field of which no entry says anything holds what it held |
| `ActionForm.FieldsHoldTheirLastValues` | `src/discord/actions.rs:1710-1738` | after any run of submissions, repeated and refused ones included, every field holds its last written value |
| `ActionForm.InjectedIdsStay` | `src/discord/actions.rs:1635-1652` | no submission alters the injected `threadId` or `conversationId` |
| `ActionForm.PageOrderDoesNotMatter` | `src/discord/actions.rs:1710-1738` | pages submitted once each give the same parameters in any order |
| `ActionForm.OnlyLastSubmissionsCount` | `src/discord/actions.rs:1710-1738` | runs with the same last value in every field give the same parameters |
| `ActionForm.PagesShowEveryField` | `src/discord/actions.rs:1699-1708` | the pages show every field once, five at a time but for the last, where submissions look for it |
| `KeyValueForm.ParseFreeFormObject` | `src/discord/actions.rs:2084-2114` | the loop over lines fails exactly on malformed lines or an empty result, and builds what its assignments write |
| `KeyValueForm.ParsingUndoesPrinting` | `src/discord/actions.rs:2084-2132` | printing an object's leaves as lines, in any order and repeated or not, and parsing them gives the object back unless the first key has a leading brace, and then the text is taken for JSON |
| `KeyValueForm.BracedKeysAreLost` | `src/discord/actions.rs:2085-2089` | an object whose only key starts with a brace prints to text that is refused |
| `KeyValueForm.LooseInteger` | `src/discord/actions.rs:2116-2132` | the decimal text of every 64-bit integer reads back as that integer |
| `KeyValueForm.ValuesOfLines` | `src/discord/actions.rs:2084-2132` | a line gives its key one of the three words in any letter case, else an integer of 64 bits, else a float, else the text |
| `KeyValueForm.IntegerNumerals` | `src/discord/actions.rs:2122-2124` | numerals may have a sign of either kind, and beyond 64 bits they are no integers |
| `LineMeaning.BracedTextIsJson` | `src/discord/actions.rs:2085-2089` | text whose first character that is not white space is a brace is JSON or refused, and only objects are taken |
| `LineMeaning.LinesAreRead` | `src/discord/actions.rs:2090-2107` | a line assigns the text after its first equals sign to the names before it; white space around them and empty names are dropped, and a line without names is refused |
| `LineMeaning.LinesWithoutEquals` | `src/discord/actions.rs:2091-2097` | a line that is not blank and has no equals sign is refused |
| `LineMeaning.RefusedLinesRefuseAll` | `src/discord/actions.rs:2090-2107` | one refused line refuses the whole text |
| `LineMeaning.BlankTextIsRefused` | `src/discord/actions.rs:2108-2112` | a text of blank lines only is refused |
| `KeyValueForm.LeavesRebuild` | `src/discord/actions.rs:2134-2154` | writing the leaves of a value rebuilds the value, in any order |
| `TaskBinding.Bind` | `src/discord/bot.rs:5913-5953` | fails exactly on a conflict, and otherwise returns the bound value, in any order of properties |
| `TaskBinding.IdsAreBound` | `src/discord/bot.rs:5913-5953` | every identifier that properties and items reach is the channel's task afterwards |
| `TaskBinding.ConflictIsElsewhereBound` | `src/discord/bot.rs:5926-5934` | binding fails exactly when some place in reach already holds anything else |
| `TaskBinding.NothingElseChanges` | `src/discord/bot.rs:5913-5953` | everything that was there is there, of the same kind and equal at the leaves |
| `TaskBinding.OnlyIdsAreInserted` | `src/discord/bot.rs:5935-5937` | nothing appears that is not an identifier in reach |
| `TaskBinding.BindingIsIdempotent` | `src/discord/bot.rs:5913-5953` | binding again finds no conflict and changes nothing |
| `TaskBinding.IdentifierSpellings` | `src/discord/bot.rs:5918-5925` | which spellings of a property name are taken for an identifier |
| `StreamHealing.StreamBuffer.AppendDelta` | `src/discord/bot.rs:99-124` | a delta extends, opens or leaves alone one segment, and whatever changes the answer marks the buffer dirty |
| `StreamHealing.StreamBuffer.CompleteItem` | `src/discord/bot.rs:126-161` | a completion replaces its own segment, adopts the anonymous one or opens one, and whatever changes the answer marks the buffer dirty |
| `StreamHealing.StreamBuffer.Text` | `src/discord/bot.rs:163-178` | the answer is the non-empty texts in order, joined by blank lines |
| `StreamHealing.Play` | `src/discord/bot.rs:98-178` | a buffer fed with a run of events holds its segments and shows its answer, and is dirty if that is not empty |
| `StreamHealing.IdsAreDistinct` | `src/discord/bot.rs:98-161` | in every run, adoption included, no two segments are of one item |
| `StreamHealing.BufferIsItsSummaries` | `src/discord/bot.rs:98-161` | with named items the buffer is one summary per item in order of first appearance |
| `StreamHealing.CompletionsHeal` | `src/discord/bot.rs:98-178` | once every item seen is completed, lost, repeated and late deltas make no difference |
| `StreamHealing.CompletionAdopts` | `src/discord/bot.rs:126-161` | a completion of an unknown item adopts the anonymous segment, in its place |
| `StreamHealing.UnnamedTextIsShownOnce` | `src/discord/bot.rs:98-178` | text streamed without an id and then completed is shown once |
| `Wav.BuildPcm16Wav` | `src/discord/bot.rs:488-508` | fails exactly if a header number does not fit its field, and so exactly which sizes, rates and channels it takes |
| `Wav.ReadingUndoesBuilding` | `src/discord/bot.rs:488-508` | a reader that checks every header field gets back exactly the samples, rate and channels |
| `RealtimeAudio.RealtimeDigest.AppendAudio` | `src/discord/bot.rs:372-429` | keeps whole blocks of one format within 9 MiB less 44 bytes, and rejects or ignores as the chunk deserves |
| `RealtimeAudio.RealtimeDigest.TakeWav` | `src/discord/bot.rs:447-456` | a recording never overflows the header, is at most 9 MiB and decodes to the retained audio |
| `RealtimeAudio.Record` | `src/discord/bot.rs:372-456` | the recording of a session decodes to the chunks before the first rejection, and says whether there was one |
| `RealtimeAudio.SessionKeepsThePrefix` | `src/discord/bot.rs:372-429` | over a session the retained audio is the concatenation of the chunks before the first rejection, and truncation is remembered exactly then |
| `RealtimeAudio.RecordingsAreWritable` | `src/discord/bot.rs:488-494` | retained audio never overflows a header field |
| `RealtimeAudio.WellFormedChunks` | `src/discord/bot.rs:372-429` | exactly which chunks are kept: length of the text, decoding, rate, channels, whole blocks and the declared number of samples |
| `RealtimeAudio.LengthsInUtf8` | `src/discord/bot.rs:394-394` | the length that is limited is that of the text in UTF-8 |
| `GodSafety.RunsKeepInvariant` | `src/discord/bot.rs:669-704` | barrier, leases, quarantine, sessions and history stay consistent in every interleaving |
| `GodSafety.NoStartAfterTheEnd` | `src/discord/bot.rs:2062-2103` | a privileged dispatch reaches Codex after its own dirty mark and before the end of the session it saw |
| `GodSafety.StartsAreLive` | `src/discord/bot.rs:2062-2103` | when it is sent its session is active for its task and no transition holds the barrier |
| `GodSafety.LeasesAreExclusive` | `src/discord/bot.rs:684-704` | at most one cleanup per task is past its lease |
| `GodSafety.OnlyConfirmedCleanupsLift` | `src/discord/bot.rs:6088-6091` | a quarantine mark or dirty row is removed only by the lease holder after a confirmed reset and a persisted audit since its lease |
| `GodSafety.FailedCleanupsStayQuarantined` | `src/discord/bot.rs:6055-6131` | a lease dropped without success leaves its task quarantined |
| `GodSafety.CleanupsBlockDispatch` | `src/discord/bot.rs:5155-5168` | a dispatch that rechecks while its task is under cleanup gives up |
| `GodSafety.UnprivilegedStartsReadNone` | `src/discord/bot.rs:2066-2078` | a dispatch that starts without privilege while a session is active for its task had its reading of the session fail |
| `GodProgress.DispatchTakesThePrivilege` | `src/discord/bot.rs:2062-2103` | from any state in which no transition holds the barrier and the task is not blocked, a dispatch for the task of the active session marks it dirty and starts with its privilege |
| `GodProgress.DispatchWithoutSession` | `src/discord/bot.rs:2062-2103` | for any other task it starts without privilege and marks nothing |
| `GodProgress.BlockedDispatchGivesUp` | `src/discord/bot.rs:5155-5168` | for a quarantined task, or one that awaits cleanup, it gives up and lets go of the barrier |
| `GodProgress.CleanupsLift` | `src/discord/bot.rs:6055-6131` | a cleanup whose calls succeed lifts every mark of its task and gives its lease back |
| `GodProgress.CleanupsYield` | `src/discord/bot.rs:684-704` | a cleanup of a task that another is cleaning up gives up, and enables nothing |
| `GodProgress.SessionsBegin` | `src/discord/bot.rs:1568-1660` | enabling a task with no session active begins a session of its own epoch |
| `GodProgress.SessionsChangeHands` | `src/discord/bot.rs:1606-1635` | enabling another task ends the session before, cleans up after it, and only then begins the new one |
| `GodProgress.SessionsAreRevoked` | `src/discord/bot.rs:5091-5131` | revoking ends the session and cleans up after it under the barrier |
| `GodProgress.SessionsExpire` | `src/discord/bot.rs:5801-5845` | an expired session is ended and quarantined under the barrier and cleaned up without it |
| `GodProgress.DirtyTasksRecover` | `src/discord/bot.rs:9049-9064` | a task left dirty by an earlier run of the program is quarantined and then cleaned up |
| `GodProgress.PrivilegedTurnsHappen` | `src/discord/bot.rs:2062-2103` | a run from the start reaches a privileged turn with its mark |
| `GodProgress.CleanupsHappen` | `src/discord/bot.rs:9049-9064` | a run from the start ends a cleanup with success and its task unquarantined |
| `PendingReplies.RunsKeepInvariant` | `src/discord/bot.rs:2951-3105` | in every interleaving a request waits, is held by one handler, is settled or was misdecided, and what was received can not be sent again |
| `PendingReplies.AtMostOneReply` | `src/discord/bot.rs:2951-3189` | Codex receives at most one reply per request, whether or not the call that sent it was reported as failed, retries included |
| `PendingReplies.ReceivedIsFinal` | `src/discord/bot.rs:10122-10140` | a reply that was received was reported as accepted, or its generation is gone or being given up |
| `PendingReplies.NoRequestIsLost` | `src/discord/bot.rs:2951-3105` | in every run in which the owner presses only buttons of the requests' cards a known request waits, is settled or is in a handler's hands |
| `PendingReplies.CardsCanBeAnswered` | `src/discord/bot.rs:7463-7487` | a card offers only decisions of which a reply can be made, and every registered request is offered one |
| `PendingReplies.NothingIsLostExactlyBySoundCards` | `src/discord/bot.rs:2951-3068` | for any choice of cards, no run loses a request exactly if they offer only decisions of which a reply can be made |
| `PendingReplies.DecisionsArePressed` | `src/discord/bot.rs:1376-1387` | every decision taken or recorded in a run was begun by a press of its button |
| `PendingReplies.LostExactlyWhenMisdecided` | `src/discord/bot.rs:2951-3068` | for the handler alone, whatever is pressed: a known request is lost exactly if its owner took a decision of which no reply can be made for its kind |
| `PendingReplies.FatesAreFinal` | `src/discord/bot.rs:2951-3189` | a request settled by an accepted reply, an expiry or Codex itself never waits again and stays settled so |
| `PendingReplies.FailuresRestore` | `src/discord/bot.rs:3171-3186` | a reply that failed, received or not, and a typed answer that made no reply put the request back |
| `PendingReplies.HowRequestsEnd` | `src/discord/bot.rs:7056-7110` | a request is settled only by an accepted reply, by an expiry whose reply failed, or by Codex's own resolution |
| `PendingProgress.DecisionsReachCodex` | `src/discord/bot.rs:2951-3105` | from any state of the other handlers, what the owner decides on a waiting request of a live process reaches Codex once and settles it, if a reply can be made of it |
| `PendingProgress.FormsReachCodex` | `src/discord/bot.rs:3141-3189` | so does what a form answers to a request that takes typed answers |
| `PendingProgress.ExpiriesReachCodex` | `src/discord/bot.rs:7056-7110` | so does the reply of an expiry |
| `PendingProgress.ExpiriesOfTheGone` | `src/discord/bot.rs:7056-7110` | a request whose process is gone expires without a reply |
| `PendingProgress.FailedDecisionsWaitAgain` | `src/discord/bot.rs:3090-3103` | a reply whose write fails, arrived or not, gives its generation up and puts the request back |
| `PendingProgress.UnsentDecisionsWaitAgain` | `src/discord/bot.rs:10122-10140` | one that could not be sent, be it that its process is gone, puts the request back and leaves the generation alone |
| `PendingProgress.UnwrittenDecisionsWaitAgain` | `src/discord/bot.rs:10122-10140` | one whose write can not be begun puts the request back and gives the generation up |
| `PendingProgress.UnusableFormsChangeNothing` | `src/discord/bot.rs:3171-3186` | a form whose text makes no reply leaves the state as it was |
| `PendingProgress.FailedExpiriesSettle` | `src/discord/bot.rs:7056-7110` | an expiry whose reply fails, arrived or not, settles the request and gives the generation up |
| `PendingProgress.UnwrittenExpiriesSettle` | `src/discord/bot.rs:7056-7110` | so does one whose write can not be begun |
| `PendingProgress.UnsentExpiriesSettle` | `src/discord/bot.rs:7056-7110` | one that can not be sent settles the request and leaves the generation alone |
| `PendingProgress.RequestsAreRegistered` | `src/discord/bot.rs:7432-7516` | from any state a new request comes to wait with its card |
| `PendingProgress.ResolvedEarlyIsWithdrawn` | `src/discord/bot.rs:7438-7447` | one that was resolved before it was registered is withdrawn at once |
| `PendingProgress.ResolvedLateGetsNoCard` | `src/discord/bot.rs:7438-7516` | one that no longer waits while it is being registered keeps neither clock nor card |
| `PendingProgress.ResolvedRequestsRetire` | `src/discord/bot.rs:7145-7180` | one that Codex resolved otherwise leaves every map and is settled so |
| `PendingProgress.OfferedDecisionsHappen` | `src/discord/bot.rs:2951-3105` | for every kind of request and every decision its card offers, a run in which that button alone is pressed ends with the one reply received and accepted |
| `PendingProgress.FormsHappen` | `src/discord/bot.rs:3141-3189` | so there is one for every kind that takes typed answers, by a form |
| `PendingProgress.ExpiriesHappen` | `src/discord/bot.rs:7056-7110` | and one for every kind, by expiry |
| `PendingProgress.GenerationsGoByFailure` | `src/discord/bot.rs:10122-10140` | a generation is given up only after its connection was lost or a reply to one of its requests failed |
| `AuditRetention.AuditTable.AuditWithRetention` | `src/state.rs:178-222` | the two deletions leave the newest rows among those young enough |
| `AuditRetention.RetainedSpelledOut` | `src/state.rs:178-222` | a row is left exactly if it is young and fewer than the limit of young rows come after it |
| `AuditRetention.IncrementalIsBatch` | `src/state.rs:178-222` | under a clock that does not go back the table is the newest rows of the whole history young enough at the last insertion |
| `AuditRetention.BatchExactlyWhenTimesAscend` | `src/state.rs:178-222` | that equation holds for every earlier table, all limits and after every insertion exactly if the times of the insertions do not go back |
| `AuditRetention.BackwardClocksLoseRows` | `src/state.rs:178-222` | one way to lose rows: a row crowded out before the clock went back is missing for good |
| `AuditRetention.AuditAll` | `src/state.rs:178-222` | any run of insertions leaves what pruning at each insertion leaves |
| `Outbox.OutboxTable.Enqueue` | `src/state.rs:300-320` | adds a row unless its key is there, keeping one row per key |
| `Outbox.BatchesSpelledOut` | `src/state.rs:322-342` | a batch holds a row exactly if it was not sent, has attempts left out of ten, and fewer than the limit of such rows are older |
| `Outbox.OutboxTable.Prune` | `src/state.rs:372-393` | the three deletions leave the newest ten thousand of the rows neither long sent nor long dead |
| `Outbox.PruningSpelledOut` | `src/state.rs:372-393` | a row not sent over a day ago, nor given up over thirty days ago, is left, or ten thousand newer rows are |
| `OutboxDelivery.RunsKeepInvariant` | `src/discord/bot.rs:8826-8971` | with one flusher and rows added at any moment: one row per key, never more than ten attempts |
| `OutboxDelivery.RowsAreConserved` | `src/state.rs:372-393` | a row still to be delivered is deleted only when ten thousand newer rows remain |
| `OutboxDelivery.RowsTellTheirHistory` | `src/discord/bot.rs:8826-8971` | in every run a row's attempts are the failed deliveries recorded for it, and it was recorded as sent at most once, at the time it is marked with |
| `OutboxDelivery.DeliveredRows` | `src/state.rs:344-362` | a delivery changes the row it delivers, by its mark or one more attempt, and no other |
| `OutboxDelivery.SuccessesEmptyTheQueue` | `src/discord/bot.rs:8826-8971` | where every delivery succeeds, every row that is left in the end was sent |
| `OutboxDelivery.QueueDrains` | `src/discord/bot.rs:8826-8971` | with no rows added the queue empties for every pattern of successes and failures, within the sum of attempts left |
| `OutboxDelivery.RoundUsesWork` | `src/discord/bot.rs:8831-8968` | every round that finds something to deliver uses up attempts |
| `OutboxDelivery.FlushOnce` | `src/discord/bot.rs:8826-8971` | one round delivers the first pending rows in order and leaves what delivering them one by one leaves |

## Left out

- Discord HTTP, embeds, the look of buttons, commands, setup, installers and Windows code: presentation and I/O only.
- Processes, pipes and timers: a process is a liveness bit and the history of its pipes, a timeout is a step that may happen at any time, and atomics are sequentially consistent.
- In the connection: errors of a write are one outcome, serialization errors and the handle slots of the log and reader tasks are not modelled, a spawn and its generation increment are one step, futures run to completion, and `start_kill` succeeds.
- The reader takes a sender out of the pending map and sends on it in one step: the code holds the map's lock across both (`src/codex/client.rs:1221-1228`). `fail_pending` takes the whole map first and tells the waiters one by one, in a step each.
- ConnectionReplies.RetriesNeverArriveTwice: assumes of the callers that a reply to a request is begun only when the one before has failed; that handlers keep to it is what `PendingReplies` proves of the maps. There a reply's fate is read off `gone`, the set of generations given up, and `ConnectionReplies.GoneForGood` and `ConnectionReplies.FailureGivesUpTheGeneration` are what the client gives for it.
- The client, the dispatch barrier with its leases and the pending maps are states of step systems, not objects updated by methods: what interleaves are single accesses, which methods would hide.
- Processes answer only ids they received, as section 5 of JSON-RPC 2.0 has it; without that, responses could not be called genuine.
- `request_id_key` and the shapes of messages beyond request, notification, reply and response: ids are numbers.
- Text of problems, type labels and guidance in `src/codex/params.rs`: a problem is a path and a complaint.
- Numbers of JSON are unbounded integers or exact reals; rounding, NaN and the comparison of integers with floats of the same value in `enum` are not modelled.
- Regular expressions, base64, float and JSON text parsing, and `parse_field_value` with its kinds: parameters that may do anything.
- RefExpansion.ExpandedAgreesWithinCaps: states agreement where both caps suffice and not that they must suffice for every schema and value, because verdicts can also agree by chance beyond the caps; for each cap there is a family on which they must (`RefExpansion.ListsAgreeExactlyWhenTheyFit`, `RefExpansion.DeepTargetsAgreeExactlyWhenTheyFit`), and `RefExpansion.ExpandedIsCappedUnfolding` says exactly what is accepted beyond them.
- TaskBinding.Bind: says nothing of the partly bound value after a failure, which the caller discards with the call.
- Labels, kinds, allowed values and policies of form fields: read off path and schema, never written; page arithmetic is unbounded.
- ActionForm.ActionDraft.FromCapability: leaves out risk, authorization and renderer, which come from a static table.
- The transcript side of the realtime digest, its message ids and counters.
- Authentication, warning messages and the session service beyond "one session, ended by enabling, revoking or expiry, with a cleanup mark": its failures are choices of a step.
- Dispatches other than `dispatch_task_input` under the same barrier, and whether a dispatched turn is a start or a steer.
- The path that rejects a server request whose Discord card could not be sent (`src/discord/bot.rs:7499-7511`): it replies without having taken the request, so at most one reply is not claimed for it.
- What a pending request offers beyond its kind: decisions are names or indexes, a typed answer may fail for reasons of its own, and a reply that cannot be serialized fails without touching the connection.
- PendingReplies.NoRequestIsLost: takes it that decisions come from the buttons of the request's own card, since control ids carry the request's random identifier and no other place issues them; the button of a link and the one that opens a form's answer are no decisions.
- Messages that show cards, persisted rows and the fifteen-minute clock of pending requests: any waiting request may expire at any time.
- Last errors, channels, kinds and media files of outbox rows; a failing store is the action `Unrecorded`, and `OutboxDelivery.QueueDrains` assumes recorded deliveries.
- SQLite: a statement is one step on a sequence of rows, and ids grow as AUTOINCREMENT makes them.
- The action registry, notification classification, risk lists and coverage counts: finite tables with nothing to prove for all inputs.
