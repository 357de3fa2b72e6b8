# quick-lint-js: buffering visitor and global-variable configuration, in Dafny

This project models two sequential pieces of quick-lint-js, a JavaScript
linter, and proves properties of the models.

**The buffering parse-visitor** (`buffering_visitor.dfy`, with
`parse_visitor.dfy`, `lex.dfy`, `language.dfy`). The parser reports what it
sees by calling a visitor: scopes entered and left, variables declared,
used, assigned, deleted. `buffering_visitor` records those calls so they
can be replayed later to another visitor, either by moving the buffer out
or by copying it. Here the visitor interface is a sum type
(`ParseVisitor.VisitorCall`). A recorded `visit` is a `VisitKind` (23
values) plus a payload whose shape the kind determines (`WellFormed`). The
buffer is a `seq<Visit>`. Every override is a pure function that appends
one record. Replay is a dispatch `Replayed` from a well-formed record back
to the call it stands for. Its inverse `Recorded` is the record each call
is stored as.

**The global-variable configuration** (`configuration.dfy`,
`configuration_loading.dfy`, `json.dfy`). A `Config` holds three group
flags (browser, ECMAScript, Node.js), the explicitly declared globals and
the list of names to remove. `Globals` computes the effective set of
declared globals. The loaders interpret the `"global-groups"` and
`"globals"` keys of a configuration document. The document is an abstract
JSON value: a value whose type the parser cannot read is `JMalformed`,
and a document it rejects is `Unparsable`. Reported errors go
to an append-only log. `RemoveTrailingJsonWhitespace` trims whitespace as
section 2 of RFC 8259 defines it, and `SpanOfJsonValue` uses it to compute
the span an error points at.

As written, `configuration::reset` re-enables the ECMAScript and Node.js
groups but leaves the browser flag as it was. The model does the same
(`Configuration.Reset`, `Configuration.ResetForgetsAllButBrowser`).

## Model

| member | source | states |
|---|---|---|
| Buffering.New | src/quick-lint-js/buffering-visitor.h:23-24 | a new recorder holds no records |
| Buffering.Add | src/quick-lint-js/buffering-visitor.h:152-154 | appends one record that carries only the given kind; earlier records are unchanged |
| Buffering.AddNamed | src/quick-lint-js/buffering-visitor.h:156-158 | appends one record that carries the given kind and identifier; earlier records are unchanged |
| Buffering.Recorded | src/quick-lint-js/buffering-visitor.h:160-196 | the record a call is stored as is well-formed and replays as that same call |
| Buffering.RecordedReplayed | src/quick-lint-js/buffering-visitor.h:174-195 | the other direction of the round trip: a well-formed record replays as a call whose record is the record itself, so its kind and payload are exactly what the call carries |
| Buffering.RecordedInjective | src/quick-lint-js/buffering-visitor.h:160-172 | distinct calls are stored as distinct records: no two calls share both kind and payload |
| Buffering.ReplayedInjective | src/quick-lint-js/buffering-visitor.h:174-195 | two well-formed records that replay as the same call are the same record, so replay loses nothing a record holds |
| Buffering.RecordsCallPreservesValid | src/quick-lint-js/buffering-visitor.h:174-195 | appending a call's record keeps every record in the buffer well-formed (kind matches payload shape), and the new record replays as the call |
| Buffering.VisitEndOfModule | src/quick-lint-js/buffering-visitor.h:29 | appends exactly one record after the unchanged earlier ones, and it replays as `end_of_module` |
| Buffering.VisitEnterBlockScope | src/quick-lint-js/buffering-visitor.h:31-33 | appends one record after the unchanged earlier ones, replaying as `enter_block_scope` |
| Buffering.VisitEnterWithScope | src/quick-lint-js/buffering-visitor.h:35-37 | appends one record after the unchanged earlier ones, replaying as `enter_with_scope` |
| Buffering.VisitEnterClassScope | src/quick-lint-js/buffering-visitor.h:39-41 | appends one record after the unchanged earlier ones, replaying as `enter_class_scope` |
| Buffering.VisitEnterForScope | src/quick-lint-js/buffering-visitor.h:43-45 | appends one record after the unchanged earlier ones, replaying as `enter_for_scope` |
| Buffering.VisitEnterFunctionScope | src/quick-lint-js/buffering-visitor.h:47-49 | appends one record after the unchanged earlier ones, replaying as `enter_function_scope` |
| Buffering.VisitEnterFunctionScopeBody | src/quick-lint-js/buffering-visitor.h:51-53 | appends one record after the unchanged earlier ones, replaying as `enter_function_scope_body` |
| Buffering.VisitEnterNamedFunctionScope | src/quick-lint-js/buffering-visitor.h:55-57 | appends one record that replays as `enter_named_function_scope` with the same identifier |
| Buffering.VisitExitBlockScope | src/quick-lint-js/buffering-visitor.h:59-61 | appends one record after the unchanged earlier ones, replaying as `exit_block_scope` |
| Buffering.VisitExitWithScope | src/quick-lint-js/buffering-visitor.h:63-65 | appends one record after the unchanged earlier ones, replaying as `exit_with_scope` |
| Buffering.VisitExitClassScope | src/quick-lint-js/buffering-visitor.h:67-69 | appends one record after the unchanged earlier ones, replaying as `exit_class_scope` |
| Buffering.VisitExitForScope | src/quick-lint-js/buffering-visitor.h:71-73 | appends one record after the unchanged earlier ones, replaying as `exit_for_scope` |
| Buffering.VisitExitFunctionScope | src/quick-lint-js/buffering-visitor.h:75-77 | appends one record after the unchanged earlier ones, replaying as `exit_function_scope` |
| Buffering.VisitKeywordVariableUse | src/quick-lint-js/buffering-visitor.h:79-81 | appends one record that replays as `keyword_variable_use` with the same identifier |
| Buffering.VisitPropertyDeclaration | src/quick-lint-js/buffering-visitor.h:83-89 | with a name, records kind `property_declaration_with_name`; without one, kind `property_declaration_without_name`; either way the record replays as the same optional name |
| Buffering.VisitVariableAssignment | src/quick-lint-js/buffering-visitor.h:91-93 | appends one record that replays as `variable_assignment` with the same identifier |
| Buffering.VisitVariableDeclaration | src/quick-lint-js/buffering-visitor.h:95-99 | appends one record that replays with the same identifier, variable kind and init kind |
| Buffering.VisitVariableDeleteUse | src/quick-lint-js/buffering-visitor.h:101-105 | appends one record that replays with the same operand identifier and delete-keyword span |
| Buffering.VisitVariableExportUse | src/quick-lint-js/buffering-visitor.h:107-109 | appends one record that replays as `variable_export_use` with the same identifier |
| Buffering.VisitVariableTypeUse | src/quick-lint-js/buffering-visitor.h:111-113 | appends one record that replays as `variable_type_use` with the same identifier |
| Buffering.VisitVariableTypeofUse | src/quick-lint-js/buffering-visitor.h:115-117 | appends one record that replays as `variable_typeof_use` with the same identifier |
| Buffering.VisitVariableUse | src/quick-lint-js/buffering-visitor.h:119-121 | appends one record that replays as `variable_use` with the same identifier |
| Buffering.Receive | src/quick-lint-js/buffering-visitor.h:29-121 | whichever visitor operation a producer calls, exactly one record is appended and it replays as that call |
| Buffering.RecordAll | src/quick-lint-js/buffering-visitor.h:29-121 | a run of calls keeps the earlier records and appends one record per call, in call order |
| Buffering.RecordAllAppends | src/quick-lint-js/buffering-visitor.h:198-199 | what a run of calls stores does not depend on what the buffer held before |
| Buffering.ReplayAll | src/quick-lint-js/buffering-visitor.h:26-27 | replay yields one call per record, and each call is stored back as the same record |
| Buffering.CopyInto | src/quick-lint-js/buffering-visitor.h:27 | the target's earlier calls are kept; the calls it then receives, recorded by a fresh recorder, reproduce the buffer exactly; the buffer itself is not changed |
| Buffering.MoveInto | src/quick-lint-js/buffering-visitor.h:26 | the target receives the same calls a copy would give it, and the recorder is left empty |
| Buffering.RecordThenReplay | src/quick-lint-js/buffering-visitor.h:26-27 | recording calls in a fresh recorder and replaying them gives back exactly those calls, in order |
| Buffering.RecordAllInjective | src/quick-lint-js/buffering-visitor.h:160-172 | two runs of calls that a fresh recorder stores identically are the same run |
| Buffering.CopyIntoRecorder | src/quick-lint-js/buffering-visitor.h:27 | copying one buffering visitor into another appends the first's records, unchanged, after the second's |
| Buffering.MoveTwiceReplaysNothing | src/quick-lint-js/buffering-visitor.h:26 | a second move replays nothing, and recording after a move starts a fresh sequence |
| Json.FindField | src/configuration.cpp:194-195 | a key lookup finds nothing exactly when no field has that key |
| Json.FindFieldFindsFirst | src/configuration.cpp:369-377 | a lookup that succeeds returns the value of the first field with the key |
| Json.HasNonWhitespaceIff | src/configuration.cpp:453-458 | the "contains a non-whitespace character" condition holds exactly when some character is not tab, LF, CR or space |
| Json.RemoveTrailingJsonWhitespace | src/configuration.cpp:452-460 | on an input with a non-whitespace character, returns a non-empty prefix whose last character is not RFC 8259 whitespace, and everything dropped is whitespace |
| Json.RemoveTrailingJsonWhitespaceIdempotent | src/configuration.cpp:452-460 | trimming an already trimmed string changes nothing |
| Json.SpanOfJsonValue | src/configuration.cpp:462-467 | an error span starts at the value, is non-empty, and ends on the last character of the raw token that is not whitespace: only whitespace of the token lies after it |
| Configuration.ResetGlobalGroups | src/configuration.cpp:148-152 | all three group flags are cleared; declared and removed globals are untouched |
| Configuration.ResetGlobalGroupsAddsNothing | src/configuration.cpp:148-152 | after the groups are reset, the effective globals are exactly the explicitly declared ones |
| Configuration.AddGlobalGroup | src/configuration.cpp:154-168 | returns true exactly for "browser", "ecmascript" and "node.js" and sets only the matching flag; any other name returns false and changes nothing |
| Configuration.AddGlobalGroupCommutes | src/configuration.cpp:154-168 | enabling two groups gives the same state in either order |
| Configuration.AddGlobalGroupIdempotent | src/configuration.cpp:154-168 | enabling a group twice is the same as enabling it once |
| Configuration.AddGlobalVariable | src/configuration.cpp:170-173 | the name is declared with both attributes true; no other name and no flag changes |
| Configuration.RemoveGlobalVariable | src/configuration.cpp:175-177 | appends exactly the name to the removal list: the earlier entries keep their order, the new last entry is the name, and membership becomes old entries plus the name |
| Configuration.ShouldRemoveGlobalVariable | src/configuration.cpp:403-407 | true exactly when the name is on the removal list |
| Configuration.Reset | src/configuration.cpp:246-253 | enables ECMAScript and Node.js, declares no global, empties the removal list, leaves the browser flag |
| Configuration.ResetForgetsAllButBrowser | src/configuration.cpp:246-253 | two configurations that agree on the browser flag reset to the same state |
| Configuration.AddGroupVariables | src/configuration.cpp:96-100 | every name of the list that is not on the removal list gets the given attributes; every other name keeps its previous declaration |
| Configuration.Globals | src/configuration.cpp:25-146 | each name's resulting declaration is `EffectiveGlobal`: a group adds its names only when its flag is set and the name is not to be removed, later groups win, and nothing but the declared set changes |
| Configuration.EcmascriptValuePropertiesAreNonWritable | src/configuration.cpp:102-114 | with ECMAScript enabled, `Infinity`, `NaN` and `undefined` that are not removed are declared non-writable and shadowable, whatever the Node.js group does |
| Configuration.NodeJsModuleVariablesAreNotShadowable | src/configuration.cpp:133-142 | with Node.js enabled, the five module variables that are not removed are declared non-shadowable and writable |
| Configuration.RemovedNamesAreNotAdded | src/configuration.cpp:96-100 | a name on the removal list keeps only its explicit declaration, if any |
| Configuration.GlobalsIdempotent | src/configuration.cpp:25-146 | recomputing the globals on the already computed set gives the same effective set |
| ConfigurationLoading.ReportJsonError | src/configuration.cpp:441-449 | appends exactly one syntax error with an empty span at offset 0 |
| ConfigurationLoading.GetBoolOrDefault | src/configuration.cpp:409-439 | missing gives the default silently; a boolean gives itself; another type is reported once and gives the default; malformed JSON fails without a report |
| ConfigurationLoading.LoadGroupArray | src/configuration.cpp:278-316 | each string entry enables the group it names (unknown names ignored), each other entry is reported in order, and loading fails exactly when an entry is malformed |
| ConfigurationLoading.LoadGroupArrayStops | src/configuration.cpp:286-314 | loading an array stops at its first malformed entry: the flags and the log are what the entries before it give, whether or not loading fails |
| ConfigurationLoading.GroupFlagsStep | src/configuration.cpp:286-297 | one more array entry enables a group exactly when that group was enabled before or the entry is its name |
| ConfigurationLoading.LoadGlobalGroupsFromJson | src/configuration.cpp:255-328 | `true` keeps the flags; `false` clears them; an array sets exactly the groups named before its first malformed entry (all of them when there is none) and reports the non-string entries before that point; null, number, object or string is reported once and keeps the flags; globals never change |
| ConfigurationLoading.DeclarationStep | src/configuration.cpp:332-391 | one more entry on top of a run: the name it declares takes its attributes, and other names keep theirs |
| ConfigurationLoading.RemovedNamesStep | src/configuration.cpp:356-358 | one more `false` entry appends its name after the names the earlier entries removed |
| ConfigurationLoading.DescriptorErrorsStep | src/configuration.cpp:384-389 | one more entry's errors follow the errors of the earlier entries |
| ConfigurationLoading.ReadDescriptorProperty | src/configuration.cpp:369-380 | a descriptor property reads as the boolean written there, or true when it is missing or of another type (then reported once); malformed JSON fails the read |
| ConfigurationLoading.LoadDescriptor | src/configuration.cpp:362-383 | an object descriptor declares the name with its `shadowable` and `writable` values (true when missing or mistyped); errors are reported shadowable first; loading fails exactly when a property is malformed |
| ConfigurationLoading.LoadGlobal | src/configuration.cpp:348-390 | `true` declares the name, `false` puts it on the removal list, an object declares it with its shadowable/writable values (default true), another type is reported; a value whose type cannot be read fails with the configuration and log unchanged; flags never change |
| ConfigurationLoading.LoadGlobalsFromJson | src/configuration.cpp:330-393 | loading succeeds exactly when no entry is malformed; then each name is declared as its last declaring entry says, `false` names are appended to the removal list in order, and errors follow the entries' order |
| ConfigurationLoading.LoadGroupsSection | src/configuration.cpp:194-209 | a missing "global-groups" changes nothing; a present one gives exactly what loading its value gives, except that a failure appends one syntax error, the only one it adds, as the last log entry; globals never change |
| ConfigurationLoading.LoadGlobalsSection | src/configuration.cpp:211-243 | a missing "globals" changes nothing; an object gives exactly what loading its entries gives, except that a failure appends one syntax error as the last log entry; a malformed value fails with only that error; another type is reported once as a type mismatch; group flags never change |
| ConfigurationLoading.LoadFromJson | src/configuration.cpp:179-244 | a parse failure or a non-object root adds one syntax error and changes nothing; for an object root, "global-groups" is loaded first and, if that fails, the result is its result, otherwise "globals" is loaded on top; a failure appends exactly one syntax error, at the start of the input, as the last log entry |
| ConfigurationLoading.GlobalsFalseSuppressesGroups | src/configuration.cpp:354-358 | a name that "globals" sets to `false` is never declared by a group afterwards |

## Left out

- The memory resource the buffer and the saved strings are allocated from, the `[[gnu::noinline]]` hint, and arena release in `reset`. They concern allocation, not behaviour. `save_string` is the identity on contents.
- The bodies of `move_into` and `copy_into` are not modelled; only their declarations (src/quick-lint-js/buffering-visitor.h:26-27) are. `Replayed` is a dispatch written for the model, and the replay contracts are stated abstractly. Because `CopyInto` is a pure function of the buffer, repeated copies are equal by construction.
- `lex.h` and `language.h` are not part of this model. Identifiers and spans are plain values with offsets. The variable-kind enumerators are named after the declaration kinds a JavaScript parser reports.
- `global_declared_variable_set` is not part of this model. It is a map from name to attributes, and declaring a name again replaces its attributes with the defaults. One consequence follows from this choice: `globals()` adds group names on top of the explicit declarations, so an enabled group overrides an explicit declaration of the same name. For example, with "node.js" enabled, `"globals": {"console": {"writable": false}}` leaves `console` writable (`Configuration.EffectiveGlobal` gives an enabled group priority over an explicit declaration). A set that kept the first declaration would behave differently; the set is not modelled.
- The browser group's name table is external data, so `Configuration.Globals` takes it as a parameter.
- simdjson is a foreign library. The document is an abstract JSON value. A value whose type the on-demand parser cannot read, or whose lookup fails, is one `JMalformed` value. A key that cannot be unescaped is folded into a malformed value, since both fail the step without changing the state.
- A scalar whose type reads but whose contents do not (a misspelt `true` such as `tru`, a string with a bad escape) is not modelled. The program fails on such a value where it reads the contents (src/configuration.cpp:266-268, 311-312, 351-353). It reports a type mismatch and carries on where it reads only the type (src/configuration.cpp:221-229, 299-309, 318-325, 385-389). So `{"globals": tru}` is a type mismatch in the program, and `{"global-groups": ["browser", tru]}` reports a group type mismatch and goes on to `"globals"`; neither input has a counterpart in the model.
- Object lookups (`document[...]`, `descriptor_object[...]`) are modelled as "first field with the key". Errors met while scanning past other fields are not modelled.
- The `QLJS_UNIMPLEMENTED` paths at src/configuration.cpp:282, 342, 365 and 427 are library failures assumed unreachable.
- The default values of the configuration's fields (set in `configuration.h`) are not part of this model.
- test/test-c-api.cpp drives the whole linter through its C API. None of that code is modelled.
- ConfigurationLoading.LoadGlobalsFromJson: when an entry is malformed, the contract says only that loading fails, the flags are unchanged and the log keeps its prefix. It does not say which earlier entries were applied.
- ConfigurationLoading.LoadGroupArray: its own contract gives the flags and the log only when loading succeeds. The lemma `ConfigurationLoading.LoadGroupArrayStops` states what a malformed entry leaves.
- ConfigurationLoading.LoadGlobal: when a descriptor property is malformed, the contract says only that loading fails. It does not say the name was already declared with its defaults.
- ConfigurationLoading.LoadDescriptor: the same as LoadGlobal. When a property is malformed, the contract says only that loading fails and the removal list and flags are unchanged.
