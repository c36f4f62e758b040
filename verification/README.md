# Model validator and relational command executor

This project models two sequential components of an object-relational
mapper in Dafny and proves properties of the model:

- `ModelValidation` (`ModelValidator.dfy`) is the metadata-graph validator. It
  runs four checks, in order, over a read-only graph of entity types,
  properties, keys and foreign keys, which are referred to by integer ids:
  no shadow entity type, no shadow key (warnings only), a primary key on every
  entity type, and a valid value-generation chain for every foreign-key
  property. The last check is a memoised depth-first search for each
  property's root principal. It detects cycles on an immutable path of
  visited foreign keys. `ShowError` throws, so in the model it aborts: a check
  returns its error and no later step runs. `ShowWarning` appends to a
  warnings log threaded through the checks. Messages are tagged values that
  carry ids.
- `RelationalCommands` (`RelationalCommand.dfy`) is the command executor. It
  builds a provider command from the command text, the connection's
  transaction and timeout, and the parameters. It then runs one skeleton for
  the non-query, scalar and reader modes, synchronously or asynchronously:
  create, before event, open, log, execute, catch (error event, compensating
  close, rethrow), finally (close), after event. The provider objects are
  classes with state. The connection records its `Open`/`OpenAsync` calls and
  counts its `Close` calls. The command records its executions and whether it
  was disposed. The logger and the telemetry source share one event log. The
  outcome of every physical step that may fail (opening, executing, acquiring
  a reader) is a parameter: it returns a value or throws a fault.

The root-principal search is specified twice. The ghost functions
`Resolve`, `ScanFrom`, `Follow` and `Decide` follow lines 97-186 step by step,
and `VerifyRootPrincipal` and its loops are proved to compute exactly what
they compute. Separately, the predicates `Chain`, `Reaches`, `ValidRoot`,
`ChainError` and `IsCycle` say what a root and an error are in terms of chains
of foreign keys alone. The proofs connect the two:

- Every root returned or memoised is a value-generating property that a chain
  of foreign keys reaches. When the property itself requires a value
  generator, it is its own root.
- `ForeignKeyValueGenerationOnAdd` names a value-generating property reached
  from the checked one, and one of its foreign keys leads on to a
  value-generating property.
- `PrincipalKeyNoValueGenerationOnAdd` names a reached property that neither
  requires a value generator nor is a dependent property.
- A cycle message names a repeat-free chain of foreign keys that returns to
  the entity type it started from.
- The chain check itself (`CheckFrom`, lines 80-94) fails on the first error
  and otherwise records a valid root for every dependent property.
- In a model without cycles, the chain check passes exactly when every chain
  from every dependent property is well rooted: a property on it is a
  dependent property exactly when it does not require a value generator.
  When, in addition, all chains from a property end at the same root, the
  check adds no warning.

Termination rests on the visited path staying free of repeats, which bounds
its length by the number of foreign keys. The executor's methods state their
whole effect, on both the success and the failure paths: open and close
calls, disposal, executions with their cancellation token, events, and reader
ownership.

Three behaviours of the code are worth knowing:

- Only the exactly-one-candidate outcome is memoised
  (src/EntityFramework.Core/Internal/ModelValidator.cs:182-185). The
  self-root outcome (line 163) and the ambiguous-root outcome (line 179) are
  not stored. A later search for the same property scans again.
- `errorMessage` holds the message of the last position the scan handled: the
  cycle of line 123, or the `out errorMessage` of the recursive search at
  line 126, which may be none. With two or more candidates it is returned as
  it is (line 179), and the top level shows it as an error (lines 88-91)
  although a root was found. With exactly one candidate it is cleared
  (line 182). `Decide`, and with it `VerifyRootPrincipal`, returns the message
  in the same way.
- A fault from `connection.Open()` is raised after the command was created
  and before the `try`
  (src/EntityFramework.Relational/Storage/Internal/RelationalCommand.cs:176-188).
  The created command is therefore never disposed. `Run` states that in this
  case the command is not disposed.

## Model

| member | source | states |
|---|---|---|
| ModelValidation.Validate | src/EntityFramework.Core/Internal/ModelValidator.cs:16-22 | The four checks run in order, and the first error ends the validation. With a shadow entity type there are no warnings. With a missing primary key the warnings are exactly the shadow-key warnings. Otherwise the outcome is the chain check's, run after the shadow-key warnings: its error, which is a chain error or a cycle, or a pass that records a valid root for every dependent property. In a model without cycles it passes exactly when every chain is well rooted, and then with only the shadow-key warnings when every chain has one root. |
| ModelValidation.FirstOrDefault | src/EntityFramework.Core/Internal/ModelValidator.cs:26 | Returns the position of the first element that satisfies the predicate, or none when no element does. |
| ModelValidation.EnsureNoShadowEntities | src/EntityFramework.Core/Internal/ModelValidator.cs:24-31 | Fails if and only if some entity type has no CLR type. The error names the first such entity type in model order. |
| ModelValidation.EnsureNonNullPrimaryKeys | src/EntityFramework.Core/Internal/ModelValidator.cs:66-75 | Fails if and only if some entity type lacks a primary key. The error names the first such entity type in model order. |
| ModelValidation.ShadowProperties | src/EntityFramework.Core/Internal/ModelValidator.cs:48 | Holds exactly the shadow properties among the given properties. |
| ModelValidation.ShadowPropertiesAppend | src/EntityFramework.Core/Internal/ModelValidator.cs:48 | The filter keeps order: the shadow properties of a list with one more property are those of the list, followed by that property when it is a shadow property. |
| ModelValidation.ShadowKeyMessage | src/EntityFramework.Core/Internal/ModelValidator.cs:41-58 | Names the key's properties, its entity type and exactly its shadow properties, in key order. It takes the referenced form if and only if some foreign key references the key. That form carries the properties and the declaring entity type of the first referencing foreign key. |
| ModelValidation.EntityShadowKeys | src/EntityFramework.Core/Internal/ModelValidator.cs:37-39 | Lists only keys that have a shadow property. |
| ModelValidation.ShadowKeysUpTo | src/EntityFramework.Core/Internal/ModelValidator.cs:35-39 | Lists only keys that have a shadow property. |
| ModelValidation.ShadowKeyStep | src/EntityFramework.Core/Internal/ModelValidator.cs:37-61 | Visiting the next key adds exactly that key's warning when the key has a shadow property, and adds nothing otherwise. |
| ModelValidation.EnsureNoShadowKeys | src/EntityFramework.Core/Internal/ModelValidator.cs:33-64 | Never fails. It appends exactly the shadow-key warnings, in entity-type and key order. |
| ModelValidation.EntityShadowKeysMembership | src/EntityFramework.Core/Internal/ModelValidator.cs:37-39 | A key is listed for an entity type if and only if it is one of that entity type's keys and has a shadow property. |
| ModelValidation.ShadowKeysUpToMembership | src/EntityFramework.Core/Internal/ModelValidator.cs:35-39 | A pair is listed if and only if the key belongs to a visited entity type and has a shadow property. |
| ModelValidation.ShadowKeyWarnedIff | src/EntityFramework.Core/Internal/ModelValidator.cs:33-64 | A key of an entity type gets a warning if and only if it has a shadow property. That warning is the key's own message. |
| ModelValidation.ShadowKeyWarningsSound | src/EntityFramework.Core/Internal/ModelValidator.cs:33-64 | Every shadow-key warning is the message of a key, belonging to its listed entity type, that has a shadow property. |
| ModelValidation.Assign | src/EntityFramework.Core/Internal/ModelValidator.cs:131-145 | Assigning to the root dictionary keeps its keys distinct. An existing key keeps its position and takes the new foreign key. A new key goes last. |
| ModelValidation.AssignKeepsCandidates | src/EntityFramework.Core/Internal/ModelValidator.cs:127-145 | Recording a valid root under a foreign key that has the property as a dependent keeps every collected candidate valid. |
| ModelValidation.MultipleRootsWarning | src/EntityFramework.Core/Internal/ModelValidator.cs:168-177 | The warning names the first entry's foreign key by its declaring entity type and properties, the first root and its entity type, the second entry's foreign-key properties, and the second root and its entity type. |
| ModelValidation.DistinctLength | src/EntityFramework.Core/Internal/ModelValidator.cs:119 | A repeat-free sequence of ids below n has at most n elements. |
| ModelValidation.PathBound | src/EntityFramework.Core/Internal/ModelValidator.cs:119-126 | The visited path never holds more foreign keys than the model has. |
| ModelValidation.ExtendPath | src/EntityFramework.Core/Internal/ModelValidator.cs:126 | Extending the path with an unvisited foreign key of the current entity type yields a path to that key's principal entity type. The extended path stays within the bound, so the search terminates. |
| ModelValidation.CycleStart | src/EntityFramework.Core/Internal/ModelValidator.cs:121 | Returns the position of the first occurrence of the foreign key on the path. |
| ModelValidation.CycleOfPath | src/EntityFramework.Core/Internal/ModelValidator.cs:119-123 | The suffix of the path that starts at a foreign key of the current entity type is a cycle. |
| ModelValidation.NoPositionNotDependent | src/EntityFramework.Core/Internal/ModelValidator.cs:150-160 | A property that no position of its entity type's foreign keys holds is not a dependent property. |
| ModelValidation.Resolve | src/EntityFramework.Core/Internal/ModelValidator.cs:97-186 | The search from any valid state keeps every memo entry, adds only valid ones and adds only ambiguity warnings. Its outcome is sound: an abort is a chain error of the property, a root is valid for it, no root comes with an error message, and every error message names a cycle. |
| ModelValidation.Decide | src/EntityFramework.Core/Internal/ModelValidator.cs:150-185 | After a scan that kept its state valid, the outcome is sound in the same sense as for `Resolve`. Memo entries stay valid and only an ambiguity warning is added. |
| ModelValidation.ScanFrom | src/EntityFramework.Core/Internal/ModelValidator.cs:112-148 | The scan from any position keeps the memo valid, adds only ambiguity warnings, and either aborts with a chain error or leaves distinct valid candidates and a cycle message or none. A scan that records neither a root nor a message met no position holding the property. |
| ModelValidation.Follow | src/EntityFramework.Core/Internal/ModelValidator.cs:116-146 | Following one position keeps the memo valid and adds only ambiguity warnings. It aborts with a chain error, or it records a candidate or a cycle message. |
| ModelValidation.VerifyRootPrincipal | src/EntityFramework.Core/Internal/ModelValidator.cs:97-186 | Returns exactly the outcome, memo table and warnings of `Resolve` from the same state. |
| ModelValidation.ScanForeignKeys | src/EntityFramework.Core/Internal/ModelValidator.cs:111-148 | Returns exactly the abort, memo table, warnings, candidates and error message of `ScanFrom` from the first position with no candidates and no message. |
| ModelValidation.ScanForeignKey | src/EntityFramework.Core/Internal/ModelValidator.cs:114-147 | On an abort, the result is the scan's from this foreign key. Otherwise the state stays valid and the scan from the next foreign key ends as the scan from this one. |
| ModelValidation.ScanPosition | src/EntityFramework.Core/Internal/ModelValidator.cs:114-117 | On an abort, the result is the scan's from this position. Otherwise the state stays valid and the scan from the next position ends as the scan from this one. |
| ModelValidation.FollowForeignKey | src/EntityFramework.Core/Internal/ModelValidator.cs:116-146 | Returns exactly the step of `Follow` for the same position and state. |
| ModelValidation.CheckProperty | src/EntityFramework.Core/Internal/ModelValidator.cs:86-91 | Checking one dependent property adds only ambiguity warnings. A failure is a chain error of some dependent property or a cycle. A pass keeps the memo and the roots valid and records a root for that property only. |
| ModelValidation.CheckFrom | src/EntityFramework.Core/Internal/ModelValidator.cs:80-94 | The chain check from any position adds only ambiguity warnings. A failure is a chain error of some dependent property or a cycle. A pass keeps the roots valid and never drops one. |
| ModelValidation.VerifyForeignKeyProperty | src/EntityFramework.Core/Internal/ModelValidator.cs:86-91 | Ends exactly as `CheckProperty` for the same state: its error and warnings, or its memo, warnings and roots. |
| ModelValidation.VerifyForeignKeyProperties | src/EntityFramework.Core/Internal/ModelValidator.cs:84-92 | On an error, the result is that of the chain check from this foreign key. Otherwise the memo and roots stay valid, and the chain check from the next foreign key ends as the one from this foreign key. |
| ModelValidation.VerifyEntityTypeForeignKeys | src/EntityFramework.Core/Internal/ModelValidator.cs:82-93 | On an error, the result is that of the chain check from this entity type. Otherwise the memo and roots stay valid, and the chain check from the next entity type ends as the one from this entity type. |
| ModelValidation.EnsureValidForeignKeyChains | src/EntityFramework.Core/Internal/ModelValidator.cs:77-95 | Ends exactly as the chain check over the whole model from an empty memo: its error and warnings, or its warnings and roots. |
| ModelValidation.CheckCovers | src/EntityFramework.Core/Internal/ModelValidator.cs:80-94 | A passing chain check from a position has recorded a root for every position from there on. |
| ModelValidation.DependentChecked | src/EntityFramework.Core/Internal/ModelValidator.cs:80-84 | Every dependent property sits at some position of the chain check. |
| ModelValidation.ChainCheckRoots | src/EntityFramework.Core/Internal/ModelValidator.cs:77-95 | When the chain check passes, every dependent property has a root recorded, and that root is valid for it. |
| ModelValidation.ResolveClean | src/EntityFramework.Core/Internal/ModelValidator.cs:97-186 | In a model without cycles and with a memo that holds only well-rooted properties, a search that does not abort was started from a well-rooted property and leaves only well-rooted properties in the memo. |
| ModelValidation.ScanClean | src/EntityFramework.Core/Internal/ModelValidator.cs:112-148 | In a model without cycles, and with a memo that holds only well-rooted properties, a scan that does not abort keeps the memo so. Every position from the start on that holds the property then leads to a well-rooted principal property, and the property does not require a value generator. |
| ModelValidation.ScanCleanAt | src/EntityFramework.Core/Internal/ModelValidator.cs:116-146 | The same for a scan starting at a position that holds the property. |
| ModelValidation.ResolveComplete | src/EntityFramework.Core/Internal/ModelValidator.cs:97-186 | In a model without cycles, the search from a well-rooted property returns a root and no error message. When every chain has one root, it adds no warning. |
| ModelValidation.ScanComplete | src/EntityFramework.Core/Internal/ModelValidator.cs:112-148 | In a model without cycles, the scan for a well-rooted property never aborts and leaves no error message. When every chain has one root, it collects at most one candidate and adds no warning. |
| ModelValidation.ScanCompleteAt | src/EntityFramework.Core/Internal/ModelValidator.cs:116-146 | The same for a scan starting at a position that holds the property. |
| ModelValidation.CheckClean | src/EntityFramework.Core/Internal/ModelValidator.cs:80-94 | In a model without cycles, and with a memo that holds only well-rooted properties, a chain check that passes from a position shows that every dependent property at a position from there on is well rooted. |
| ModelValidation.CheckComplete | src/EntityFramework.Core/Internal/ModelValidator.cs:80-94 | In a model without cycles, a chain check whose remaining properties are all well rooted passes. When every chain has one root, it adds no warning. |
| ModelValidation.ChainCheckAcyclic | src/EntityFramework.Core/Internal/ModelValidator.cs:77-95 | In a model without cycles, the chain check passes if and only if every chain from every dependent property is well rooted. When every chain also has one root, it adds no warning. |
| RelationalCommands.BoundParameters | src/EntityFramework.Relational/Storage/Internal/RelationalCommand.cs:316-324 | Produces one provider parameter per parameter, in list order, each with that parameter's name, value, nullability and type mapping. |
| RelationalCommands.Closes | src/EntityFramework.Relational/Storage/Internal/RelationalCommand.cs:205-217 | Once the action has run, the connection is closed at most once. It is closed exactly when the executor was asked to close it, or when it opened the connection and the action threw. |
| RelationalCommands.Trace | src/EntityFramework.Relational/Storage/Internal/RelationalCommand.cs:176-225 | The before event comes first. A failed open writes nothing more. Otherwise the log-command event follows. An after event appears exactly when neither the open nor the action failed. A command-error event carries the action's own exception. Every telemetry event carries the command, the method and the async flag. |
| RelationalCommands.CommandErrorIffFault | src/EntityFramework.Relational/Storage/Internal/RelationalCommand.cs:196-211 | Once the connection is open, a command-error event is written exactly when the action throws, and it is then the last event. |
| RelationalCommands.AsyncMirrorsSync | src/EntityFramework.Relational/Storage/Internal/RelationalCommand.cs:228-288 | The asynchronous path writes the synchronous path's events step for step, with the async flag set. |
| RelationalCommands.RelationalCommand.CreateCommand | src/EntityFramework.Relational/Storage/Internal/RelationalCommand.cs:301-327 | The new command gets the command text. It gets the transaction's provider object only when the connection has a transaction, and the timeout only when the connection has one. It gets one parameter per entry, in order. |
| RelationalCommands.RelationalCommand.RunAction | src/EntityFramework.Relational/Storage/Internal/RelationalCommand.cs:47-167 | Executes the command once, with the token on the asynchronous path. Non-query and scalar dispose the command on both paths. A reader disposes it only when acquisition throws. Otherwise it wraps the acquired provider reader and the command, and the connection only when it manages it, in a new reader. |
| RelationalCommands.RelationalCommand.Run | src/EntityFramework.Relational/Storage/Internal/RelationalCommand.cs:169-226 | States the whole effect of the skeleton: outcome, events, opens, closes, connection state, executions and disposal. A failed open means no execution, no error event, no close and no disposal. An action fault is rethrown unchanged. |
| RelationalCommands.RelationalCommand.Attempt | src/EntityFramework.Relational/Storage/Internal/RelationalCommand.cs:190-225 | The `try`/`catch`/`finally` block followed by the after event: the log and the closes as the skeleton orders them. |
| RelationalCommands.RelationalCommand.Execute | src/EntityFramework.Relational/Storage/Internal/RelationalCommand.cs:169-226 | Runs the skeleton with `async: false` and no token. |
| RelationalCommands.RelationalCommand.ExecuteAsync | src/EntityFramework.Relational/Storage/Internal/RelationalCommand.cs:228-288 | Runs the skeleton with `async: true`. The token reaches the action's execution, and the connection is opened with `OpenAsync`, which takes no token. |
| RelationalCommands.RelationalCommand.ExecuteNonQuery | src/EntityFramework.Relational/Storage/Internal/RelationalCommand.cs:47-61 | A managed connection is opened once and closed exactly once on both paths. An unmanaged one is never opened or closed. The command is disposed unless the open failed. The result is the row count or the same exception. |
| RelationalCommands.RelationalCommand.ExecuteNonQueryAsync | src/EntityFramework.Relational/Storage/Internal/RelationalCommand.cs:63-79 | As the synchronous form, with `OpenAsync` and with the token passed to the execution. |
| RelationalCommands.RelationalCommand.ExecuteScalar | src/EntityFramework.Relational/Storage/Internal/RelationalCommand.cs:81-95 | As for non-query, with the scalar value as the result. |
| RelationalCommands.RelationalCommand.ExecuteScalarAsync | src/EntityFramework.Relational/Storage/Internal/RelationalCommand.cs:97-113 | As the synchronous form, with `OpenAsync` and with the token passed to the execution. |
| RelationalCommands.RelationalCommand.ExecuteReader | src/EntityFramework.Relational/Storage/Internal/RelationalCommand.cs:115-139 | On success the connection stays open. A fresh reader holds the provider reader that was acquired and owns the undisposed command, and the connection only when it is managed, otherwise no connection. When acquisition throws, the command is disposed and a managed connection is closed exactly once. |
| RelationalCommands.RelationalCommand.ExecuteReaderAsync | src/EntityFramework.Relational/Storage/Internal/RelationalCommand.cs:141-167 | As the synchronous form, with `OpenAsync` and with the token passed to the execution. |

## Left out

- Inheritance: an entity type lists only the foreign keys it declares itself. Inherited foreign keys returned by `GetForeignKeys()` are not modelled.
- Message text: `CoreStrings` formatting, `Property.Format`, `DisplayName()` and `ForeignKey.ToString()` are replaced by tagged messages that carry ids.
- `FindReferencingForeignKeys` is not part of this model. The first referencing foreign key is taken to be the one with the lowest id.
- `ShowError` is modelled with its default behaviour, which throws. A subclass that overrides it and continues is not modelled. `ShowWarning` is abstract, and the model appends to a log.
- The metadata graph is assumed consistent: the validator's operations take a `WellFormedModel`, a model satisfying `WellFormed`, in which every id names an element and foreign keys have as many properties as their principal keys. The graph API guarantees this by construction.
- `Check.NotNull` argument checks are left out, because the model's types exclude null.
- The provider's behaviour is abstract: `DbConnection.CreateCommand` yields a blank command, `RelationalTypeMapping.CreateParameter` a parameter record, and an execution returns its outcome parameter. The connection's own open counting inside `RelationalConnection` is not part of this model: `Open` sets it open and `Close` sets it closed.
- Task scheduling, `await` and cancellation are folded into the synchronous path with an async flag. The token is only recorded.
- Telemetry payload details and sensitive-data logging are left out: the logger's entry is one log-command event.
- `RelationalDataReader`'s own disposal, which disposes the command and closes an owned connection, is not part of this model. Only ownership at hand-over is stated.
- Reflection-based property accessors (`ClrPropertyGetterSource`, `ClrPropertySetterSource`) are not modelled. They are foreign runtime calls.
- The test projects are not modelled. Retrying a connection open belongs to callers, not to the executor.
