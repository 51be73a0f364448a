# Test-set entities of the Gradle test-sets plugin, in Dafny

This project models `AbstractTestSetBase`, the state shared by the plugin's
test sets and test libraries. It covers these parts:

- The fixed name, and the `dirName`, `createArtifact` and `classifier` properties.
- The two observable relationship sets, `extendsFrom` and `imports`, including `remove(x)` on the live set that each getter returns.
- The vararg mutators `extendsFrom(...)` and `imports(...)`, which resolve names through the test-set container.
- Observer registration with replay of the current relationships (`addObserver`, `addObservers`).
- The `TestSetObserver` callbacks fired by each change.

Observers are passive here. Each callback invocation is appended, as a
`Delivery(observer, event)`, to the test set's `delivered` log. So every
mutator's contract states exactly which callbacks it fires, in which order,
and to whom.

The model has five modules:

- `ObservableSets` (observable_sets.dfy): the insertion-ordered set behind `observableSetOf`. It is a sequence without duplicates. `add` appends a non-member. `addAll` adds left to right. `remove` drops a member. `NewlyAdded` says which elements the `added` callback fires for.
- `Entities` (entities.dfy): test sets and libraries as values `Entity(name, kind)`, the container's name table, the exception messages, and the lazy, left-to-right resolution of vararg arguments (`ResolveAll`).
- `Observers` (observers.dfy): the callbacks, `notifyObservers` as a broadcast in registration order, and the replay that `addObserver(o, true)` sends to `o`.
- `TestSetBases` (test_set_base.dfy): the class `TestSetBase` with the fields the Kotlin class updates in place, and one method per setter or mutator. The setters `extendsFrom = v` and `imports = v` are modelled as "clear, then addAll". Lemmas state what a whole-set assignment reports.
- `Scenarios` (scenarios.dfy): concrete uses, each with the exact resulting state and callback log.

Four behaviours of the code worth knowing:

- An entity can extend from itself (`ExtendsFromItself`). No guard exists.
- `dirName` and `classifier` may be set to any string, the empty one included.
- A failing argument of `extendsFrom(...)` or `imports(...)` does not undo the earlier arguments of the same call.
- Whole-set assignment reports no diff. Every old element is reported removed and every new one added, even one present in both (`ReassignImports`).

## Model

All source cells refer to `src/main/kotlin/org/unbrokendome/gradle/plugins/testsets/dsl/TestSetBase.kt`.

| member | source | states |
|---|---|---|
| ObservableSets.InsertedSpec | src/main/kotlin/org/unbrokendome/gradle/plugins/testsets/dsl/TestSetBase.kt:186-188 | `add(x)` leaves exactly the old members and `x`, and keeps set semantics (no duplicates) |
| ObservableSets.InsertAll | src/main/kotlin/org/unbrokendome/gradle/plugins/testsets/dsl/TestSetBase.kt:191 | `addAll` never reorders or drops existing members: the old contents are a prefix of the new |
| ObservableSets.InsertAllSpec | src/main/kotlin/org/unbrokendome/gradle/plugins/testsets/dsl/TestSetBase.kt:191 | after `addAll(xs)` the members are exactly the old ones and those of `xs`, still without duplicates |
| ObservableSets.NewlyAddedExactly | src/main/kotlin/org/unbrokendome/gradle/plugins/testsets/dsl/TestSetBase.kt:186-188 | `added` fires exactly for the arguments that were not members, each once |
| ObservableSets.NewlyAddedSnoc | src/main/kotlin/org/unbrokendome/gradle/plugins/testsets/dsl/TestSetBase.kt:205 | one more added argument fires one more callback if it was new, none otherwise |
| ObservableSets.InsertAllOfMembers | src/main/kotlin/org/unbrokendome/gradle/plugins/testsets/dsl/TestSetBase.kt:191 | adding only existing members changes nothing and fires nothing (idempotence) |
| ObservableSets.InsertAllOfDistinct | src/main/kotlin/org/unbrokendome/gradle/plugins/testsets/dsl/TestSetBase.kt:189-191 | refilling an emptied set from a duplicate-free collection restores that collection in order |
| ObservableSets.InsertAllAppend | src/main/kotlin/org/unbrokendome/gradle/plugins/testsets/dsl/TestSetBase.kt:205 | adding `xs + ys` is adding `xs` and then `ys` |
| ObservableSets.RemovedSpec | src/main/kotlin/org/unbrokendome/gradle/plugins/testsets/dsl/TestSetBase.kt:188 | after `remove(x)` the set holds exactly its old elements other than `x`, and is still a set |
| ObservableSets.RemovedAbsent | src/main/kotlin/org/unbrokendome/gradle/plugins/testsets/dsl/TestSetBase.kt:188 | removing a non-member leaves the set unchanged |
| ObservableSets.RemoveUndoesAdd | src/main/kotlin/org/unbrokendome/gradle/plugins/testsets/dsl/TestSetBase.kt:186-188 | `remove(x)` undoes an `add(x)` that added `x` |
| Entities.GetByName | src/main/kotlin/org/unbrokendome/gradle/plugins/testsets/dsl/TestSetBase.kt:200 | a name resolves iff it is registered, to the entity of that name and kind; otherwise the error names it |
| Entities.MessageText | src/main/kotlin/org/unbrokendome/gradle/plugins/testsets/dsl/TestSetBase.kt:201-227 | the two wrong-type messages name the mutator that rejected the argument (`extendsFrom`, `imports`); the one for importing a test set by name names that test set and the `extendsFrom` remedy |
| Entities.ResolveExtension | src/main/kotlin/org/unbrokendome/gradle/plugins/testsets/dsl/TestSetBase.kt:197-203 | an entity of either kind is accepted as is, a string is looked up, anything else is an illegal argument with the `extendsFrom` message |
| Entities.ResolveImport | src/main/kotlin/org/unbrokendome/gradle/plugins/testsets/dsl/TestSetBase.kt:220-228 | succeeds iff the argument is a library or names one, and then yields a library; an unknown name gives the lookup error, a test-set name gives the not-a-library error, and a test-set object or any other object gives the one `imports` wrong-type error |
| Entities.ResolveAll | src/main/kotlin/org/unbrokendome/gradle/plugins/testsets/dsl/TestSetBase.kt:196-205 | the resolved entities are those of the longest resolving prefix; on failure the next argument's error is the call's error |
| Entities.ResolvedPrefixDetermines | src/main/kotlin/org/unbrokendome/gradle/plugins/testsets/dsl/TestSetBase.kt:196-205 | any resolving prefix followed by a failure or the end determines the whole resolution |
| Entities.ImportsResolveToLibraries | src/main/kotlin/org/unbrokendome/gradle/plugins/testsets/dsl/TestSetBase.kt:218-230 | everything `imports(...)` would add is a test library |
| Observers.AddedEventsAt | src/main/kotlin/org/unbrokendome/gradle/plugins/testsets/dsl/TestSetBase.kt:187 | one `added` event per element, in element order |
| Observers.RemovedEventsAt | src/main/kotlin/org/unbrokendome/gradle/plugins/testsets/dsl/TestSetBase.kt:188 | one `removed` event per element, in element order |
| Observers.Broadcast | src/main/kotlin/org/unbrokendome/gradle/plugins/testsets/dsl/TestSetBase.kt:253-257 | one callback per registration: the `i`-th callback of a notification goes to the `i`-th registered observer |
| Observers.BroadcastAllAppend | src/main/kotlin/org/unbrokendome/gradle/plugins/testsets/dsl/TestSetBase.kt:253-257 | notifying two runs of events is notifying the first run, then the second |
| Observers.BroadcastReachesEachRegistration | src/main/kotlin/org/unbrokendome/gradle/plugins/testsets/dsl/TestSetBase.kt:169 | an observer registered `k` times receives each event `k` times, since the observer list allows repeats |
| Observers.BroadcastReachesEachObserverOnce | src/main/kotlin/org/unbrokendome/gradle/plugins/testsets/dsl/TestSetBase.kt:253-257 | with distinct observers, each registered one gets the event exactly once and others get nothing |
| Observers.EachObserverSeesAllEvents | src/main/kotlin/org/unbrokendome/gradle/plugins/testsets/dsl/TestSetBase.kt:253-257 | with distinct observers, each registered one sees exactly the whole event sequence, in order |
| Observers.Replay | src/main/kotlin/org/unbrokendome/gradle/plugins/testsets/dsl/TestSetBase.kt:242-249 | the replay is one callback to the new observer per current relationship, in order: every extension, then every import |
| Observers.ReplayReachesOnlyNewObserver | src/main/kotlin/org/unbrokendome/gradle/plugins/testsets/dsl/TestSetBase.kt:242-249 | the replay reaches only the new observer: all extensions, then all imports |
| Observers.ReplayEach | src/main/kotlin/org/unbrokendome/gradle/plugins/testsets/dsl/TestSetBase.kt:152-159 | the replays of `addObservers` reach only the observers being added |
| Observers.ReplayEachPerObserver | src/main/kotlin/org/unbrokendome/gradle/plugins/testsets/dsl/TestSetBase.kt:152-159 | with distinct new observers, each gets exactly one full replay and nobody else gets any |
| TestSetBases.ReassignmentEvents | src/main/kotlin/org/unbrokendome/gradle/plugins/testsets/dsl/TestSetBase.kt:189-192 | a whole-set assignment reports every old element removed, in set order, then every new element added |
| TestSetBases.ReassignmentReportsRemovals | src/main/kotlin/org/unbrokendome/gradle/plugins/testsets/dsl/TestSetBase.kt:190 | an element is reported removed iff it was a member |
| TestSetBases.ReassignmentReportsAdditions | src/main/kotlin/org/unbrokendome/gradle/plugins/testsets/dsl/TestSetBase.kt:191 | an element is reported added iff it is in the assigned collection |
| TestSetBases.ReassignmentRemovesFirst | src/main/kotlin/org/unbrokendome/gradle/plugins/testsets/dsl/TestSetBase.kt:189-192 | no addition is reported before a removal |
| TestSetBases.ReassignmentReportsOnce | src/main/kotlin/org/unbrokendome/gradle/plugins/testsets/dsl/TestSetBase.kt:212-215 | starting from a set, no event of the assignment is reported twice |
| TestSetBases.ReassignmentDeliveries | src/main/kotlin/org/unbrokendome/gradle/plugins/testsets/dsl/TestSetBase.kt:189-191 | the callbacks of clear-then-addAll are those of the reassignment events, broadcast one after the other |
| TestSetBases.TestSetBase.constructor | src/main/kotlin/org/unbrokendome/gradle/plugins/testsets/dsl/TestSetBase.kt:163-176 | a new entity has `dirName` and `classifier` equal to its name, no artifact, empty relationship sets, no observers and no callbacks |
| TestSetBases.TestSetBase.NotifyObservers | src/main/kotlin/org/unbrokendome/gradle/plugins/testsets/dsl/TestSetBase.kt:253-257 | one callback per registered observer, in registration order, nothing else changes |
| TestSetBases.TestSetBase.SetDirName | src/main/kotlin/org/unbrokendome/gradle/plugins/testsets/dsl/TestSetBase.kt:176-183 | the value is stored; a different value is announced to every observer with the old and new value, an equal one is not announced |
| TestSetBases.TestSetBase.SetCreateArtifact | src/main/kotlin/org/unbrokendome/gradle/plugins/testsets/dsl/TestSetBase.kt:234 | a plain property: stored, no callback |
| TestSetBases.TestSetBase.SetClassifier | src/main/kotlin/org/unbrokendome/gradle/plugins/testsets/dsl/TestSetBase.kt:237 | a plain property: stored, no callback |
| TestSetBases.TestSetBase.Add | src/main/kotlin/org/unbrokendome/gradle/plugins/testsets/dsl/TestSetBase.kt:186-188 | a non-member is appended and announced to every observer; a member changes nothing; the other set is untouched |
| TestSetBases.TestSetBase.Remove | src/main/kotlin/org/unbrokendome/gradle/plugins/testsets/dsl/TestSetBase.kt:186-188 | `remove(x)` on the live set drops a member and announces its removal to every observer; a non-member changes nothing and is not announced; the other set is untouched and the invariant is kept |
| TestSetBases.TestSetBase.AddAll | src/main/kotlin/org/unbrokendome/gradle/plugins/testsets/dsl/TestSetBase.kt:191 | the set becomes `InsertAll` of the arguments, and the callbacks are one broadcast per newly added element, in order |
| TestSetBases.TestSetBase.Clear | src/main/kotlin/org/unbrokendome/gradle/plugins/testsets/dsl/TestSetBase.kt:190 | the set becomes empty, and every old member is announced removed, in set order |
| TestSetBases.TestSetBase.Assign | src/main/kotlin/org/unbrokendome/gradle/plugins/testsets/dsl/TestSetBase.kt:189-192 | the set becomes the assigned collection without duplicates, and the callbacks are those of `ReassignmentEvents` |
| TestSetBases.TestSetBase.SetExtendsFrom | src/main/kotlin/org/unbrokendome/gradle/plugins/testsets/dsl/TestSetBase.kt:186-192 | `extendsFrom = v` for a value `v` distinct from the backing set: contents and callbacks as for `Assign`; the invariant is kept |
| TestSetBases.TestSetBase.SetImports | src/main/kotlin/org/unbrokendome/gradle/plugins/testsets/dsl/TestSetBase.kt:209-215 | `imports = v`: contents and callbacks as for `Assign`; imports stay libraries without duplicates |
| TestSetBases.TestSetBase.AssignBackingSetToItself | src/main/kotlin/org/unbrokendome/gradle/plugins/testsets/dsl/TestSetBase.kt:189-191 | assigning the backing set to itself empties it and reports every member removed, adding nothing back |
| TestSetBases.TestSetBase.AddArguments | src/main/kotlin/org/unbrokendome/gradle/plugins/testsets/dsl/TestSetBase.kt:196-205 | the outcome is `ResolveAll`'s, and exactly the arguments resolved before the first failure are added, with their callbacks |
| TestSetBases.TestSetBase.ExtendsFrom | src/main/kotlin/org/unbrokendome/gradle/plugins/testsets/dsl/TestSetBase.kt:195-206 | `extendsFrom(...)`: as `AddArguments` for extensions; imports untouched; the invariant is kept |
| TestSetBases.TestSetBase.Imports | src/main/kotlin/org/unbrokendome/gradle/plugins/testsets/dsl/TestSetBase.kt:218-231 | `imports(...)`: as `AddArguments` for imports; extensions untouched; only libraries are ever imported |
| TestSetBases.TestSetBase.AddObserver | src/main/kotlin/org/unbrokendome/gradle/plugins/testsets/dsl/TestSetBase.kt:240-250 | the observer is appended; with `notifyExisting` it alone is told every extension and then every import; without it nothing is told |
| TestSetBases.TestSetBase.AddObservers | src/main/kotlin/org/unbrokendome/gradle/plugins/testsets/dsl/TestSetBase.kt:152-159 | the observers are appended in order, each getting its own replay in turn |
| Scenarios.ImportByName | src/main/kotlin/org/unbrokendome/gradle/plugins/testsets/dsl/TestSetBase.kt:223-225 | importing a library by name succeeds; importing a test set by name fails with the not-a-library error and imports nothing |
| Scenarios.ExtendsFromStopsAtFirstBadArgument | src/main/kotlin/org/unbrokendome/gradle/plugins/testsets/dsl/TestSetBase.kt:196-205 | the argument before an illegal one is added, the illegal one fails the call, and later ones are never looked at |
| Scenarios.ExtendsFromItself | src/main/kotlin/org/unbrokendome/gradle/plugins/testsets/dsl/TestSetBase.kt:195-206 | an entity can be made to extend from itself |
| Scenarios.ReassignImports | src/main/kotlin/org/unbrokendome/gradle/plugins/testsets/dsl/TestSetBase.kt:212-215 | re-assigning a kept library reports it removed and then added again, after the new one |
| Scenarios.LateObserversCatchUp | src/main/kotlin/org/unbrokendome/gradle/plugins/testsets/dsl/TestSetBase.kt:240-250 | late observers each get the extension, then the import, one observer after the other |
| Scenarios.RenameDirectory | src/main/kotlin/org/unbrokendome/gradle/plugins/testsets/dsl/TestSetBase.kt:176-183 | a rename reaches the observers in registration order; repeating it reaches no one |
| Scenarios.AssignExtensionsToThemselves | src/main/kotlin/org/unbrokendome/gradle/plugins/testsets/dsl/TestSetBase.kt:189-191 | self-assignment as written empties the set; assigning a snapshot keeps it |

## Left out

- The `sourceSet` property and the derived names: `sourceSetName`, the seven configuration names, `jarTaskName` and `artifactConfigurationName` (TestSetBase.kt:13, 52-125). They only delegate to the source set or to `NamingConventions`, which are not part of this model.
- The `environmentVariablesChanged` and `systemPropertiesChanged` callbacks. No code in the modelled class fires them.
- Observers that react to a callback by changing the test set (re-entrant mutation). Observers here only receive callbacks.
- The observable set's own implementation (`observableSetOf`). It is not part of this model. The model assumes that `add` fires `added` and `remove` fires `removed` only on a membership change, and that `clear` fires `removed` once per member, in iteration order.
- `removeAll`, `retainAll` and removal through an iterator, on the live sets the `extendsFrom` and `imports` getters return. Which elements they visit, and in what order their `removed` callbacks fire, is decided by the `observableSetOf` implementation, which is not part of this model. A single `remove(x)` is modelled (`TestSetBase.Remove`).
- `TestSetContainer` is not part of this model. It is a name-to-kind table whose `getByName` either finds the entity or fails. Its exception type is abstracted to `UnknownName`.
- Entity identity: two entities are the same when they have the same name and kind. Object identity and the rest of their state are not modelled.
- The Iterable and vararg overloads of `addObservers` are one method on a sequence.
- TestSetBases.TestSetBase.Add, AddAll, Clear and Assign do not require or preserve the set invariant (`Valid`). The public mutators that call them do, proved after each call.
- TestSetBases.TestSetBase.SetImports requires the assigned collection to hold libraries only, which Kotlin's static type `MutableSet<TestLibrary>` guarantees.
- TestSetBases.TestSetBase.SetExtendsFrom takes the assigned collection as a value. Aliasing with the backing set is modelled separately, by AssignBackingSetToItself.
- Kotlin exceptions become the `Outcome` result of the vararg mutators. The message strings are kept exactly in `MessageText`.

## Findings

| source | as written | input that shows it | evidently intended | confidence | as-written member | corrected member |
|---|---|---|---|---|---|---|
| src/main/kotlin/org/unbrokendome/gradle/plugins/testsets/dsl/TestSetBase.kt:189-191 | the setter clears the backing set and then adds all elements of `value`; when `value` is that backing set, the clear has already emptied it | `t.extendsFrom = t.extendsFrom` on a test set extending `unitTest` (also `t.imports = t.imports`) | assigning a set's own contents leaves it unchanged | not executed; medium, follows from the setter's two statements | TestSetBases.TestSetBase.AssignBackingSetToItself | TestSetBases.TestSetBase.SetExtendsFrom |

`Scenarios.AssignExtensionsToThemselves` shows both halves on the same input. `ObservableSets.InsertAllOfDistinct` proves that assigning a snapshot of a duplicate-free set restores it.
