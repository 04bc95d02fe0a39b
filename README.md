# Krypton, modelled in Dafny

Krypton is a small finite-state-machine engine written in Swift. A machine
keeps two registries: states, and events. Each event leads from a set of
permitted source states to one destination; an empty source set means "from
anywhere". Both registries hold at most one member per name, and the first
one registered wins.

Registration is only possible until the machine is activated. Activation
moves the machine to its initial state. After that, firing an event is
refused in three cases:

- the machine is not active (`notActivated`);
- the current state is not a permitted source (`cannotFire`);
- the event's `shouldFire` gate says no (`declined`).

Otherwise the firing runs the event's and the states' lifecycle hooks in a
fixed order around a single change of the current state. Three fluent
builders assemble states, events and whole machines, and `build()` checks
their inputs.

The model has these modules:

- **`States`** (`state.dfy`): the `State` value. It has equality, hashing and ordering by name, a `description`, and the raw-value round trip. A Swift `Set<State>` becomes a map keyed by name, where insertion keeps the member already there.
- **`Events`** (`event.dfy`): the `Event` value, keyed the same way. Its `description` is an imperative loop over the sorted source names, proved equal to a specification function.
- **`Transitions`** (`transition.dfy`): the record created for each firing.
- **`Machine`** (`krypton.dfy`), in two layers:
  - `Config` is the machine's five fields as a value, and gives the pure specification of every operation.
  - The class `Krypton` holds the same fields and updates them in place. Each of its methods is proved to leave `Snapshot() == old(Snapshot()).Op(...)`.
  - Hooks are tokens. Every hook the class runs is appended to a ghost `trace`, recording which hook it was, its subject, its transition, and the state the machine showed at the time.
  - `dotDescription` writes the header and delegates the source's nested loop to the module-level methods `AllEdgeLines` (over events) and `EventEdgeLines` (over one event's sources). They are proved to draw each (event, source) edge exactly once.
- **`MachineProperties`** (`machine_properties.dfy`): lemmas that relate several calls. They cover:
  - first registration wins, and registration is frozen once active;
  - activation is idempotent;
  - the three refusals;
  - the order, hooks and arguments of an allowed firing;
  - the machine never leaving its registered states;
  - the graph's edges;
  - registration scenarios from the test suite.
- **`Names`** (`names.dfy`): name order, sorting, and the first-wins insert and merge that the registries use.
- **`EventBuilders`**, **`StateBuilders`**, **`MachineBuilders`**: the three builder classes.
- **`Alarm`** (`alarm.dfy`): the example application's alarm. It has three states and five events, and a walk from disarmed to armed, to alarm and back.

`shouldFire` is an oracle: `fire` takes its answer as the `approve` parameter. Payload values are of an opaque type.

## Model

| member | source | states |
|---|---|---|
| States.NewState | Sources/Krypton/State.swift:37-48 | the built state is well-formed and keeps the given name, payload and hooks; a blank name is excluded because it aborts |
| States.FromRawValue | Sources/Krypton/State.swift:84-95 | a non-blank raw value gives a state with that raw value, no payload and an empty hook set |
| States.RawValueRoundTrip | Sources/Krypton/State.swift:84-100 | a state rebuilt from its raw value exists, equals the original (by name), and its raw value equals the original's description |
| States.EqualityIsByName | Sources/Krypton/State.swift:51-62 | `==` is an equivalence decided by the name alone, and equal states feed the same key to `hash(into:)` |
| States.LessIsStrictTotalOrder | Sources/Krypton/State.swift:64-70 | `<` on names is irreflexive, transitive and asymmetric, and any two states are ordered one way or equal |
| States.InsertState | Sources/Krypton/Krypton.swift:62-65 | set insertion: the names grow by the new one, present members are kept, and an absent name maps to the new state |
| States.InsertStates | Sources/Krypton/Builders/KryptonBuilder.swift:29-37 | inserting a sequence adds exactly its names, keeps every member already present, and maps each new name to the first state of the sequence that has it |
| Names.Sort | Sources/Krypton/Event.swift:69 | the result is sorted, has no duplicates, and holds exactly the given names |
| Events.NewEvent | Sources/Krypton/Event.swift:36-48 | the built event is well-formed and keeps name, sources (possibly empty), destination and hooks |
| Events.Event.Description | Sources/Krypton/Event.swift:65-88 | the loop over the sorted sources yields exactly the specified description |
| Events.SourceStates | Sources/Krypton/Event.swift:68-85 | the loop over the sorted names builds exactly the specified source phrase |
| Events.PieceAppended | Sources/Krypton/Event.swift:73-84 | one loop step extends the phrase for the first i names to the phrase for the first i + 1 |
| Events.DescriptionNoSources | Sources/Krypton/Event.swift:68-87 | with no sources the source part is empty |
| Events.DescriptionOneSource | Sources/Krypton/Event.swift:73-76 | with one source the text is "Event `N` transitions from S to `D`" |
| Events.SourcePhraseSeveral | Sources/Krypton/Event.swift:71-85 | with k + 2 sorted names, every name is followed by ", " except the second-to-last, which gets ", and " |
| Events.DescriptionSeveralSources | Sources/Krypton/Event.swift:69-87 | the description with k + 2 sources lists the sorted names in that pattern before "to `D`" |
| Events.DescriptionThreeSourcesExample | Tests/KryptonTests/KryptonEventTests.swift:50-61 | sources C, A, B render as "State A, State B, and State C, " |
| Events.DescriptionDependsOnNamesOnly | Sources/Krypton/Event.swift:69 | two events with the same name, destination name and source names have the same description |
| Events.InsertEvent | Sources/Krypton/Krypton.swift:96-99 | set insertion of an event: names grow by its name, present members are kept, an absent name maps to it |
| Events.InsertEvents | Sources/Krypton/Builders/KryptonBuilder.swift:46-54 | inserting a sequence of events adds exactly their names, keeps every present member, and maps each new name to the first event of the sequence that has it |
| Events.SameNameCollapses | Tests/KryptonTests/KryptonEventTests.swift:30-37 | a set literal of two events with one name holds one member, the first |
| Events.EventEqualityIsByName | Sources/Krypton/Event.swift:51-62 | `==` on events is an equivalence decided by the name alone, and equal events feed the same key to `hash(into:)` |
| Transitions.Transition.Destination | Sources/Krypton/Transition.swift:17-20 | a transition's destination is its event's destination |
| Transitions.NewTransition | Sources/Krypton/Transition.swift:22-28 | event, source and payload are stored unchanged, and the destination is the event's |
| Machine.CallIf | Sources/Krypton/Krypton.swift:256-278 | a present hook is called once with its subject and transition; an absent one is not called |
| Machine.Config.StateNamed | Sources/Krypton/Krypton.swift:120-135 | success iff some registered state has the name, and then a registered state of that name; otherwise `notFound` |
| Machine.Config.EventNamed | Sources/Krypton/Krypton.swift:137-152 | success iff some registered event has the name, and then a registered event of that name; otherwise `notFound` |
| Machine.Config.IsIn | Sources/Krypton/Krypton.swift:153-156 | true iff the current state has the given state's name |
| Machine.Config.CanFire | Sources/Krypton/Krypton.swift:191-194 | true when the event has no sources; otherwise true iff some source is `==` to the current state |
| Machine.Config.AddState | Sources/Krypton/Krypton.swift:54-70 | nothing changes when active; otherwise only the states change, gaining the name, with a registered name keeping its first state |
| Machine.Config.AddStates | Sources/Krypton/Krypton.swift:72-86 | nothing changes when active; otherwise the names become the union, present states are kept, and new names map to the given states |
| Machine.Config.AddEvent | Sources/Krypton/Krypton.swift:88-104 | nothing changes when active; otherwise only the events change, gaining the name, with a registered name keeping its first event |
| Machine.Config.AddEvents | Sources/Krypton/Krypton.swift:106-118 | nothing changes when active; otherwise the names become the union, present events are kept, and new names map to the given events |
| Machine.Config.Activate | Sources/Krypton/Krypton.swift:159-189 | when active, nothing changes and no hook runs; otherwise the machine becomes active in its initial state |
| Machine.Config.Fire | Sources/Krypton/Krypton.swift:196-254 | `notActivated` when inactive, then `cannotFire` when not permitted, then `declined` with its message when gated and not approved, each leaving the machine unchanged; success iff active, permitted, and approved or ungated; success returns true and changes only the current state, to the destination |
| Machine.Krypton.constructor | Sources/Krypton/Krypton.swift:45-52 | a new machine is inactive with empty registries, the given initial state, the "Starting-State" placeholder as current state, and no hook run |
| Machine.Krypton.AddState | Sources/Krypton/Krypton.swift:54-70 | the new fields are those of `Config.AddState` |
| Machine.Krypton.AddStates | Sources/Krypton/Krypton.swift:72-86 | adding the states one at a time, in any order, leaves exactly `Config.AddStates` |
| Machine.Krypton.AddEvent | Sources/Krypton/Krypton.swift:88-104 | the new fields are those of `Config.AddEvent` |
| Machine.Krypton.AddEvents | Sources/Krypton/Krypton.swift:106-118 | adding the events one at a time, in any order, leaves exactly `Config.AddEvents` |
| Machine.Krypton.StateLifeCycle | Sources/Krypton/Krypton.swift:268-278 | the state's hook of that kind, if present, is appended to the trace |
| Machine.Krypton.EventLifeCycle | Sources/Krypton/Krypton.swift:256-266 | the event's hook of that kind, if present, is appended to the trace |
| Machine.Krypton.Activate | Sources/Krypton/Krypton.swift:159-189 | the new fields are `Config.Activate`'s, and the trace grows by exactly its calls |
| Machine.Krypton.Fire | Sources/Krypton/Krypton.swift:196-254 | the result and new fields are `Config.Fire`'s, and the trace grows by exactly the gate followed by the six firing hooks |
| Machine.Krypton.DotDescription | Sources/Krypton/Krypton.swift:288-307 | the header with the initial and current state, then one line per (event, source) edge with each edge exactly once, then "}"; with no edges the text is the header and "}" alone |
| Machine.Krypton.Transit | Sources/Krypton/Krypton.swift:240-252 | only the current state changes, to the destination, and the trace grows by the three "will" hooks then the three "did" hooks |
| Machine.AllEdgeLines | Sources/Krypton/Krypton.swift:295-302 | the lines drawn enumerate every (event, source) edge exactly once, and the text is their lines concatenated in the order drawn; no edges give no text |
| Machine.EventEdgeLines | Sources/Krypton/Krypton.swift:297-301 | one edge line per source of the event, each source exactly once; an event without sources gives no text |
| Machine.EnumeratesCount | Sources/Krypton/Krypton.swift:295-301 | a list that draws each edge of a set exactly once has as many entries as the set |
| MachineProperties.AddStateIdempotent | Sources/Krypton/Krypton.swift:54-70 | adding a state twice is adding it once |
| MachineProperties.AddStateThenLookup | Sources/Krypton/Krypton.swift:54-70 | after adding to an inactive machine, the lookup finds the first state registered under that name |
| MachineProperties.AddStateFirstWins | Tests/KryptonTests/KryptonTests.swift:60-74 | of two states with one name, the registry keeps the first |
| MachineProperties.AddEventThenLookup | Sources/Krypton/Krypton.swift:88-104 | after adding to an inactive machine, the lookup finds the first event registered under that name |
| MachineProperties.FrozenOnceActive | Tests/KryptonTests/KryptonTests.swift:108-120 | once active, adding states or events, singly or as sets, changes nothing |
| MachineProperties.CanFireIsMembership | Sources/Krypton/Krypton.swift:191-194 | `canFire` iff no sources or some source equals the current state; independent of activation |
| MachineProperties.IsInIsByName | Sources/Krypton/Krypton.swift:154-157 | `isIn` holds iff the current state has the same name, so same-named states answer alike |
| MachineProperties.ActivateIdempotent | Sources/Krypton/Krypton.swift:161-165 | activating an active machine changes nothing and runs no hook |
| MachineProperties.ActivateCalls | Sources/Krypton/Krypton.swift:167-188 | the first activation runs the initial state's `willEnter` and then its `didEnter`, each once if present, both without a transition; `willEnter` sees the previous state and `didEnter` the initial state |
| MachineProperties.FireDeclined | Tests/KryptonTests/KryptonTests.swift:313-348 | a declined firing returns `declined`, changes nothing, and has run only `shouldFire` |
| MachineProperties.FireRefusalChangesNothing | Sources/Krypton/Krypton.swift:198-231 | every refusal leaves the machine unchanged; only `declined` has run a hook, exactly one |
| MachineProperties.FireCallsOrdered | Sources/Krypton/Krypton.swift:219-251 | an allowed firing runs its hooks in the order shouldFire, willFire, willExit, willEnter, didExit, didEnter, didFire |
| MachineProperties.FireCallsHooks | Sources/Krypton/Krypton.swift:240-251 | an allowed firing runs each of the seven hooks exactly when present, and the hook run is the one of the event, old state or new state |
| MachineProperties.FireCallsArguments | Sources/Krypton/Krypton.swift:217-251 | every hook gets the one transition whose source is the pre-fire state; the "will" hooks see the old state and the "did" hooks see the destination |
| MachineProperties.FireRunsAllHooks | Sources/Krypton/Krypton.swift:219-251 | with every hook present and approval given, the firing runs all seven in order |
| MachineProperties.FireThenIsIn | Tests/KryptonTests/KryptonTests.swift:228-244 | after an allowed firing the machine is active and in the destination |
| MachineProperties.ActivateKeepsClosed | Sources/Krypton/Krypton.swift:179 | if the initial state is registered, activation lands on a registered state |
| MachineProperties.FireRegisteredKeepsClosed | Sources/Krypton/Krypton.swift:240-247 | firing a registered event whose destination is registered keeps the machine among its registered states |
| MachineProperties.AddStateKeepsClosed | Sources/Krypton/Krypton.swift:54-70 | adding a state keeps the machine closed over its registered states |
| MachineProperties.AddEventKeepsClosed | Sources/Krypton/Krypton.swift:88-104 | adding an event whose destination is registered keeps the machine closed |
| MachineProperties.EdgeSetMembers | Sources/Krypton/Krypton.swift:295-301 | an edge is drawn iff its label is a registered event, its source is among the event's sources, and its target is the event's destination |
| MachineProperties.DotEdgeCount | Sources/Krypton/Krypton.swift:295-301 | the graph has exactly as many edge lines as (event, source) edges |
| MachineProperties.RepeatedRegistrationCounts | Tests/KryptonTests/KryptonTests.swift:60-90 | two distinct states, one added twice, and one event added twice leave two states and one event after activation |
| MachineProperties.NothingAddedAfterActivation | Tests/KryptonTests/KryptonTests.swift:28-43 | a machine activated before any registration stays empty, active and in its initial state |
| EventBuilders.EventBuilder.constructor | Sources/Krypton/Builders/EventBuilder.swift:19-23 | blank name, no sources, no destination, no hooks, and building fails with `invalid_event` |
| EventBuilders.EventBuilder.Name | Sources/Krypton/Builders/EventBuilder.swift:25-30 | the name is overwritten and the builder itself is returned |
| EventBuilders.EventBuilder.Source | Sources/Krypton/Builders/EventBuilder.swift:32-37 | the source is added by set insertion |
| EventBuilders.EventBuilder.Destination | Sources/Krypton/Builders/EventBuilder.swift:39-44 | the destination is overwritten |
| EventBuilders.EventBuilder.EventValidation | Sources/Krypton/Builders/EventBuilder.swift:46-51 | the `shouldFire` gate is overwritten |
| EventBuilders.EventBuilder.ActionWillFire | Sources/Krypton/Builders/EventBuilder.swift:53-58 | the `willFire` hook is overwritten |
| EventBuilders.EventBuilder.ActionDidFire | Sources/Krypton/Builders/EventBuilder.swift:60-65 | the `didFire` hook is overwritten |
| EventBuilders.EventBuilder.Build | Sources/Krypton/Builders/EventBuilder.swift:67-83 | fails with `invalid_event` iff the name is blank, there are no sources, or no destination; otherwise an event with exactly the builder's fields |
| EventBuilders.SourceTwiceOnce | Sources/Krypton/Builders/EventBuilder.swift:32-37 | adding a same-named source twice adds it once, keeping the first |
| StateBuilders.StateBuilder.constructor | Sources/Krypton/Builders/StateBuilder.swift:19-23 | blank name, empty payload, no hooks, and building fails with `invalid_state` |
| StateBuilders.StateBuilder.Name | Sources/Krypton/Builders/StateBuilder.swift:25-30 | the name is overwritten |
| StateBuilders.StateBuilder.SetPayload | Sources/Krypton/Builders/StateBuilder.swift:32-37 | the payload is overwritten |
| StateBuilders.StateBuilder.ActionWillEnter | Sources/Krypton/Builders/StateBuilder.swift:39-44 | the `willEnter` hook is overwritten |
| StateBuilders.StateBuilder.ActionDidEnter | Sources/Krypton/Builders/StateBuilder.swift:46-51 | the `didEnter` hook is overwritten |
| StateBuilders.StateBuilder.ActionWillExit | Sources/Krypton/Builders/StateBuilder.swift:53-58 | the `willExit` hook is overwritten |
| StateBuilders.StateBuilder.ActionDidExit | Sources/Krypton/Builders/StateBuilder.swift:60-65 | the `didExit` hook is overwritten |
| StateBuilders.StateBuilder.Build | Sources/Krypton/Builders/StateBuilder.swift:67-81 | fails with `invalid_state` iff the name is blank; otherwise a state with the builder's name, payload and four hooks |
| MachineBuilders.KryptonBuilder.constructor | Sources/Krypton/Builders/KryptonBuilder.swift:16-20 | no states, no events, no initial state |
| MachineBuilders.KryptonBuilder.AddState | Sources/Krypton/Builders/KryptonBuilder.swift:22-27 | the state is added by set insertion |
| MachineBuilders.KryptonBuilder.AddStates | Sources/Krypton/Builders/KryptonBuilder.swift:29-37 | the states are added one after the other by set insertion |
| MachineBuilders.KryptonBuilder.AddEvent | Sources/Krypton/Builders/KryptonBuilder.swift:39-44 | the event is added by set insertion |
| MachineBuilders.KryptonBuilder.AddEvents | Sources/Krypton/Builders/KryptonBuilder.swift:46-54 | the events are added one after the other by set insertion |
| MachineBuilders.KryptonBuilder.SetInitialState | Sources/Krypton/Builders/KryptonBuilder.swift:56-61 | the initial state is overwritten |
| MachineBuilders.KryptonBuilder.Build | Sources/Krypton/Builders/KryptonBuilder.swift:63-79 | fails with `declined` and the validation message iff states, events or initial state are missing; otherwise a new inactive machine holding exactly the collected states and events, with no hook run |
| Alarm.Created | Examples/KryptonExample/KryptonExample/AlarmService.swift:122-164 | creating the alarm machine registers exactly its three states and five events, inactive, with "Disarmed" initial |
| Alarm.Ungated | Examples/KryptonExample/KryptonExample/AlarmService.swift:149-160 | none of the five alarm events has a `shouldFire` gate |
| Alarm.Process | Examples/KryptonExample/KryptonExample/AlarmService.swift:103-117 | on the alarm machine, looking up and firing changes at most the current state, whatever a `shouldFire` gate would answer; an unknown name changes nothing |
| Alarm.CanTrigger | Examples/KryptonExample/KryptonExample/AlarmService.swift:30-42 | true iff the event is registered and may be fired from the current state |
| Alarm.ActivationEntersDisarmed | Examples/KryptonExample/KryptonExample/AlarmService.swift:19-28 | activation lands in "Disarmed", running its `willEnter` and then its `didEnter` |
| Alarm.DisarmedOnlyArms | Examples/KryptonExample/KryptonExample/AlarmService.swift:156-160 | while disarmed, "Arm" can be triggered but "Breach" and "Reset" cannot, and a breach changes nothing |
| Alarm.ArmFromDisarmed | Examples/KryptonExample/KryptonExample/AlarmService.swift:156 | arming moves "Disarmed" to "Armed" |
| Alarm.BreachFromArmed | Examples/KryptonExample/KryptonExample/AlarmService.swift:158 | a breach moves "Armed" to "Alarm" |
| Alarm.ResetFromAlarm | Examples/KryptonExample/KryptonExample/AlarmService.swift:160 | a reset moves "Alarm" to "Disarmed" |
| Alarm.ArmBreachReset | Examples/KryptonExample/KryptonExample/AlarmService.swift:152-164 | arm, breach, reset brings the machine back to "Disarmed" through "Armed" and "Alarm" |
| Alarm.ArmRunsSixHooks | Examples/KryptonExample/KryptonExample/AlarmService.swift:144-156 | arming runs willFire, willExit, willEnter while disarmed, then didExit, didEnter, didFire once armed |
| Alarm.UnknownEventIgnored | Examples/KryptonExample/KryptonExample/AlarmService.swift:103-117 | an event name that is not registered changes nothing and cannot be triggered |

## Left out

- Hook bodies are not modelled. Closures are tokens, payload values are of an opaque type, and `[String: Any]` is a map to that type. Running a hook only appends a record to the ghost trace.
- `shouldFire` is taken as its answer, the `approve` parameter. Its ability to inspect the transition is not modelled.
- Nested firing from inside a hook is not modelled, because hooks do nothing.
- `Transition` has no back-reference to its machine. Each trace record notes instead which state the machine showed when the hook ran.
- The cannot-fire message ends in Swift's rendering of the source set, whose format and order are unspecified. `CannotFireMessage` stops before that rendering.
- `Krypton.description`, the one-line summary with counts and the current state, is not modelled.
- A blank name makes `State(name:)`, `Event(name:)` and `State(rawValue:)` abort. The model turns each of these into a precondition. The state test expects `State(rawValue: "")` to return nil, but the code aborts, and the model follows the code.
- Machine.Krypton.DotDescription: the source draws edges in Swift's `Set` iteration order. The model visits events and sources in an arbitrary order and returns a ghost list of the edges in the order drawn. It does not fix one order.
- The order in which `add(newStates:)` and `add(newEvents:)` visit a set is arbitrary, as `forEach` on a `Set` is. The result does not depend on it, because the incoming names are distinct.
- Swift compares strings by Unicode canonical equivalence for `==`, for hashing and for `<`. So "é" written as one code point and "e" followed by a combining accent name the same state or event there. The model compares names as raw character sequences: in `State.Equals`, `HashKey`, `Event.Equals`, the name-keyed registries, `StateNamed`, `EventNamed`, `CanFire` and the sort. It therefore matches the source only for names already in canonical (NFC) form.
- The example application's SwiftUI views, its `print` hooks and its access code are not modelled. Only its state and event table, its `process` and its `can_trigger` are.
- The performance tests are not modelled, and neither is the fact that lookups scan linearly.
- Names from several revisions are used as aliases of one another:
  - the builders, the tests and the example use a later revision's names (`current_state`, `transition_context`, `invalid_state`, `add(states:)`);
  - `KryptonError` gains `invalidState` and `invalidEvent` for the builders;
  - `Krypton(initial_state:)` is modelled as not failing, because the shown revision's initializer cannot fail.
- The firing order follows `Krypton.swift`: willFire, willExit and willEnter before the state changes, then didExit, didEnter and didFire after.
