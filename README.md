# statemanager, modelled in Dafny

Package `statemanager` keeps a registry of game states for an ebiten game. A
state is registered under the id it reports. At most one registered state is
active. The host's game loop calls `Update` and `Draw` once per frame, and the
registry forwards each call to the active state. `SetActive` switches the
active state. It calls the old state's `OnExit` hook and then the new state's
`OnEnter` hook. `States` lists the registered ids in the order they were added.

The model has five modules:

- `Registry` (registry.dfy) is the specification on values. A `Snapshot` holds
  the three fields of `stateManager`: the id-to-state map, the id list and
  the active state. Each operation is a function from a snapshot to a
  `Step`. A step holds the new snapshot, the returned error and the calls
  made into states (`Enter`, `Exit`, `UpdateCalled`, `DrawCalled`), in order.
  `Valid` is the registry invariant:
  - the id list has no duplicates and holds exactly the map's keys;
  - every state is stored under its own id;
  - the active state is a registered one.
- `Lifecycle` (lifecycle.dfy) is an automaton over call traces. A state is
  entered only while none is active. It is left only while it is the active
  one. It is updated or drawn only between its entry and its exit. Every
  operation is proved to keep to it.
- `Manager` (manager.dfy) is the `stateManager` struct as a class. Its fields
  are updated in place. Each method is proved to do exactly what the
  matching `Registry` function specifies. Each method also keeps `Valid` and
  keeps its ghost record of calls accepted by the automaton.
- `Session` (session.dfy) runs any sequence of host calls on one registry
  (`Run`) and proves what holds of every such run.
- `Scenarios` (scenarios.dfy) replays each test of statemanager_test.go on
  the model. Its `Fields` recomputes the test state's `counter` and
  `exited` fields from the calls the registry made into that state.

Error values are variants rather than strings:
- `DuplicateId` for "State with that ID already exists";
- `NotFound` for "State does not exist in manager";
- `NoActive` for "No active state set".

Whatever a state's `Update` or `Draw` returns is passed through verbatim. The
model lets a state return any `Status`. That includes the registry's own
variants, just as a Go state may return an error with any message. `Reported(code)`
stands for any other error value a state returns.

A `State` is reduced to what the registry can observe: the object's identity
(`handle`) and the string its `ID()` returns. The drawing surface is an
opaque `Surface`. Whatever a state's `Update` or `Draw` returns is a parameter
of the operation that makes the call. Whatever its hooks return is a parameter
of the `Manager` method that makes the call.

`Draw` has no guard in the source. With no active state it calls a method on
a nil interface, and the program panics. The model keeps that behaviour:
`Registry.Draw` and `Manager.StateManager.Draw` require an active state, and
`Session.Run` yields `None` when a session makes that call.
statemanager_test.go:121-122 expects an error from that call instead. The
model follows the code (`Scenarios.NoActiveDrawPanics`).

## Model

| member | source | states |
|---|---|---|
| Registry.New | statemanager.go:41-48 | a new registry is valid, with no states, no ids and no active state |
| Registry.Add | statemanager.go:50-58 | succeeds iff the id is not yet registered. On success the state is mapped under its id, the id is appended to the list and nothing else changes. A duplicate is refused with DuplicateId and the registry is unchanged. No hook is called, and validity is preserved. |
| Registry.SetActive | statemanager.go:60-74 | succeeds iff the id is registered. On success the state under that id becomes active and the map and list are unchanged. The calls made are exactly one `Exit` of the previous active state, if there was one, then one `Enter` of the new state. An unknown id gives NotFound and changes and calls nothing. Validity is preserved. |
| Registry.Update | statemanager.go:76-82 | the registry is unchanged. With nothing active: NoActive and no call. Otherwise exactly one Update of the active state, whose result is returned verbatim. |
| Registry.Draw | statemanager.go:84-86 | with a state active, exactly one Draw of it on the given surface, whose result is returned verbatim; the registry is unchanged |
| Registry.States | statemanager.go:88-90 | in a valid registry the listed ids have no duplicates and are exactly the registered ids |
| Registry.StatesCount | statemanager.go:88-90 | in a valid registry, `States` lists exactly as many ids as there are registered states |
| Lifecycle.AddConforms | statemanager.go:50-58 | `Add` makes no call into any state, and the phase is unchanged |
| Lifecycle.SetActiveConforms | statemanager.go:60-74 | the calls `SetActive` makes take the automaton from the old active state's phase to the new one's: the old state is exited before the new one is entered |
| Lifecycle.UpdateConforms | statemanager.go:76-82 | `Update` only reaches the active state |
| Lifecycle.DrawConforms | statemanager.go:84-86 | `Draw` only reaches the active state |
| Lifecycle.EnterOnlyWhenIdle | statemanager.go:60-71 | in any accepted trace, every `Enter` happens while no state is entered |
| Lifecycle.ReentrantOnExitRejected | statemanager.go:63-68 | if the active state's `OnExit` activates another state, that inner call is `Registry.SetActive` on the registry as it was before line 67 reassigns the active state. It exits the old state a second time and enters the inner state. The outer call then enters its own state, and the automaton rejects the calls made. The inner `OnExit` is taken not to re-enter again. |
| Lifecycle.DispatchOnlyToEntered | statemanager.go:76-86 | in any accepted trace, every Update or Draw reaches the state last entered and not yet exited |
| Manager.StateManager.constructor | statemanager.go:41-48 | the object starts as `Registry.New()` with no calls recorded, and is valid |
| Manager.StateManager.Add | statemanager.go:50-58 | the new fields, the result and the calls made are those of `Registry.Add`; validity and trace conformance are kept |
| Manager.StateManager.SetActive | statemanager.go:60-74 | the new fields, the result and the recorded OnExit/OnEnter calls are those of `Registry.SetActive`, whatever the hooks return; validity and trace conformance are kept |
| Manager.StateManager.Update | statemanager.go:76-82 | the new fields, the result and the calls made are those of `Registry.Update`; validity and trace conformance are kept |
| Manager.StateManager.Draw | statemanager.go:84-86 | with a state active, the new fields, the result and the calls made are those of `Registry.Draw`; validity and trace conformance are kept |
| Manager.StateManager.States | statemanager.go:88-90 | returns the id list as a value, in registration order. It has no duplicates and holds exactly the registered ids. |
| Session.Run | statemanager.go:11-24 | a session that does not panic returns one result per call |
| Session.RunWithoutDraw | statemanager.go:84-86 | a session with no `Draw` call never panics, since only `Draw` lacks a guard |
| Session.RunPreservesValid | statemanager.go:35-90 | every session that starts in a valid registry ends in one |
| Session.RunConforms | statemanager.go:60-86 | the calls of every session are accepted by the automaton, from the starting phase to the final one |
| Session.SessionFromNew | statemanager.go:41-90 | every session started from `New` ends valid, and its calls form a well-ordered trace ending in the phase of the active state |
| Session.RunKeepsRegistrations | statemanager.go:50-74 | nothing is ever unregistered or replaced. Listed ids keep their places. Once a state is active, one always is. |
| Session.DistinctAddsInOrder | statemanager.go:50-58 | adding states with distinct new ids: every call succeeds, no hook is called, the active state is unchanged, and the ids are appended in call order |
| Session.KeysCountSuccessfulAdds | statemanager.go:50-58 | the id list grows by exactly one per successful `Add` and by nothing else |
| Session.ActiveIffActivated | statemanager.go:60-74 | at the end of a session a state is active iff one was active at its start or some `SetActive` in it succeeded |
| Session.DuplicateAddRejected | statemanager.go:50-53 | a second `Add` under a taken id fails with DuplicateId, and the first state stays registered under that id |
| Session.SwitchTwice | statemanager.go:60-74 | activating a and then another state b succeeds twice, leaves b active and changes nothing else. The calls are the exit of the previous state, if any, then a entered, a exited and b entered. |
| Session.SwitchOrder | statemanager.go:60-86 | activating a then b: after the exit of the state active at the start, if any, a is entered, a is exited and b is entered; the next `Update` and the next `Draw` both reach b |
| Session.ReactivateIsNotNoop | statemanager.go:60-71 | re-activating the active state exits and re-enters it, changing nothing else |
| Scenarios.Apply | statemanager_test.go:16-37 | how the test state's fields change on one call into it: `OnExit` sets `exited`, `OnEnter` resets `counter` to 0, `Update` adds 1 to it, and any other call, or a call into another state, changes neither |
| Scenarios.FieldsExited | statemanager_test.go:34-43 | a fresh test state's `exited` flag is set after a sequence of calls iff `OnExit` was called on it |
| Scenarios.FieldsCounter | statemanager_test.go:20-32 | after the last `OnEnter` of the test state, its counter equals the number of `Update` calls made on it since |
| Scenarios.AddThenEnter | statemanager_test.go:45-53 | `Add` on a new registry succeeds; then `SetActive` of that id succeeds and enters the state |
| Scenarios.AddScenarios | statemanager_test.go:55-89 | adding the same state twice fails the second time and lists one id. Two distinct ids both succeed and are listed in order. |
| Scenarios.UpdateScenario | statemanager_test.go:91-101 | `Update` after activation succeeds, and the test state's counter is 1 |
| Scenarios.DrawScenario | statemanager_test.go:103-111 | `Draw` after activation succeeds and reaches the active state once with the given surface |
| Scenarios.NoActiveScenario | statemanager_test.go:113-119 | `Update` with nothing active fails with NoActive and calls nothing; a new registry lists no ids |
| Scenarios.NoActiveDrawPanics | statemanager_test.go:121-122 | `Draw` with nothing active has no result: the code as written panics where the test expects an error |
| Scenarios.SetActiveScenario | statemanager_test.go:125-134 | with two states registered, activating one succeeds and enters only it |
| Scenarios.SetActiveFailScenario | statemanager_test.go:136-143 | activating an unregistered id fails with NotFound and calls no hook |
| Scenarios.OnEnterScenario | statemanager_test.go:145-162 | two updates leave the counter at 2; switching away and back resets it to 0 through OnEnter |
| Scenarios.OnExitScenario | statemanager_test.go:164-177 | activating a state leaves its `exited` flag false; switching to another state sets it |

## Left out

- The hook results in `SetActive`: `OnExit` and `OnEnter` may fail, and the source drops their results. `Manager.StateManager.SetActive` takes them as parameters and ignores them. The `Registry` functions do not mention them.
- The `StateManager` interface and its hiding of `stateManager`: the class stands for both.
- Registry.Draw: requires an active state, where the source has no guard and panics on a nil interface. `Manager.StateManager.Draw` has the same precondition, and `Session.Run` yields `None` for such a call. The panic itself is not modelled.
- Manager.StateManager.States: returns the id list as a value. The source returns the slice itself, so a caller that writes into it changes the registry's list. That aliasing is not modelled.
- What user states do inside their hooks, `Update` and `Draw` is not modelled. Only the calls are recorded, and the test state's two fields are recomputed from them in `Scenarios`.
- `ID()` is taken to return the same string on every call. The source calls it up to three times in `Add`.
- The ebiten drawing surface and rendering library are not part of this model. The surface is an opaque value passed through.
- The game loop in doc.go, `ebiten.IsRunningSlowly`, and any concurrent use are not part of this model. The source assumes a single game-loop thread.
- Error messages are not modelled: each error string is a variant of `Error`.
- Re-entrant calls: the model assumes a state's `OnExit`, `OnEnter`, `Update` and `Draw` never call back into the registry. Several contracts rely on this:
  - `Registry.Update` and `Registry.Draw` leave the registry unchanged;
  - `Registry.SetActive` ends with the named state active;
  - the `Lifecycle` conformance lemmas and `Session.RunConforms` rely on it too.

  doc.go:50-51 suggests that states may switch themselves.
  - A `SetActive` made from inside `Update` or `OnEnter` makes the same calls, and leaves the same registry, as the same calls made one after the other by the host. `Session` covers that case.
  - A `SetActive` made from inside `OnExit` is not covered. statemanager.go:64 runs before line 67 reassigns the active state, so the old state is exited twice and the inner state is entered but never exited. `Lifecycle.ReentrantOnExitRejected` shows the automaton rejects such a trace. It is a hazard of the source. Only a single re-entry is modelled, where the inner call's `OnExit` does not re-enter again. A hook that re-enters on every call would recurse without end.
- Add with a nil state: the source panics at statemanager.go:51 when `ID()` is called on a nil interface. A `State` in the model is never nil, so this panic is not modelled.
