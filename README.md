# suddenly-flux, modelled in Dafny

suddenly-flux is a small unidirectional state-management library: a `Store`
holds one immutable state map and a root reducer; `dispatch` feeds an action
through the reducer, shallow-merges the result into the state and notifies the
registered change listeners in order. Reducers are built with `createReducer`
(a table of handlers keyed by action type, with an initial state and an
optional side effect) and `combineReducers` (a tree of sub-reducers, one per
top-level key). A helper, `queryString`, turns a flat parameter object into a
URL query string.

The model has four modules:

- `States` (`state.dfy`): JavaScript values as they sit in an Immutable.js
  map (`Value`, with nested maps for combined slices), the state map, action
  objects, truthiness, `Map.merge` and `createState` on a flat object.
- `Reducers` (`reducers.dfy`): a reducer is a datatype — the closure
  `createReducer` returns (`Created`), the closure `combineReducers` returns
  (`Combined`), or any other reducer function (`Custom`). `Reduce` is the
  reference meaning of calling one; its `Reduction` carries the returned state
  and the log of side-effect calls made, in order. `RunReducer`, `RunCases`
  and `RunEntries` run the closures' `forEach` loops and are proved equal to
  `Reduce`. Lemmas state what the two kinds of closure do, and the tests'
  two-slice scenario is proved from them.
- `Stores` (`store.dfy`): the class `Store` with its `state`, `reducer` and
  `listeners` fields and ghost logs of listener notifications, `getState`
  reads made inside eventual actions, and side-effect calls. An eventual action
  is a script of steps (dispatch something, or read the state); `Run` is the
  reference meaning of `dispatch`, and `Store.Dispatch` is proved to follow it.
  Lemmas cover plain, `undefined` and eventual dispatch, and the tests'
  counter scenario is run on a `Store`.
- `Query` (`query.dfy`): `queryString` over the parameters in key order, with
  `encodeURIComponent` as a parameter assumed only to escape `&` and `=`;
  lemmas show the result parses back into its pairs.

Two places where the sources disagree with each other are settled by the
code that runs: `createState` takes one argument (`src/reducers.ts:8`), while
the test at `src/reducers.test.ts:11` calls it with two (a list and a key
field); the one-argument conversion is modelled and the keyed form is not.
`src/types.d.ts:14` gives an `EventualAction` the arguments
`(getState, dispatch)`, the opposite order from the call in
`src/context.tsx:47` and the type in `src/types.ts:16`, `(dispatch,
getState)`; the latter is modelled.

## Model

| member | source | states |
|---|---|---|
| States.Merge | src/context.tsx:50 | `Map.merge` is shallow: the result has the keys of both maps, a fragment key takes the fragment's value and a key only in the old state keeps its value |
| States.MergeNeutral | src/context.tsx:50 | merging a state into itself, or merging an empty fragment, leaves it unchanged |
| States.CreateState | src/reducers.ts:8-10 | the state built from an object's fields holds exactly the field names as keys, and the last field's value under its name |
| States.CreateStateLookup | src/reducers.ts:8-10 | with distinct field names, every field's value is found under its own name |
| Reducers.ApplyCases | src/reducers.ts:47-51 | the handler-table fold: every case whose key equals the action type is applied in turn to the running state (a definition; `ApplyCasesMatch` and `ApplyCasesNoMatch` state its results) |
| Reducers.SliceOf | src/reducers.ts:24 | `state.get(key)` for a combined slice: a slice is found exactly when the key holds a nested map, and then it is that map |
| Reducers.Reduce | src/reducers.ts:20-58 | the meaning of calling a reducer on an optional state and action, with its side-effect calls (a definition; `CreatedReducer`, `CombinedReducer` and their companions state its results, and `RunReducer` is proved to compute it) |
| Reducers.ReduceEntries | src/reducers.ts:23-25 | the tree loop from entry `i` on, as a fold (a definition; `ReduceEntriesKeys`, `ReduceEntriesState` and `ReduceEntriesEffects` state its results) |
| Reducers.RunReducer | src/reducers.ts:20-58 | calling any reducer (running the loops of the closures) returns exactly the state and the side-effect calls `Reduce` defines |
| Reducers.RunCases | src/reducers.ts:47-51 | the `forEach` over the handler table yields the table fold `ApplyCases` |
| Reducers.RunEntries | src/reducers.ts:23-25 | the `forEach` over the tree keys yields the tree fold `ReduceEntries`, side effects of the sub-reducers included in order |
| Reducers.ApplyCasesMatch | src/reducers.ts:47-51 | with distinct table keys, an action whose type equals key `k` gets exactly `table[k](state, action)` |
| Reducers.ApplyCasesNoMatch | src/reducers.ts:47-51 | an action type equal to no key leaves the state as it is |
| Reducers.CreatedReducer | src/reducers.ts:41-59 | an absent state defaults to the initial state; no action or a falsy type returns the state and calls no side effect; otherwise the matching handler (or none) decides the result and the side effect is called exactly once with that result |
| Reducers.CreatedDefault | src/reducers.ts:44 | `reducer()` returns the initial state exactly and calls nothing |
| Reducers.ReduceEntriesKeys | src/reducers.ts:23-25 | the tree loop adds exactly the remaining tree keys and keeps every other key's value |
| Reducers.ReduceEntriesState | src/reducers.ts:23-25 | with distinct keys, each tree key ends up holding its sub-reducer's result on that key's slice of the state the loop started from |
| Reducers.ReduceEntriesEffects | src/reducers.ts:23-25 | the tree loop's side-effect calls are the sub-reducers' own, in tree order, each on its original slice |
| Reducers.SubEffectsSlices | src/reducers.ts:24 | states that agree on the remaining slices give the same sub-reducer side-effect calls |
| Reducers.CombinedReducer | src/reducers.ts:17-33 | an absent state starts from the empty map; the result has the old keys plus the tree's keys; each tree key holds `sub(oldSlice, action)`; other keys keep their values; the side effect is called once, after every sub-reducer's calls, with the final composed state |
| Reducers.CombinedKeys | src/reducers.ts:21-25 | a combined reducer's result has exactly the old keys plus the tree's keys |
| Reducers.CombinedDefault | src/reducers.ts:21-25 | `reducer()` has exactly the tree's keys, each holding `sub()` |
| Reducers.CombinedUnhandledSlice | src/reducers.ts:23-25 | a slice whose `createReducer` sub-reducer has no case for the action keeps its value |
| Reducers.CombinedHandledSlice | src/reducers.ts:23-25 | a slice whose `createReducer` sub-reducer has a case for the action holds that case's result on the old slice |
| Reducers.TwoSlicesDefault | src/reducers.test.ts:110-115 | `reducer()` of two `{value: null}` slices is exactly both slices at `null` |
| Reducers.TwoSlicesStep | src/reducers.test.ts:117-130 | an action handled by one slice reducer changes only that slice; one handled by both changes both; nothing else appears in the state |
| Reducers.CombinedScenario | src/reducers.test.ts:83-131 | the tests' `first`/`second` combination: `reducer()` gives both `null`, then FIRST_VALUE, SECOND_VALUE and BOTH_VALUE set exactly the slices the tests expect |
| Reducers.SlotCreated | src/reducers.test.ts:84-86 | `createState({value: v})`, as the tests build a slice, is exactly the map `{value: v}` |
| Stores.Notify | src/context.tsx:34-38 | one notification per listener, in list order, each with the given state |
| Stores.Without | src/context.tsx:30-32 | the removed handler occurs nowhere in the result, and every other listener occurs as often as before |
| Stores.WithoutConcat | src/context.tsx:31 | filtering keeps the relative order of the remaining listeners |
| Stores.WithoutAbsent | src/context.tsx:31 | removing a listener that is not registered changes nothing |
| Stores.Run | src/context.tsx:44-53 | the meaning of `dispatch`: plain action, `undefined`, or an eventual action run step by step (a definition; the dispatch lemmas below state its results, and `Store.Dispatch` is proved to follow it) |
| Stores.RunScript | src/context.tsx:46-47 | the steps of an eventual action from step `i` on, each `dispatch` or `getState` on the live trace (a definition; stated by the `Script…` lemmas) |
| Stores.ImmediateDispatch | src/context.tsx:48-51 | a plain action shallow-merges `reducer(state, action)` into the state, then notifies each listener once, in order, with the new state; earlier notifications and reads stay |
| Stores.UndefinedDispatch | src/context.tsx:48 | dispatching `undefined` changes nothing and notifies no one |
| Stores.DispatchNotifications | src/context.tsx:44-53 | the notification log grows by exactly `|listeners|` entries per plain-action dispatch, nested ones inside eventual actions included |
| Stores.NotifyCalls | src/context.tsx:34-38 | one `onStateChanged` round calls each listener exactly as often as it is registered |
| Stores.CallsConcat | src/context.tsx:34-38 | call counts add up over an appended log |
| Stores.DispatchCalls | src/context.tsx:44-53 | per listener `h`: a dispatch adds exactly (registrations of `h`) × (plain-action dispatches, nested ones included) calls of `h`, so a listener registered once is called once per plain action and an unregistered one never |
| Stores.ScriptCalls | src/context.tsx:46-47 | the same per-listener count for the remaining steps of an eventual action |
| Stores.DispatchOnlyListeners | src/context.tsx:34-38 | every log entry a dispatch adds, however nested, is a call of a listener registered when it started |
| Stores.ScriptOnlyListeners | src/context.tsx:46-47 | the same for the remaining steps of an eventual action |
| Stores.CallsOnlyConcat | src/context.tsx:44-53 | two consecutive stretches of a growing log that each call only registered listeners make one such stretch |
| Stores.RemovedNotNotified | src/context.tsx:30-32 | after `removeListener(h)`, no entry any later dispatch adds is a call of `h` |
| Stores.ScriptNotifications | src/context.tsx:46-47 | the same count for the remaining steps of an eventual action |
| Stores.DispatchKeepsNotifications | src/context.tsx:44-53 | dispatching only appends to the notification log |
| Stores.ScriptKeepsNotifications | src/context.tsx:46-47 | the same for the remaining steps of an eventual action |
| Stores.DispatchKeepsKeys | src/context.tsx:50 | no dispatch removes a top-level key of the state |
| Stores.ScriptKeepsKeys | src/context.tsx:46-47 | the same for the remaining steps of an eventual action |
| Stores.QuietDispatch | src/context.tsx:46-47 | an eventual action performing no plain dispatch leaves state, notifications and side effects unchanged |
| Stores.QuietScript | src/context.tsx:46-47 | the same for the remaining steps of an eventual action |
| Stores.LiveRead | src/context.tsx:46-47 | `getState` inside an eventual action sees a nested dispatch's result at once, and the store is left in that state |
| Stores.ReadAfterDispatch | src/context.tsx:46-47 | in any eventual action, a `getState` step right after a `dispatch` step reads the state that dispatch left, and the rest of the script runs on from there |
| Stores.CountingStep | src/context.test.tsx:37-42 | one COUNTING dispatch on the test reducer increments the counter |
| Stores.CounterCreated | src/context.test.tsx:18 | `createState({counter: n})`, as the tests build a state, is exactly the map `{counter: n}` |
| Stores.CounterScenario | src/context.test.tsx:10-49 | a store built with `null` starts at counter 1, a plain COUNTING takes it to 2, an eventual action reads 2, dispatches, reads 3, and the store ends at 3 |
| Stores.Store.constructor | src/context.tsx:19-24 | a non-null initial state is used as it is; `null` defers to `reducer()` (its side-effect calls logged); the reducer is fixed and there are no listeners |
| Stores.Store.AddListener | src/context.tsx:26-28 | the handler is appended at the end, earlier entries and duplicates kept; nothing else changes |
| Stores.Store.RemoveListener | src/context.tsx:30-32 | the listener list becomes the filtered list; nothing else changes |
| Stores.Store.OnStateChanged | src/context.tsx:34-38 | the loop notifies every listener, in list order, with the current state |
| Stores.Store.GetState | src/context.tsx:40-42 | returns the current state |
| Stores.Store.Dispatch | src/context.tsx:44-53 | the new state and logs are exactly what `Run` gives for the old state and listeners, for plain, `undefined` and eventual actions alike; the listener list is unchanged |
| Query.Pairs | src/actions.ts:9-12 | one `enc(key)=enc(value)` pair per parameter, in key order |
| Query.Pair | src/actions.ts:11 | one pair is the encoded key, then `=`, then the encoded value (`PairSplits` reads it back) |
| Query.Join | src/actions.ts:13 | joining no parts gives `""`, and a join of parts starts with the first part (`SplitJoin` reads it back) |
| Query.QueryString | src/actions.ts:6-16 | absent parameters give `""`; otherwise the result starts with the prefix (by default `?`); no parameters give exactly the prefix |
| Query.SplitPieces | src/actions.ts:13 | splitting yields one more piece than there are separators |
| Query.SplitNoSeparator | src/actions.ts:13 | a piece without the separator splits into itself |
| Query.SplitFirst | src/actions.ts:13 | splitting at the first separator peels off the first piece |
| Query.SplitJoin | src/actions.ts:13 | splitting a join recovers the parts when no part holds the separator |
| Query.PairSplits | src/actions.ts:11 | with an encoder escaping `&` and `=`, a pair holds no `&` and splits at `=` into encoded key and encoded value |
| Query.QueryParses | src/actions.ts:6-16 | for n >= 1 parameters the body has exactly n - 1 `&`, splits on `&` into the pairs in key order, and each pair splits on `=` into the encoded key and value |
| Query.JoinThree | src/actions.ts:13 | joining three parts puts the separator between each two |
| Query.QueryExample | src/actions.test.ts:4-14 | the example parameters with the default prefix give `?first=thing&numerical=20&complex=thing%20with%20spaces` |

## Left out

- `Provider`, `connect`, the `Context` object and the module-level `store` singleton (`src/context.tsx:56-129`): React rendering and prop wiring, not state logic; `src/hooks.ts`, `src/index.tsx` and the type declarations carry no logic.
- Listeners are identifiers and calling one is a log entry: listener code, re-entrant dispatch or `addListener`/`removeListener` calls from inside a listener, and exceptions thrown by listeners or reducers are not modelled.
- Handlers and `Custom` reducers are total Dafny functions; a reducer that throws or never returns is not modelled.
- `createState` on a flat object only: the deep `fromJS` conversion of nested arrays and objects is a foreign library call and is not modelled; values are taken as already converted.
- Reducers.SliceOf: a combined slice that is not a nested map (a number, a string, `null`) is handed to the sub-reducer as absent, so a `createReducer` sub-reducer defaults it to its initial state; in the source a `null` slice would be passed as `null`. Slices are maps in every state the library builds.
- Stores.Store.constructor: an `undefined` initial state is not distinguished from `null` (the source passes `undefined` through as the state); only `null` falls back to `reducer()`.
- Numbers are integers and truthiness follows that: `NaN`, floating point and `-0` are not modelled.
- `Object.keys` order is taken as the order of the given sequence of entries; integer-like keys that JavaScript would move to the front are not modelled.
- Query.QueryString: parameter values are given as their string conversion (`String(value)`), and `encodeURIComponent` is an uninterpreted parameter constrained only by escaping `&` and `=`, and every falsy `parameters` value is the absent case.
- Query.QueryExample: assumes what `encodeURIComponent` returns on the six texts of the example rather than computing it, and states the expected string as its concatenated pieces.
- Immutable.js structural sharing and reference identity are not modelled; maps are compared by value.
- Asynchronous eventual actions: only the synchronous steps an eventual action performs while `dispatch` runs are modelled.
