# redux-boss, modelled in Dafny

redux-boss builds "actions" for a thunk-style Redux store. An `Action` is
created with a type name and an action handler. Its `on` method attaches
one of two things to a named event:

- a listener;
- a keyed reducer handler, registered under the derived type
  `actionType + "/" + event` and a reducer key.

`seal` freezes the action and returns an action creator. Calling the
creator runs the action handler, which must return an inner thunk. The
creator wraps that inner thunk in a dispatchable thunk. When the store runs
that thunk, it hands the inner thunk an `emit` function bound to a fresh
context object. Each `emit(event, payload)` works in two steps:

1. It dispatches one record `{type: actionType/event, payload}`, with
   `error: true` only for the `error` event.
2. It calls the event's listeners in registration order, each on the shared
   context.

`createReducer` builds the store's reducer over the process-wide table of
keyed handlers. The reducer behaves as follows:

- On `@@INIT` it resets the state to the default-state factory's result.
- It passes unknown types through.
- For a registered type, it folds each keyed handler over the state map.
  Each handler receives the key's old value, or an empty map, together with
  the payload.

`checkType` is a `typeof` assertion that throws on mismatch. It guards the
`Action` constructor, `on` (through `addReducer` and `addEventListener`),
the action creator and `createReducer`. `seal`, `emit`, `add` and the
returned reducer call no `checkType`.

The model has these parts:

- `wrappers.dfy` holds `Option`, `Result` and `Outcome`.
- `js.dfy` holds the JavaScript values the library inspects, `typeof`, string
  coercion and the errors thrown.
- `check_type.dfy` models `checkType`.
- `reducer.dfy` models `add` as a pure `Insert` on a table value and as the
  imperative `ReducerRegistry.Add`. It also models `createReducer` and the
  reducer it returns, as `Reduce` over the table, with lemmas about the fold.
- `store.dfy` models the small store of the library's tests. It starts from
  `@@INIT` and records every dispatched record.
- `actions.dfy` holds the rest of `src/index.js`:
  - the `Action` class with `On` and `Seal`;
  - the registry of action types and the `NewAction` constructor;
  - the action creator `CreateAction`;
  - the `Emitter` class with `Emit`;
  - the run of a dispatchable thunk, `RunThunk`.

  The run is specified by pure functions (`Records`, `RunCalls`,
  `ThreadedRun`, `ReduceAll`) and by lemmas about them.
- `properties.dfy` proves properties that relate several operations. It also
  replays the scenarios of the library's tests on concrete values.

The model represents user code as follows:

- User functions are identified by ids (`Func(id)`). What they compute is
  supplied as function-valued parameters: `ActionCode` and `ReducerCode`.
- The action handler maps its arguments to a value.
- An inner thunk, given the state when it starts, yields a `ThunkScript`:
  the events it emits and how it settles, as `Returned`, `Threw` or
  `Rejected`.
- A listener maps the context's contents to new contents.
- A reducer handler maps the sub-state and payload to a new sub-state.

The module-level `actions` list and `reducers` table are explicit registry
objects (`ActionRegistry`, `ReducerRegistry`).

Two behaviours of the code shape the model:

- `createReducer` takes a default-state factory function, or `undefined`
  (src/reducer.js:16-22).
- A synchronous throw from the inner thunk propagates out of the
  dispatchable thunk, because it happens while the argument of
  `Promise.resolve` is computed (src/index.js:68-73). Only a rejected
  promise leads to `emit('error', reason)`.

## Model

| member | source | states |
|---|---|---|
| TypeCheck.CheckType | src/checkType.js:1-12 | Passes exactly when `typeof received == expectedType`, so the verdict never depends on the context. On failure it raises a type-mismatch error whose message begins "Expected <context> to be a <expectedType>". |
| Reducer.Insert | src/reducer.js:6-14 | Fails exactly when (derived type, key) already has a handler, with a duplicate-reducer error. Otherwise it yields a table that still has at most one handler per pair. The new pair maps to the handler and every other pair's handler is unchanged. |
| Reducer.InsertAsWritten | src/reducer.js:10-11 | `add` as written: it fails when the pair is taken and also when the key names an inherited `Object.prototype` method. |
| Reducer.ConstructorKeyRejectedAsWritten | src/reducer.js:10-11 | On an empty table, `add` as written rejects the key `constructor`, while the corrected `Insert` accepts it. |
| Reducer.ReducerRegistry.constructor | src/reducer.js:4 | The registry starts empty and valid. |
| Reducer.ReducerRegistry.Add | src/reducer.js:6-14 | The table becomes `Insert`'s table on success. On a duplicate the table is unchanged and a duplicate-reducer error is returned. The one-handler-per-pair invariant is kept either way. |
| Reducer.CreateReducer | src/reducer.js:16-22 | `undefined` selects the empty-map factory and a function selects itself. Every other value fails with a type-mismatch error. |
| Reducer.Fold | src/reducer.js:32-44 | The `Object.keys(handlers).reduce` fold; its contract is stated by `Reducer.FoldUpdatesEachKeyOnce`. |
| Reducer.FoldUpdatesEachKeyOnce | src/reducer.js:32-44 | Folding distinct-keyed handlers sets each key to its own handler's result. That result is computed on the key's old value (or the empty map) and the payload. The key set grows by the handlers' keys and no other key changes. |
| Reducer.Reduce | src/reducer.js:24-45 | The reducer `createReducer` returns, reading the current table; its contract is stated by `Reducer.ReduceResetsPassesOrFolds`. |
| Reducer.ReduceResetsPassesOrFolds | src/reducer.js:24-45 | `@@INIT` gives the default state whatever the prior state. A type without handlers passes the state through. Otherwise the state is updated by each handler once, as above. |
| Reducer.ReduceReadsOnlyOwnType | src/reducer.js:28-30 | The reducer's result does not depend on the handlers registered under any other derived type. |
| Store.Store.constructor | src/__tests__/index.js:4-23 | The store's state starts as the reducer's `@@INIT` result, the default state, and its log starts empty. |
| Store.Store.Dispatch | src/__tests__/index.js:9-14 | Dispatching a record appends it to the log and replaces the state by the reducer's result on it. |
| Actions.MakeActionType | src/index.js:35-37 | The derived type `actionType/event`; its contract is stated by `Actions.MakeActionTypeInjective` and `Actions.DerivedTypeIsNeverInit`. |
| Actions.MakeActionTypeInjective | src/index.js:35-37 | Within one action, two events give the same derived type if and only if they are the same event. |
| Actions.DerivedTypesOfDistinctActionsMayCoincide | src/index.js:35-37 | Across actions the derived type is not injective: `a/b` with event `c` and `a` with event `b/c` collide. |
| Actions.DerivedTypeIsNeverInit | src/index.js:35-37 | A derived type contains a `/`, so no emitted record is ever taken for `@@INIT`. |
| Actions.EventRecord | src/index.js:86-96 | The record an emission dispatches carries the derived type and the payload. It is flagged as an error if and only if the event is `error`. |
| Actions.ActionRegistry.constructor | src/index.js:4 | The action-type registry starts empty and duplicate-free. |
| Actions.Classify | src/index.js:27-30 | `on` takes the reducer form exactly when a second argument exists and its `typeof` is `string`. That argument becomes the key and the third argument (or `undefined`) the handler. Otherwise the second argument (or `undefined`) is the listener. |
| Actions.AddListener | src/index.js:47-54 | Adding a listener appends it to the end of its event's list (creating the list if missing). Every other event's list is left as it was. |
| Actions.AddListenerAsWritten | src/index.js:50-53 | `addEventListener` as written fails exactly for an event that has no list yet and names an inherited `Object.prototype` method or is `__proto__`. In every other case it agrees with `AddListener`. |
| Actions.ToStringListenerRejectedAsWritten | src/index.js:50-53 | As written, `on('toString', h)` and `on('__proto__', h)` on a fresh action fail. The corrected `AddListener` gives `toString` the list `[h]`. |
| Actions.EmitListenersAsWritten | src/index.js:99-103 | `emit`'s listener lookup as written fails exactly for an event that has no listeners and names an inherited `Object.prototype` method or is `__proto__`. In every other case it yields the event's listeners. |
| Actions.ValueOfEmissionFailsAsWritten | src/index.js:99-103 | As written, emitting `valueOf` or `__proto__` with no listeners fails after dispatching, where the corrected lookup finds no listeners. |
| Actions.Action.constructor | src/index.js:15-18 | A new action records its type and handler, is not sealed and has no listeners. |
| Actions.Action.On | src/index.js:21-33 | The outcome of `on` has these cases. A non-string event fails with a type mismatch and changes nothing. On a sealed action the call fails and changes neither the listeners nor the reducer table. The listener form appends a function handler with `AddListener` and leaves the table alone; with a non-function handler it fails and changes nothing. The reducer form leaves the listeners alone: a non-function handler fails, and otherwise the table becomes `Insert`'s result for the derived type and key, failing on a duplicate. Success returns the same action. |
| Actions.Action.Seal | src/index.js:56-80 | After `seal` the action is sealed. The warning count grows by one exactly when it was already sealed. The returned creator is bound to this action. Nothing else changes. |
| Actions.NewAction | src/index.js:6-19 | Construction succeeds if and only if the type is a string, the handler is a function and the type is not yet registered. On success the type is appended to the registry and the new action starts unsealed with no listeners. On failure the registry is unchanged (type mismatch, or duplicate action type). The registry stays duplicate-free. |
| Actions.CreateAction | src/index.js:61-77 | The action creator succeeds if and only if the action handler's result on the arguments is a function. That function becomes the inner thunk of a thunk bound to the action. Otherwise it fails with the "Expected action thunk to be a function" type mismatch. |
| Actions.Context.constructor | src/index.js:83 | The context object starts empty. |
| Actions.FanOutCallsEachOnce | src/index.js:99-103 | One emission makes exactly one call per listener, in registration order. Each call gets the payload and the shared context object, holding what the earlier listeners left. |
| Actions.FanOutChained | src/index.js:99-103 | Each listener call sees the context its predecessor left. The context after the emission is what the last call left. |
| Actions.RecordsOnePerEmission | src/index.js:85-96 | A run dispatches exactly one record per emission, in emission order. |
| Actions.RunCallsChained | src/index.js:82-106 | Across the whole run every listener call gets the run's single context object. Each call sees what the previous call left, whatever event either was for. The final context is what the last call left. |
| Actions.EmitStep | src/index.js:85-104 | One `emit` on values: the record dispatched, then the event's listeners called on the context; its contract is stated by `Actions.EmitStepsRun`, `Actions.FanOutCallsEachOnce` and `Actions.UnlistenedEventCallsNothing`. |
| Actions.EmitStepsRun | src/index.js:85-104 | A run of `emit` steps appends the run's records to the log and reduces the state by them in order. It appends the run's listener calls and leaves the context as the run's listeners threaded it. |
| Actions.UnlistenedEventCallsNothing | src/index.js:99-101 | An emission of an event without listeners, whatever its name, dispatches its record and leaves the call trace and the context unchanged. |
| Actions.Emitter.constructor | src/index.js:82-84 | A new emitter has a fresh, empty context object and no calls. |
| Actions.Emitter.Emit | src/index.js:85-104 | One `emit` advances the log, state, call trace and context by exactly one `EmitStep`. That step dispatches the event's record and then calls the event's listeners on the shared context. |
| Actions.Emitter.CallListeners | src/index.js:103 | The call trace grows by one call per listener, in order. The context ends as the listeners threaded it. |
| Actions.Emitter.EmitAll | src/index.js:68-72 | The inner thunk's emissions, performed in order, advance the emitter by `EmitSteps`. |
| Actions.RunThunk | src/index.js:65-74 | A run of the dispatchable thunk has this effect: the store's log gains one record per emission, the state is the reducer folded over those records, the listener calls are the run's, starting from an empty context, and the context is what the listeners left. The emissions are the inner thunk's, plus one `error` emission when its promise rejects. The thunk resolves with the inner value, resolves after a rejection, or throws a synchronous throw on. |
| ActionProperties.RejectionEmitsErrorOnce | src/index.js:68-73 | A rejected inner thunk leads to exactly one more record, the error-flagged `error` record carrying the reason, and to one call per `error` listener. The thunk then resolves. |
| ActionProperties.SyncThrowPropagates | src/index.js:68-73 | A synchronous throw adds no `error` emission, and the thunk throws the same value. |
| ActionProperties.ContextPersistsBetweenEvents | src/__tests__/index.js:130-155 | Suppose a listener of the first event stores its payload in the context. Then the listener of the second event gets the same context object and reads that payload back. |
| ActionProperties.ContextPersistsWithinOneEvent | src/__tests__/index.js:130-155 | When the test's two event names coincide, the one list is the writer then the reader, and the reader's first call gets the same context object and reads back the first payload. |
| ActionProperties.UnhandledEventKeepsState | src/reducer.js:28-30 | An emitted event whose derived type has no handlers leaves the state unchanged. |
| ActionProperties.RegisteredHandlerUpdatesItsKey | src/reducer.js:32-44 | An emitted event sets each key it has a handler for to that handler's result on the key's old value (or the empty map) and the payload. |
| ActionProperties.CollidingActionRunsForeignHandler | src/index.js:35-45 | Because derived types of distinct actions can collide, emitting event `c` of action `a/b` updates a key with the handler that action `a` registered for event `b/c`. |
| ActionProperties.OtherEventHandlersNotInvoked | src/__tests__/index.js:103-128 | Handlers registered for another event of the same action play no part when an event is emitted. |
| ActionProperties.RegistrationErrors | src/__tests__/index.js:157-175 | Registering a second action of the same type fails with a duplicate-action error. A second `User` reducer for the same event fails with a duplicate-reducer error. `on` after `seal` fails. |
| ActionProperties.AddTestReducers | src/__tests__/index.js:115-116 | Two `on(event, 'User', handler)` calls for `done` and `unused` leave exactly those two pairs in the table. |
| ActionProperties.AddTestListeners | src/__tests__/index.js:72-73 | Two `on(event, listener)` calls for `done` leave that event's list as the two listeners, in order. |
| ActionProperties.BuildTestAction | src/__tests__/index.js:112-117 | The test action ends sealed with both reducers and both listeners registered. |
| ActionProperties.SingleDoneEmission | src/__tests__/index.js:112-128 | Emitting `done` once dispatches one record `test/done`. Only the `done` handler updates `User`. Both listeners are called. |
| ActionProperties.EmitReachesReducerAndListeners | src/__tests__/index.js:61-128 | End to end, one `done` emission has these effects: the store receives exactly one record, `User` becomes the `done` handler's result on the default `User` value and the payload, and the two listeners run once each, in order, with the payload. |

## Left out

- Promise and microtask scheduling is not modelled. The inner thunk's outcome is given synchronously as `Returned`, `Threw` or `Rejected`, so independent thunk runs never interleave.
- The inner thunk sees `getState` only once, when it starts. Its script of emissions is a function of that state, so it cannot react to states reached mid-run.
- Listeners receive `dispatch` and `getState`, but the model does not follow what listeners dispatch with them. A listener only transforms the context's contents.
- A listener that throws is not modelled. Its throw would abort the remaining listeners and propagate out of `emit`.
- An action handler that throws inside the action creator is not modelled.
- Actions.Action.Seal: `console.warn` is modelled only as a counter of warnings, not as console output.
- Immutable.js maps are Dafny maps, with no structural sharing. `get(key, Immutable.Map())` is a lookup with the empty map as default.
- A default-state factory or reducer handler that returns something other than a map is not modelled.
- JavaScript's `this`, `bind`, `call` and `arguments` are not modelled. The action, emitter and context are passed explicitly, and `on`'s variadic arguments are a sequence classified by `Classify`.
- TypeCheck.CheckType: the message's tail is fixed only for primitive values. Coercing a function to a string (its source text) and coercing an object are abstracted.
- Reducer.Insert: the duplicate-reducer message names the free variable `event` and `this.actionType`. Where no global `event` exists, building it may throw a ReferenceError instead of the intended error, and the model states only that the registration fails.
- Actions.Emitter.Emit: event names are strings. A non-string event would be coerced to a property key, and that case is not modelled.
- Keys inherited from `Object.prototype`, and the key `__proto__`, behave as in the Findings below. Assigning to `__proto__`, which sets the prototype instead of adding a key, is not modelled.
- The order `Object.keys` gives integer-like keys ahead of the others is not modelled. Handlers run in registration order.
- Numbers are unbounded integers. Floating point, symbols and bigints are left out.
- Module export wiring (`module.exports`) carries no behaviour and is not modelled.

## Findings

| source | as written | input that shows it | evidently intended | confidence | as-written member | corrected member |
|---|---|---|---|---|---|---|
| src/reducer.js:10-11 | `typeof reducers[actionType][reducer] === 'function'` also sees functions inherited by every plain object | `on('done', 'constructor', h)` on a fresh action: the key is reported as a duplicate on its first registration | only a handler registered earlier counts as a duplicate | not executed | Reducer.InsertAsWritten, Reducer.ConstructorKeyRejectedAsWritten | Reducer.Insert |
| src/index.js:50-53 | `this.eventListeners[event]` on a plain object finds an inherited method for such names, so no list is created and `.push` is called on a function | `on('toString', h)` (or `on('__proto__', h)`) on a fresh action throws "push is not a function" | the first listener of any event name creates that event's list | not executed | Actions.AddListenerAsWritten, Actions.ToStringListenerRejectedAsWritten | Actions.AddListener |
| src/index.js:99-103 | the same lookup in `emit` finds an inherited method, which is truthy, so `.forEach` is called on a function | `emit('valueOf', p)` with no `valueOf` listeners throws "forEach is not a function" after dispatching | an event without listeners calls nothing and returns | not executed | Actions.EmitListenersAsWritten, Actions.ValueOfEmissionFailsAsWritten | Actions.UnlistenedEventCallsNothing |
