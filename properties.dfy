/**
 * Properties of whole runs that relate several operations: the error path,
 * the shared context, which reducer handlers an emitted event reaches, and
 * the registration scenarios of the library's tests.
 */
module ActionProperties {
  import opened Wrappers
  import opened Js
  import opened Reducer
  import opened Store
  import opened Actions

  /**
   * A rejected inner thunk leads to exactly one more emission, `error`,
   * which dispatches one error record carrying the reason and calls the
   * `error` listeners once each; the thunk itself then resolves.
   */
  lemma RejectionEmitsErrorOnce(actionType: string, listeners: map<string, seq<nat>>,
                                 script: ThunkScript, ctx: Context, code: ActionCode)
    requires script.settles.Rejected?
    ensures Records(actionType, RunEmissions(script)) ==
            Records(actionType, script.emits) + [Record(MakeActionType(actionType, "error"), true, script.settles.reason)]
    ensures RunCalls(listeners, RunEmissions(script), ctx, map[], code) ==
            RunCalls(listeners, script.emits, ctx, map[], code) +
            FanOut(ListenersOf(listeners, "error"), script.settles.reason, ctx,
                   ThreadedRun(listeners, script.emits, map[], code), code)
    ensures SettledResult(script.settles) == Resolved(Undefined)
  {
  }

  /**
   * A synchronous throw from the inner thunk is not converted: only the
   * events emitted before it are dispatched, and the thunk throws the same
   * value.
   */
  lemma SyncThrowPropagates(script: ThunkScript)
    requires script.settles.Threw?
    ensures RunEmissions(script) == script.emits
    ensures SettledResult(script.settles) == Raised(script.settles.error)
  {
  }

  /**
   * A listener that stores its payload under `key` on the first event is
   * read back by a listener of the second event in the same run.
   */
  lemma {:induction false} ContextPersistsBetweenEvents(first: string, second: string, writer: nat, reader: nat,
                                                        key: string, x: JsValue, y: JsValue,
                                                        ctx: Context, code: ActionCode)
    requires first != second
    requires forall p, s :: code.listener(writer, p, s) == s[key := p]
    ensures var calls := RunCalls(map[first := [writer], second := [reader]],
                                  [Emission(first, x), Emission(second, y)], ctx, map[], code);
            && |calls| == 2
            && calls[0].listener == writer && calls[1].listener == reader
            && calls[1].context == calls[0].context
            && key in calls[1].seen && calls[1].seen[key] == x
  {
    var listeners := map[first := [writer], second := [reader]];
    var ems := [Emission(first, x), Emission(second, y)];
    var one := ems[..1];
    assert ems[..|ems| - 1] == one;
    assert one[..|one| - 1] == [];
    assert ListenersOf(listeners, first) == [writer] && ListenersOf(listeners, second) == [reader];
    assert RunCalls(listeners, one, ctx, map[], code) == FanOut([writer], x, ctx, map[], code);
    assert RunCalls(listeners, ems, ctx, map[], code) ==
           RunCalls(listeners, one, ctx, map[], code) +
           FanOut([reader], y, ctx, ThreadedRun(listeners, one, map[], code), code);
    FanOutCallsEachOnce([writer], x, ctx, map[], code);
    FanOutCallsEachOnce([reader], y, ctx, ThreadedRun(listeners, one, map[], code), code);
    RunCallsChained(listeners, ems, ctx, map[], code);
  }

  /**
   * The same when both events have one name: its list is the writer then
   * the reader, and the reader's first call, in the first emission, reads
   * back the first payload.
   */
  lemma {:induction false} ContextPersistsWithinOneEvent(name: string, writer: nat, reader: nat,
                                                         key: string, x: JsValue, y: JsValue,
                                                         ctx: Context, code: ActionCode)
    requires forall p, s :: code.listener(writer, p, s) == s[key := p]
    ensures var calls := RunCalls(map[name := [writer, reader]],
                                  [Emission(name, x), Emission(name, y)], ctx, map[], code);
            && |calls| == 4
            && calls[0].listener == writer && calls[1].listener == reader
            && calls[1].context == calls[0].context
            && key in calls[1].seen && calls[1].seen[key] == x
  {
    var listeners := map[name := [writer, reader]];
    var ems := [Emission(name, x), Emission(name, y)];
    var one := ems[..1];
    assert ems[..|ems| - 1] == one;
    assert one[..|one| - 1] == [];
    assert ListenersOf(listeners, name) == [writer, reader];
    var first := FanOut([writer, reader], x, ctx, map[], code);
    var second := FanOut([writer, reader], y, ctx, ThreadedRun(listeners, one, map[], code), code);
    assert RunCalls(listeners, one, ctx, map[], code) == first;
    assert RunCalls(listeners, ems, ctx, map[], code) == first + second;
    FanOutCallsEachOnce([writer, reader], x, ctx, map[], code);
    FanOutCallsEachOnce([writer, reader], y, ctx, ThreadedRun(listeners, one, map[], code), code);
    assert [writer, reader][..0] == [] && [writer, reader][..1] == [writer];
    assert Threaded([writer], x, map[], code) == code.listener(writer, x, Threaded([], x, map[], code));
  }

  /** An emitted event whose derived type has no handlers leaves the state as it was. */
  lemma UnhandledEventKeepsState(t: Table, reducer: CombinedReducer, code: ReducerCode, state: State,
                                 actionType: string, event: string, payload: JsValue)
    requires MakeActionType(actionType, event) !in t
    ensures Reduce(t, reducer, code, state, EventRecord(actionType, event, payload)) == state
  {
    DerivedTypeIsNeverInit(actionType, event);
  }

  /**
   * An emitted event updates a key it has a handler for with that handler
   * applied to the key's old value (or the empty map) and the payload.
   */
  lemma {:induction false} RegisteredHandlerUpdatesItsKey(t: Table, reducer: CombinedReducer, code: ReducerCode,
                                                          state: State, actionType: string, event: string,
                                                          key: string, handler: nat, payload: JsValue)
    requires ValidTable(t)
    requires HandlerOf(t, MakeActionType(actionType, event), key) == Some(handler)
    ensures var r := Reduce(t, reducer, code, state, EventRecord(actionType, event, payload));
            key in r && r[key] == code.handler(handler, Get(state, key), payload)
  {
    var dt := MakeActionType(actionType, event);
    DerivedTypeIsNeverInit(actionType, event);
    ReduceResetsPassesOrFolds(t, reducer, code, state, EventRecord(actionType, event, payload));
    var i := FindIndex(t[dt], key);
    assert t[dt][i].key in KeySet(t[dt]);
  }

  /**
   * Derived types of distinct actions can collide, and then an emission of
   * one action runs the reducer handlers another action registered: event
   * `c` of action `a/b` reaches the handler that action `a` registered for
   * event `b/c`.
   */
  lemma CollidingActionRunsForeignHandler(t: Table, reducer: CombinedReducer, code: ReducerCode, state: State,
                                          key: string, handler: nat, payload: JsValue)
    requires ValidTable(t)
    requires HandlerOf(t, MakeActionType("a", "b/c"), key) == Some(handler)
    ensures var r := Reduce(t, reducer, code, state, EventRecord("a/b", "c", payload));
            key in r && r[key] == code.handler(handler, Get(state, key), payload)
  {
    DerivedTypesOfDistinctActionsMayCoincide();
    RegisteredHandlerUpdatesItsKey(t, reducer, code, state, "a/b", "c", key, handler, payload);
  }

  /** Where `Find` found the handler. */
  lemma {:induction false} FindIndex(es: seq<Keyed>, key: string) returns (i: nat)
    requires Find(es, key).Some?
    ensures i < |es| && es[i] == Keyed(key, Find(es, key).value)
    decreases |es|
  {
    if es[0].key == key {
      i := 0;
    } else {
      var j := FindIndex(es[1..], key);
      i := j + 1;
    }
  }

  /**
   * Handlers registered for another event of the same action play no part
   * when an event is emitted.
   */
  lemma {:induction false} OtherEventHandlersNotInvoked(t: Table, reducer: CombinedReducer, code: ReducerCode,
                                                        state: State, actionType: string, event: string,
                                                        other: string, es: seq<Keyed>, payload: JsValue)
    requires event != other
    ensures Reduce(t[MakeActionType(actionType, other) := es], reducer, code, state, EventRecord(actionType, event, payload))
         == Reduce(t - {MakeActionType(actionType, other)}, reducer, code, state, EventRecord(actionType, event, payload))
  {
    MakeActionTypeInjective(actionType, event, other);
    ReduceReadsOnlyOwnType(t, MakeActionType(actionType, other), es, reducer, code, state,
                           EventRecord(actionType, event, payload));
  }

  /**
   * The registration errors of the library's tests, on fresh registries: a
   * second action with the same type, a second reducer for the same event
   * and key, and `on` after `seal`.
   */
  method RegistrationErrors() returns (duplicateAction: Result<Action, Error>,
                                       duplicateReducer: Result<Action, Error>,
                                       afterSeal: Result<Action, Error>)
    ensures duplicateAction == Failure(DuplicateActionType("test"))
    ensures duplicateReducer == Failure(DuplicateReducer("test/done", "User"))
    ensures afterSeal == Failure(ActionSealed("test"))
  {
    var actions := new ActionRegistry();
    var reducers := new ReducerRegistry();
    var created := NewAction(actions, reducers, Str("test"), Func(0));
    var action := created.value;
    duplicateAction := NewAction(actions, reducers, Str("test"), Func(1));

    assert MakeActionType("test", "done") == "test/done";
    var first := action.On(Str("done"), [Str("User"), Func(2)]);
    duplicateReducer := action.On(Str("done"), [Str("User"), Func(3)]);

    var _ := action.Seal();
    afterSeal := action.On(Str("done"), [Func(4)]);
  }

  /** The two `User` reducers of the library's reducer test, for `done` and `unused`. */
  method AddTestReducers(action: Action)
    requires action.actionType == "test" && !action.sealed
    requires action.reducers.table == map[] && action.reducers.Valid()
    modifies action, action.reducers
    ensures action.reducers.table == map["test/done" := [Keyed("User", 1)], "test/unused" := [Keyed("User", 2)]]
    ensures action.eventListeners == old(action.eventListeners) && !action.sealed
  {
    var t1 := map["test/done" := [Keyed("User", 1)]];
    var t2 := t1["test/unused" := [Keyed("User", 2)]];
    assert MakeActionType("test", "done") == "test/done";
    assert MakeActionType("test", "unused") == "test/unused";
    assert Classify([Str("User"), Func(1)]) == ReducerForm("User", Func(1));
    assert [] + [Keyed("User", 1)] == [Keyed("User", 1)];
    assert Find([], "User") == None;
    assert Insert(map[], "test/done", "User", 1) == Success(t1);
    var _ := action.On(Str("done"), [Str("User"), Func(1)]);
    assert Classify([Str("User"), Func(2)]) == ReducerForm("User", Func(2));
    assert [] + [Keyed("User", 2)] == [Keyed("User", 2)];
    assert Insert(t1, "test/unused", "User", 2) == Success(t2);
    var _ := action.On(Str("unused"), [Str("User"), Func(2)]);
  }

  /** The two listeners of `done` of the library's listener test. */
  method AddTestListeners(action: Action)
    requires action.eventListeners == map[] && !action.sealed && action.reducers.Valid()
    modifies action, action.reducers
    ensures action.eventListeners == map["done" := [3, 4]]
    ensures action.reducers.table == old(action.reducers.table) && !action.sealed
  {
    assert Classify([Func(3)]) == ListenerForm(Func(3));
    assert [] + [3] == [3] && [3] + [4] == [3, 4];
    var _ := action.On(Str("done"), [Func(3)]);
    assert action.eventListeners == map["done" := [3]];
    assert Classify([Func(4)]) == ListenerForm(Func(4));
    var _ := action.On(Str("done"), [Func(4)]);
  }

  /**
   * Builds the action of the library's reducer and listener tests: type
   * `test`, a `User` reducer for `done` and one for `unused`, and two
   * listeners of `done`, then seals it.
   */
  method BuildTestAction() returns (action: Action, reducers: ReducerRegistry)
    ensures fresh(action) && fresh(reducers) && action.reducers == reducers
    ensures action.actionType == "test" && action.actionHandler == 0 && action.sealed
    ensures reducers.table == map["test/done" := [Keyed("User", 1)], "test/unused" := [Keyed("User", 2)]]
    ensures action.eventListeners == map["done" := [3, 4]]
  {
    var actions := new ActionRegistry();
    reducers := new ReducerRegistry();
    var created := NewAction(actions, reducers, Str("test"), Func(0));
    action := created.value;
    AddTestReducers(action);
    AddTestListeners(action);
    var _ := action.Seal();
  }

  /** The records, state and listener calls of a run whose only emission is `done`. */
  lemma {:induction false} SingleDoneEmission(code: ActionCode, reducerCode: ReducerCode, ctx: Context, payload: JsValue)
    ensures Records("test", [Emission("done", payload)]) == [Record("test/done", false, payload)]
    ensures ReduceAll(map["test/done" := [Keyed("User", 1)], "test/unused" := [Keyed("User", 2)]],
                      CombinedReducer(UserFactory(9)), reducerCode, map["User" := EmptyMap],
                      [Record("test/done", false, payload)])
         == map["User" := reducerCode.handler(1, EmptyMap, payload)]
    ensures RunCalls(map["done" := [3, 4]], [Emission("done", payload)], ctx, map[], code)
         == FanOut([3, 4], payload, ctx, map[], code)
  {
    var ems := [Emission("done", payload)];
    assert ems[..0] == [];
    assert MakeActionType("test", "done") == "test/done";
    var rs := [Record("test/done", false, payload)];
    assert rs[..0] == [];
    assert ListenersOf(map["done" := [3, 4]], "done") == [3, 4];
    var t := map["test/done" := [Keyed("User", 1)], "test/unused" := [Keyed("User", 2)]];
    var s0 := map["User" := EmptyMap];
    assert "test/done" != Init;
    var s1 := s0["User" := reducerCode.handler(1, Get(s0, "User"), payload)];
    assert Fold([Keyed("User", 1)], payload, reducerCode, s0) == Fold([], payload, reducerCode, s1);
    assert s1 == map["User" := reducerCode.handler(1, EmptyMap, payload)];
  }

  /**
   * End to end, as in the library's tests: the thunk of the action above
   * emits `done` once. The store receives one record, only the `done`
   * handler updates `User`, and both listeners run once, in order, with
   * the payload.
   */
  method EmitReachesReducerAndListeners(code: ActionCode, reducerCode: ReducerCode, payload: JsValue)
    returns (state: State, log: seq<Record>, calls: seq<Call>, result: ThunkResult)
    requires code.handler(0, []) == Func(5)
    requires forall s :: code.thunk(5, s) == ThunkScript([Emission("done", payload)], Returned(Null))
    requires reducerCode.factory(9) == map["User" := EmptyMap]
    ensures log == [Record("test/done", false, payload)]
    ensures state == map["User" := reducerCode.handler(1, EmptyMap, payload)]
    ensures |calls| == 2 && calls[0].listener == 3 && calls[1].listener == 4
    ensures calls[0].payload == payload && calls[1].payload == payload
    ensures result == Resolved(Null)
  {
    var action, reducers := BuildTestAction();
    var reducer := CreateReducer(Func(9));
    assert reducer.value == CombinedReducer(UserFactory(9));
    var store := new Store(reducers, reducer.value, reducerCode);
    assert store.state == map["User" := EmptyMap];
    var thunk := CreateAction(ActionCreator(action), [], code);
    assert thunk.value == ActionThunk(action, 5);
    var script := code.thunk(5, store.state);
    assert script == ThunkScript([Emission("done", payload)], Returned(Null));
    assert RunEmissions(script) == [Emission("done", payload)];
    var emitter;
    result, emitter := RunThunk(thunk.value, store, code);
    SingleDoneEmission(code, reducerCode, emitter.context, payload);
    state, log, calls := store.state, store.log, emitter.calls;
    FanOutCallsEachOnce([3, 4], payload, emitter.context, map[], code);
  }
}
