/**
 * The action builder and its event emitter (src/index.js): registering an
 * action type, collecting listeners and keyed reducers with `on`, sealing
 * into an action creator, and running the resulting thunk, whose events
 * are dispatched as records and fanned out to listeners.
 */
module Actions {
  import opened Wrappers
  import opened Js
  import opened TypeCheck
  import opened Reducer
  import opened Store

  /** The derived action type `actionType + "/" + event`. */
  function MakeActionType(actionType: string, event: string): string
  {
    actionType + "/" + event
  }

  /** Within one action, distinct events give distinct derived types. */
  lemma {:induction false} MakeActionTypeInjective(actionType: string, e1: string, e2: string)
    ensures MakeActionType(actionType, e1) == MakeActionType(actionType, e2) <==> e1 == e2
  {
    if MakeActionType(actionType, e1) == MakeActionType(actionType, e2) {
      assert e1 == MakeActionType(actionType, e1)[|actionType| + 1..];
      assert e2 == MakeActionType(actionType, e2)[|actionType| + 1..];
    }
  }

  /** Across actions they need not: the action types "a/b" and "a" share a derived type. */
  lemma DerivedTypesOfDistinctActionsMayCoincide()
    ensures "a/b" != "a" && MakeActionType("a/b", "c") == MakeActionType("a", "b/c")
  {
  }

  /** A derived type always holds a '/', so an emitted record is never `@@INIT`. */
  lemma {:induction false} DerivedTypeIsNeverInit(actionType: string, event: string)
    ensures MakeActionType(actionType, event) != Init
  {
    assert forall i :: 0 <= i < |Init| ==> Init[i] != '/';
    assert MakeActionType(actionType, event)[|actionType|] == '/';
  }

  /** The record `emit(event, payload)` dispatches. */
  function EventRecord(actionType: string, event: string, payload: JsValue): (r: Record)
    ensures r.kind == MakeActionType(actionType, event)
    ensures r.error <==> event == "error"
    ensures r.payload == payload
  {
    if event == "error" then Record(MakeActionType(actionType, event), true, payload)
    else Record(MakeActionType(actionType, event), false, payload)
  }

  predicate NoDuplicates(s: seq<string>)
  {
    forall i, j :: 0 <= i < j < |s| ==> s[i] != s[j]
  }

  /** The process-wide list of registered action types. */
  class ActionRegistry {
    var actions: seq<string>

    ghost predicate Valid()
      reads this
    {
      NoDuplicates(actions)
    }

    constructor ()
      ensures Valid() && actions == []
    {
      actions := [];
    }
  }

  /** The two forms of `on(event, ...rest)`, told apart by the type of its second argument. */
  datatype OnForm =
    | ListenerForm(handler: JsValue)
    | ReducerForm(key: string, handler: JsValue)

  /** The argument at index `i`, or `undefined` when the call passed fewer. */
  function Arg(rest: seq<JsValue>, i: nat): JsValue
  {
    if i < |rest| then rest[i] else Undefined
  }

  /** `arguments.length > 1 && typeof arguments[1] === 'string'` selects the reducer form. */
  function Classify(rest: seq<JsValue>): (f: OnForm)
    ensures f.ReducerForm? <==> |rest| > 0 && TypeOf(rest[0]) == "string"
    ensures f.ReducerForm? ==> Str(f.key) == rest[0] && f.handler == Arg(rest, 1)
    ensures f.ListenerForm? ==> f.handler == Arg(rest, 0)
  {
    if |rest| > 0 && rest[0].Str? then ReducerForm(rest[0].s, Arg(rest, 1))
    else ListenerForm(Arg(rest, 0))
  }

  /** The listeners of `event`, or none. */
  function ListenersOf(listeners: map<string, seq<nat>>, event: string): seq<nat>
  {
    if event in listeners then listeners[event] else []
  }

  /** `addEventListener`: appends `handler` to the list of `event` and touches no other list. */
  function AddListener(listeners: map<string, seq<nat>>, event: string, handler: nat): (r: map<string, seq<nat>>)
    ensures r.Keys == listeners.Keys + {event}
    ensures ListenersOf(r, event) == ListenersOf(listeners, event) + [handler]
    ensures forall e :: e != event ==> ListenersOf(r, e) == ListenersOf(listeners, e)
  {
    listeners[event := ListenersOf(listeners, event) + [handler]]
  }

  /**
   * `addEventListener` as written: for an event naming an inherited
   * `Object.prototype` method, or `__proto__`, `this.eventListeners[event]`
   * is already truthy, so no list is created, and the value found there has
   * no `push` method.
   */
  function AddListenerAsWritten(listeners: map<string, seq<nat>>, event: string, handler: nat)
    : (r: Result<map<string, seq<nat>>, Error>)
    ensures r.Failure? <==> event !in listeners && event in InheritedTruthyKeys
    ensures r.Success? ==> r.value == AddListener(listeners, event, handler)
  {
    if event !in listeners && event in InheritedTruthyKeys then Failure(NotAFunction("push"))
    else Success(AddListener(listeners, event, handler))
  }

  lemma ToStringListenerRejectedAsWritten(handler: nat)
    ensures AddListenerAsWritten(map[], "toString", handler).Failure?
    ensures AddListenerAsWritten(map[], "__proto__", handler).Failure?
    ensures ListenersOf(AddListener(map[], "toString", handler), "toString") == [handler]
  {
  }

  /**
   * The listener lookup of `emit` as written: for an event naming an
   * inherited `Object.prototype` method, or `__proto__`, and having no
   * listeners of its own, `this.eventListeners[event]` is truthy, so `emit`
   * goes on to call its `forEach`, which the value found there lacks.
   */
  function EmitListenersAsWritten(listeners: map<string, seq<nat>>, event: string): (r: Result<seq<nat>, Error>)
    ensures r.Failure? <==> event !in listeners && event in InheritedTruthyKeys
    ensures r.Success? ==> r.value == ListenersOf(listeners, event)
  {
    if event !in listeners && event in InheritedTruthyKeys then Failure(NotAFunction("forEach"))
    else Success(ListenersOf(listeners, event))
  }

  lemma ValueOfEmissionFailsAsWritten()
    ensures EmitListenersAsWritten(map[], "valueOf").Failure?
    ensures EmitListenersAsWritten(map[], "__proto__").Failure?
    ensures ListenersOf(map[], "valueOf") == []
  {
  }

  /** The action creator `seal()` returns; it is bound to its action. */
  datatype ActionCreator = ActionCreator(action: Action)

  /** The dispatchable thunk an action creator returns, holding the inner thunk. */
  datatype ActionThunk = ActionThunk(action: Action, inner: nat)

  /** One `emit(event, payload)` issued by an inner thunk. */
  datatype Emission = Emission(event: string, payload: JsValue)

  /** How the inner thunk's call ends: it returns, throws synchronously, or its promise rejects. */
  datatype Settlement = Returned(value: JsValue) | Threw(error: JsValue) | Rejected(reason: JsValue)

  /** What an inner thunk does when run: the events it emits, then how it settles. */
  datatype ThunkScript = ThunkScript(emits: seq<Emission>, settles: Settlement)

  /** How the dispatchable thunk ends: its promise resolves, or it throws. */
  datatype ThunkResult = Resolved(value: JsValue) | Raised(error: JsValue)

  /** What the user functions an action calls compute. */
  datatype ActionCode = ActionCode(
    handler: (nat, seq<JsValue>) -> JsValue,   // actionHandler(...args): the inner thunk
    thunk: (nat, State) -> ThunkScript,        // the inner thunk's run, given the state when it starts
    listener: (nat, JsValue, Slots) -> Slots)   // a listener's effect on the shared context

  class Action {
    const actionType: string
    const actionHandler: nat
    const reducers: ReducerRegistry
    var sealed: bool
    var eventListeners: map<string, seq<nat>>
    var warnings: nat   // calls of console.warn

    constructor (actionType: string, actionHandler: nat, reducers: ReducerRegistry)
      ensures this.actionType == actionType && this.actionHandler == actionHandler
      ensures this.reducers == reducers
      ensures !sealed && eventListeners == map[] && warnings == 0
    {
      this.actionType := actionType;
      this.actionHandler := actionHandler;
      this.reducers := reducers;
      sealed := false;
      eventListeners := map[];
      warnings := 0;
    }

    /**
     * `on(event, handler)` appends a listener; `on(event, key, handler)`
     * registers a keyed reducer for the derived type. Both fail once the
     * action is sealed, and then change nothing.
     */
    method On(event: JsValue, rest: seq<JsValue>) returns (r: Result<Action, Error>)
      requires reducers.Valid()
      modifies this`eventListeners, reducers
      ensures reducers.Valid()
      ensures r.Success? ==> r.value == this
      ensures !event.Str? ==> r.Failure? && r.error.TypeMismatch?
      ensures event.Str? && old(sealed) ==> r == Failure(ActionSealed(actionType))
      ensures !event.Str? || old(sealed) ==>
                eventListeners == old(eventListeners) && reducers.table == old(reducers.table)
      ensures event.Str? && !old(sealed) && Classify(rest).ListenerForm? ==>
                && reducers.table == old(reducers.table)
                && (Classify(rest).handler.Func? ==>
                      r.Success? && eventListeners == AddListener(old(eventListeners), event.s, Classify(rest).handler.id))
                && (!Classify(rest).handler.Func? ==>
                      r.Failure? && r.error.TypeMismatch? && eventListeners == old(eventListeners))
      ensures event.Str? && !old(sealed) && Classify(rest).ReducerForm? ==>
                && eventListeners == old(eventListeners)
                && (!Classify(rest).handler.Func? ==>
                      r.Failure? && r.error.TypeMismatch? && reducers.table == old(reducers.table))
                && (Classify(rest).handler.Func? ==>
                      var ins := Insert(old(reducers.table), MakeActionType(actionType, event.s),
                                        Classify(rest).key, Classify(rest).handler.id);
                      && (ins.Success? ==> r.Success? && reducers.table == ins.value)
                      && (ins.Failure? ==> r == Failure(ins.error) && reducers.table == old(reducers.table)))
    {
      var check := CheckType(event, "string", "event");
      if check.Fail? {
        return Failure(check.error);
      }
      if sealed {
        return Failure(ActionSealed(actionType));
      }
      match Classify(rest) {
      case ReducerForm(key, handler) =>
        // The check that the reducer key is a string always passes: that is what chose this form.
        check := CheckType(handler, "function", "handler");
        if check.Fail? {
          return Failure(check.error);
        }
        var added := reducers.Add(MakeActionType(actionType, event.s), key, handler.id);
        if added.Fail? {
          return Failure(added.error);
        }
      case ListenerForm(handler) =>
        check := CheckType(handler, "function", "handler");
        if check.Fail? {
          return Failure(check.error);
        }
        eventListeners := AddListener(eventListeners, event.s, handler.id);
      }
      r := Success(this);
    }

    /**
     * Seals the action and returns its action creator; sealing again only
     * warns.
     */
    method Seal() returns (creator: ActionCreator)
      modifies this`sealed, this`warnings
      ensures sealed
      ensures warnings == old(warnings) + (if old(sealed) then 1 else 0)
      ensures creator == ActionCreator(this)
    {
      if sealed {
        warnings := warnings + 1;
      }
      sealed := true;
      creator := ActionCreator(this);
    }
  }

  /**
   * `new Action(actionType, actionHandler)`: checks both types, rejects an
   * action type already registered, and otherwise appends it to the registry.
   */
  method NewAction(registry: ActionRegistry, reducers: ReducerRegistry, actionType: JsValue, actionHandler: JsValue)
    returns (r: Result<Action, Error>)
    requires registry.Valid()
    modifies registry
    ensures registry.Valid()
    ensures r.Success? <==> actionType.Str? && actionHandler.Func? && actionType.s !in old(registry.actions)
    ensures !actionType.Str? || !actionHandler.Func? ==> r.Failure? && r.error.TypeMismatch?
    ensures actionType.Str? && actionHandler.Func? && actionType.s in old(registry.actions) ==>
              r == Failure(DuplicateActionType(actionType.s))
    ensures r.Failure? ==> registry.actions == old(registry.actions)
    ensures r.Success? ==> fresh(r.value) && registry.actions == old(registry.actions) + [actionType.s]
    ensures r.Success? ==>
              && r.value.actionType == actionType.s && r.value.actionHandler == actionHandler.id
              && r.value.reducers == reducers
              && !r.value.sealed && r.value.eventListeners == map[] && r.value.warnings == 0
  {
    var check := CheckType(actionType, "string", "action type");
    if check.Fail? {
      return Failure(check.error);
    }
    check := CheckType(actionHandler, "function", "action handler");
    if check.Fail? {
      return Failure(check.error);
    }
    if actionType.s in registry.actions {
      return Failure(DuplicateActionType(actionType.s));
    }
    registry.actions := registry.actions + [actionType.s];
    var action := new Action(actionType.s, actionHandler.id, reducers);
    r := Success(action);
  }

  /**
   * Calling the action creator: the action handler is called once with the
   * arguments, and its result must be a function (the inner thunk). Nothing
   * is dispatched here.
   */
  function CreateAction(creator: ActionCreator, args: seq<JsValue>, code: ActionCode): (r: Result<ActionThunk, Error>)
    ensures r.Success? <==> TypeOf(code.handler(creator.action.actionHandler, args)) == "function"
    ensures r.Success? ==>
              r.value == ActionThunk(creator.action, code.handler(creator.action.actionHandler, args).id)
    ensures r.Failure? ==>
              r.error.TypeMismatch? && "Expected " + "action thunk" + " to be a " + "function" <= r.error.message
  {
    var thunk := code.handler(creator.action.actionHandler, args);
    var check := CheckType(thunk, "function", "action thunk");
    if check.Fail? then Failure(check.error) else Success(ActionThunk(creator.action, thunk.id))
  }

  /** The context object shared by every listener call of one thunk run. */
  class Context {
    var slots: Slots

    constructor ()
      ensures slots == map[]
    {
      slots := map[];
    }
  }

  /** One listener invocation: which listener, its payload, its context object and what it held. */
  datatype Call = Call(listener: nat, payload: JsValue, context: Context, seen: Slots)

  /** The context after `ids` have run in order on `slots`. */
  function Threaded(ids: seq<nat>, payload: JsValue, slots: Slots, code: ActionCode): Slots
    decreases |ids|
  {
    if ids == [] then slots
    else code.listener(ids[|ids| - 1], payload, Threaded(ids[..|ids| - 1], payload, slots, code))
  }

  /** The listener calls of one emission, on the context object `ctx` holding `slots`. */
  function FanOut(ids: seq<nat>, payload: JsValue, ctx: Context, slots: Slots, code: ActionCode): seq<Call>
    decreases |ids|
  {
    if ids == [] then []
    else
      var init := ids[..|ids| - 1];
      FanOut(init, payload, ctx, slots, code) + [Call(ids[|ids| - 1], payload, ctx, Threaded(init, payload, slots, code))]
  }

  /**
   * One emission calls each of `ids` once, in order, with the payload and the
   * context object, which holds what the earlier listeners left in it.
   */
  lemma {:induction false} FanOutCallsEachOnce(ids: seq<nat>, payload: JsValue, ctx: Context, slots: Slots, code: ActionCode)
    ensures |FanOut(ids, payload, ctx, slots, code)| == |ids|
    ensures forall i :: 0 <= i < |ids| ==>
              FanOut(ids, payload, ctx, slots, code)[i] == Call(ids[i], payload, ctx, Threaded(ids[..i], payload, slots, code))
    decreases |ids|
  {
    if ids != [] {
      var init := ids[..|ids| - 1];
      FanOutCallsEachOnce(init, payload, ctx, slots, code);
      assert forall i :: 0 <= i < |init| ==> init[..i] == ids[..i];
    }
  }

  /** The context left by the last call of a trace, or `slots` when there was none. */
  function After(calls: seq<Call>, slots: Slots, code: ActionCode): Slots
  {
    if calls == [] then slots
    else
      var last := calls[|calls| - 1];
      code.listener(last.listener, last.payload, last.seen)
  }

  /** Every call sees the context its predecessor left, the first one `slots`. */
  ghost predicate Chained(calls: seq<Call>, slots: Slots, code: ActionCode)
  {
    && (|calls| > 0 ==> calls[0].seen == slots)
    && (forall i :: 0 <= i < |calls| - 1 ==>
          calls[i + 1].seen == code.listener(calls[i].listener, calls[i].payload, calls[i].seen))
  }

  lemma FanOutChained(ids: seq<nat>, payload: JsValue, ctx: Context, slots: Slots, code: ActionCode)
    ensures Chained(FanOut(ids, payload, ctx, slots, code), slots, code)
    ensures Threaded(ids, payload, slots, code) == After(FanOut(ids, payload, ctx, slots, code), slots, code)
  {
  }

  /** `emit('error', e)` follows the inner thunk's emissions exactly when its promise rejects. */
  function RunEmissions(script: ThunkScript): seq<Emission>
  {
    match script.settles
    case Rejected(reason) => script.emits + [Emission("error", reason)]
    case _ => script.emits
  }

  /** `actionThunk`'s own result for each way the inner thunk settles. */
  function SettledResult(s: Settlement): ThunkResult
  {
    match s
    case Returned(v) => Resolved(v)
    case Threw(e) => Raised(e)
    case Rejected(_) => Resolved(Undefined)   // the value of `emit`, which returns nothing
  }

  /** The records dispatched by a sequence of emissions. */
  function Records(actionType: string, ems: seq<Emission>): seq<Record>
    decreases |ems|
  {
    if ems == [] then []
    else
      var init := ems[..|ems| - 1];
      Records(actionType, init) + [EventRecord(actionType, ems[|ems| - 1].event, ems[|ems| - 1].payload)]
  }

  /** A sequence of emissions dispatches one record per emission, in order. */
  lemma {:induction false} RecordsOnePerEmission(actionType: string, ems: seq<Emission>)
    ensures |Records(actionType, ems)| == |ems|
    ensures forall i :: 0 <= i < |ems| ==>
              Records(actionType, ems)[i] == EventRecord(actionType, ems[i].event, ems[i].payload)
    decreases |ems|
  {
    if ems != [] {
      var init := ems[..|ems| - 1];
      RecordsOnePerEmission(actionType, init);
      assert forall i :: 0 <= i < |init| ==> init[i] == ems[i];
    }
  }

  /** The context after every listener of every emission has run. */
  function ThreadedRun(listeners: map<string, seq<nat>>, ems: seq<Emission>, slots: Slots, code: ActionCode): Slots
    decreases |ems|
  {
    if ems == [] then slots
    else
      var last := ems[|ems| - 1];
      Threaded(ListenersOf(listeners, last.event), last.payload,
               ThreadedRun(listeners, ems[..|ems| - 1], slots, code), code)
  }

  /** The listener calls of a sequence of emissions, all on the one context object `ctx`. */
  function RunCalls(listeners: map<string, seq<nat>>, ems: seq<Emission>, ctx: Context, slots: Slots, code: ActionCode)
    : seq<Call>
    decreases |ems|
  {
    if ems == [] then []
    else
      var last := ems[|ems| - 1];
      var init := ems[..|ems| - 1];
      RunCalls(listeners, init, ctx, slots, code) +
      FanOut(ListenersOf(listeners, last.event), last.payload, ctx, ThreadedRun(listeners, init, slots, code), code)
  }

  /**
   * Across the whole run, every listener call gets the one context object,
   * and sees in it what the previous call left, whatever event either was
   * for; the first sees `slots`.
   */
  lemma {:induction false} RunCallsChained(listeners: map<string, seq<nat>>, ems: seq<Emission>,
                                           ctx: Context, slots: Slots, code: ActionCode)
    ensures forall i :: 0 <= i < |RunCalls(listeners, ems, ctx, slots, code)| ==>
              RunCalls(listeners, ems, ctx, slots, code)[i].context == ctx
    ensures Chained(RunCalls(listeners, ems, ctx, slots, code), slots, code)
    ensures ThreadedRun(listeners, ems, slots, code) == After(RunCalls(listeners, ems, ctx, slots, code), slots, code)
    decreases |ems|
  {
    if ems != [] {
      var last := ems[|ems| - 1];
      var init := ems[..|ems| - 1];
      var ids := ListenersOf(listeners, last.event);
      var mid := ThreadedRun(listeners, init, slots, code);
      var before := RunCalls(listeners, init, ctx, slots, code);
      var tail := FanOut(ids, last.payload, ctx, mid, code);
      RunCallsChained(listeners, init, ctx, slots, code);
      FanOutChained(ids, last.payload, ctx, mid, code);
      FanOutCallsEachOnce(ids, last.payload, ctx, mid, code);
      var calls := before + tail;
      assert calls == RunCalls(listeners, ems, ctx, slots, code);
      forall i | 0 <= i < |calls| - 1
        ensures calls[i + 1].seen == code.listener(calls[i].listener, calls[i].payload, calls[i].seen)
      {
        if i + 1 < |before| {
          assert calls[i] == before[i] && calls[i + 1] == before[i + 1];
        } else if i + 1 == |before| {
          assert calls[i] == before[i] && calls[i + 1] == tail[0];
        } else {
          assert calls[i] == tail[i - |before|] && calls[i + 1] == tail[i - |before| + 1];
        }
      }
      if tail == [] {
        assert calls == before;
      } else {
        assert calls[|calls| - 1] == tail[|tail| - 1];
      }
    }
  }

  /** What an emitter run has produced so far: the store's log and state, the listener calls, the context. */
  datatype Trace = Trace(log: seq<Record>, state: State, calls: seq<Call>, slots: Slots)

  /** What `emit` works with: the action's type and listeners, the run's context object, the store's reducer. */
  datatype Wiring = Wiring(actionType: string, listeners: map<string, seq<nat>>, ctx: Context,
                           table: Table, reducer: CombinedReducer, reducerCode: ReducerCode, code: ActionCode)

  /** One `emit(event, payload)`: dispatch its record, then call the event's listeners in order. */
  function EmitStep(w: Wiring, tr: Trace, e: Emission): Trace
  {
    var record := EventRecord(w.actionType, e.event, e.payload);
    var ids := ListenersOf(w.listeners, e.event);
    Trace(tr.log + [record], Reduce(w.table, w.reducer, w.reducerCode, tr.state, record),
          tr.calls + FanOut(ids, e.payload, w.ctx, tr.slots, w.code), Threaded(ids, e.payload, tr.slots, w.code))
  }

  /** `emit` for each of `ems` in turn. */
  function EmitSteps(w: Wiring, tr: Trace, ems: seq<Emission>): Trace
    decreases |ems|
  {
    if ems == [] then tr else EmitStep(w, EmitSteps(w, tr, ems[..|ems| - 1]), ems[|ems| - 1])
  }

  /**
   * A run of emissions appends one record per emission to the log, reduces
   * the state by them in order, appends the run's listener calls and leaves
   * the context as the run's listeners threaded it.
   */
  lemma {:induction false} EmitStepsRun(w: Wiring, tr: Trace, ems: seq<Emission>)
    ensures EmitSteps(w, tr, ems) ==
            Trace(tr.log + Records(w.actionType, ems),
                  ReduceAll(w.table, w.reducer, w.reducerCode, tr.state, Records(w.actionType, ems)),
                  tr.calls + RunCalls(w.listeners, ems, w.ctx, tr.slots, w.code),
                  ThreadedRun(w.listeners, ems, tr.slots, w.code))
    decreases |ems|
  {
    if ems == [] {
      assert tr.log + [] == tr.log && tr.calls + [] == tr.calls;
    } else {
      var init := ems[..|ems| - 1];
      var last := ems[|ems| - 1];
      var record := EventRecord(w.actionType, last.event, last.payload);
      var records := Records(w.actionType, init);
      var done := RunCalls(w.listeners, init, w.ctx, tr.slots, w.code);
      var fan := FanOut(ListenersOf(w.listeners, last.event), last.payload, w.ctx,
                        ThreadedRun(w.listeners, init, tr.slots, w.code), w.code);
      var prev := EmitSteps(w, tr, init);
      EmitStepsRun(w, tr, init);
      assert EmitSteps(w, tr, ems) == EmitStep(w, prev, last);
      ReduceAllStep(w.table, w.reducer, w.reducerCode, tr.state, records, record);
      assert Records(w.actionType, ems) == records + [record];
      assert RunCalls(w.listeners, ems, w.ctx, tr.slots, w.code) == done + fan;
      SeqAppendAssoc(tr.log, records, [record]);
      SeqAppendAssoc(tr.calls, done, fan);
    }
  }

  lemma SeqAppendAssoc<T>(a: seq<T>, b: seq<T>, c: seq<T>)
    ensures (a + b) + c == a + (b + c)
  {
  }

  /** An event nobody listens to, whatever its name, dispatches its record and calls nothing. */
  lemma UnlistenedEventCallsNothing(w: Wiring, tr: Trace, event: string, payload: JsValue)
    requires event !in w.listeners
    ensures var next := EmitStep(w, tr, Emission(event, payload));
            && next.log == tr.log + [EventRecord(w.actionType, event, payload)]
            && next.calls == tr.calls && next.slots == tr.slots
  {
  }

  /** The per-run event emitter, with the run's context object and a trace of listener calls. */
  class Emitter {
    const action: Action
    const store: Store
    const context: Context
    var calls: seq<Call>

    constructor (action: Action, store: Store)
      ensures this.action == action && this.store == store
      ensures fresh(context) && context.slots == map[] && calls == []
    {
      this.action := action;
      this.store := store;
      context := new Context();
      calls := [];
    }

    /** The emitter's wiring, read from its action and store. */
    function Wired(code: ActionCode): Wiring
      reads action, store.registry
    {
      Wiring(action.actionType, action.eventListeners, context,
             store.registry.table, store.reducer, store.code, code)
    }

    /** What the run has produced so far. */
    function Now(): Trace
      reads this, store, context
    {
      Trace(store.log, store.state, calls, context.slots)
    }

    /**
     * `emit(event, payload)`: dispatches the event's record, then calls each
     * listener of the event once, in registration order, on the shared context.
     */
    method Emit(event: string, payload: JsValue, code: ActionCode)
      modifies this`calls, context, store`state, store`log
      ensures Now() == EmitStep(Wired(code), old(Now()), Emission(event, payload))
    {
      store.Dispatch(EventRecord(action.actionType, event, payload));
      if event !in action.eventListeners {
        return;
      }
      CallListeners(action.eventListeners[event], payload, code);
    }

    /** `eventListeners.forEach(listener => listener.call(context, payload, dispatch, getState))`. */
    method CallListeners(listeners: seq<nat>, payload: JsValue, code: ActionCode)
      modifies this`calls, context
      ensures calls == old(calls) + FanOut(listeners, payload, context, old(context.slots), code)
      ensures context.slots == Threaded(listeners, payload, old(context.slots), code)
    {
      ghost var calls0, slots0 := calls, context.slots;
      var i := 0;
      while i < |listeners|
        invariant 0 <= i <= |listeners|
        invariant calls == calls0 + FanOut(listeners[..i], payload, context, slots0, code)
        invariant context.slots == Threaded(listeners[..i], payload, slots0, code)
      {
        assert listeners[..i + 1][..i] == listeners[..i];
        calls := calls + [Call(listeners[i], payload, context, context.slots)];
        context.slots := code.listener(listeners[i], payload, context.slots);
        i := i + 1;
      }
      assert listeners[..i] == listeners;
    }

    /** The inner thunk's run: `emit` for each of its emissions, in order. */
    method EmitAll(ems: seq<Emission>, code: ActionCode)
      modifies this`calls, context, store`state, store`log
      ensures Now() == EmitSteps(Wired(code), old(Now()), ems)
      decreases |ems|
    {
      if ems != [] {
        EmitAll(ems[..|ems| - 1], code);
        Emit(ems[|ems| - 1].event, ems[|ems| - 1].payload, code);
      }
    }
  }

  /**
   * The dispatchable thunk, run by the store: a fresh emitter, the inner
   * thunk's emissions, and on rejection one `emit('error', reason)`. A
   * synchronous throw is not caught.
   */
  method RunThunk(t: ActionThunk, store: Store, code: ActionCode) returns (result: ThunkResult, emitter: Emitter)
    modifies store`state, store`log
    ensures fresh(emitter) && fresh(emitter.context)
    ensures emitter.action == t.action && emitter.store == store
    ensures var ems := RunEmissions(code.thunk(t.inner, old(store.state)));
            && store.log == old(store.log) + Records(t.action.actionType, ems)
            && store.state == ReduceAll(store.registry.table, store.reducer, store.code, old(store.state),
                                        Records(t.action.actionType, ems))
            && emitter.calls == RunCalls(t.action.eventListeners, ems, emitter.context, map[], code)
            && emitter.context.slots == ThreadedRun(t.action.eventListeners, ems, map[], code)
    ensures result == SettledResult(code.thunk(t.inner, old(store.state)).settles)
  {
    emitter := new Emitter(t.action, store);
    var script := code.thunk(t.inner, store.state);
    ghost var w := emitter.Wired(code);
    ghost var start := emitter.Now();
    emitter.EmitAll(script.emits, code);
    if script.settles.Rejected? {
      emitter.Emit("error", script.settles.reason, code);
      assert RunEmissions(script)[..|script.emits|] == script.emits;
    }
    EmitStepsRun(w, start, RunEmissions(script));
    result := SettledResult(script.settles);
  }
}
