/**
 * The reducer registry and the top-level reducer built over it
 * (src/reducer.js).
 */
module Reducer {
  import opened Wrappers
  import opened Js
  import opened TypeCheck

  /** The type of the store's initialisation record. */
  const Init: string := "@@INIT"

  /** A dispatched action record `{type, payload}` or `{type, error: true, payload}`. */
  datatype Record = Record(kind: string, error: bool, payload: JsValue)

  /** One keyed handler: the reducer key and the id of the handler function. */
  datatype Keyed = Keyed(key: string, handler: nat)

  /**
   * The registry: for each derived action type, its keyed handlers in
   * registration order (the order `Object.keys` lists them).
   */
  type Table = map<string, seq<Keyed>>

  predicate DistinctKeys(es: seq<Keyed>)
  {
    forall i, j :: 0 <= i < j < |es| ==> es[i].key != es[j].key
  }

  /** At most one handler per (derived type, reducer key). */
  predicate ValidTable(t: Table)
  {
    forall dt :: dt in t ==> DistinctKeys(t[dt])
  }

  /** The handler registered under `key`, searching in registration order. */
  function Find(es: seq<Keyed>, key: string): Option<nat>
    decreases |es|
  {
    if es == [] then None
    else if es[0].key == key then Some(es[0].handler)
    else Find(es[1..], key)
  }

  /** `reducers[derivedType][key]`, own properties only. */
  function HandlerOf(t: Table, derivedType: string, key: string): Option<nat>
  {
    if derivedType in t then Find(t[derivedType], key) else None
  }

  lemma {:induction false} FindNone(es: seq<Keyed>, key: string)
    ensures Find(es, key).None? <==> forall i :: 0 <= i < |es| ==> es[i].key != key
    decreases |es|
  {
    if es != [] {
      FindNone(es[1..], key);
      if es[0].key != key {
        assert forall i :: 1 <= i < |es| ==> es[i] == es[1..][i - 1];
      }
    }
  }

  lemma {:induction false} FindAppend(es: seq<Keyed>, x: Keyed, key: string)
    ensures Find(es + [x], key) ==
            if Find(es, key).Some? then Find(es, key)
            else if x.key == key then Some(x.handler) else None
    decreases |es|
  {
    if es == [] {
      assert Find([x][1..], key) == None;
    } else {
      assert (es + [x])[1..] == es[1..] + [x];
      FindAppend(es[1..], x, key);
    }
  }

  /**
   * `add` on a table value: inserts the handler when the pair is free and
   * fails, keeping the table, when a handler is already registered for it.
   */
  function Insert(t: Table, derivedType: string, key: string, handler: nat): (r: Result<Table, Error>)
    requires ValidTable(t)
    ensures r.Failure? <==> HandlerOf(t, derivedType, key).Some?
    ensures r.Failure? ==> r.error == DuplicateReducer(derivedType, key)
    ensures r.Success? ==> ValidTable(r.value) && HandlerOf(r.value, derivedType, key) == Some(handler)
    ensures r.Success? ==> forall dt, k :: dt != derivedType || k != key ==>
                             HandlerOf(r.value, dt, k) == HandlerOf(t, dt, k)
  {
    var es := if derivedType in t then t[derivedType] else [];
    if Find(es, key).Some? then
      Failure(DuplicateReducer(derivedType, key))
    else
      FindNone(es, key);
      assert forall k :: Find(es + [Keyed(key, handler)], k) ==
                         if Find(es, k).Some? then Find(es, k)
                         else if key == k then Some(handler) else None
      by {
        forall k { FindAppend(es, Keyed(key, handler), k); }
      }
      Success(t[derivedType := es + [Keyed(key, handler)]])
  }

  /** `add` as written: a key naming an inherited `Object.prototype` method counts as taken. */
  function InsertAsWritten(t: Table, derivedType: string, key: string, handler: nat): (r: Result<Table, Error>)
    requires ValidTable(t)
    ensures r.Failure? <==> HandlerOf(t, derivedType, key).Some? || key in ObjectPrototypeMethods
  {
    if key in ObjectPrototypeMethods then
      Failure(DuplicateReducer(derivedType, key))
    else
      Insert(t, derivedType, key, handler)
  }

  lemma ConstructorKeyRejectedAsWritten(derivedType: string, handler: nat)
    ensures InsertAsWritten(map[], derivedType, "constructor", handler).Failure?
    ensures Insert(map[], derivedType, "constructor", handler).Success?
  {
  }

  /** The process-wide table of keyed reducer handlers. */
  class ReducerRegistry {
    var table: Table

    ghost predicate Valid()
      reads this
    {
      ValidTable(table)
    }

    constructor ()
      ensures Valid() && table == map[]
    {
      table := map[];
    }

    /** Registers `handler` under (`derivedType`, `key`) unless that pair is taken. */
    method Add(derivedType: string, key: string, handler: nat) returns (r: Outcome<Error>)
      requires Valid()
      modifies this
      ensures Valid()
      ensures Insert(old(table), derivedType, key, handler).Success? ==>
                r.Pass? && table == Insert(old(table), derivedType, key, handler).value
      ensures Insert(old(table), derivedType, key, handler).Failure? ==>
                r == Fail(DuplicateReducer(derivedType, key)) && table == old(table)
    {
      if derivedType !in table {
        table := table[derivedType := []];
      }
      if Find(table[derivedType], key).Some? {
        return Fail(DuplicateReducer(derivedType, key));
      }
      FindNone(table[derivedType], key);
      table := table[derivedType := table[derivedType] + [Keyed(key, handler)]];
      r := Pass;
    }
  }

  /** The default-state factory a reducer was created with. */
  datatype DefaultFactory = EmptyStateFactory | UserFactory(id: nat)

  /** The reducer returned by `createReducer`; it reads the registry when called. */
  datatype CombinedReducer = CombinedReducer(createDefaultState: DefaultFactory)

  /** What the user functions the reducer calls compute. */
  datatype ReducerCode = ReducerCode(
    factory: nat -> State,                       // a user default-state factory
    handler: (nat, JsValue, JsValue) -> JsValue)  // handler(sub-state, payload)

  /**
   * `createReducer`: an undefined argument means a factory of the empty
   * map; any other non-function fails.
   */
  function CreateReducer(createDefaultState: JsValue): (r: Result<CombinedReducer, Error>)
    ensures createDefaultState.Undefined? ==> r == Success(CombinedReducer(EmptyStateFactory))
    ensures createDefaultState.Func? ==> r == Success(CombinedReducer(UserFactory(createDefaultState.id)))
    ensures r.Failure? <==> !createDefaultState.Undefined? && !createDefaultState.Func?
    ensures r.Failure? ==> r.error.TypeMismatch?
  {
    if createDefaultState.Undefined? then
      Success(CombinedReducer(EmptyStateFactory))
    else
      var check := CheckType(createDefaultState, "function", Render(createDefaultState));
      if check.Fail? then Failure(check.error)
      else Success(CombinedReducer(UserFactory(createDefaultState.id)))
  }

  function DefaultState(f: DefaultFactory, code: ReducerCode): State
  {
    match f
    case EmptyStateFactory => map[]
    case UserFactory(id) => code.factory(id)
  }

  /** `state.get(key, Immutable.Map())`. */
  function Get(s: State, key: string): JsValue
  {
    if key in s then s[key] else EmptyMap
  }

  function KeySet(es: seq<Keyed>): set<string>
  {
    set i | 0 <= i < |es| :: es[i].key
  }

  /** The fold `Object.keys(handlers).reduce(...)`, starting from `s`. */
  function Fold(es: seq<Keyed>, payload: JsValue, code: ReducerCode, s: State): State
    decreases |es|
  {
    if es == [] then s
    else
      var k := es[0].key;
      Fold(es[1..], payload, code, s[k := code.handler(es[0].handler, Get(s, k), payload)])
  }

  /**
   * `r` is `s` with every key of `es` set to its own handler's result on the
   * key's old value (or the empty map) and the payload, and nothing else changed.
   */
  ghost predicate UpdatedByHandlers(es: seq<Keyed>, payload: JsValue, code: ReducerCode, s: State, r: State)
  {
    && r.Keys == s.Keys + KeySet(es)
    && (forall i :: 0 <= i < |es| ==> r[es[i].key] == code.handler(es[i].handler, Get(s, es[i].key), payload))
    && (forall k :: k in s && k !in KeySet(es) ==> r[k] == s[k])
  }

  lemma {:induction false} FoldUpdatesEachKeyOnce(es: seq<Keyed>, payload: JsValue, code: ReducerCode, s: State)
    requires DistinctKeys(es)
    ensures UpdatedByHandlers(es, payload, code, s, Fold(es, payload, code, s))
    decreases |es|
  {
    if es != [] {
      var k := es[0].key;
      var s' := s[k := code.handler(es[0].handler, Get(s, k), payload)];
      var tail := es[1..];
      assert DistinctKeys(tail) by {
        forall i, j | 0 <= i < j < |tail| ensures tail[i].key != tail[j].key {
          assert tail[i] == es[i + 1] && tail[j] == es[j + 1];
        }
      }
      FoldUpdatesEachKeyOnce(tail, payload, code, s');
      var r := Fold(es, payload, code, s);
      assert KeySet(es) == {k} + KeySet(tail) by {
        forall x | x in KeySet(es) ensures x in {k} + KeySet(tail) {
          var i :| 0 <= i < |es| && es[i].key == x;
          if i > 0 { assert tail[i - 1] == es[i]; }
        }
        forall x | x in KeySet(tail) ensures x in KeySet(es) {
          var i :| 0 <= i < |tail| && tail[i].key == x;
          assert es[i + 1] == tail[i];
        }
      }
      assert k !in KeySet(tail) by {
        forall i | 0 <= i < |tail| ensures tail[i].key != k {
          assert tail[i] == es[i + 1];
        }
      }
      forall i | 0 <= i < |es|
        ensures r[es[i].key] == code.handler(es[i].handler, Get(s, es[i].key), payload)
      {
        if i > 0 {
          assert tail[i - 1] == es[i];
          assert es[i].key != k;
          assert Get(s', es[i].key) == Get(s, es[i].key);
        }
      }
    }
  }

  /** The top-level reducer returned by `createReducer`, reading the table `t`. */
  function Reduce(t: Table, reducer: CombinedReducer, code: ReducerCode, state: State, action: Record): State
  {
    if action.kind == Init then
      DefaultState(reducer.createDefaultState, code)
    else if action.kind !in t then
      state
    else
      Fold(t[action.kind], action.payload, code, state)
  }

  /**
   * `@@INIT` resets to the default state whatever the prior state, a type
   * without registered handlers passes the state through, and otherwise each
   * registered key is updated once by its own handler and no other key changes.
   */
  lemma ReduceResetsPassesOrFolds(t: Table, reducer: CombinedReducer, code: ReducerCode, state: State, action: Record)
    requires ValidTable(t)
    ensures action.kind == Init ==> Reduce(t, reducer, code, state, action) == DefaultState(reducer.createDefaultState, code)
    ensures action.kind != Init && action.kind !in t ==> Reduce(t, reducer, code, state, action) == state
    ensures action.kind != Init && action.kind in t ==>
              UpdatedByHandlers(t[action.kind], action.payload, code, state, Reduce(t, reducer, code, state, action))
  {
    if action.kind != Init && action.kind in t {
      FoldUpdatesEachKeyOnce(t[action.kind], action.payload, code, state);
    }
  }

  /** The result of applying `Reduce` to each record in turn. */
  function ReduceAll(t: Table, reducer: CombinedReducer, code: ReducerCode, state: State, records: seq<Record>): State
    decreases |records|
  {
    if records == [] then state
    else Reduce(t, reducer, code, ReduceAll(t, reducer, code, state, records[..|records| - 1]), records[|records| - 1])
  }

  /** `ReduceAll` over one more record. */
  lemma ReduceAllStep(t: Table, reducer: CombinedReducer, code: ReducerCode, state: State, records: seq<Record>, r: Record)
    ensures ReduceAll(t, reducer, code, state, records + [r]) == Reduce(t, reducer, code, ReduceAll(t, reducer, code, state, records), r)
  {
  }

  /** The reducer consults only the handlers of the record's own type. */
  lemma ReduceReadsOnlyOwnType(t: Table, derivedType: string, es: seq<Keyed>,
                               reducer: CombinedReducer, code: ReducerCode, state: State, action: Record)
    requires action.kind != derivedType
    ensures Reduce(t[derivedType := es], reducer, code, state, action) == Reduce(t - {derivedType}, reducer, code, state, action)
  {
  }
}
