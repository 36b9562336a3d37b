/**
 * A store in the style of the one the library's tests build
 * (src/__tests__/index.js): it holds one state and applies the top-level
 * reducer to every record dispatched to it, keeping a log of the records.
 */
module Store {
  import opened Js
  import opened Reducer

  class Store {
    const registry: ReducerRegistry
    const reducer: CombinedReducer
    const code: ReducerCode
    var state: State
    var log: seq<Record>

    /** Starts from an empty map, dispatches `@@INIT`, then clears the log. */
    constructor (registry: ReducerRegistry, reducer: CombinedReducer, code: ReducerCode)
      ensures this.registry == registry && this.reducer == reducer && this.code == code
      ensures state == DefaultState(reducer.createDefaultState, code) && log == []
    {
      this.registry := registry;
      this.reducer := reducer;
      this.code := code;
      state := Reduce(registry.table, reducer, code, map[], Record(Init, false, Undefined));
      log := [];
    }

    /** `dispatch(record)` for a plain record: `state = reducer(state, record)`. */
    method Dispatch(record: Record)
      modifies this`state, this`log
      ensures log == old(log) + [record]
      ensures state == Reduce(registry.table, reducer, code, old(state), record)
    {
      state := Reduce(registry.table, reducer, code, state, record);
      log := log + [record];
    }
  }
}
