/**
 The accessors `moduleValueResolver` and `moduleThunkResolver` return: closures
 over a `result` cell, modelled as objects with that cell as a field. Each
 closure's "already resolved" flag `setResult` is a constant false, so every
 call resolves again and overwrites the cell; `OnceThunkResolver` is the
 one-shot accessor the flag was evidently meant to give.
 */
module Resolvers {
  import opened JsValues
  import opened ModuleThunk

  /** The accessor of `moduleValueResolver(moduleValue, options)`. */
  class ValueResolver {
    const moduleValue: Value
    const isTargetValue: Option<Value -> bool>
    const setResult: bool := false
    /** The captured `result`; `None` before the first call. */
    var result: Option<Outcome>

    constructor (moduleValue: Value, isTargetValue: Option<Value -> bool>)
      ensures this.moduleValue == moduleValue && this.isTargetValue == isTargetValue
      ensures result == None
    {
      this.moduleValue := moduleValue;
      this.isTargetValue := isTargetValue;
      result := None;
    }

    /** One call of the accessor: resolves the captured value afresh, whatever the cell held. */
    method Get() returns (r: Outcome)
      modifies this
      ensures r == ResolveValue(moduleValue, isTargetValue)
      ensures result == Some(r)
    {
      if !setResult {
        result := Some(ResolveValue(moduleValue, isTargetValue));
      }
      r := result.value;
    }
  }

  /** The accessor of `moduleThunkResolver(moduleThunk, options)`. The options
      object is forwarded as it is, so all of its fields take effect. */
  class ThunkResolver {
    const moduleThunk: Value
    const options: Options
    const invoke: Invoker
    const setResult: bool := false
    /** The captured `result`; `None` before the first call. */
    var result: Option<Outcome>
    /** The factory invocations made through this accessor so far, in the order their
        resolutions started; a deferred invocation is listed with the call that scheduled it. */
    var invocations: seq<Call>

    constructor (moduleThunk: Value, options: Options, invoke: Invoker)
      ensures this.moduleThunk == moduleThunk && this.options == options && this.invoke == invoke
      ensures result == None && invocations == []
    {
      this.moduleThunk := moduleThunk;
      this.options := options;
      this.invoke := invoke;
      result := None;
      invocations := [];
    }

    /** One call of the accessor: resolves the captured thunk afresh, invoking its factories again. */
    method Get() returns (r: Outcome)
      modifies this
      ensures r == ResolveThunk(moduleThunk, options, invoke).outcome
      ensures result == Some(r)
      ensures invocations == old(invocations) + ResolveThunk(moduleThunk, options, invoke).calls
    {
      if !setResult {
        var resolution := ResolveThunk(moduleThunk, options, invoke);
        result := Some(resolution.outcome);
        invocations := invocations + resolution.calls;
      }
      r := result.value;
    }
  }

  /** A thunk accessor whose flag is set after the first resolution. */
  class OnceThunkResolver {
    const moduleThunk: Value
    const options: Options
    const invoke: Invoker
    var setResult: bool
    var result: Option<Outcome>
    var invocations: seq<Call>

    /** Once resolved, the cell holds the resolution's outcome and its invocations were made. */
    predicate Valid()
      reads this
    {
      (!setResult ==> result == None && invocations == [])
      && (setResult ==> result == Some(ResolveThunk(moduleThunk, options, invoke).outcome)
                        && invocations == ResolveThunk(moduleThunk, options, invoke).calls)
    }

    constructor (moduleThunk: Value, options: Options, invoke: Invoker)
      ensures this.moduleThunk == moduleThunk && this.options == options && this.invoke == invoke
      ensures Valid() && !setResult
    {
      this.moduleThunk := moduleThunk;
      this.options := options;
      this.invoke := invoke;
      setResult := false;
      result := None;
      invocations := [];
    }

    /** One call of the accessor: resolves on the first call only and returns the cached outcome after. */
    method Get() returns (r: Outcome)
      requires Valid()
      modifies this
      ensures Valid() && setResult
      ensures r == ResolveThunk(moduleThunk, options, invoke).outcome
      ensures old(setResult) ==> invocations == old(invocations)
    {
      if !setResult {
        var resolution := ResolveThunk(moduleThunk, options, invoke);
        result := Some(resolution.outcome);
        invocations := invocations + resolution.calls;
        setResult := true;
      }
      r := result.value;
    }
  }

  /** As written: two calls of a `moduleThunkResolver` accessor over a factory invoke it twice. */
  method InertMemoization(id: nat, invoke: Invoker) returns (first: Outcome, second: Outcome, calls: seq<Call>)
    ensures calls == [Call(id, []), Call(id, [])]
    ensures first == second == ResolveValue(invoke(id, []), None)
  {
    var accessor := new ThunkResolver(Func(id), NO_OPTIONS, invoke);
    first := accessor.Get();
    second := accessor.Get();
    calls := accessor.invocations;
  }

  /** Corrected: two calls of a one-shot accessor over a factory invoke it once and return the same outcome. */
  method OneShotMemoization(id: nat, invoke: Invoker) returns (first: Outcome, second: Outcome, calls: seq<Call>)
    ensures calls == [Call(id, [])]
    ensures first == second == ResolveValue(invoke(id, []), None)
  {
    var accessor := new OnceThunkResolver(Func(id), NO_OPTIONS, invoke);
    first := accessor.Get();
    second := accessor.Get();
    calls := accessor.invocations;
  }
}
