/**
 Module-thunk resolution: `resolveModuleValue` and `resolveModuleThunk` of
 src/module-thunk.ts. A caller's predicate and a caller's factories are
 parameters; a promise is a `Thenable` that settles to a value.
 */
module ModuleThunk {
  import opened JsValues

  /** What a resolution call hands back.
      - `Sync(v)`: the call returns `v` itself.
      - `Async(v)`: the call returns a new promise that fulfils with `v`.
      - `Threw`: the call throws (a TypeError from spreading a non-iterable argument list).
      - `Rejected`: the call returns a promise that rejects (the same TypeError, raised in a callback). */
  datatype Outcome = Sync(value: Value) | Async(value: Value) | Threw | Rejected

  /** One invocation of a factory, with the argument list it received. */
  datatype Call = Call(factory: nat, args: seq<Value>)

  /** An outcome together with the factory invocations it took, in order. */
  datatype Resolution = Resolution(outcome: Outcome, calls: seq<Call>)

  /** `ResolveModuleThunkOptions`; an absent field is `Undefined` or `None`. */
  datatype Options = Options(args: Value, argsThunk: Value, isTargetValue: Option<Value -> bool>)

  /** The default `options = {}`. */
  const NO_OPTIONS := Options(Undefined, Undefined, None)

  /** The options an `argsThunk` is resolved with: only an `Array.isArray` predicate. */
  const ARGS_OPTIONS := Options(Undefined, Undefined, Some(IsArray))

  /** The behaviour of the caller's factories: what factory `id` returns for an argument list. */
  type Invoker = (nat, seq<Value>) -> Value

  /** Whether a predicate is supplied and accepts `v`. */
  predicate Accepts(isTarget: Option<Value -> bool>, v: Value)
  {
    match isTarget
    case Some(p) => p(v)
    case None => false
  }

  /** Scan of `Object.keys(v).find(key => isTargetValue(v[key]))`, as the index
      of the first entry whose value the predicate accepts. */
  function FindTarget(entries: seq<(string, Value)>, isTarget: Value -> bool): (r: Option<nat>)
    ensures r.Some? ==> r.value < |entries| && isTarget(entries[r.value].1)
    ensures r.Some? ==> forall j :: 0 <= j < r.value ==> !isTarget(entries[j].1)
    ensures r.None? ==> forall j :: 0 <= j < |entries| ==> !isTarget(entries[j].1)
  {
    if entries == [] then None
    else if isTarget(entries[0].1) then Some(0)
    else match FindTarget(entries[1..], isTarget)
      case Some(i) => Some(i + 1)
      case None => None
  }

  /** The export-unwrapping step for a non-null, non-promise object and a predicate:
      an accepted object stays; otherwise the result is its `default` field, unchecked,
      or the value, accepted by the predicate, of one of its keys, or the object itself. */
  function UnwrapExports(v: Value, isTarget: Value -> bool): (r: Value)
    ensures isTarget(v) ==> r == v
    ensures r != v && !IsDefaultExportModule(v) ==> isTarget(r)
    ensures r != v && !IsDefaultExportModule(v) ==>
      exists i :: 0 <= i < |OwnEntries(v)| && OwnEntries(v)[i].1 == r && OwnEntries(v)[i].0 != ""
    ensures r != v && IsDefaultExportModule(v) ==> r == Property(v, "default")
  {
    if isTarget(v) then v
    else if IsDefaultExportModule(v) then Property(v, "default")
    else
      var entries := OwnEntries(v);
      match FindTarget(entries, isTarget)
      case Some(i) => if entries[i].0 != "" then entries[i].1 else v
      case None => v
  }

  /** `resolveModuleValue(v, { isTargetValue })`. */
  function ResolveValue(v: Value, isTarget: Option<Value -> bool>): (r: Outcome)
    ensures r.Sync? || r.Async?
    ensures r.Async? <==> v.Thenable?
    ensures r.Async? ==> !r.value.Thenable?
    ensures r.Sync? && r.value != v ==> (v.Obj? || v.Arr?) && isTarget.Some? && !isTarget.value(v)
  {
    match v
    case Undefined => Sync(v)
    case Null => Sync(v)
    case Thenable(settled) => Async(Settle(ResolveValue(settled, isTarget).value))
    case Arr(_) => if isTarget.Some? then Sync(UnwrapExports(v, isTarget.value)) else Sync(v)
    case Obj(_, _) => if isTarget.Some? then Sync(UnwrapExports(v, isTarget.value)) else Sync(v)
    case _ => Sync(v)
  }

  /** Invoke factory `id` with the spread of `argList` and resolve what it returns.
      `deferred` says whether this happens inside a promise callback (after an
      asynchronous argument list settled); `prior` are the invocations before it. */
  function InvokeFactory(id: nat, argList: Value, o: Options, invoke: Invoker, prior: seq<Call>, deferred: bool): (r: Resolution)
    ensures r.outcome.Async? ==> !r.outcome.value.Thenable?
    ensures deferred ==> !r.outcome.Sync? && !r.outcome.Threw?
    ensures !deferred ==> !r.outcome.Rejected?
    ensures Spread(argList).Some? ==> r.calls == prior + [Call(id, Spread(argList).value)]
    ensures Spread(argList).None? ==> r.calls == prior && (if deferred then r.outcome.Rejected? else r.outcome.Threw?)
  {
    match Spread(argList)
    case None => Resolution(if deferred then Rejected else Threw, prior)
    case Some(l) =>
      var produced := ResolveValue(invoke(id, l), o.isTargetValue);
      Resolution(if deferred then Async(Settle(produced.value)) else produced, prior + [Call(id, l)])
  }

  /** `resolveModuleThunk(t, options)`. */
  function ResolveThunk(t: Value, o: Options, invoke: Invoker): (r: Resolution)
    ensures !t.Func? ==> r.calls == []
    ensures |r.calls| <= if Truthy(o.argsThunk) then 2 else 1
    ensures r.outcome.Async? ==> !r.outcome.value.Thenable?
    ensures !Truthy(o.argsThunk) ==> !r.outcome.Rejected?
    ensures !Truthy(o.argsThunk) && Spread(o.args).Some? ==> r.outcome.Sync? || r.outcome.Async?
    decreases if Truthy(o.argsThunk) then 1 else 0
  {
    match t
    case Func(id) =>
      if Accepts(o.isTargetValue, t) then Resolution(Sync(t), [])
      else if !Truthy(o.argsThunk) then InvokeFactory(id, o.args, o, invoke, [], false)
      else
        var resolvedArgs := ResolveThunk(o.argsThunk, ARGS_OPTIONS, invoke);
        (match resolvedArgs.outcome
         case Threw => resolvedArgs
         case Rejected => resolvedArgs
         case Async(settledArgs) => InvokeFactory(id, settledArgs, o, invoke, resolvedArgs.calls, true)
         case Sync(a) =>
           if a.Thenable? then InvokeFactory(id, Settle(a), o, invoke, resolvedArgs.calls, true)
           else InvokeFactory(id, a, o, invoke, resolvedArgs.calls, false))
    case _ => Resolution(ResolveValue(t, o.isTargetValue), [])
  }
}
