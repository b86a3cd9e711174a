/**
 What `resolveModuleValue` and `resolveModuleThunk` promise, stated over the
 model in ModuleThunk: which shapes pass through untouched, the order in which
 export wrappers are unwrapped, how promises flatten, and when and with what
 a factory is invoked.
 */
module ModuleThunkLemmas {
  import opened JsValues
  import opened ModuleThunk

  /** A non-null object that is not a promise: the values export unwrapping applies to. */
  predicate IsPlainObject(v: Value)
  {
    v.Arr? || v.Obj?
  }

  /** `n` promises nested around `v`. */
  function Chain(n: nat, v: Value): (r: Value)
    ensures n > 0 ==> r.Thenable?
    ensures n == 0 ==> r == v
  {
    if n == 0 then v else Thenable(Chain(n - 1, v))
  }

  // ---------------------------------------------------------------------------
  // resolveModuleValue

  /** `undefined`, `null` and every value whose `typeof` is not "object"
      (booleans, numbers, strings, functions) come back unchanged and synchronously. */
  lemma NonObjectsPassThrough(v: Value, isTarget: Option<Value -> bool>)
    requires v.Undefined? || v.Null? || !IsObjectKind(v)
    ensures ResolveValue(v, isTarget) == Sync(v)
  {
  }

  /** Without a predicate nothing is unwrapped: every value that is not a promise comes back as it is. */
  lemma NoPredicateNoUnwrap(v: Value)
    requires !v.Thenable?
    ensures ResolveValue(v, None) == Sync(v)
  {
  }

  /** An object the predicate accepts is the target, whatever its `default` field holds. */
  lemma TargetShortCircuit(v: Value, isTarget: Value -> bool)
    requires IsPlainObject(v) && isTarget(v)
    ensures ResolveValue(v, Some(isTarget)) == Sync(v)
  {
  }

  /** A rejected object with a truthy `default` resolves to that field, unchecked:
      the outcome depends on the predicate only through its verdict on the object
      itself, so neither the field nor any other key is offered to it. */
  lemma DefaultExportFirst(v: Value, p: Value -> bool, q: Value -> bool)
    requires IsPlainObject(v) && !p(v) && !q(v) && IsDefaultExportModule(v)
    ensures ResolveValue(v, Some(p)) == Sync(Property(v, "default"))
    ensures ResolveValue(v, Some(p)) == ResolveValue(v, Some(q))
  {
  }

  /** The scan finds exactly the first entry the predicate accepts. */
  lemma {:induction false} FindTargetFirst(entries: seq<(string, Value)>, p: Value -> bool, i: nat)
    requires i < |entries| && p(entries[i].1)
    requires forall j :: 0 <= j < i ==> !p(entries[j].1)
    ensures FindTarget(entries, p) == Some(i)
  {
    if i > 0 {
      FindTargetFirst(entries[1..], p, i - 1);
    }
  }

  /** Single-export wrapper: the first key, in `Object.keys` order, whose value the
      predicate accepts gives the result, unless that key is the empty string,
      which is falsy, and then the object itself comes back. */
  lemma SingleExportFound(keys: seq<string>, fields: map<string, Value>, p: Value -> bool, i: nat)
    requires !p(Obj(keys, fields)) && !Truthy(Lookup(fields, "default"))
    requires i < |keys| && p(Lookup(fields, keys[i]))
    requires forall j :: 0 <= j < i ==> !p(Lookup(fields, keys[j]))
    ensures keys[i] != "" ==> ResolveValue(Obj(keys, fields), Some(p)) == Sync(Lookup(fields, keys[i]))
    ensures keys[i] == "" ==> ResolveValue(Obj(keys, fields), Some(p)) == Sync(Obj(keys, fields))
  {
    var entries := OwnEntries(Obj(keys, fields));
    FindTargetFirst(entries, p, i);
  }

  /** When no key's value passes the predicate, the object comes back unresolved. */
  lemma NoExportFound(keys: seq<string>, fields: map<string, Value>, p: Value -> bool)
    requires !p(Obj(keys, fields)) && !Truthy(Lookup(fields, "default"))
    requires forall j :: 0 <= j < |keys| ==> !p(Lookup(fields, keys[j]))
    ensures ResolveValue(Obj(keys, fields), Some(p)) == Sync(Obj(keys, fields))
  {
    var entries := OwnEntries(Obj(keys, fields));
    assert forall j :: 0 <= j < |entries| ==> entries[j].1 == Lookup(fields, keys[j]);
  }

  /** An array the predicate rejects resolves to its first accepted element
      (index keys are never empty), or to itself when there is none. */
  lemma ArrayScan(elems: seq<Value>, p: Value -> bool)
    requires !p(Arr(elems))
    ensures forall i :: 0 <= i < |elems| && p(elems[i]) && (forall j :: 0 <= j < i ==> !p(elems[j])) ==>
      ResolveValue(Arr(elems), Some(p)) == Sync(elems[i])
    ensures (forall j :: 0 <= j < |elems| ==> !p(elems[j])) ==> ResolveValue(Arr(elems), Some(p)) == Sync(Arr(elems))
  {
    var entries := OwnEntries(Arr(elems));
    forall i | 0 <= i < |elems| && p(elems[i]) && (forall j :: 0 <= j < i ==> !p(elems[j]))
      ensures ResolveValue(Arr(elems), Some(p)) == Sync(elems[i])
    {
      FindTargetFirst(entries, p, i);
    }
  }

  /** A chain of nested promises resolves asynchronously to what the innermost value resolves to. */
  lemma {:induction false} PromiseChainFlattens(n: nat, v: Value, isTarget: Option<Value -> bool>)
    requires n >= 1 && !v.Thenable?
    ensures ResolveValue(Chain(n, v), isTarget) == Async(Settle(ResolveValue(v, isTarget).value))
  {
    if n > 1 {
      PromiseChainFlattens(n - 1, v, isTarget);
    }
  }

  /** The `then` callback of a promise receives its fulfilment value, a non-promise:
      resolving a promise is resolving the value it fulfils with, then settling the result. */
  lemma {:induction false} PromiseCallbackGetsFulfilment(settled: Value, isTarget: Option<Value -> bool>)
    ensures ResolveValue(Thenable(settled), isTarget) == Async(Settle(ResolveValue(Settle(settled), isTarget).value))
  {
    if settled.Thenable? {
      PromiseCallbackGetsFulfilment(settled.settled, isTarget);
    }
  }

  /** A promise chain of any depth around a primitive settles to that primitive. */
  lemma PromiseOfPrimitive(n: nat, v: Value, isTarget: Option<Value -> bool>)
    requires n >= 1 && !IsObjectKind(v)
    ensures ResolveValue(Chain(n, v), isTarget) == Async(v)
  {
    PromiseChainFlattens(n, v, isTarget);
  }

  /** A value that resolution produced and the predicate accepts is a fixed point of resolution. */
  lemma TargetIsFixedPoint(v: Value, p: Value -> bool)
    requires ResolveValue(v, Some(p)).Sync? || ResolveValue(v, Some(p)).Async?
    requires p(ResolveValue(v, Some(p)).value) && !ResolveValue(v, Some(p)).value.Thenable?
    ensures ResolveValue(ResolveValue(v, Some(p)).value, Some(p)) == Sync(ResolveValue(v, Some(p)).value)
  {
  }

  // ---------------------------------------------------------------------------
  // resolveModuleThunk

  /** A function the predicate accepts is the target: it comes back and is never invoked. */
  lemma FactoryAsTarget(id: nat, o: Options, invoke: Invoker)
    requires Accepts(o.isTargetValue, Func(id))
    ensures ResolveThunk(Func(id), o, invoke) == Resolution(Sync(Func(id)), [])
  {
  }

  /** A thunk that is not a function is resolved as a module value, with nothing invoked. */
  lemma NonFactoryIsValue(t: Value, o: Options, invoke: Invoker)
    requires !t.Func?
    ensures ResolveThunk(t, o, invoke) == Resolution(ResolveValue(t, o.isTargetValue), [])
  {
  }

  /** Without an `argsThunk` the factory is invoked once, with `options.args` spread
      (no arguments when `args` is falsy), and what it returns is resolved as a value;
      an `args` that cannot be spread makes the call throw before any invocation. */
  lemma FactoryWithArgs(id: nat, o: Options, invoke: Invoker)
    requires !Accepts(o.isTargetValue, Func(id)) && !Truthy(o.argsThunk)
    ensures Spread(o.args).Some? ==>
      ResolveThunk(Func(id), o, invoke)
        == Resolution(ResolveValue(invoke(id, Spread(o.args).value), o.isTargetValue), [Call(id, Spread(o.args).value)])
    ensures !Truthy(o.args) ==> ResolveThunk(Func(id), o, invoke).calls == [Call(id, [])]
    ensures Spread(o.args).None? ==> ResolveThunk(Func(id), o, invoke) == Resolution(Threw, [])
  {
  }

  /** An `argsThunk` factory is invoked with no arguments and its result is resolved
      with only the `Array.isArray` predicate. */
  lemma ArgsThunkFactoryGetsNoArguments(argsId: nat, invoke: Invoker)
    ensures ResolveThunk(Func(argsId), ARGS_OPTIONS, invoke)
      == Resolution(ResolveValue(invoke(argsId, []), Some(IsArray)), [Call(argsId, [])])
  {
  }

  /** Once an `argsThunk` is present, `options.args` plays no part. */
  lemma ArgsThunkOverridesArgs(t: Value, o: Options, invoke: Invoker, args: Value)
    requires Truthy(o.argsThunk)
    ensures ResolveThunk(t, o, invoke) == ResolveThunk(t, o.(args := args), invoke)
  {
  }

  /** An `argsThunk` that resolves synchronously to a non-promise supplies the
      argument list: the factory is invoked after it, once, with that list spread;
      a value that cannot be spread throws before the factory is invoked. */
  lemma ArgsThunkSync(id: nat, o: Options, invoke: Invoker)
    requires !Accepts(o.isTargetValue, Func(id)) && Truthy(o.argsThunk)
    requires ResolveThunk(o.argsThunk, ARGS_OPTIONS, invoke).outcome.Sync?
    requires !ResolveThunk(o.argsThunk, ARGS_OPTIONS, invoke).outcome.value.Thenable?
    ensures
      var a := ResolveThunk(o.argsThunk, ARGS_OPTIONS, invoke).outcome.value;
      var prior := ResolveThunk(o.argsThunk, ARGS_OPTIONS, invoke).calls;
      Spread(a).Some? ==>
        ResolveThunk(Func(id), o, invoke)
          == Resolution(ResolveValue(invoke(id, Spread(a).value), o.isTargetValue), prior + [Call(id, Spread(a).value)])
    ensures
      var a := ResolveThunk(o.argsThunk, ARGS_OPTIONS, invoke).outcome.value;
      Spread(a).None? ==>
        ResolveThunk(Func(id), o, invoke) == Resolution(Threw, ResolveThunk(o.argsThunk, ARGS_OPTIONS, invoke).calls)
  {
  }

  /** The argument list an `argsThunk` resolution settles to, when it is a promise. */
  function PendingArgs(resolvedArgs: Outcome): (r: Option<Value>)
  {
    match resolvedArgs
    case Async(a) => Some(a)
    case Sync(a) => if a.Thenable? then Some(Settle(a)) else None
    case _ => None
  }

  /** An `argsThunk` that resolves to a promise makes the whole result a promise:
      the factory is invoked only once that promise settled, with its value spread,
      and a value that cannot be spread rejects the promise instead. */
  lemma ArgsThunkAsync(id: nat, o: Options, invoke: Invoker)
    requires !Accepts(o.isTargetValue, Func(id)) && Truthy(o.argsThunk)
    requires PendingArgs(ResolveThunk(o.argsThunk, ARGS_OPTIONS, invoke).outcome).Some?
    ensures ResolveThunk(Func(id), o, invoke).outcome.Async? || ResolveThunk(Func(id), o, invoke).outcome.Rejected?
    ensures
      var settled := PendingArgs(ResolveThunk(o.argsThunk, ARGS_OPTIONS, invoke).outcome).value;
      var prior := ResolveThunk(o.argsThunk, ARGS_OPTIONS, invoke).calls;
      ResolveThunk(Func(id), o, invoke) ==
        match Spread(settled)
        case None => Resolution(Rejected, prior)
        case Some(l) => Resolution(Async(Settle(ResolveValue(invoke(id, l), o.isTargetValue).value)), prior + [Call(id, l)])
  {
  }

  /** Invocations made while resolving `argsThunk`, or none when there is no `argsThunk`. */
  function ArgsCalls(o: Options, invoke: Invoker): (r: seq<Call>)
  {
    if Truthy(o.argsThunk) then ResolveThunk(o.argsThunk, ARGS_OPTIONS, invoke).calls else []
  }

  /** A factory that is not the target is invoked at most once, after every
      invocation its argument resolution made; whenever a value (or a promise of
      one) comes back, the factory was invoked. An `argsThunk` resolution itself
      makes at most one invocation. */
  lemma {:induction false} FactoryInvokedOnceAfterArgs(id: nat, o: Options, invoke: Invoker)
    requires !Accepts(o.isTargetValue, Func(id))
    ensures
      var r := ResolveThunk(Func(id), o, invoke);
      var prior := ArgsCalls(o, invoke);
      |prior| <= 1 && |prior| <= |r.calls| <= |prior| + 1 && r.calls[..|prior|] == prior
      && (|r.calls| == |prior| + 1 ==> r.calls[|prior|].factory == id)
      && (r.outcome.Sync? || r.outcome.Async? ==> |r.calls| == |prior| + 1)
  {
    if Truthy(o.argsThunk) {
      var resolvedArgs := ResolveThunk(o.argsThunk, ARGS_OPTIONS, invoke);
      assert resolvedArgs.outcome.Sync? || resolvedArgs.outcome.Async?;
    }
  }

  // ---------------------------------------------------------------------------
  // Worked cases

  /** `{ default: "D", other: "O" }` with a predicate accepting only "O" resolves to
      "D": the key scan alone would give "O", so `default` is taken first, unchecked. */
  lemma DefaultBeforeKeyScanExample()
    ensures
      var v := Obj(["default", "other"], map["default" := Str("D"), "other" := Str("O")]);
      ResolveValue(v, Some((x: Value) => x == Str("O"))) == Sync(Str("D"))
  {
    assert IsDefaultExportModule(Obj(["default", "other"], map["default" := Str("D"), "other" := Str("O")]));
  }

  /** `{ a: 1, b: 2 }` with a predicate accepting only 2 resolves to 2. */
  lemma SingleExportExample()
    ensures
      var v := Obj(["a", "b"], map["a" := Num(1), "b" := Num(2)]);
      ResolveValue(v, Some((x: Value) => x == Num(2))) == Sync(Num(2))
  {
    var fields := map["a" := Num(1), "b" := Num(2)];
    SingleExportFound(["a", "b"], fields, (x: Value) => x == Num(2), 1);
  }

  /** `(a, b) => a + b` with `args: [2, 3]` resolves to 5. */
  lemma FactoryArgsExample()
    ensures
      var add := (id: nat, l: seq<Value>) =>
        if |l| == 2 && l[0].Num? && l[1].Num? then Num(l[0].n + l[1].n) else Undefined;
      ResolveThunk(Func(1), Options(Arr([Num(2), Num(3)]), Undefined, None), add).outcome == Sync(Num(5))
  {
  }

  /** A `default` export holding a promise resolved with a promise of `[1, 2]` is
      returned synchronously as that promise; its `then` callback receives `[1, 2]`,
      so the factory is invoked with 1 and 2 and the result is a promise. */
  lemma NestedPromiseArgsExample(invoke: Invoker)
    ensures
      var inner := Thenable(Thenable(Arr([Num(1), Num(2)])));
      var r := ResolveThunk(Func(1), Options(Undefined, Obj(["default"], map["default" := inner]), None), invoke);
      r.outcome.Async? && r.calls == [Call(1, [Num(1), Num(2)])]
  {
    var elems := [Num(1), Num(2)];
    var inner := Thenable(Thenable(Arr(elems)));
    var wrapper := Obj(["default"], map["default" := inner]);
    assert IsDefaultExportModule(wrapper);
    assert UnwrapExports(wrapper, IsArray) == inner;
    assert ResolveValue(wrapper, Some(IsArray)) == Sync(inner);
    assert Settle(inner) == Arr(elems);
    assert Spread(Arr(elems)) == Some(elems);
  }

  /** With `argsThunk: Promise.resolve([1, 2, 3])` the result is a promise and the
      factory gets the array spread into three positional arguments. */
  lemma AsyncArgsThunkExample(invoke: Invoker)
    ensures
      var r := ResolveThunk(Func(1), Options(Undefined, Thenable(Arr([Num(1), Num(2), Num(3)])), None), invoke);
      r.outcome.Async? && r.calls == [Call(1, [Num(1), Num(2), Num(3)])]
  {
    var elems := [Num(1), Num(2), Num(3)];
    assert UnwrapExports(Arr(elems), IsArray) == Arr(elems);
    assert ResolveValue(Thenable(Arr(elems)), Some(IsArray)) == Async(Arr(elems));
    assert Spread(Arr(elems)) == Some(elems);
  }

  /** `argsThunk: { x: 1 }` is not iterable, so the call throws and invokes nothing. */
  lemma UnspreadableArgsThunkExample(invoke: Invoker)
    ensures ResolveThunk(Func(1), Options(Undefined, Obj(["x"], map["x" := Num(1)]), None), invoke) == Resolution(Threw, [])
  {
    var wrapper := Obj(["x"], map["x" := Num(1)]);
    assert !IsDefaultExportModule(wrapper);
    assert UnwrapExports(wrapper, IsArray) == wrapper;
  }
}
