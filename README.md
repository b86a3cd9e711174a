# module-thunk, modelled in Dafny

module-thunk turns a "module thunk" into the value a caller wants. A thunk can be
a plain value, a factory function, a promise, or a module-export wrapper such as
`{ default: x }` or `{ someName: x }`. The result is either that value or a
promise of it.

This project models the whole of `src/module-thunk.ts`:

- `resolveModuleValue` is `ModuleThunk.ResolveValue`. It handles `undefined` and
  `null`, chains through promises, stops at a target the caller's
  `isTargetValue` accepts, and unwraps `default` before it scans the keys.
- `resolveModuleThunk` is `ModuleThunk.ResolveThunk`. It handles a factory
  function that is itself the target, resolves `argsThunk` with an
  `Array.isArray` predicate, spreads `args || []`, and defers the invocation
  when the arguments are a promise.
- `isPromise` and `isDefaultExportModule` are `JsValues.IsPromise` and
  `JsValues.IsDefaultExportModule`.
- The accessors returned by `moduleValueResolver` and `moduleThunkResolver` are
  the classes `Resolvers.ValueResolver` and `Resolvers.ThunkResolver`. Each has
  a `result` field that every `Get` overwrites.

How the modelled JavaScript values work (`JsValues.Value`):

- `typeof` is read from the constructor.
- For `Obj(keys, fields)`, `keys` is what `Object.keys` returns, in that order.
  `fields` holds the object's own properties.
- `Arr` is an array.
- `Func(id)` is a callable value.
- `Thenable(settled)` is a promise resolved with `settled`. It fulfils with
  `Settle(settled)`, because a promise resolved with a promise adopts it.
  `JsValues.Settle` is that adoption. Its `then` calls the callback once, with
  that fulfilment value, and returns a promise that adopts whatever the
  callback returns.

Caller-supplied code is abstract:

- The predicate is a parameter of type `Value -> bool`.
- Factories are a parameter `invoke: (nat, seq<Value>) -> Value`.

A resolution returns an `Outcome`. It is one of:

- `Sync(v)`: the value itself.
- `Async(v)`: a promise that fulfils with `v`. `v` is never a promise.
- `Threw`: a throw.
- `Rejected`: a rejecting promise.

The last two come only from spreading an argument value that is truthy but not
iterable, which is a TypeError in JavaScript. `ResolveThunk` also returns the
ordered list of factory invocations. This list is what lets the model state "invoked
once", "with no arguments" and "after the arguments settled".

Three behaviours of the code differ from what its names suggest. The model follows the code in each:

- The accessors do not memoize. `setResult` is a constant `false`, so every
  call resolves again (see Findings).
- An argument list that comes from `argsThunk` is spread into positional
  arguments, the same way `args` is (`...(args || [])` at lines 19 and 24). A
  factory given `argsThunk: Promise.resolve([1, 2, 3])` therefore receives 1, 2
  and 3, not the array (`AsyncArgsThunkExample`).
- The key scan tests the found key for truthiness. A first matching key that is
  the empty string therefore makes the object itself the result
  (`SingleExportFound`).

## Model

| member | source | states |
|---|---|---|
| `ModuleThunk.ResolveValue` | src/module-thunk.ts:30-64 | never throws; it returns a new promise (`Async`) exactly when the input is a promise, and that promise never fulfils with a promise (nested promises flatten); a value changes only when it is a non-promise object that a supplied predicate rejects. A `default` field or a matched key that holds a promise is returned as it is, synchronously (`Sync`) |
| `ModuleThunk.UnwrapExports` | src/module-thunk.ts:43-57 | an object the predicate accepts stays; otherwise the result is its truthy `default` field, unchecked, or the predicate-accepted value of one of its keys, or the object itself |
| `ModuleThunk.FindTarget` | src/module-thunk.ts:50-52 | `Object.keys(...).find`: the index found is accepted by the predicate and every earlier entry is rejected; no index means every entry is rejected |
| `ModuleThunk.InvokeFactory` | src/module-thunk.ts:18-24 | the factory is invoked once with the spread argument list, appended after earlier invocations; an unspreadable list throws (sync) or rejects (inside the callback) without invoking; a deferred invocation yields a promise |
| `ModuleThunk.ResolveThunk` | src/module-thunk.ts:1-28 | a non-function makes no invocation; at most one invocation without `argsThunk` and two with it; a promise result never fulfils with a promise; without `argsThunk` nothing rejects, and nothing throws when `args` spreads |
| `JsValues.IndexKey` | src/module-thunk.ts:50 | an array index key is a non-empty string of decimal digits, so it is truthy at line 53 |
| `JsValues.OwnEntries` | src/module-thunk.ts:50-51 | one entry per `Object.keys` key (one per element for an array), none for a non-object |
| `JsValues.Spread` | src/module-thunk.ts:24 | spreading `args`, with `[]` for a falsy value: a falsy value gives no arguments; an array gives its elements; a string gives its one-character strings in order (`Characters`); any other truthy value throws |
| `JsValues.Characters` | src/module-thunk.ts:24 | spreading a string gives its characters in order, as one-character strings |
| `JsValues.Settle` | src/module-thunk.ts:42 | a promise resolved with a value fulfils with a non-promise; non-promises are kept as they are |
| `JsValues.IsPromise` | src/module-thunk.ts:98-99 | `isPromise` holds exactly of promises and of objects whose own `then` is a function; never of arrays or functions. Resolution itself detects promises by the `Thenable` shape (see Left out) |
| `JsValues.IsDefaultExportModule` | src/module-thunk.ts:94-95 | `isDefaultExportModule` holds exactly of objects with a truthy own `default` |
| `ModuleThunkLemmas.NonObjectsPassThrough` | src/module-thunk.ts:34-39 | `undefined`, `null`, booleans, numbers, strings and functions come back unchanged and synchronously |
| `ModuleThunkLemmas.NoPredicateNoUnwrap` | src/module-thunk.ts:43 | without `isTargetValue`, every non-promise comes back unchanged |
| `ModuleThunkLemmas.TargetShortCircuit` | src/module-thunk.ts:44-45 | an object the predicate accepts comes back unchanged, even with a truthy `default` |
| `ModuleThunkLemmas.DefaultExportFirst` | src/module-thunk.ts:47-48 | a rejected object with a truthy `default` resolves to that field. Any two predicates that reject the object give the same result, so `default` is never tested and no key is scanned |
| `ModuleThunkLemmas.FindTargetFirst` | src/module-thunk.ts:50-52 | the scan returns exactly the first accepted entry |
| `ModuleThunkLemmas.SingleExportFound` | src/module-thunk.ts:50-55 | with no truthy `default`, the first key in `Object.keys` order whose value is accepted gives the result. An empty-string key gives the object itself |
| `ModuleThunkLemmas.NoExportFound` | src/module-thunk.ts:50-60 | if no key's value is accepted, the object itself comes back |
| `ModuleThunkLemmas.ArrayScan` | src/module-thunk.ts:47-60 | a rejected array resolves to its first accepted element, or to itself if none is accepted |
| `ModuleThunkLemmas.PromiseChainFlattens` | src/module-thunk.ts:41-42 | any depth of nested promises resolves asynchronously to the settled resolution of the innermost value, with the same options |
| `ModuleThunkLemmas.PromiseCallbackGetsFulfilment` | src/module-thunk.ts:41-42 | the `then` callback resolves the promise's fulfilment value, a non-promise, with the same options, and the returned promise settles to that result |
| `ModuleThunkLemmas.PromiseOfPrimitive` | src/module-thunk.ts:41-42 | a promise chain around a primitive settles to that primitive |
| `ModuleThunkLemmas.TargetIsFixedPoint` | src/module-thunk.ts:44-45 | a resolved non-promise that the predicate accepts resolves to itself again |
| `ModuleThunkLemmas.FactoryAsTarget` | src/module-thunk.ts:7-9 | a function the predicate accepts comes back without being invoked |
| `ModuleThunkLemmas.NonFactoryIsValue` | src/module-thunk.ts:25-26 | a non-function thunk gives exactly `resolveModuleValue(thunk, options)` and invokes nothing |
| `ModuleThunkLemmas.FactoryWithArgs` | src/module-thunk.ts:10-24 | without `argsThunk` the factory is invoked once, with `args` spread (`[]` when falsy), and its return value is resolved; an unspreadable `args` throws before any invocation |
| `ModuleThunkLemmas.ArgsThunkFactoryGetsNoArguments` | src/module-thunk.ts:12-16 | an `argsThunk` factory is invoked with no arguments, and its result is resolved with only `Array.isArray` |
| `ModuleThunkLemmas.ArgsThunkOverridesArgs` | src/module-thunk.ts:11-22 | when `argsThunk` is present, `options.args` has no effect |
| `ModuleThunkLemmas.ArgsThunkSync` | src/module-thunk.ts:11-24 | a synchronously resolved `argsThunk` gives the argument list; the factory is invoked once after its invocations, and its result is resolved synchronously; a value that cannot be spread throws, after the `argsThunk` invocations and before the factory is invoked |
| `ModuleThunkLemmas.ArgsThunkAsync` | src/module-thunk.ts:17-20 | a promised argument list, including a promise returned synchronously through `default`, makes the result a promise; the factory is invoked only after it settles, with its fulfilment value spread; an unspreadable value rejects |
| `ModuleThunkLemmas.FactoryInvokedOnceAfterArgs` | src/module-thunk.ts:6-24 | a non-target factory is invoked at most once, after all `argsThunk` invocations (of which there is at most one), and always when a value or promise comes back |
| `ModuleThunkLemmas.DefaultBeforeKeyScanExample` | src/module-thunk.ts:47-52 | `{ default: "D", other: "O" }` with the predicate `v === "O"` resolves to "D", where the key scan alone would give "O": `default` is taken first |
| `ModuleThunkLemmas.SingleExportExample` | src/module-thunk.ts:50-54 | `{ a: 1, b: 2 }` with the predicate `v === 2` resolves to 2 |
| `ModuleThunkLemmas.FactoryArgsExample` | src/module-thunk.ts:24 | `(a, b) => a + b` with `args: [2, 3]` gives 5 synchronously |
| `ModuleThunkLemmas.NestedPromiseArgsExample` | src/module-thunk.ts:17-19 | `argsThunk: { default: <promise resolved with a promise of [1, 2]> }` gives an asynchronous result, and the factory is invoked with 1 and 2 |
| `ModuleThunkLemmas.AsyncArgsThunkExample` | src/module-thunk.ts:17-19 | a promised `[1, 2, 3]` gives an asynchronous result, and the factory is invoked with 1, 2 and 3 |
| `ModuleThunkLemmas.UnspreadableArgsThunkExample` | src/module-thunk.ts:22-24 | `argsThunk: { x: 1 }` is not iterable, so the call throws and invokes nothing |
| `Resolvers.ValueResolver.constructor` | src/module-thunk.ts:66-71 | captures the value and the predicate, with an empty result cell |
| `Resolvers.ValueResolver.Get` | src/module-thunk.ts:72-76 | every call stores `resolveModuleValue` of the captured input in the cell and returns it |
| `Resolvers.ThunkResolver.constructor` | src/module-thunk.ts:80-85 | captures the thunk, the options and the factories, with an empty result cell |
| `Resolvers.ThunkResolver.Get` | src/module-thunk.ts:86-90 | every call stores `resolveModuleThunk` of the captured input in the cell and returns it; the call's factory invocations are made again each time |
| `Resolvers.OnceThunkResolver.constructor` | src/module-thunk.ts:84-85 | corrected accessor: captures the thunk, the options and the factories, not yet resolved, with an empty cell and no invocations |
| `Resolvers.OnceThunkResolver.Get` | src/module-thunk.ts:84-90 | corrected accessor: resolves on the first call only, then returns the cached outcome without invoking anything |
| `Resolvers.InertMemoization` | src/module-thunk.ts:84-90 | as written: two calls of an accessor over a factory invoke it twice |
| `Resolvers.OneShotMemoization` | src/module-thunk.ts:84-90 | corrected: two calls invoke the factory once and return the same outcome |

## Left out

- `ModuleThunk.ResolveValue`: the source chains through any object whose own `then` is a function (line 41). The model chains only through `Thenable`. An `Obj` whose `then` field is a `Func` is resolved as a plain object, because what a hand-written thenable settles to depends on foreign code. The contract of `JsValues.IsPromise` states where `isPromise` and the model agree. The lemmas about objects (`NoPredicateNoUnwrap`, `TargetShortCircuit`, `DefaultExportFirst`, `SingleExportFound`, `NoExportFound`) therefore describe the source only for objects without a callable own `then`.
- `ModuleThunk.ResolveThunk`: the same gap applies at line 17. When an `argsThunk` resolves synchronously to an `Obj` whose `then` is a `Func`, the source calls that `then`. The model instead spreads the object, which gives `Threw`.
- Real promise scheduling, rejection of a caller's promise, and thenables that call their callback more than once or never. A promise is a value that settles. A factory invocation deferred until a promised argument list settles is recorded with the `Get` call that scheduled it, so `Resolvers.ThunkResolver`'s `invocations` lists it before the invocations of later calls, although the source runs it only after the current call has returned. Only the TypeError of a failed spread is modelled as a throw or a rejection.
- Exceptions thrown by factories or predicates. Both are total functions here.
- Floating point: numbers are integers, so NaN and `-0` are not modelled. BigInt, symbols and `document.all` are not modelled either.
- Getters, the prototype chain (an inherited `default` or `then`), symbol keys, properties of functions, non-index properties of arrays, and sparse arrays. `Object.keys` order is taken as given.
- Spreading iterables other than arrays and strings (`Map`, `Set`, `Symbol.iterator`). A string is spread one Unicode scalar value at a time, as JavaScript's string iterator does by code point. Lone surrogates cannot occur in a Dafny string and are not modelled.
- Object identity: each `Async` result is a fresh promise in JavaScript, so `moduleValueResolver`'s accessor returns a new promise on every call. The model compares promises by their settled value.
- `Resolvers.InertMemoization`: a factory is a function of its arguments, so it returns the same value for the same arguments. A stateful factory such as `() => ++n` would make two calls of the inert accessor return different results (1, then 2). The model shows the re-resolution only in the recorded invocations, and its `first == second` holds because factories are deterministic here. The same applies to `Resolvers.ThunkResolver.Get`.
- The TypeScript type declarations at lines 102-134. They have no runtime behaviour. The declared type of the accessors' `options` admits only `isTargetValue`. At runtime the object is forwarded as it is, and the model does the same.

## Findings

| source | as written | input that shows it | evidently intended | confidence | as-written member | corrected member |
|---|---|---|---|---|---|---|
| src/module-thunk.ts:84-90 | `const setResult = false` is never set, so every accessor call resolves again (the same applies at lines 70-76) | `moduleThunkResolver(f)` for a factory `f`, called twice: `f` is invoked twice | resolve on the first call and return the stored result afterwards | high, from reading the code; not executed | `Resolvers.InertMemoization` | `Resolvers.OneShotMemoization` |
