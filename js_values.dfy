/**
 The slice of JavaScript's runtime values that module-thunk resolution looks at:
 the `typeof` kinds it switches on, truthiness, the two named properties it reads
 (`default` and `then`), an object's own keys in `Object.keys` order, and the
 spreading of an argument list into a call.
 */
module JsValues {

  datatype Option<+T> = None | Some(value: T)

  /** A JavaScript value, as far as resolution can tell values apart.
      - `Num` stands for a number and is modelled as an integer.
      - `Func(id)` is a callable value; `id` names a factory whose behaviour is given from outside.
      - `Arr(elems)` is an array (`Array.isArray` holds of it).
      - `Obj(keys, fields)` is any other non-null object: `keys` is what `Object.keys` returns
        (in that order) and `fields` holds its own properties, enumerable or not.
      - `Thenable(settled)` is a promise resolved with `settled`: it fulfils with
        `Settle(settled)`, and its `then` calls the callback once with that value. */
  datatype Value =
    | Undefined
    | Null
    | Bool(b: bool)
    | Num(n: int)
    | Str(s: string)
    | Func(id: nat)
    | Arr(elems: seq<Value>)
    | Obj(keys: seq<string>, fields: map<string, Value>)
    | Thenable(settled: Value)

  /** The identity of the native `then` method every promise carries. Factory ids
      share this space and are arbitrary, so `Func(0)` used as a thunk is also
      invoked as factory 0; resolution only tests that `then` is callable. */
  const NATIVE_THEN: nat := 0

  /** JavaScript truthiness (`Boolean(v)`). */
  predicate Truthy(v: Value)
  {
    match v
    case Undefined => false
    case Null => false
    case Bool(b) => b
    case Num(n) => n != 0
    case Str(s) => s != ""
    case _ => true
  }

  /** `typeof v === "object"`: null, arrays, plain objects and promises. */
  predicate IsObjectKind(v: Value)
  {
    v.Null? || v.Arr? || v.Obj? || v.Thenable?
  }

  /** `Array.isArray(v)`. */
  predicate IsArray(v: Value)
  {
    v.Arr?
  }

  /** The value at `key` of a property map, `undefined` when absent. */
  function Lookup(fields: map<string, Value>, key: string): (r: Value)
  {
    if key in fields then fields[key] else Undefined
  }

  /** `v[key]` for a key that is not an array index (such as `default` or `then`).
      Arrays, functions and primitives have no own property of that kind here,
      and a promise's only one is its native `then`. */
  function Property(v: Value, key: string): (r: Value)
  {
    match v
    case Obj(_, fields) => Lookup(fields, key)
    case Thenable(_) => if key == "then" then Func(NATIVE_THEN) else Undefined
    case _ => Undefined
  }

  /** The decimal spelling of an array index, as `Object.keys` gives it. */
  function IndexKey(i: nat): (r: string)
    ensures |r| >= 1
    ensures forall k :: 0 <= k < |r| ==> '0' <= r[k] <= '9'
  {
    var digit := ['0' + (i % 10) as char];
    if i < 10 then digit else IndexKey(i / 10) + digit
  }

  /** The pairs `(key, v[key])` for `key` in `Object.keys(v)`, in that order. */
  function OwnEntries(v: Value): (r: seq<(string, Value)>)
    ensures v.Obj? ==> |r| == |v.keys|
    ensures v.Arr? ==> |r| == |v.elems|
    ensures !v.Obj? && !v.Arr? ==> r == []
  {
    match v
    case Obj(keys, fields) => seq(|keys|, i requires 0 <= i < |keys| => (keys[i], Lookup(fields, keys[i])))
    case Arr(elems) => seq(|elems|, i requires 0 <= i < |elems| => (IndexKey(i), elems[i]))
    case _ => []
  }

  /** `isPromise`: truthy and with a callable `then`. Promise-likes are exactly the
      promises, and the hand-written objects whose own `then` is callable. */
  predicate IsPromise(v: Value)
    ensures IsPromise(v) <==> v.Thenable? || (v.Obj? && Lookup(v.fields, "then").Func?)
    ensures v.Arr? || v.Func? ==> !IsPromise(v)
  {
    Truthy(v) && Property(v, "then").Func?
  }

  /** `isDefaultExportModule`: the `default` property is truthy. It holds exactly of
      the objects whose own `default` field is truthy; arrays, functions, primitives
      and promises are never default-export wrappers. */
  predicate IsDefaultExportModule(v: Value)
    ensures IsDefaultExportModule(v) <==> v.Obj? && Truthy(Lookup(v.fields, "default"))
  {
    Truthy(Property(v, "default"))
  }

  /** The argument list that `f(...(args || []))` passes, or `None` when the
      spread throws a TypeError because the value is truthy but not iterable.
      Arrays spread to their elements, strings to their characters. */
  function Spread(args: Value): (r: Option<seq<Value>>)
    ensures !Truthy(args) ==> r == Some([])
    ensures args.Arr? ==> r == Some(args.elems)
    ensures args.Str? ==> r == Some(Characters(args.s))
    ensures r.None? <==> Truthy(args) && !args.Arr? && !args.Str?
  {
    if !Truthy(args) then Some([])
    else match args
      case Arr(elems) => Some(elems)
      case Str(s) => Some(Characters(s))
      case _ => None
  }

  /** The one-character strings a string iterates over. */
  function Characters(s: string): (r: seq<Value>)
    ensures |r| == |s|
    ensures forall k :: 0 <= k < |s| ==> r[k] == Str([s[k]])
  {
    if s == [] then [] else [Str([s[0]])] + Characters(s[1..])
  }

  /** What a promise fulfils with when it is resolved with `v`: a thenable is
      adopted, repeatedly, so a promise never fulfils with a promise. */
  function Settle(v: Value): (r: Value)
    ensures !r.Thenable?
    ensures !v.Thenable? ==> r == v
  {
    if v.Thenable? then Settle(v.settled) else v
  }
}
