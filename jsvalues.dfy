/** JavaScript values as far as the socket model needs them, and lodash's
    `_.assign` on plain objects. */
module JsValues {
  import opened Wrappers

  /** A JavaScript value. Numbers are kept as integers: the model never
      computes with them, it only stores and forwards them. */
  datatype Value =
    | Undefined
    | Null
    | Bool(b: bool)
    | Num(n: int)
    | Str(s: string)
    | Arr(items: seq<Value>)
    | Obj(fields: map<string, Value>)

  /** The value a parameter with a JavaScript default takes: the default when
      the argument is omitted or explicitly `undefined`, the argument otherwise. */
  function WithDefault(arg: Option<Value>, default: Value): (v: Value)
    ensures (arg.None? || arg.value == Undefined) ==> v == default
    ensures (arg.Some? && arg.value != Undefined) ==> v == arg.value
  {
    if arg.Some? && arg.value != Undefined then arg.value else default
  }

  /** A plain object: its own enumerable properties. */
  type Object = map<string, Value>

  /** `_.assign({}, target, source)`: a fresh object holding every property of
      both arguments, where `source` wins on a shared key. */
  function Assign(target: Object, source: Object): (r: Object)
    ensures r.Keys == target.Keys + source.Keys
    ensures forall k :: k in source ==> r[k] == source[k]
    ensures forall k :: k in target && k !in source ==> r[k] == target[k]
  {
    target + source
  }

  /** Merging in two objects one after the other is merging in their own merge. */
  lemma AssignTwice(target: Object, first: Object, second: Object)
    ensures Assign(Assign(target, first), second) == Assign(target, Assign(first, second))
  {
  }

  /** Merging the same object in again changes nothing. */
  lemma AssignIdempotent(target: Object, source: Object)
    ensures Assign(Assign(target, source), source) == Assign(target, source)
  {
  }
}
