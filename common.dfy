/** Values shared by the consumer and the demultiplexer models. */
module Common {

  datatype Option<T> = None | Some(value: T)

  /** A stream name is only a tag carried by packets. */
  type Name = string

  /** Consumer ids are allocated by the main stream. */
  type ConsumerId = int

  /** An opaque JavaScript payload: `undefined`, or some defined value.
      Every defined payload is taken to be truthy (an object). */
  datatype Datum = Undefined | Defined(payload: int)

  /** A `timeout` argument. JavaScript tells three cases apart: `undefined`
      (no timer is armed), `null` (a timer is armed, with zero delay, but
      `getStats` hides it) and a delay in milliseconds. */
  datatype TimeoutArg = NoTimeout | NullTimeout | Delay(ms: nat)

  /** The `{value, done}` pair that an iteration step hands to its caller. */
  datatype Item = Item(value: Datum, done: bool)

  /** `a` is obtained from `b` by deleting elements, keeping the order of the rest. */
  predicate IsSubsequence<T(==)>(a: seq<T>, b: seq<T>)
    decreases |b|
  {
    a == [] ||
    (b != [] && ((a[0] == b[0] && IsSubsequence(a[1..], b[1..])) || IsSubsequence(a, b[1..])))
  }
}
