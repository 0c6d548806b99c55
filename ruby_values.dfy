/** The slice of Ruby's value semantics the proxy relies on: plain result
    values, truthiness, raised errors, and the outcome of running a piece of
    Ruby code (a handler, a performer, a delegated method) against the
    target's state. */
module RubyValues {

  /** A result a handler or a target method can return. */
  datatype Value =
    | Nil
    | Bool(b: bool)
    | Int(n: int)
    | Str(s: string)
    | Array(items: seq<Value>)

  /** Ruby truthiness: only `nil` and `false` are falsy. */
  predicate Truthy(v: Value) {
    !(v.Nil? || v == Bool(false))
  }

  /** An exception that ends one invocation. */
  datatype Error =
    | NoMethodError(name: string)   // a NoMethodError for a method name, told apart by class and name only
    | NotIndexable                  // `container[symbol]` on a truthy slot whose `[]` rejects a Symbol
    | Raised(exception: Value)      // anything a handler or the target itself raises

  /** What running code against the target gives: the target's state
      afterwards (effects made before an exception persist) and either the
      returned value or the exception. */
  datatype Step<S> =
    | Done(state: S, value: Value)
    | Threw(state: S, error: Error)

  /** The outcome of one call as the proxy's caller sees it. */
  datatype Result<T> = Ok(value: T) | Err(error: Error)

  /** `nil` versus a present object, where the source accepts either. */
  datatype Option<T> = None | Some(value: T)

  /** A Ruby Array of Integers, as one value. */
  function IntArray(xs: seq<int>): Value {
    Array(seq(|xs|, i requires 0 <= i < |xs| => Int(xs[i])))
  }
}
