/** Values shared by the session, routing and dashboard modules: an optional
    value (TypeScript's `T | null` and `T | undefined`) and the JavaScript
    truthiness tests the source applies to strings and numbers. */
module Common {

  datatype Option<T> = None | Some(value: T)

  /** JavaScript truthiness of a `string | null`: `null` and `""` are falsy. */
  predicate Truthy(s: Option<string>) {
    s.Some? && s.value != ""
  }

  /** `x || 0` for a `number | undefined` that holds integers: a missing or
      zero value gives 0, any other value is kept. */
  function OrZero(x: Option<int>): int {
    if x.Some? then x.value else 0
  }
}
