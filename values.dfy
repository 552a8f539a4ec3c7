/** The JavaScript values the handlers see in a request body or in the
    environment. Where `undefined` and `null` behave alike (truthiness tests
    and `||` defaults) a field is an `Option`: absent or a value. Where a
    destructuring default tells them apart, a field is a `Field`. */
module Values {

  datatype Option<+T> = None | Some(value: T)

  /** JavaScript truthiness of an optional string: absent and "" are falsy. */
  predicate Truthy(v: Option<string>) {
    v.Some? && v.value != ""
  }

  /** `v || fallback` for an optional string. */
  function OrElse(v: Option<string>, fallback: string): string {
    if Truthy(v) then v.value else fallback
  }

  /** A body field whose two absent values are told apart. */
  datatype Field<+T> = Undefined | Null | Defined(value: T)

  /** A destructuring default `{ x = fallback }`: it replaces `undefined`
      only, so `null` is kept. */
  function WithDefault<T>(f: Field<T>, fallback: T): (r: Field<T>)
    ensures !r.Undefined?
    ensures f.Undefined? ==> r == Defined(fallback)
    ensures f.Null? ==> r.Null?
    ensures f.Defined? ==> r == f
  {
    if f.Undefined? then Defined(fallback) else f
  }
}
