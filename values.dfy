/** Values shared by the model: optional values (JavaScript's `undefined`/`null`),
    the outcome of an awaited native call, and JavaScript truthiness of the
    optional fields that the handlers test with `||` and `if (x)`. */
module Values {

  datatype Option<+T> = None | Some(value: T) {
    function GetOr(default: T): (r: T)
      ensures Some? ==> r == value
      ensures None? ==> r == default
    {
      match this
      case Some(v) => v
      case None => default
    }
  }

  /** What an awaited call into native code produced: a value, or a thrown error
      that the surrounding `try` catches. */
  datatype Completion<+T> = Completed(value: T) | Threw

  /** JavaScript truthiness of an optional string: `undefined` and `""` are falsy. */
  predicate Truthy(s: Option<string>) {
    s.Some? && s.value != ""
  }

  /** `s || fallback` for an optional string. */
  function OrElse(s: Option<string>, fallback: string): (r: string)
    ensures Truthy(s) ==> r == s.value
    ensures !Truthy(s) ==> r == fallback
    ensures r == "" ==> fallback == ""
  {
    if Truthy(s) then s.value else fallback
  }
}
