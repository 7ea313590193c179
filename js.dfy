/** JavaScript value conventions shared by the whole model. */
module Js {

  /** A possibly-missing value: `None` stands for `undefined` or `null`. */
  datatype Option<+T> = None | Some(value: T)

  /** `a || b` where `a` is a possibly missing string: the empty string is falsy. */
  function OrString(a: Option<string>, b: string): string
  {
    if a.Some? && a.value != "" then a.value else b
  }

  /** `a || b` where `a` is a possibly missing number: 0 is falsy. */
  function OrNumber(a: Option<int>, b: int): (r: int)
    ensures a.Some? && a.value != 0 ==> r == a.value
    ensures a.None? || a.value == 0 ==> r == b
  {
    if a.Some? && a.value != 0 then a.value else b
  }

  /** `a || b` where `a` is a possibly missing array: every array, even `[]`, is truthy. */
  function OrArray<T>(a: Option<seq<T>>, b: seq<T>): seq<T>
  {
    if a.Some? then a.value else b
  }
}

/** The error results an Express handler produces with `res.status(...)` and `throw`. */
module Http {

  datatype HttpError = HttpError(status: nat, message: string)

  datatype Result<+T> = Ok(value: T) | Err(error: HttpError)

  const ProductNotFound := HttpError(404, "Product not found")
  const OrderNotFound := HttpError(404, "Order not found")
}
