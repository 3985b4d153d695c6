/** Values shared by every page model: optional fields, server replies and the
    JavaScript truthiness rules the handlers rely on (`x || 0`, `x || 1`, `!id`). */
module Common {

  /** A JSON field that may be absent, null or undefined. */
  datatype Option<+T> = None | Some(value: T)

  /** The outcome of one HTTP request as a handler sees it: the request threw
      (network error, non-2xx status), it resolved with a falsy body (null,
      undefined, "", false, 0), or it resolved with a body. */
  datatype Response<+T> = Failed | Empty | Body(data: T)

  /** `x || 0` on a numeric field: an absent value reads as 0. */
  function OrZero(x: Option<int>): int
  {
    if x.Some? then x.value else 0
  }

  /** `x || 1` on a numeric field used as a denominator: an absent value and
      the falsy value 0 both read as 1, so the result is never 0. */
  function OrOne(x: Option<int>): (r: int)
    ensures r != 0
    ensures x.Some? && x.value != 0 ==> r == x.value
    ensures x.None? || x.value == 0 ==> r == 1
  {
    if x.Some? && x.value != 0 then x.value else 1
  }

  /** JavaScript truthiness of an identifier that may be null: null and 0 are falsy. */
  predicate TruthyId(x: Option<int>)
  {
    x.Some? && x.value != 0
  }

  /** `response.data || default`: the body, or the default when it is falsy or the request failed. */
  function BodyOr<T>(r: Response<T>, default: T): T
  {
    if r.Body? then r.data else default
  }
}
