/** Value shapes shared by the whole service model. */
module Outcomes {

  /** Python's `None` or a present value. */
  datatype Option<+T> = None | Some(value: T)

  /** How a piece of Python code ends: with a value, or by raising an
      exception `e`, which is remembered as the text `str(e)`. */
  datatype Outcome<+T> = Done(value: T) | Raised(message: string)

  /** What an endpoint sends back: its JSON body, or an `HTTPException`
      carrying a status code and a detail text. */
  datatype Response<+T> = Ok(body: T) | Err(code: nat, detail: string)

  /** Decimal rendering of a natural number, as Python's `str(n)`. */
  function NatText(n: nat): string
    decreases n
  {
    if n < 10 then ["0123456789"[n]]
    else NatText(n / 10) + ["0123456789"[n % 10]]
  }
}
