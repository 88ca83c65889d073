/** The two Python exceptions the modelled code can raise, and a result type
    carrying either a value or one of them. */
module Outcomes {

  datatype Error =
      /** `params[counter]` read with `counter == len(params)`. */
    | IndexError(index: nat)
      /** A local variable read before any branch bound it. */
    | UnboundLocalError(name: string)

  datatype Result<T> = Ok(value: T) | Err(error: Error)
}
