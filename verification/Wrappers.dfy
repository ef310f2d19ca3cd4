/** Optional values, fallible results, identifiers and times shared by every component. */
module Wrappers {
  datatype Option<+T> = None | Some(value: T)

  datatype Result<+T, +E> = Ok(value: T) | Err(error: E)

  /** Record identifiers. */
  type Id = string

  /** A clock reading, in the unit of the component that uses it; readings never go back. */
  type Time = nat

  /** The error kinds of the HTTP envelope that the modelled services return. */
  datatype AppError = Validation | Unauthorized | TwoFactorRequired | Forbidden | NotFound | Conflict | TooManyRequests
                    | Hypervisor | Internal
}
