/** Failure-carrying values shared by every part of the model. */
module Common {

  datatype Option<+T> = None | Some(value: T)

  /** The exceptions the SDK raises, each as one error kind. */
  datatype Error =
    /** `ValueError` from `get_environment` on a name that is not registered. */
    | UnknownEnvironment(message: string)
    /** `KeyError` from indexing a dictionary (stored record or token response) by a missing key. */
    | MissingKey(key: string)
    /** Whatever the OAuth library raises for a token request that fails. */
    | OAuthFailure(reason: string)
    /** Whatever `requests` raises when a request cannot be completed (connection, timeout). */
    | TransportFailure(reason: string)
    /** `requests.HTTPError` from `raise_for_status` on a 4xx or 5xx response. */
    | HttpError(status: int)
    /** `AuthenticationRequired`, raised when no credentials can be resolved. */
    | AuthenticationRequired(message: string)

  datatype Result<+T> = Ok(value: T) | Err(error: Error)

  /** Python truthiness of an `Optional[str]`: neither `None` nor `""`. */
  predicate Truthy(s: Option<string>) {
    s.Some? && s.value != ""
  }

  /** Python's `a or b` on two `Optional[str]` values. */
  function Or(a: Option<string>, b: Option<string>): (r: Option<string>)
    ensures Truthy(r) <==> Truthy(a) || Truthy(b)
  {
    if Truthy(a) then a else b
  }

  /** `dict.get(key)` on a string map. */
  function Get(m: map<string, string>, key: string): Option<string> {
    if key in m then Some(m[key]) else None
  }
}
