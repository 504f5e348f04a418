/** Values shared by the token store and the mail client: optional values,
    the exceptions that escape an operation, and Python truthiness. */
module Common {

  datatype Option<+T> = None | Some(value: T)

  /** The exceptions that escape the modelled operations. */
  datatype Error =
    | StoreUnavailable(attempts: nat)   // CustomException after the retries are spent
    | MissingKey(key: string)           // KeyError on a JSON body

  /** Either the value an operation returns or the exception it raises. */
  datatype Outcome<+T> = Done(value: T) | Raised(error: Error)

  /** Python truthiness of an optional string: `None` and `""` are false. */
  predicate Truthy(s: Option<string>)
  {
    s.Some? && s.value != []
  }
}
