/** Shared vocabulary: optional values, the error kinds the add-ons raise,
    results, and the truthiness test Python applies to configuration values
    and reply fields. */
module Base {

  /** A value that may be absent (a missing key, an unset field, `False`). */
  datatype Option<+T> = None | Some(value: T)

  /** Python truthiness of an optional string: present and non-empty. */
  predicate Truthy(o: Option<string>)
  {
    o.Some? && o.value != ""
  }

  /** `o or ""`: Python's `or` yields `o` when it is truthy and `""`
      otherwise, so the result is empty exactly when `o` is falsy. */
  function OrEmpty(o: Option<string>): (r: string)
    ensures Truthy(o) ==> r == o.value
    ensures r == "" <==> !Truthy(o)
  {
    match o
    case Some(v) => v
    case None => ""
  }

  /** The failures the add-ons raise: a `ValidationError` for every kind
      except `MissingData`, which is the uncaught lookup error (a `KeyError`
      or `TypeError`) of indexing a reply that lacks the expected data. */
  datatype Error =
    | ConfigMissing                          // frappe.server.url or frappe.auth.token not set
    | RemoteFailure(detail: Option<string>)  // the server's reply reported an error
    | MissingData                            // the reply lacks the `data` key the code indexes
    | MultiDocUnsupported                    // builder-beta print format with several records

  datatype Result<+T> = Ok(value: T) | Err(error: Error)
}
