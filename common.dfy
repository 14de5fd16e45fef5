/** Shared result types for the data layer: optional values and the outcome of a remote call. */
module Common {

  /** A value that may be absent (`undefined`/`null` in the app). */
  datatype Option<T> = None | Some(value: T)

  /**
   * What a call to the REST API reports to a store: either success with the
   * record the server returned, or a failure (a non-2xx status or a thrown
   * network error; the stores treat both alike).
   */
  datatype Response<T> = Ok(body: T) | Err
}
