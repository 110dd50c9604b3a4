/**
 * The outcome of one request to the backend, as a page handler sees it once
 * the awaited call has settled. The backend itself is not modelled: every
 * handler receives the outcome as an argument.
 */
module Http {
  import opened Wrappers

  /**
   * `Failed` is the `catch` branch (network error, non-2xx status): it carries
   * `error.response.data.error` when the server sent one.
   * `Answered` is a settled call whose body has `success` and a payload.
   */
  datatype Response<T> =
    | Failed(serverError: Option<string>)
    | Answered(success: bool, payload: T)
  {
    /** True when the handler takes its `if (response.data.success)` branch. */
    predicate Succeeded() {
      Answered? && success
    }
  }
}
