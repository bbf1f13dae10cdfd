/** The errors that flow through the request, session and push-event layer. */
module Errors {
  import opened Wrappers

  /**
   * `RedirectToLoginPageError` is what `redirectToLoginPage` throws once it has
   * navigated away; `HttpError` is an axios error, carrying the response status
   * when there was a response; `OtherError` is any other thrown value.
   */
  datatype Error =
    | RedirectToLoginPageError
    | HttpError(status: Option<int>)
    | OtherError(message: string)

  /** The axios error of a response whose status is 401. */
  predicate IsUnauthorized(e: Error) {
    e.HttpError? && e.status == Some(401)
  }
}
