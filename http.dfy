/**
 * What the frontend pages see of a request: the settled outcome of an axios call, the text
 * they show for a failed one, and the browser's `File` objects they send.
 */
module Http {
  import opened Json

  /** A file the user picked: its name, its MIME type (`file.type`) and its size in bytes. */
  datatype File = File(name: string, mimeType: string, size: nat)

  /** The response carried by a failed axios request: its status and its parsed body, if any. */
  datatype ErrorResponse = ErrorResponse(status: int, data: Option<Json>)

  /**
   * How an awaited axios call settles: with the parsed body of a 2xx response, with an axios
   * error (an HTTP error status, or no response at all) and its message, or with any other
   * exception thrown inside the `try` block.
   */
  datatype Outcome =
    | Success(data: Json)
    | AxiosError(response: Option<ErrorResponse>, message: string)
    | OtherError

  const UnexpectedError := "An unexpected error occurred."

  /** `err.response?.status === 404`. */
  predicate IsNotFound(o: Outcome) {
    o.AxiosError? && o.response.Some? && o.response.value.status == 404
  }

  /**
   * `err.response?.data?.detail ?? err.message`: the server's `detail` member unless it is
   * missing or null, the axios message otherwise.
   */
  function AxiosErrorText(response: Option<ErrorResponse>, message: string): (t: Json)
    ensures response.None? ==> t == JStr(message)
    ensures response.Some? && !Nullish(PropOf(response.value.data, "detail"))
      ==> Some(t) == PropOf(response.value.data, "detail")
    ensures response.Some? && Nullish(PropOf(response.value.data, "detail")) ==> t == JStr(message)
  {
    var detail := if response.Some? then PropOf(response.value.data, "detail") else None;
    Coalesce(detail, Some(JStr(message))).GetOr(JStr(message))
  }

  /** The error text a page shows for a failed request that it does not handle otherwise. */
  function ErrorText(o: Outcome): (t: Json)
    requires !o.Success?
    ensures o.OtherError? ==> t == JStr(UnexpectedError)
    ensures o.AxiosError? ==> t == AxiosErrorText(o.response, o.message)
  {
    if o.AxiosError? then AxiosErrorText(o.response, o.message) else JStr(UnexpectedError)
  }
}
