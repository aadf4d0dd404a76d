/** The JSON replies the two API handlers send, as status code plus body. */
module Http {
  import opened Wrappers

  /** A reply body: none at all, `{error}`, or `{success: true, message[, submissionId]}`. */
  datatype Body =
    | NoBody
    | ErrorJson(error: string)
    | SuccessJson(message: string, submissionId: Option<string>)

  datatype Reply = Reply(status: int, body: Body)

  const MethodNotAllowed: string := "Method not allowed"
}
