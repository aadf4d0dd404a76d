/** What the client page shows the submitter in its message box. */
module Notices {
  import opened Wrappers
  import opened Http

  /** Why a submit attempt ended in the catch block of the submit listener. */
  datatype Cause =
    | Thrown(message: string)            // an error thrown by reCAPTCHA, fetch, or `result.error || 'Upload failed'`
    | ServerError(status: int, body: Body) // `Server error: <status> - <body text>` for a reply that is not ok
    | UnreadableReply                    // `response.json()` threw on a reply without a body

  datatype Notice =
    | Warning(text: string)                  // `showMessage(text, 'error')`
    | FileReady(fileName: string)            // the "File selected: ... Ready for upload" message
    | Failed(cause: Cause)                   // `showMessage('❌ Error: ' + message, 'error')`
    | Uploaded(submissionId: Option<string>) // `showSuccessMessage(result.submissionId)`
}
