/**
 The link-submission handler (`POST /api/submit-link`): it receives an external
 (MEGA) download link for a submission id, logs the fields and echoes the id back.
 */
module SubmitLink {
  import opened Wrappers
  import opened Http

  /** The JSON body fields the handler reads; `submissionId` may be absent. */
  datatype LinkBody = LinkBody(
    name: string,
    email: string,
    clipType: string,
    description: string,
    fileName: string,
    submissionId: Option<string>,
    megaLink: string)

  /** `body` is None when the request has no parsed body (`req.body` undefined or null). */
  datatype LinkRequest = LinkRequest(httpMethod: string, body: Option<LinkBody>)

  const Received: string := "MEGA link received successfully"
  const Internal: string := "Internal server error"

  function Handle(req: LinkRequest): (r: Reply)
    // every method but POST, OPTIONS included, is refused
    ensures req.httpMethod != "POST" ==> r == Reply(405, ErrorJson(MethodNotAllowed))
    // a POST with a body is always accepted and its submission id comes back unchanged
    ensures req.httpMethod == "POST" && req.body.Some? ==>
              r == Reply(200, SuccessJson(Received, req.body.value.submissionId))
    // destructuring a missing body throws, which the catch turns into a bare 500
    ensures req.httpMethod == "POST" && req.body.None? ==> r == Reply(500, ErrorJson(Internal))
  {
    if req.httpMethod != "POST" then Reply(405, ErrorJson(MethodNotAllowed))
    else
      match req.body
      case None => Reply(500, ErrorJson(Internal))
      case Some(b) => Reply(200, SuccessJson(Received, b.submissionId))
  }

  /** The reply's id is the caller's id, whatever the other fields say, so the id can be read back from the reply. */
  lemma EchoDeterminedById(b1: LinkBody, b2: LinkBody)
    ensures Handle(LinkRequest("POST", Some(b1))) == Handle(LinkRequest("POST", Some(b2)))
        <==> b1.submissionId == b2.submissionId
  {
  }

  /** No submission id and no link is ever refused: there is no lookup of earlier submissions. */
  lemma NothingRejected(b: LinkBody)
    ensures Handle(LinkRequest("POST", Some(b))).status == 200
    ensures Handle(LinkRequest("POST", Some(b.(megaLink := "")))).status == 200
    ensures Handle(LinkRequest("POST", Some(b.(submissionId := None)))).status == 200
  {
  }

  /** Unlike the upload handler, this one has no preflight branch. */
  lemma OptionsRefused(body: Option<LinkBody>)
    ensures Handle(LinkRequest("OPTIONS", body)).status == 405
  {
  }
}
