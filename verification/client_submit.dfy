/**
 The submit listener of the client page: the two guards that run before any
 network call, the form data it posts, and how it reacts to the reply. The
 reCAPTCHA token (or the error obtaining it threw) and the fetch reply (or the
 error fetch threw) are inputs.
 */
module ClientSubmit {
  import opened Wrappers
  import opened Http
  import opened Notices
  import opened Wizard
  import Upload

  const RightsMessage: string := "You must agree to the rights agreement"
  const UploadFailed: string := "Upload failed"

  /** The guards before the loading state: `validateStep2`, then the rights box. */
  function SubmitGuard(f: Fields): (r: Check)
    ensures r.Pass? <==> ValidateStep2(f).Pass? && f.agreeRights
    ensures ValidateStep2(f).Fail? ==> r == ValidateStep2(f)
    ensures ValidateStep2(f).Pass? && !f.agreeRights ==> r == Fail(RightsMessage)
  {
    match ValidateStep2(f)
    case Fail(m) => Fail(m)
    case Pass => if f.agreeRights then Pass else Fail(RightsMessage)
  }

  /** The FormData posted to the upload endpoint; the file, if any, is the input's first file. */
  function BuildRequest(form: Form, token: string): (r: Upload.Request)
    ensures r.httpMethod == "POST" && r.clipFile == form.file && r.body.recaptchaToken == token
    ensures r.body.name == form.fields.name && r.body.email == form.fields.email
    ensures r.body.clipType == form.fields.clipType && r.body.bugSpecific == form.fields.bugSpecific
    ensures r.body.description == form.fields.description
  {
    var f := form.fields;
    Upload.Request("POST",
      Upload.UploadFields(f.name, f.email, f.clipType, f.bugSpecific, f.description, token),
      form.file)
  }

  /** `response.ok`. */
  predicate IsOk(status: int) {
    200 <= status <= 299
  }

  /** The message shown once fetch has settled. */
  function ReplyNotice(reply: Result<Reply>): (n: Notice)
    ensures n.Uploaded? <==> reply.Success? && IsOk(reply.value.status) && reply.value.body.SuccessJson?
    ensures n.Uploaded? ==> n.submissionId == reply.value.body.submissionId
    ensures reply.Success? && !IsOk(reply.value.status) ==>
              n == Failed(ServerError(reply.value.status, reply.value.body))
    ensures reply.Failure? ==> n == Failed(Thrown(reply.message))
    // an ok reply that does not report success: its error, or the fixed fallback for an empty one
    ensures reply.Success? && IsOk(reply.value.status) && reply.value.body.ErrorJson? ==>
              n == Failed(Thrown(if reply.value.body.error != "" then reply.value.body.error else UploadFailed))
    // an ok reply with no JSON body makes `response.json()` throw
    ensures reply.Success? && IsOk(reply.value.status) && reply.value.body.NoBody? ==> n == Failed(UnreadableReply)
  {
    match reply
    case Failure(m) => Failed(Thrown(m))
    case Success(Reply(status, body)) =>
      if !IsOk(status) then Failed(ServerError(status, body))
      else
        match body
        case NoBody => Failed(UnreadableReply)
        case ErrorJson(e) => Failed(Thrown(if e != "" then e else UploadFailed))
        case SuccessJson(_, id) => Uploaded(id)
  }

  /** One submit attempt: the state afterwards, the message shown, and the request posted, if any. */
  datatype Attempt = Attempt(wizard: State, notice: Notice, sent: Option<Upload.Request>)

  /**
   The submit listener. `defaults` are the values `form.reset()` restores (the
   page markup's defaults); after a successful upload `resetForm` then returns
   to step 1 with no file.
   */
  function Submit(w: State, token: Result<string>, reply: Result<Reply>, defaults: Fields): (r: Attempt)
    // no network call unless both guards pass and a token was obtained
    ensures r.sent.Some? <==> SubmitGuard(w.form.fields).Pass? && token.Success?
    ensures r.sent.Some? ==> r.sent.value == BuildRequest(w.form, token.value)
    ensures SubmitGuard(w.form.fields).Fail? ==>
              r == Attempt(w, Warning(SubmitGuard(w.form.fields).message), None)
    // a token error is shown as thrown; a posted request shows what its reply calls for
    ensures SubmitGuard(w.form.fields).Pass? && token.Failure? ==>
              r == Attempt(w, Failed(Thrown(token.message)), None)
    ensures r.sent.Some? ==> r.notice == ReplyNotice(reply)
    // only a successful reply resets the wizard; every other outcome leaves it as it was
    ensures r.notice.Uploaded? <==> r.sent.Some? && ReplyNotice(reply).Uploaded?
    ensures r.notice.Uploaded? ==> r.wizard == State(1, Form(None, defaults))
    ensures !r.notice.Uploaded? ==> r.wizard == w
  {
    match SubmitGuard(w.form.fields)
    case Fail(m) => Attempt(w, Warning(m), None)
    case Pass =>
      match token
      case Failure(m) => Attempt(w, Failed(Thrown(m)), None)
      case Success(t) =>
        var sent := Some(BuildRequest(w.form, t));
        var n := ReplyNotice(reply);
        if n.Uploaded? then
          Attempt(ResetForm(State(w.step, Form(None, defaults))), n, sent)
        else
          Attempt(w, n, sent)
  }

  /** The submit button does not re-run `validateStep1`: a form without a file is still posted. */
  lemma SubmitDoesNotCheckFile(w: State, token: string, reply: Result<Reply>, defaults: Fields)
    requires SubmitGuard(w.form.fields).Pass? && w.form.file.None?
    ensures Submit(w, Success(token), reply, defaults).sent == Some(BuildRequest(w.form, token))
    ensures BuildRequest(w.form, token).clipFile.None?
  {
  }
}
