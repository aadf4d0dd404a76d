/** The client's submit listener posting to the upload handler: what the submitter sees for each server outcome. */
module EndToEnd {
  import opened Wrappers
  import opened Http
  import opened Notices
  import opened Wizard
  import opened ClientSubmit
  import Upload
  import EmailShape

  /** The reply the upload handler gives to what the client posts. */
  function ServerReply(w: State, token: string, env: Upload.Env, v: Result<Upload.Verdict>,
                       d: Upload.Delivery): Reply
  {
    Upload.Handle(BuildRequest(w.form, token), env, v, d).reply
  }

  /**
   The client shows the success message and returns to step 1 exactly when its own
   guards pass, the verification passes, a file is selected and the mail is delivered.
   The success message has no submission id, since the upload reply carries none.
   */
  lemma UploadSucceedsIff(w: State, token: string, env: Upload.Env, v: Result<Upload.Verdict>,
                          d: Upload.Delivery, defaults: Fields)
    ensures var r := Submit(w, Success(token), Success(ServerReply(w, token, env, v, d)), defaults);
      && (r.notice.Uploaded? <==>
            && SubmitGuard(w.form.fields).Pass?
            && v.Success? && Upload.VerificationPasses(v.value)
            && w.form.file.Some?
            && d == Upload.Delivered)
      && (r.notice.Uploaded? ==> r.notice == Uploaded(None) && r.wizard.step == 1)
  {
  }

  /** A form that passes the client's guards but has no file is answered 400 'No clip file provided'. */
  lemma MissingFileRejectedByServer(w: State, token: string, env: Upload.Env, v: Upload.Verdict,
                                    d: Upload.Delivery, defaults: Fields)
    requires SubmitGuard(w.form.fields).Pass? && w.form.file.None? && Upload.VerificationPasses(v)
    ensures Submit(w, Success(token), Success(ServerReply(w, token, env, Success(v), d)), defaults).notice
         == Failed(ServerError(400, ErrorJson(Upload.NoClipFile)))
  {
  }

  /**
   The email address is checked only in the browser: a mail that follows a
   successful client submission names a well-shaped address, while the handler
   itself delivers a request whose address has no '@' at all.
   */
  lemma EmailCheckedOnlyByClient(w: State, token: string, env: Upload.Env, file: FileRules.ClipFile)
    ensures SubmitGuard(w.form.fields).Pass? ==> EmailShape.EmailShape(BuildRequest(w.form, token).body.email)
    ensures var req := Upload.Request("POST", Upload.UploadFields("", "nobody", "", "", "", token), Some(file));
      Upload.Handle(req, env, Success(Upload.Verdict(true, None)), Upload.Delivered).reply.status == 200
  {
  }
}
