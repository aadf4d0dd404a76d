/**
 The clip upload handler (`POST /api/upload`): method check, reCAPTCHA verdict,
 file presence, composition of the operator mail, and the send. The verdict of
 the verification service and the outcome of the mail transport are inputs; the
 handler's result is its reply together with the external calls it made.
 */
module Upload {
  import opened Wrappers
  import opened Http
  import opened FileRules

  /** The form fields of the multipart body; a field that is absent reads as "". */
  datatype UploadFields = UploadFields(
    name: string,
    email: string,
    clipType: string,
    bugSpecific: string,
    description: string,
    recaptchaToken: string)

  datatype Request = Request(httpMethod: string, body: UploadFields, clipFile: Option<ClipFile>)

  /** Server configuration read from the environment. */
  datatype Env = Env(recaptchaSecret: string, emailUser: string, emailPass: string)

  /** The JSON answer of the site-verify endpoint; `score` is absent for checks that do not score. */
  datatype Verdict = Verdict(success: bool, score: Option<real>)

  /** The mail transport: creating it may throw, sending may throw, or the mail is delivered. */
  datatype Delivery = TransportFailed(message: string) | SendFailed(message: string) | Delivered

  /** The operator message: the parts of the HTML body that depend on the request. */
  datatype Mail = Mail(
    from: string,
    to: string,
    subject: string,
    typeLabel: string,
    submitterName: string,
    submitterEmail: string,
    description: string,
    bugDetails: Option<string>,
    attachment: ClipFile)

  /** A call the handler makes to a service outside it. */
  datatype Call =
    | SiteVerify(secret: string, token: string)
    | CreateTransport(user: string, pass: string)
    | SendMail(mail: Mail)

  datatype Handled = Handled(reply: Reply, calls: seq<Call>)

  const Operator: string := "alberto.zappala360@gmail.com"
  const Threshold: real := 0.5
  const VerificationFailed: string := "reCAPTCHA verification failed"
  const NoClipFile: string := "No clip file provided"
  const Submitted: string := "Clip submitted successfully"
  const InternalPrefix: string := "Internal server error: "
  const SubjectPrefix: string := "🎬 New Clip Submission: "

  const Labels: map<string, string> := map[
    "bug" := "🐛 Bug",
    "funny" := "😂 Funny Clip",
    "error" := "❌ Error",
    "fail" := "💥 Fail",
    "other" := "📁 Other"
  ]

  /** `!recaptchaData.success || recaptchaData.score < 0.5` is false; an absent score never compares below. */
  predicate VerificationPasses(v: Verdict) {
    v.success && !(v.score.Some? && v.score.value < Threshold)
  }

  /** `clipTypeLabels[clipType] || clipType`: the label when one is mapped and non-empty, else the raw value. */
  function ClipTypeLabel(clipType: string): string {
    if clipType in Labels && Labels[clipType] != "" then Labels[clipType] else clipType
  }

  /** The message handed to the transport; the bug section appears only for a non-empty `bugSpecific`. */
  function ComposeMail(env: Env, fields: UploadFields, file: ClipFile): Mail {
    var shown := ClipTypeLabel(fields.clipType);
    Mail(
      env.emailUser,
      Operator,
      SubjectPrefix + shown,
      shown,
      fields.name,
      fields.email,
      fields.description,
      if fields.bugSpecific != "" then Some(fields.bugSpecific) else None,
      file)
  }

  function InternalError(message: string): Reply {
    Reply(500, ErrorJson(InternalPrefix + message))
  }

  /** The handler. `verification` is the parsed site-verify answer, or the error fetching or parsing it threw. */
  function Handle(req: Request, env: Env, verification: Result<Verdict>, delivery: Delivery): (r: Handled)
    // preflight and wrong methods: answered without any outside call
    ensures req.httpMethod == "OPTIONS" ==> r == Handled(Reply(200, NoBody), [])
    ensures req.httpMethod != "OPTIONS" && req.httpMethod != "POST" ==>
              r == Handled(Reply(405, ErrorJson(MethodNotAllowed)), [])
    // a POST always asks the verification service first, with the server secret and the client token
    ensures req.httpMethod == "POST" ==>
              |r.calls| >= 1 && r.calls[0] == SiteVerify(env.recaptchaSecret, req.body.recaptchaToken)
    ensures req.httpMethod == "POST" && verification.Success? && !VerificationPasses(verification.value) ==>
              r == Handled(Reply(400, ErrorJson(VerificationFailed)), r.calls[..1])
    ensures req.httpMethod == "POST" && verification.Success? && VerificationPasses(verification.value)
              && req.clipFile.None? ==>
              r == Handled(Reply(400, ErrorJson(NoClipFile)), r.calls[..1])
    // the mail is only composed for a verified request with a file, and says what was submitted
    ensures forall k :: 0 <= k < |r.calls| && r.calls[k].SendMail? ==>
              && verification.Success? && VerificationPasses(verification.value)
              && req.clipFile.Some?
              && r.calls[k].mail == ComposeMail(env, req.body, req.clipFile.value)
              && r.calls[k].mail.attachment == req.clipFile.value
              && r.calls[k].mail.to == Operator
              && r.calls[k].mail.submitterName == req.body.name
              && r.calls[k].mail.submitterEmail == req.body.email
              && r.calls[k].mail.description == req.body.description
    // success only after the send completed
    ensures r.reply.status == 200 && req.httpMethod != "OPTIONS" ==>
              && r.reply.body == SuccessJson(Submitted, None)
              && delivery == Delivered
              && r.calls[|r.calls| - 1].SendMail?
    // every thrown error becomes 500 with the error's message after the fixed prefix
    ensures req.httpMethod == "POST" && verification.Failure? ==>
              r == Handled(InternalError(verification.message), r.calls[..1])
    ensures req.httpMethod == "POST" && verification.Success? && VerificationPasses(verification.value)
              && req.clipFile.Some? ==>
              && |r.calls| >= 2 && r.calls[1] == CreateTransport(env.emailUser, env.emailPass)
              && (delivery.TransportFailed? ==> r == Handled(InternalError(delivery.message), r.calls[..2]))
              && (delivery.SendFailed? ==>
                    r == Handled(InternalError(delivery.message),
                                 r.calls[..2] + [SendMail(ComposeMail(env, req.body, req.clipFile.value))]))
              && (delivery == Delivered ==>
                    r == Handled(Reply(200, SuccessJson(Submitted, None)),
                                 r.calls[..2] + [SendMail(ComposeMail(env, req.body, req.clipFile.value))]))
    ensures r.reply.status == 500 ==>
              && r.reply.body.ErrorJson?
              && InternalPrefix <= r.reply.body.error
              && (verification.Failure? || delivery.TransportFailed? || delivery.SendFailed?)
  {
    if req.httpMethod == "OPTIONS" then Handled(Reply(200, NoBody), [])
    else if req.httpMethod != "POST" then Handled(Reply(405, ErrorJson(MethodNotAllowed)), [])
    else
      var check := SiteVerify(env.recaptchaSecret, req.body.recaptchaToken);
      match verification
      case Failure(m) => Handled(InternalError(m), [check])
      case Success(v) =>
        if !VerificationPasses(v) then Handled(Reply(400, ErrorJson(VerificationFailed)), [check])
        else
          match req.clipFile
          case None => Handled(Reply(400, ErrorJson(NoClipFile)), [check])
          case Some(file) =>
            var transport := CreateTransport(env.emailUser, env.emailPass);
            match delivery
            case TransportFailed(m) => Handled(InternalError(m), [check, transport])
            case SendFailed(m) =>
              Handled(InternalError(m), [check, transport, SendMail(ComposeMail(env, req.body, file))])
            case Delivered =>
              Handled(Reply(200, SuccessJson(Submitted, None)),
                      [check, transport, SendMail(ComposeMail(env, req.body, file))])
  }

  // ---------------------------------------------------------------------
  // Properties

  /** The threshold is inclusive: a score of exactly 0.5 passes, anything below fails, and no score passes. */
  lemma VerificationThreshold(score: real)
    ensures VerificationPasses(Verdict(true, Some(score))) <==> score >= 0.5
    ensures VerificationPasses(Verdict(true, None))
    ensures !VerificationPasses(Verdict(false, Some(score)))
    ensures !VerificationPasses(Verdict(false, None))
  {
  }

  /** The label is the fixed one for the five known types and the raw string for anything else. */
  lemma LabelLookup(clipType: string)
    ensures ClipTypeLabel(clipType) == clipType <==> clipType !in {"bug", "funny", "error", "fail", "other"}
    ensures ClipTypeLabel("bug") == "🐛 Bug"
    ensures ClipTypeLabel("funny") == "😂 Funny Clip"
    ensures ClipTypeLabel("error") == "❌ Error"
    ensures ClipTypeLabel("fail") == "💥 Fail"
    ensures ClipTypeLabel("other") == "📁 Other"
  {
  }

  /** The subject and header both carry the clip-type label; the bug section is present exactly for non-empty bug details. */
  lemma MailContents(env: Env, fields: UploadFields, file: ClipFile)
    ensures ComposeMail(env, fields, file).subject == SubjectPrefix + ClipTypeLabel(fields.clipType)
    ensures ComposeMail(env, fields, file).typeLabel == ClipTypeLabel(fields.clipType)
    ensures ComposeMail(env, fields, file).bugDetails.Some? <==> fields.bugSpecific != ""
    ensures ComposeMail(env, fields, file).bugDetails.Some? ==>
              ComposeMail(env, fields, file).bugDetails.value == fields.bugSpecific
  {
  }

  /** The bug section depends on `bugSpecific` alone, not on the chosen clip type. */
  lemma BugSectionIgnoresType(env: Env, fields: UploadFields, file: ClipFile, otherType: string)
    ensures ComposeMail(env, fields, file).bugDetails
         == ComposeMail(env, fields.(clipType := otherType), file).bugDetails
  {
  }

  /** No field besides the token is checked: the status never depends on name, email, type, bug details or description. */
  lemma FieldsDoNotGate(req: Request, other: UploadFields, env: Env, verification: Result<Verdict>, delivery: Delivery)
    requires other.recaptchaToken == req.body.recaptchaToken
    ensures Handle(req, env, verification, delivery).reply
         == Handle(req.(body := other), env, verification, delivery).reply
  {
  }

  /** A verified POST with a file reaches the transport, and then its reply is 200 exactly when delivery succeeds. */
  lemma VerifiedWithFileSends(req: Request, env: Env, v: Verdict, delivery: Delivery)
    requires req.httpMethod == "POST" && VerificationPasses(v) && req.clipFile.Some?
    ensures Handle(req, env, Success(v), delivery).reply.status == 200 <==> delivery == Delivered
    ensures Handle(req, env, Success(v), delivery).reply.status == 500 <==> delivery != Delivered
  {
  }

  // ---------------------------------------------------------------------
  // The transport factory as written

  /** The error the factory call at the top of the send path throws: the name is not one nodemailer exports. */
  const FactoryMissing: string := "nodemailer.createTransporter is not a function"

  /**
   The handler as written: the factory name `createTransporter` is not part of
   nodemailer's interface (its factory is `createTransport`), so that call throws
   for every verified request with a file, whatever the transport would have done.
   */
  function HandleAsWritten(req: Request, env: Env, verification: Result<Verdict>): Handled {
    Handle(req, env, verification, TransportFailed(FactoryMissing))
  }

  /** As written, no request ever gets the success reply and no mail is ever handed to a transport. */
  lemma AsWrittenNeverSucceeds(req: Request, env: Env, verification: Result<Verdict>)
    ensures var r := HandleAsWritten(req, env, verification);
      && (r.reply.status == 200 ==> req.httpMethod == "OPTIONS" && r.reply.body == NoBody)
      && (forall k :: 0 <= k < |r.calls| ==> !r.calls[k].SendMail?)
  {
  }

  /** With the factory name corrected, a verified POST with a file is mailed and answered 200 when delivery succeeds. */
  lemma CorrectedSucceeds(req: Request, env: Env, v: Verdict)
    requires req.httpMethod == "POST" && VerificationPasses(v) && req.clipFile.Some?
    ensures var r := Handle(req, env, Success(v), Delivered);
      && r.reply == Reply(200, SuccessJson(Submitted, None))
      && r.calls[|r.calls| - 1] == SendMail(ComposeMail(env, req.body, req.clipFile.value))
  {
  }
}
