# Clip submission site — a Dafny model of its decision logic

The site lets a viewer submit a video clip through a three-step web wizard
(choose a file, fill in details, review and agree), which posts the clip to an
upload endpoint that checks a reCAPTCHA verdict and mails the clip to the
operator. A second endpoint receives an external download link for a
submission. This project models the decisions buried in that code as pure
functions over immutable datatypes, and proves what they guarantee:

- `EmailShape` — the client's email pattern `^[^\s@]+@[^\s@]+\.[^\s@]+$` as a
  recursive matcher over `seq<char>`, proved to accept exactly the strings with
  no whitespace, exactly one `@`, a non-empty part before it and a `.` after it
  with a character on each side.
- `FileRules` — the size (at most 2 GiB, inclusive) and MIME allow-list rule for
  a chosen file, size first.
- `Wizard` — the step counter, `nextStep`/`prevStep` with their validators,
  file choice and removal, `resetForm`, and arbitrary sequences of user actions.
- `ClientSubmit` — the submit listener's guards, the form data it posts and the
  message it shows for each kind of reply.
- `Upload` — the upload handler's ladder (preflight, method, verification, file,
  transport, send, error) with the trace of external calls it makes, the
  clip-type label lookup and the conditional bug-details section.
- `SubmitLink` — the link handler: method check and an unchecked echo of the
  submission id.
- `EndToEnd` — the client's request fed to the upload handler.
- `Wrappers`, `Http`, `Notices` — shared datatypes (`Option`, `Result`, reply
  bodies, the page's messages).

External results are inputs: the reCAPTCHA token the browser obtains, the
site-verify answer (or the error fetching it threw), the mail transport's
outcome, and the fetch reply the client receives. The handlers return the
calls they would make (`SiteVerify`, `CreateTransport`, `SendMail`), so
"no call is made" is a statement about the result.

A few facts about the code that the model keeps: validation runs one check at
a time and stops at the first failure; the upload reply carries no submission
id, so the client's success message reads "Submission ID: undefined"; the
verification threshold is a fixed 0.5; the file size limit is enforced only in
the browser, not by the handler; the link handler accepts any submission id
and refuses `OPTIONS` with 405; and there is no temporary-file handling.

## Model

| member | source | states |
|---|---|---|
| EmailShape.IsValidEmailIffShape | public/script.js:61-65 | the email pattern accepts exactly the strings with no whitespace, exactly one '@' with something before it, and a '.' after it that has a character on each side |
| EmailShape.MatchLocalCorrect | public/script.js:61 | the recursive matcher for `[^\s@]+@…` accepts exactly a plain run (non-empty unless already started), an '@', then a string the domain matcher accepts |
| EmailShape.MatchDomainCorrect | public/script.js:61 | from each state the domain matcher accepts exactly the plain strings of the form `[^\s@]+\.[^\s@]+` still needed from that state |
| EmailShape.LocalSpecIsEmailShape | public/script.js:61 | the split form (plain local part, '@', plain domain with an inner dot) is the same set as the character-level description |
| EmailShape.EmailExamples | public/script.js:61-65 | sample addresses: accepted `a@b.c`, `a.b@c.d.e`, `a@b..`; rejected with no local part, no dot, trailing dot, two '@', a space, empty |
| FileRules.CheckFile | public/script.js:120-140 | a file is accepted iff its size is at most 2·1024³ and its type is one of the six video types; an oversized file is always reported as too large, the type only for files within the size |
| FileRules.HandleFileSelection | public/script.js:108-156 | an accepted file stays selected with a ready message; a rejected one is cleared with the size or type message; no file changes nothing |
| FileRules.SizeBoundary | public/script.js:120-134 | exactly 2 GiB (2147483648 bytes) passes the size test and one byte more fails it |
| FileRules.SizeReportedBeforeType | public/script.js:130-140 | an oversized file gets the size rejection whatever its type |
| FileRules.AcceptanceDownwardClosed | public/script.js:120-140 | a smaller file of an accepted type is accepted too |
| Wizard.ValidateStep1 | public/script.js:41-48 | step 1 passes iff a file is selected, else it fails with the select-a-file message |
| Wizard.ValidateStep2 | public/script.js:50-68 | any empty name, email, clip type or description fails with the required-fields message before the email is looked at; otherwise it passes iff the email has the accepted shape, else fails with the email message |
| Wizard.NextStep | public/script.js:4-27 | the form is untouched; the step rises by one exactly when it is below 3 and the current step's validator passes, never past 3; with no file on step 1, or a failing step 2, nothing changes |
| Wizard.PrevStep | public/script.js:29-39 | the form is untouched; the step falls by one exactly when it is above 1 and never goes below 1 |
| Wizard.PrevIgnoresForm | public/script.js:29-39 | going back depends on the step only, never on the form's contents |
| Wizard.NextThenPrev | public/script.js:4-39 | after a successful advance, going back restores the previous state |
| Wizard.PrevThenNext | public/script.js:4-39 | going back and forward again restores the state exactly when the earlier step's validator passes |
| Wizard.ResetForm | public/script.js:302-321 | the wizard is back on step 1 with no file, so step 1's validator fails until a file is chosen again |
| Wizard.RemoveFile | public/script.js:158-168 | the file input is emptied and nothing else changes |
| Wizard.ChooseFile | public/script.js:94-154 | after choosing or dropping a file, the input holds exactly that file if it met the size and type rule and nothing otherwise, so step 1 passes iff the file met the rule |
| Wizard.Run | public/script.js:1-39 | any sequence of user actions keeps the step within 1..3 and raises it by at most the number of forward moves |
| Wizard.StuckWithoutFile | public/script.js:7-9 | on step 1 without a file, forward and backward navigation never leaves step 1 |
| Wizard.ReviewNeedsValidForm | public/script.js:7-12 | navigation reaches step 3 only for a form passing step 2's validator, and, from step 1, only with a file selected |
| ClientSubmit.SubmitGuard | public/script.js:208-216 | the submit attempt proceeds iff step 2's validator passes and the rights box is checked; the validator's own message comes first, then the rights message |
| ClientSubmit.BuildRequest | public/script.js:224-236 | the posted request is a POST carrying the form's five text fields, the token and the selected file unchanged |
| ClientSubmit.ReplyNotice | public/script.js:238-254 | the success message appears iff the reply is ok and reports success, with the reply's id; a non-ok status is shown with its body; a thrown error is shown with its message; an ok reply carrying an error shows that error, or 'Upload failed' when it is empty; an ok reply with no body shows the unreadable-reply failure |
| ClientSubmit.Submit | public/script.js:205-258 | a request is posted iff both guards pass and a token was obtained; a guard failure shows the guard's message, a token error shows the thrown message, and a posted request shows the notice its reply calls for; only a successful reply resets the wizard (to step 1, no file, default fields), every other outcome leaves it unchanged |
| ClientSubmit.SubmitDoesNotCheckFile | public/script.js:208-231 | the submit listener posts a form with no file, since it does not re-run step 1's validator |
| Upload.Handle | api/upload.js:11-145 | OPTIONS gives 200 with no body and other non-POST methods 405, both without calls; a POST first asks the verification service; a throwing verification call gives 500 with the prefix and its message; a failing verdict, then a missing file, give 400 with no mail; a verified request with a file next creates the transport, and a throwing factory or send gives 500 with the prefix and the thrown message; the mail sent is exactly the composed one (label, bug section, the request's details, to the operator); a delivered mail gives 200 'Clip submitted successfully', and 200 only after delivery |
| Upload.VerificationThreshold | api/upload.js:34-36 | a successful verdict passes iff its score is at least 0.5 or absent; an unsuccessful one never passes |
| Upload.VerifiedWithFileSends | api/upload.js:46-145 | for a verified POST with a file the reply is 200 iff the mail is delivered and 500 otherwise |
| Upload.FieldsDoNotGate | api/upload.js:39-44 | the reply does not depend on name, email, clip type, bug details or description |
| Upload.LabelLookup | api/upload.js:56-88 | the label equals the raw clip type exactly when it is none of bug, funny, error, fail and other, and each of those five gets its fixed label ('🐛 Bug', '😂 Funny Clip', '❌ Error', '💥 Fail', '📁 Other') |
| Upload.MailContents | api/upload.js:65-106 | subject and header carry the clip-type label; the bug-details section is present iff `bugSpecific` is non-empty, and then shows it |
| Upload.BugSectionIgnoresType | api/upload.js:101-106 | the bug-details section depends on `bugSpecific` only, not on the clip type |
| Upload.AsWrittenNeverSucceeds | api/upload.js:47-53 | with the factory call throwing, no request but a preflight gets a 200 and no mail is ever handed to a transport |
| Upload.CorrectedSucceeds | api/upload.js:46-139 | with a working transport, a verified POST with a file sends the composed mail and gets 200 'Clip submitted successfully' |
| SubmitLink.Handle | api/submit-link.js:1-29 | every method but POST (OPTIONS included) gives 405; a POST with a body gives 200, success, the fixed message and the caller's submission id; a missing body gives a bare 500 |
| SubmitLink.EchoDeterminedById | api/submit-link.js:7-23 | two accepted posts get the same reply iff they carry the same submission id |
| SubmitLink.NothingRejected | api/submit-link.js:7-23 | no submission id or link is refused, including an empty link and an absent id |
| SubmitLink.OptionsRefused | api/submit-link.js:2-4 | an OPTIONS request gets 405 |
| EndToEnd.UploadSucceedsIff | public/script.js:205-258 | the submitter sees the success message and step 1 iff the client guards pass, verification passes, a file is selected and the mail is delivered; the message has no submission id |
| EndToEnd.MissingFileRejectedByServer | api/upload.js:40-44 | when verification passes, a form that passes the client guards without a file is answered 400 'No clip file provided' |
| EndToEnd.EmailCheckedOnlyByClient | api/upload.js:39-44 | when the form is not changed while the reCAPTCHA token is awaited, a mail after a successful client submission names a well-shaped address, but the handler itself delivers a request whose address has no '@' |

## Findings

| source | as written | input that shows it | evidently intended | confidence | as-written member | corrected member |
|---|---|---|---|---|---|---|
| api/upload.js:47 | the transport is created with `nodemailer.createTransporter`, a name nodemailer does not export, so the call throws a TypeError and the catch answers 500 | any POST with a passing reCAPTCHA verdict and a clip file | `nodemailer.createTransport`, after which the mail is sent and the reply is 200 | not executed; relies on nodemailer's documented interface | Upload.AsWrittenNeverSucceeds | Upload.CorrectedSucceeds |

The rest of the model uses the corrected handler (`Upload.Handle` with the
transport outcome as an input).

## Left out

- DOM reads and writes, CSS classes, the message box timer, `setLoading`, `updateReview`, the bug-field visibility toggle, the success modal and `window.open`: page plumbing; only the values read and written are modelled.
- The drag-over and drag-leave listeners: styling only; a drop is modelled as choosing a file (`Wizard.ChooseFile`).
- Size display with `toFixed` in the client and in the mail: floating-point formatting.
- The fetch to the site-verify endpoint, the fetch to the upload endpoint, `grecaptcha.execute`, and the mail transport: network and foreign libraries; their results are inputs.
- The HTML mail template text and the CORS headers: constant text; the model keeps only the request-dependent parts of the mail.
- api/test.js: a constant reply with a wall-clock timestamp.
- Submission-id generation, storage backends and temporary-file cleanup: none of them appear in the code.
- The text of the `Failed` messages (`'❌ Error: ' + message`, with the status and body rendered as text): string rendering of numbers and JSON bodies is not modelled.
- The defaults `form.reset()` restores come from the page markup, which is not part of this model; they are a parameter of `ClientSubmit.Submit`.
- Upload.Handle: a request with no parsed body throws at `req.body.recaptchaToken` and gets a 500 before any call; the model assumes a body is present, and reads an absent field as "" where the source would write "undefined" into the mail and, for an absent token, send `response=undefined` to the verification service (the model's `SiteVerify` call carries "").
- Upload.VerificationThreshold: a JSON `null` score compares below 0.5 in the source and fails; the model's score is either a number or absent.
- Upload.LabelLookup: names inherited from `Object.prototype` (`toString`, `constructor`, …) are found by the source's lookup and yield a function's text; the model treats them as unmapped.
- ClientSubmit.Submit: the model treats the submit listener as atomic, reading the form once. The source checks the fields at public/script.js:208-216, awaits the reCAPTCHA token at 222, and only then reads the fields and the file again (225-231); since only the submit button is disabled meanwhile, an edit, a file removal or a step change made during that await is posted without being checked again.
- The `console.log` and `console.error` calls (api/submit-link.js:9-14 and 26, api/upload.js:142, public/script.js:253): logging only, no effect on any reply or state.
- SubmitLink.Handle: the model's body fields are strings (the id a string or absent). A submission id that is a JSON number or object is echoed too. A name or email that is a JSON object whose string conversion throws (for example `{"toString": 0}`) makes the log line at api/submit-link.js:13 throw, and the catch answers the bare 500 'Internal server error'; the model cannot express such a body, so its POST-with-body case is always 200.
