/**
 The three-step submission wizard of the client page: the step counter, the two
 step validators, the file chooser and the reset after a successful upload. The
 page's global `currentStep` becomes the `step` field of an explicit state value.
 */
module Wizard {
  import opened Wrappers
  import opened FileRules
  import EmailShape

  /** The text inputs of the form and the rights check box. */
  datatype Fields = Fields(
    name: string,
    email: string,
    clipType: string,
    bugSpecific: string,
    description: string,
    agreeRights: bool)

  /** The form: the file input's first file and the other controls. */
  datatype Form = Form(file: Option<ClipFile>, fields: Fields)

  /** The wizard: the current step and the form's contents. */
  datatype State = State(step: int, form: Form)

  /** The outcome of a validator: pass, or the message it shows. */
  datatype Check = Pass | Fail(message: string)

  const NoFileMessage: string := "Please select a clip file to upload"
  const RequiredMessage: string := "Please fill all required fields"
  const EmailMessage: string := "Please enter a valid email address"

  /** The step counter is one of the three steps. */
  predicate ValidStep(w: State) {
    1 <= w.step <= 3
  }

  /** `validateStep1`: a file must be selected. */
  function ValidateStep1(f: Form): (r: Check)
    ensures r.Pass? <==> f.file.Some?
    ensures r.Fail? ==> r.message == NoFileMessage
  {
    if f.file.None? then Fail(NoFileMessage) else Pass
  }

  predicate MissingRequired(f: Fields) {
    f.name == "" || f.email == "" || f.clipType == "" || f.description == ""
  }

  /**
   `validateStep2`: the four required fields first, then the email pattern; the
   first failing check decides the message. Neither `bugSpecific` nor the rights
   box is looked at.
   */
  function ValidateStep2(f: Fields): (r: Check)
    ensures MissingRequired(f) ==> r == Fail(RequiredMessage)
    ensures r.Pass? <==> !MissingRequired(f) && EmailShape.EmailShape(f.email)
    ensures r == Fail(EmailMessage) <==> !MissingRequired(f) && !EmailShape.EmailShape(f.email)
  {
    EmailShape.IsValidEmailIffShape(f.email);
    if MissingRequired(f) then Fail(RequiredMessage)
    else if !EmailShape.IsValidEmail(f.email) then Fail(EmailMessage)
    else Pass
  }

  /** The validator that guards leaving `step`, if any. */
  function GateOf(step: int, f: Form): Check {
    if step == 1 then ValidateStep1(f)
    else if step == 2 then ValidateStep2(f.fields)
    else Pass
  }

  /** `nextStep`: below step 3, advance by one unless the current step's validator fails. */
  function NextStep(w: State): (r: State)
    ensures r.form == w.form
    ensures r.step == w.step || r.step == w.step + 1
    ensures r.step <= 3 || r.step == w.step
    ensures r.step == w.step + 1 <==> w.step < 3 && GateOf(w.step, w.form).Pass?
    ensures w.step == 1 && w.form.file.None? ==> r == w
    ensures w.step == 2 && ValidateStep2(w.form.fields).Fail? ==> r == w
  {
    if w.step < 3 then
      if w.step == 1 && ValidateStep1(w.form).Fail? then w
      else if w.step == 2 && ValidateStep2(w.form.fields).Fail? then w
      else w.(step := w.step + 1)
    else w
  }

  /** `prevStep`: above step 1, go back by one; no validator is consulted. */
  function PrevStep(w: State): (r: State)
    ensures r.form == w.form
    ensures w.step >= 1 ==> r.step >= 1
    ensures r.step == w.step - 1 <==> w.step > 1
    ensures w.step <= 1 ==> r == w
  {
    if w.step > 1 then w.(step := w.step - 1) else w
  }

  /** `resetForm`: back to step 1 with the file removed (`removeFile`). */
  function ResetForm(w: State): (r: State)
    ensures r.step == 1
    ensures r.form.file.None? && r.form.fields == w.form.fields
    ensures ValidateStep1(r.form).Fail?
  {
    State(1, Form(None, w.form.fields))
  }

  /** `removeFile`: the file input is emptied; the step does not change. */
  function RemoveFile(w: State): (r: State)
    ensures r.step == w.step && r.form.fields == w.form.fields && r.form.file.None?
  {
    w.(form := w.form.(file := None))
  }

  /** Choosing (or dropping) a file: the input then holds what `handleFileSelection` keeps. */
  function ChooseFile(w: State, chosen: Option<ClipFile>): (r: State)
    ensures r.step == w.step && r.form.fields == w.form.fields
    ensures r.form.file == (if chosen.Some? && CheckFile(chosen.value).None? then chosen else None)
    ensures ValidateStep1(r.form).Pass? <==> chosen.Some? && CheckFile(chosen.value).None?
  {
    w.(form := w.form.(file := HandleFileSelection(chosen).kept))
  }

  // ---------------------------------------------------------------------
  // Sequences of user actions

  datatype Action =
    | Next
    | Prev
    | Choose(chosen: Option<ClipFile>)
    | Remove
    | Edit(fields: Fields)
    | Reset

  function Apply(w: State, a: Action): State {
    match a
    case Next => NextStep(w)
    case Prev => PrevStep(w)
    case Choose(chosen) => ChooseFile(w, chosen)
    case Remove => RemoveFile(w)
    case Edit(fields) => w.(form := w.form.(fields := fields))
    case Reset => ResetForm(w)
  }

  function NextCount(acts: seq<Action>): nat {
    if |acts| == 0 then 0
    else (if acts[0].Next? then 1 else 0) + NextCount(acts[1..])
  }

  /**
   The state after a sequence of actions. Whatever the user does, the step stays
   within 1..3, and it rises above where it started by at most the number of
   `nextStep` calls.
   */
  function Run(w: State, acts: seq<Action>): (r: State)
    ensures ValidStep(w) ==> ValidStep(r) && r.step <= w.step + NextCount(acts)
    decreases |acts|
  {
    if |acts| == 0 then w else Run(Apply(w, acts[0]), acts[1..])
  }

  /** Actions that only move between steps, leaving the form as it is. */
  predicate NavigationOnly(acts: seq<Action>) {
    forall k :: 0 <= k < |acts| ==> acts[k].Next? || acts[k].Prev?
  }

  /** On step 1 with no file selected, no amount of forward or backward navigation leaves step 1. */
  lemma {:induction false} StuckWithoutFile(w: State, acts: seq<Action>)
    requires w.step == 1 && w.form.file.None? && NavigationOnly(acts)
    ensures Run(w, acts) == w
    decreases |acts|
  {
    if |acts| > 0 {
      assert Apply(w, acts[0]) == w;
      assert NavigationOnly(acts[1..]) by {
        forall k | 0 <= k < |acts| - 1 ensures acts[1..][k].Next? || acts[1..][k].Prev? {
          assert acts[1..][k] == acts[k + 1];
        }
      }
      StuckWithoutFile(w, acts[1..]);
    }
  }

  /**
   Navigation alone reaches the review step from an earlier step only if the form
   passes `validateStep2`, and, starting from step 1, only if a file is selected.
   */
  lemma {:induction false} ReviewNeedsValidForm(w: State, acts: seq<Action>)
    requires ValidStep(w) && w.step < 3 && NavigationOnly(acts)
    requires Run(w, acts).step == 3
    ensures ValidateStep2(w.form.fields).Pass?
    ensures w.step == 1 ==> ValidateStep1(w.form).Pass?
    decreases |acts|
  {
    assert |acts| > 0;
    var w' := Apply(w, acts[0]);
    assert w'.form == w.form;
    assert NavigationOnly(acts[1..]) by {
      forall k | 0 <= k < |acts| - 1 ensures acts[1..][k].Next? || acts[1..][k].Prev? {
        assert acts[1..][k] == acts[k + 1];
      }
    }
    if w'.step < 3 {
      ReviewNeedsValidForm(w', acts[1..]);
    } else {
      assert w.step == 2 && acts[0].Next?;
    }
    if w.step == 1 && ValidateStep1(w.form).Fail? {
      StuckWithoutFile(w, acts);
    }
  }

  /** Going forward and then back returns to the same state. */
  lemma NextThenPrev(w: State)
    requires ValidStep(w) && NextStep(w).step != w.step
    ensures PrevStep(NextStep(w)) == w
  {
  }

  /** Going back and then forward returns to the same state exactly when the earlier step's check passes. */
  lemma PrevThenNext(w: State)
    requires 1 < w.step <= 3
    ensures NextStep(PrevStep(w)) == w <==> GateOf(w.step - 1, w.form).Pass?
  {
  }

  /** `prevStep` ignores the form entirely: its effect on the step is the same for any two forms. */
  lemma PrevIgnoresForm(step: int, f1: Form, f2: Form)
    ensures PrevStep(State(step, f1)).step == PrevStep(State(step, f2)).step
  {
  }
}
