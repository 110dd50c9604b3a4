/**
 * The pre-flight validation both complaint forms run before submitting
 * (`validateForm`, identical in the employer and the freelancer form): a
 * map from field name to message, filled field by field with a fixed
 * precedence, and empty exactly when the form may be sent.
 */
module ComplaintValidation {
  import opened Wrappers
  import opened Text

  const MinSubjectLength := 10
  const MaxSubjectLength := 200
  const MinDescriptionLength := 50

  const ComplaintTypeRequired := "Please select a complaint type"
  const SubjectRequired := "Subject is required"
  const SubjectTooShort := "Subject must be at least 10 characters"
  const SubjectTooLong := "Subject must not exceed 200 characters"
  const DescriptionRequired := "Description is required"
  const DescriptionTooShort := "Description must be at least 50 characters"
  const SubmitFailedMessage := "Failed to submit complaint. Please try again."
  const SubmittedMessage := "Complaint submitted successfully! Redirecting..."

  /** `x || ''` for an identifier that may be absent. */
  function OrEmpty(x: Option<string>): string {
    x.GetOr("")
  }

  /** The message for the complaint type: it must be chosen (a non-empty string). */
  function ComplaintTypeError(complaintType: string): Option<string> {
    if complaintType == "" then Some(ComplaintTypeRequired) else None
  }

  /**
   * The message for the subject: blank after trimming, else too short, else
   * too long. The lengths are those of the untrimmed subject.
   */
  function SubjectError(subject: string): Option<string> {
    if IsBlank(subject) then Some(SubjectRequired)
    else if |subject| < MinSubjectLength then Some(SubjectTooShort)
    else if |subject| > MaxSubjectLength then Some(SubjectTooLong)
    else None
  }

  /** The message for the description: blank after trimming, else too short (untrimmed length). */
  function DescriptionError(description: string): Option<string> {
    if IsBlank(description) then Some(DescriptionRequired)
    else if |description| < MinDescriptionLength then Some(DescriptionTooShort)
    else None
  }

  /** `m` with `key` set to the message, when there is one. */
  function AddError(m: map<string, string>, key: string, message: Option<string>): map<string, string> {
    if message.Some? then m[key := message.value] else m
  }

  /** `newErrors` as `validateForm` leaves it. */
  function FormErrors(complaintType: string, subject: string, description: string): map<string, string> {
    var afterType := AddError(map[], "complaintType", ComplaintTypeError(complaintType));
    var afterSubject := AddError(afterType, "subject", SubjectError(subject));
    AddError(afterSubject, "description", DescriptionError(description))
  }

  /**
   * The error map names exactly the fields that fail, with their messages;
   * no other key, `priority` included, is ever present.
   */
  lemma FormErrorsSpec(complaintType: string, subject: string, description: string)
    ensures var e := FormErrors(complaintType, subject, description);
      && ("complaintType" in e <==> complaintType == "")
      && ("subject" in e <==> SubjectError(subject).Some?)
      && ("description" in e <==> DescriptionError(description).Some?)
      && ("complaintType" in e ==> e["complaintType"] == ComplaintTypeRequired)
      && ("subject" in e ==> e["subject"] == SubjectError(subject).value)
      && ("description" in e ==> e["description"] == DescriptionError(description).value)
      && e.Keys <= {"complaintType", "subject", "description"}
      && "priority" !in e
  {
  }

  /** The subject messages and their precedence, with blankness stated character by character. */
  lemma SubjectErrorSpec(subject: string)
    ensures SubjectError(subject) == Some(SubjectRequired) <==> AllWhitespace(subject)
    ensures SubjectError(subject) == Some(SubjectTooShort) <==> !AllWhitespace(subject) && |subject| < 10
    ensures SubjectError(subject) == Some(SubjectTooLong) <==> !AllWhitespace(subject) && |subject| > 200
    ensures SubjectError(subject) == None <==> !AllWhitespace(subject) && 10 <= |subject| <= 200
  {
    BlankIffAllWhitespace(subject);
  }

  /** The description messages and their precedence. */
  lemma DescriptionErrorSpec(description: string)
    ensures DescriptionError(description) == Some(DescriptionRequired) <==> AllWhitespace(description)
    ensures DescriptionError(description) == Some(DescriptionTooShort) <==> !AllWhitespace(description) && |description| < 50
    ensures DescriptionError(description) == None <==> !AllWhitespace(description) && |description| >= 50
  {
    BlankIffAllWhitespace(description);
  }

  /**
   * `validateForm()` is true exactly when the type is chosen, the subject is
   * not all whitespace and has 10 to 200 characters, and the description is
   * not all whitespace and has at least 50 characters.
   */
  lemma FormValidIff(complaintType: string, subject: string, description: string)
    ensures FormErrors(complaintType, subject, description) == map[] <==>
      && complaintType != ""
      && !AllWhitespace(subject) && 10 <= |subject| <= 200
      && !AllWhitespace(description) && |description| >= 50
  {
    FormErrorsSpec(complaintType, subject, description);
    SubjectErrorSpec(subject);
    DescriptionErrorSpec(description);
    var e := FormErrors(complaintType, subject, description);
    if e == map[] {
      assert "complaintType" !in e && "subject" !in e && "description" !in e;
    }
  }

  /** Subject length boundaries for a subject that is not blank: 9 fails, 10 and 200 pass, 201 fails. */
  lemma SubjectLengthBoundaries(subject: string)
    requires !AllWhitespace(subject)
    ensures |subject| == 9 ==> SubjectError(subject) == Some(SubjectTooShort)
    ensures |subject| == 10 || |subject| == 200 ==> SubjectError(subject) == None
    ensures |subject| == 201 ==> SubjectError(subject) == Some(SubjectTooLong)
  {
    SubjectErrorSpec(subject);
  }

  /** Description length boundaries for a description that is not blank: 49 fails, 50 passes. */
  lemma DescriptionLengthBoundaries(description: string)
    requires !AllWhitespace(description)
    ensures |description| == 49 ==> DescriptionError(description) == Some(DescriptionTooShort)
    ensures |description| == 50 ==> DescriptionError(description) == None
  {
    DescriptionErrorSpec(description);
  }

  /**
   * The length checks count the surrounding whitespace: nine spaces and one
   * letter pass the subject check although the trimmed subject has one character.
   */
  lemma SubjectLengthIsUntrimmed()
    ensures var subject := "         x";
      |subject| == 10 && |Trim(subject)| == 1 && SubjectError(subject) == None
  {
    var subject := "         x";
    assert !IsWhitespace(subject[9]);
    assert !AllWhitespace(subject);
    SubjectErrorSpec(subject);
    assert TrimStart(subject) == "x" by {
      assert subject[1..] == "        x";
      assert subject[2..] == "       x";
      assert subject[3..] == "      x";
      assert subject[4..] == "     x";
      assert subject[5..] == "    x";
      assert subject[6..] == "   x";
      assert subject[7..] == "  x";
      assert subject[8..] == " x";
      assert subject[9..] == "x";
    }
  }

  /** The message shown when submitting fails: the server's `error` if it sent a non-empty one. */
  function SubmitErrorMessage(serverError: Option<string>): (message: string)
    ensures message != ""
    ensures serverError.Some? && serverError.value != "" ==> message == serverError.value
  {
    if serverError.Some? && serverError.value != "" then serverError.value else SubmitFailedMessage
  }

  /** The initial `formData` keys every form holds (handlers only ever add keys). */
  predicate HasFormFields(formData: map<string, string>) {
    "complaintType" in formData && "subject" in formData && "description" in formData
  }

  /** `newErrors` for the current form data. */
  function ErrorsFor(formData: map<string, string>): map<string, string>
    requires HasFormFields(formData)
  {
    FormErrors(formData["complaintType"], formData["subject"], formData["description"])
  }

  /** `formData[name] = value`. */
  function WithField(formData: map<string, string>, name: string, value: string): (r: map<string, string>)
    ensures HasFormFields(formData) ==> HasFormFields(r)
    ensures name in r && r[name] == value
    ensures forall k :: k in formData && k != name ==> k in r && r[k] == formData[k]
    ensures r.Keys == formData.Keys + {name}
  {
    formData[name := value]
  }

  /** The error map after a change of `name`: its entry is blanked if it was truthy. */
  function ClearedError(errors: map<string, string>, name: string): (r: map<string, string>)
    ensures r.Keys == errors.Keys
    ensures name in errors && errors[name] != "" ==> r[name] == ""
    ensures forall k :: k in errors && (k != name || errors[k] == "") ==> r[k] == errors[k]
  {
    if name in errors && errors[name] != "" then errors[name := ""] else errors
  }
}
