/**
 * The form an employer fills in to complain about a freelancer on one of
 * their jobs. The freelancer and job come from the page that opened the form.
 */
module EmployerComplaintForm {
  import opened Wrappers
  import opened Http
  import opened ComplaintValidation

  /** The freelancer passed in the navigation state (`location.state.freelancer`). */
  datatype FreelancerRef = FreelancerRef(jobId: Option<string>, freelancerId: Option<string>)

  /** The state of `EmployerComplaintForm`. */
  class ComplaintFormPage {
    var formData: map<string, string>
    var errors: map<string, string>
    var loading: bool
    var successMessage: string

    ghost predicate Valid()
      reads this
    {
      HasFormFields(formData)
    }

    /**
     * The initial form: job and freelancer ids from the navigation state (or
     * empty), no complaint type, priority Medium, empty subject and description.
     */
    constructor (freelancer: Option<FreelancerRef>)
      ensures Valid()
      ensures formData == map[
        "jobId" := if freelancer.Some? then OrEmpty(freelancer.value.jobId) else "",
        "freelancerId" := if freelancer.Some? then OrEmpty(freelancer.value.freelancerId) else "",
        "complaintType" := "",
        "priority" := "Medium",
        "subject" := "",
        "description" := ""]
      ensures errors == map[] && !loading && successMessage == ""
    {
      var jobId := if freelancer.Some? then OrEmpty(freelancer.value.jobId) else "";
      var freelancerId := if freelancer.Some? then OrEmpty(freelancer.value.freelancerId) else "";
      formData := map[
        "jobId" := jobId,
        "freelancerId" := freelancerId,
        "complaintType" := "",
        "priority" := "Medium",
        "subject" := "",
        "description" := ""];
      errors := map[];
      loading := false;
      successMessage := "";
    }

    /**
     * `validateForm`: fill `newErrors` field by field, store it, and report
     * whether it stayed empty.
     */
    method ValidateForm() returns (ok: bool)
      requires Valid()
      modifies this`errors
      ensures Valid()
      ensures errors == ErrorsFor(formData)
      ensures ok <==> errors == map[]
    {
      var newErrors: map<string, string> := map[];
      if formData["complaintType"] == "" {
        newErrors := newErrors["complaintType" := ComplaintTypeRequired];
      }
      var subject := formData["subject"];
      if Text.IsBlank(subject) {
        newErrors := newErrors["subject" := SubjectRequired];
      } else if |subject| < MinSubjectLength {
        newErrors := newErrors["subject" := SubjectTooShort];
      } else if |subject| > MaxSubjectLength {
        newErrors := newErrors["subject" := SubjectTooLong];
      }
      var description := formData["description"];
      if Text.IsBlank(description) {
        newErrors := newErrors["description" := DescriptionRequired];
      } else if |description| < MinDescriptionLength {
        newErrors := newErrors["description" := DescriptionTooShort];
      }
      errors := newErrors;
      ok := |newErrors| == 0;
    }

    /** `handleChange`: set one field, and blank that field's error if it was showing. */
    method HandleChange(name: string, value: string)
      requires Valid()
      modifies this`formData, this`errors
      ensures Valid()
      ensures formData == WithField(old(formData), name, value)
      ensures errors == ClearedError(old(errors), name)
    {
      formData := formData[name := value];
      if name in errors && errors[name] != "" {
        errors := errors[name := ""];
      }
    }

    /**
     * `handleSubmit`, once the POST (if any) has settled. An invalid form is
     * not sent: the field errors are shown. A valid form is sent as it is; on
     * success the banner appears; on failure the errors become a single
     * `submit` entry. The form data never changes, and once a request was sent
     * loading is over.
     */
    method HandleSubmit(response: Response<()>) returns (sent: Option<map<string, string>>)
      requires Valid()
      modifies this`errors, this`loading, this`successMessage
      ensures Valid()
      ensures sent == (if ErrorsFor(formData) == map[] then Some(formData) else None)
      ensures sent.None? ==>
        errors == ErrorsFor(formData) && successMessage == old(successMessage) && loading == old(loading)
      ensures sent.Some? ==> !loading
      ensures sent.Some? && response.Failed? ==>
        errors == map["submit" := SubmitErrorMessage(response.serverError)] && successMessage == old(successMessage)
      ensures sent.Some? && response.Answered? ==>
        errors == map[] && successMessage == (if response.success then SubmittedMessage else old(successMessage))
    {
      var ok := ValidateForm();
      if !ok {
        sent := None;
        return;
      }
      loading := true;
      sent := Some(formData);
      match response {
        case Answered(success, _) =>
          if success {
            successMessage := SubmittedMessage;
          }
        case Failed(serverError) =>
          errors := map["submit" := SubmitErrorMessage(serverError)];
      }
      loading := false;
    }
  }
}
