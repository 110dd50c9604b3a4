/**
 * The admin complaint detail page: it loads every complaint, shows the one
 * whose id is in the route, and updates that one record with the same
 * status buttons as the list page.
 */
module AdminComplaintDetail {
  import opened Wrappers
  import opened Http
  import opened AdminComplaints

  /** `complaints.find(c => c.complaintId === id)`: the first complaint with the id, if any. */
  function FindById(cs: seq<Complaint>, id: string): (r: Option<Complaint>)
    ensures r.Some? ==> r.value in cs && r.value.complaintId == id
    ensures r.None? <==> forall i :: 0 <= i < |cs| ==> cs[i].complaintId != id
  {
    if cs == [] then None
    else if cs[0].complaintId == id then Some(cs[0])
    else FindById(cs[1..], id)
  }

  /** `find` returns the entry at the first index that carries the id. */
  lemma {:induction false} FindByIdIsFirst(cs: seq<Complaint>, id: string, i: nat)
    requires i < |cs| && cs[i].complaintId == id
    requires forall j :: 0 <= j < i ==> cs[j].complaintId != id
    ensures FindById(cs, id) == Some(cs[i])
  {
    if i > 0 {
      assert cs[0].complaintId != id;
      FindByIdIsFirst(cs[1..], id, i - 1);
    }
  }

  /**
   * The detail page's single-record update agrees with the list page's
   * update-by-id: the complaint `find` returns becomes, in the list, exactly
   * the record the detail page shows after the update.
   */
  lemma SingleUpdateAgreesWithList(cs: seq<Complaint>, id: string, i: nat, status: Status, notes: string, at: Timestamp)
    requires i < |cs| && cs[i].complaintId == id
    requires forall j :: 0 <= j < i ==> cs[j].complaintId != id
    ensures UpdateById(cs, id, status, notes, at)[i] == WithUpdate(FindById(cs, id).value, status, notes, at)
  {
    FindByIdIsFirst(cs, id, i);
    UpdateByIdSpec(cs, id, status, notes, at);
  }

  const LoadDetailFailedMessage := "Failed to load complaint details. Please try again."
  const NotFoundMessage := "Complaint not found"
  const UpdateFailedMessage := "Failed to update complaint status"

  /** The success banner after an update to `status`. */
  function UpdatedMessage(status: Status): string {
    "Complaint status updated to " + StatusLabel(status) + " successfully!"
  }

  /** The state of `ComplaintDetail` for the complaint id in the route. */
  class ComplaintDetailPage {
    const routeId: string
    var complaint: Option<Complaint>
    var loading: bool
    var error: Option<string>
    var adminNotes: string
    var updating: bool
    var successMessage: string

    /** The initial `useState` values. */
    constructor (id: string)
      ensures routeId == id
      ensures complaint == None && loading && error == None
      ensures adminNotes == "" && !updating && successMessage == ""
    {
      routeId := id;
      complaint := None;
      loading := true;
      error := None;
      adminNotes := "";
      updating := false;
      successMessage := "";
    }

    /** A status button that is on screen (the details are shown) and not disabled. */
    predicate StatusButtonEnabled(target: Status)
      reads this
    {
      !loading && error.None? && complaint.Some? && !StatusButtonDisabled(updating, complaint.value.status, target)
    }

    /**
     * `fetchComplaintDetail`, once the request has settled. The error is
     * cleared first. On a successful reply the first complaint with the route
     * id is shown and its notes are loaded; if there is none the error is
     * "Complaint not found" and the shown complaint is kept. A successful reply
     * without a list makes `find` throw, which lands in the failure branch. A
     * reply without `success` changes nothing else. Loading is over in every case.
     */
    method FetchComplaintDetail(response: Response<Option<seq<Complaint>>>)
      modifies this`complaint, this`adminNotes, this`loading, this`error
      ensures !loading
      ensures response.Failed? ==>
        complaint == old(complaint) && adminNotes == old(adminNotes) && error == Some(LoadDetailFailedMessage)
      ensures response.Answered? && !response.success ==>
        complaint == old(complaint) && adminNotes == old(adminNotes) && error == None
      ensures response.Succeeded() && response.payload.None? ==>
        complaint == old(complaint) && adminNotes == old(adminNotes) && error == Some(LoadDetailFailedMessage)
      ensures response.Succeeded() && response.payload.Some? ==>
        match FindById(response.payload.value, routeId)
        case Some(c) => complaint == Some(c) && adminNotes == NotesOrEmpty(c.adminNotes) && error == None
        case None => complaint == old(complaint) && adminNotes == old(adminNotes) && error == Some(NotFoundMessage)
    {
      loading := true;
      error := None;
      match response {
        case Answered(success, payload) =>
          if success {
            if payload.None? {
              // `undefined.find(...)` throws a TypeError, handled by the catch block.
              error := Some(LoadDetailFailedMessage);
            } else {
              var found := FindById(payload.value, routeId);
              if found.Some? {
                complaint := found;
                adminNotes := NotesOrEmpty(found.value.adminNotes);
              } else {
                error := Some(NotFoundMessage);
              }
            }
          }
        case Failed(_) =>
          error := Some(LoadDetailFailedMessage);
      }
      loading := false;
    }

    /** The notes text area's `onChange`. */
    method EditAdminNotes(text: string)
      modifies this`adminNotes
      ensures adminNotes == text
    {
      adminNotes := text;
    }

    /**
     * `handleUpdateStatus(status)`, once the PUT has settled. With no complaint
     * nothing happens. Otherwise the success banner is cleared before the
     * request; on success only the status, notes and update time of the
     * complaint change and the banner names the new status; on failure the
     * complaint is kept and the error is set. `updating` is false afterwards.
     */
    method UpdateStatus(status: Status, response: Response<()>, now: Timestamp)
      modifies this`complaint, this`updating, this`successMessage, this`error
      ensures old(complaint).None? ==>
        && complaint == None && updating == old(updating)
        && successMessage == old(successMessage) && error == old(error)
      ensures old(complaint).Some? ==> !updating
      ensures old(complaint).Some? && response.Succeeded() ==>
        && complaint == Some(old(complaint).value.(status := status, adminNotes := Some(adminNotes), updatedAt := now))
        && successMessage == UpdatedMessage(status) && error == old(error)
      ensures old(complaint).Some? && response.Failed? ==>
        complaint == old(complaint) && successMessage == "" && error == Some(UpdateFailedMessage)
      ensures old(complaint).Some? && response.Answered? && !response.success ==>
        complaint == old(complaint) && successMessage == "" && error == old(error)
    {
      if complaint.None? {
        return;
      }
      updating := true;
      successMessage := "";
      match response {
        case Answered(success, _) =>
          if success {
            complaint := Some(WithUpdate(complaint.value, status, adminNotes, now));
            successMessage := UpdatedMessage(status);
          }
        case Failed(_) =>
          error := Some(UpdateFailedMessage);
      }
      updating := false;
    }

    /**
     * A click on a status button: a disabled button does nothing, an enabled
     * one runs `UpdateStatus` for a transition the rule allows.
     */
    method ClickStatusButton(target: Status, response: Response<()>, now: Timestamp)
      modifies this`complaint, this`updating, this`successMessage, this`error
      ensures !old(StatusButtonEnabled(target)) ==>
        && complaint == old(complaint) && updating == old(updating)
        && successMessage == old(successMessage) && error == old(error)
      ensures old(StatusButtonEnabled(target)) ==>
        !old(updating) && CanTransition(old(complaint).value.status, target) && !updating
      ensures old(StatusButtonEnabled(target)) && response.Succeeded() ==>
        && complaint == Some(old(complaint).value.(status := target, adminNotes := Some(adminNotes), updatedAt := now))
        && successMessage == UpdatedMessage(target) && error == old(error)
      ensures old(StatusButtonEnabled(target)) && response.Failed? ==>
        complaint == old(complaint) && successMessage == "" && error == Some(UpdateFailedMessage)
      ensures old(StatusButtonEnabled(target)) && response.Answered? && !response.success ==>
        complaint == old(complaint) && successMessage == "" && error == old(error)
    {
      if StatusButtonEnabled(target) {
        StatusButtonGuard(updating, complaint.value.status, target);
        UpdateStatus(target, response, now);
      }
    }
  }
}
