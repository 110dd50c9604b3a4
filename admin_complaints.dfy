/**
 * The admin complaints page: the complaint record, its status lifecycle as
 * the status buttons enforce it, the four-way list filter, and the page
 * state that fetching, opening and updating a complaint change.
 */
module AdminComplaints {
  import opened Wrappers
  import opened Http
  import opened Text
  import Seqs

  datatype Status = Pending | UnderReview | Resolved | Rejected
  datatype Priority = Low | Medium | High | Critical
  datatype ComplainantType = Freelancer | Employer

  /** A point in time (`createdAt`, `updatedAt`); only its identity matters here. */
  type Timestamp = nat

  datatype Complaint = Complaint(
    complaintId: string,
    complainantType: ComplainantType,
    complainantName: string,
    freelancerName: string,
    employerName: string,
    jobTitle: string,
    complaintType: string,
    priority: Priority,
    subject: string,
    description: string,
    status: Status,
    adminNotes: Option<string>,
    createdAt: Timestamp,
    updatedAt: Timestamp)

  /** The string the backend and the UI use for a status. */
  function StatusLabel(s: Status): string {
    match s
    case Pending => "Pending"
    case UnderReview => "Under Review"
    case Resolved => "Resolved"
    case Rejected => "Rejected"
  }

  /** `getStatusBadgeClass`: the CSS class for a status label, `''` for an unknown one. */
  function StatusBadgeClass(name: string): string {
    if name == "Pending" then "status-pending"
    else if name == "Under Review" then "status-review"
    else if name == "Resolved" then "status-resolved"
    else if name == "Rejected" then "status-rejected"
    else ""
  }

  /** Every known status gets its own badge class, and only known statuses get one. */
  lemma StatusBadgeClassSpec(name: string)
    ensures StatusBadgeClass(name) != "" <==> exists s :: StatusLabel(s) == name
    ensures forall s1, s2 :: StatusBadgeClass(StatusLabel(s1)) == StatusBadgeClass(StatusLabel(s2)) ==> s1 == s2
  {
    if name == "Pending" { assert StatusLabel(Pending) == name; }
    else if name == "Under Review" { assert StatusLabel(UnderReview) == name; }
    else if name == "Resolved" { assert StatusLabel(Resolved) == name; }
    else if name == "Rejected" { assert StatusLabel(Rejected) == name; }
  }

  // ---------------------------------------------------------------------------
  // Status lifecycle

  /** Resolved and Rejected are final: no button leaves them. */
  predicate IsTerminal(s: Status) {
    s == Resolved || s == Rejected
  }

  /** The transition rule: from a non-terminal status to any other status. */
  predicate CanTransition(current: Status, target: Status) {
    !IsTerminal(current) && target != current
  }

  /** The `disabled=` condition of the button that requests `target`, as each button writes it. */
  predicate StatusButtonDisabled(updating: bool, current: Status, target: Status) {
    match target
    case Pending => updating || current == Pending || current == Resolved || current == Rejected
    case UnderReview => updating || current == UnderReview || current == Resolved || current == Rejected
    case Resolved => updating || current == Resolved || current == Rejected
    case Rejected => updating || current == Rejected || current == Resolved
  }

  /** The four button conditions reduce to one rule: no update in flight, and the transition is allowed. */
  lemma StatusButtonGuard(updating: bool, current: Status, target: Status)
    ensures !StatusButtonDisabled(updating, current, target) <==> !updating && CanTransition(current, target)
  {
  }

  /** The transition table, written out. */
  function AllowedTargets(current: Status): set<Status> {
    match current
    case Pending => {UnderReview, Resolved, Rejected}
    case UnderReview => {Pending, Resolved, Rejected}
    case Resolved => {}
    case Rejected => {}
  }

  /** The rule allows exactly the targets of the table; terminal statuses allow none. */
  lemma TransitionTable(current: Status, target: Status)
    ensures CanTransition(current, target) <==> target in AllowedTargets(current)
    ensures IsTerminal(current) ==> AllowedTargets(current) == {}
  {
  }

  // ---------------------------------------------------------------------------
  // The list filter

  /** A filter drop-down: `'All'` or one value. */
  datatype Choice<T> = All | Only(value: T)

  predicate Admits<T(==)>(c: Choice<T>, v: T) {
    c.All? || c.value == v
  }

  /** The state of the search box and the three drop-downs. */
  datatype Filters = Filters(
    status: Choice<Status>,
    priority: Choice<Priority>,
    complainant: Choice<ComplainantType>,
    search: string)

  /** `searchMatch`: no search term, or the term occurs, ignoring case, in one of four fields. */
  predicate SearchMatches(c: Complaint, term: string) {
    || term == ""
    || IncludesIgnoringCase(c.subject, term)
    || IncludesIgnoringCase(c.complainantName, term)
    || IncludesIgnoringCase(c.complaintType, term)
    || IncludesIgnoringCase(c.jobTitle, term)
  }

  /** The predicate `filteredComplaints` keeps a complaint by. */
  predicate Passes(f: Filters, c: Complaint) {
    && Admits(f.status, c.status)
    && Admits(f.priority, c.priority)
    && Admits(f.complainant, c.complainantType)
    && SearchMatches(c, f.search)
  }

  /** `filteredComplaints`. */
  function FilterComplaints(cs: seq<Complaint>, f: Filters): seq<Complaint> {
    Seqs.Filter(cs, c => Passes(f, c))
  }

  /**
   * A complaint is listed iff all four conditions hold; the listing keeps the
   * original order and every occurrence of a listed complaint.
   */
  lemma {:induction false} FilterComplaintsSpec(cs: seq<Complaint>, f: Filters)
    ensures Seqs.IsSubsequence(FilterComplaints(cs, f), cs)
    ensures forall c :: multiset(FilterComplaints(cs, f))[c] == if Passes(f, c) then multiset(cs)[c] else 0
    ensures forall c :: c in FilterComplaints(cs, f) <==>
      && c in cs
      && (f.status.All? || c.status == f.status.value)
      && (f.priority.All? || c.priority == f.priority.value)
      && (f.complainant.All? || c.complainantType == f.complainant.value)
      && (|| f.search == ""
          || Contains(Lower(c.subject), Lower(f.search))
          || Contains(Lower(c.complainantName), Lower(f.search))
          || Contains(Lower(c.complaintType), Lower(f.search))
          || Contains(Lower(c.jobTitle), Lower(f.search)))
  {
    Seqs.FilterSpec(cs, c => Passes(f, c));
  }

  /** With every drop-down on All and an empty search, the whole list is shown, in order. */
  lemma {:induction false} NoFilterShowsAll(cs: seq<Complaint>)
    ensures FilterComplaints(cs, Filters(All, All, All, "")) == cs
  {
    Seqs.FilterKeepsAll(cs, c => Passes(Filters(All, All, All, ""), c));
  }

  /** The explicit `searchTerm === ''` test changes nothing: every field contains the empty term. */
  lemma EmptySearchMatchesAnyField(c: Complaint)
    ensures IncludesIgnoringCase(c.subject, "")
    ensures IncludesIgnoringCase(c.complainantName, "")
    ensures IncludesIgnoringCase(c.complaintType, "")
    ensures IncludesIgnoringCase(c.jobTitle, "")
  {
    assert Lower("") == "";
    ContainsEmpty(Lower(c.subject));
    ContainsEmpty(Lower(c.complainantName));
    ContainsEmpty(Lower(c.complaintType));
    ContainsEmpty(Lower(c.jobTitle));
  }

  /** Replacing the search term by any case variant of it lists the same complaints. */
  lemma {:induction false} SearchIgnoresCase(cs: seq<Complaint>, f: Filters, term: string)
    requires Lower(term) == Lower(f.search)
    ensures FilterComplaints(cs, f.(search := term)) == FilterComplaints(cs, f)
  {
    assert |term| == |Lower(term)| == |f.search|;
    var g := f.(search := term);
    forall i | 0 <= i < |cs| ensures Passes(g, cs[i]) == Passes(f, cs[i]) {
    }
    Seqs.FilterCongruent(cs, c => Passes(g, c), c => Passes(f, c));
    assert FilterComplaints(cs, g) == Seqs.Filter(cs, c => Passes(g, c));
  }

  // ---------------------------------------------------------------------------
  // Updating one complaint

  /** `complaintNotes || ''`: the notes shown in the text area. */
  function NotesOrEmpty(notes: Option<string>): string {
    notes.GetOr("")
  }

  /** `{ ...c, status, adminNotes, updatedAt }`. */
  function WithUpdate(c: Complaint, status: Status, notes: string, at: Timestamp): Complaint {
    c.(status := status, adminNotes := Some(notes), updatedAt := at)
  }

  /** `complaints.map(c => c.complaintId === id ? { ...c, ... } : c)`. */
  function UpdateById(cs: seq<Complaint>, id: string, status: Status, notes: string, at: Timestamp): (r: seq<Complaint>)
    ensures |r| == |cs|
  {
    if cs == [] then []
    else [if cs[0].complaintId == id then WithUpdate(cs[0], status, notes, at) else cs[0]]
         + UpdateById(cs[1..], id, status, notes, at)
  }

  /**
   * The update keeps the length and the order; exactly the entries with the
   * given id get the new status, notes and time, their other fields unchanged,
   * and every other entry is left as it was.
   */
  lemma {:induction false} UpdateByIdSpec(cs: seq<Complaint>, id: string, status: Status, notes: string, at: Timestamp)
    ensures |UpdateById(cs, id, status, notes, at)| == |cs|
    ensures forall i :: 0 <= i < |cs| && cs[i].complaintId == id ==>
      var u := UpdateById(cs, id, status, notes, at)[i];
      && u.status == status && u.adminNotes == Some(notes) && u.updatedAt == at
      && u == cs[i].(status := u.status, adminNotes := u.adminNotes, updatedAt := u.updatedAt)
    ensures forall i :: 0 <= i < |cs| && cs[i].complaintId != id ==> UpdateById(cs, id, status, notes, at)[i] == cs[i]
  {
    if cs != [] {
      UpdateByIdSpec(cs[1..], id, status, notes, at);
      var r := UpdateById(cs, id, status, notes, at);
      assert forall i :: 1 <= i < |cs| ==> r[i] == UpdateById(cs[1..], id, status, notes, at)[i - 1] && cs[i] == cs[1..][i - 1];
    }
  }

  const LoadFailedMessage := "Failed to load complaints. Please try again."

  // ---------------------------------------------------------------------------
  // The page

  /** The state of `AdminComplaints`. */
  class ComplaintsPage {
    var complaints: seq<Complaint>
    var loading: bool
    var error: Option<string>
    var selectedComplaint: Option<Complaint>
    var isModalOpen: bool
    var filterStatus: Choice<Status>
    var filterPriority: Choice<Priority>
    var filterComplainantType: Choice<ComplainantType>
    var searchTerm: string
    var adminNotes: string
    var updating: bool

    /** The initial `useState` values. */
    constructor ()
      ensures complaints == [] && loading && error == None
      ensures selectedComplaint == None && !isModalOpen
      ensures filterStatus == All && filterPriority == All && filterComplainantType == All && searchTerm == ""
      ensures adminNotes == "" && !updating
    {
      complaints := [];
      loading := true;
      error := None;
      selectedComplaint := None;
      isModalOpen := false;
      filterStatus := All;
      filterPriority := All;
      filterComplainantType := All;
      searchTerm := "";
      adminNotes := "";
      updating := false;
    }

    /** The rows of the table. */
    function Listed(): seq<Complaint>
      reads this
    {
      FilterComplaints(complaints, Filters(filterStatus, filterPriority, filterComplainantType, searchTerm))
    }

    /** A status button that is on screen (the modal shows a complaint) and not disabled. */
    predicate StatusButtonEnabled(target: Status)
      reads this
    {
      isModalOpen && selectedComplaint.Some? && !StatusButtonDisabled(updating, selectedComplaint.value.status, target)
    }

    /**
     * `fetchComplaints`, once the request has settled: the error is cleared
     * first; a successful reply replaces the list (an absent list reads as
     * empty); a reply without `success` changes nothing; a failed call sets the
     * fixed message and keeps the list. Loading is over in every case.
     */
    method FetchComplaints(response: Response<Option<seq<Complaint>>>)
      modifies this`complaints, this`loading, this`error
      ensures complaints == (if response.Succeeded() then response.payload.GetOr([]) else old(complaints))
      ensures error == (if response.Failed? then Some(LoadFailedMessage) else None)
      ensures !loading
    {
      loading := true;
      error := None;
      match response {
        case Answered(success, payload) =>
          if success {
            complaints := payload.GetOr([]);
          }
        case Failed(_) =>
          error := Some(LoadFailedMessage);
      }
      loading := false;
    }

    /** `handleViewComplaint`: select the complaint, load its notes into the text area, open the modal. */
    method ViewComplaint(c: Complaint)
      modifies this`selectedComplaint, this`adminNotes, this`isModalOpen
      ensures selectedComplaint == Some(c) && isModalOpen
      ensures adminNotes == NotesOrEmpty(c.adminNotes)
    {
      selectedComplaint := Some(c);
      adminNotes := NotesOrEmpty(c.adminNotes);
      isModalOpen := true;
    }

    /** The notes text area's `onChange`. */
    method EditAdminNotes(text: string)
      modifies this`adminNotes
      ensures adminNotes == text
    {
      adminNotes := text;
    }

    /** The close button and the overlay click: the modal closes, the selection stays. */
    method CloseModal()
      modifies this`isModalOpen
      ensures !isModalOpen
    {
      isModalOpen := false;
    }

    /** The search box's `onChange`. */
    method SetSearchTerm(term: string)
      modifies this`searchTerm
      ensures searchTerm == term
    {
      searchTerm := term;
    }

    /** The three drop-downs' `onChange`; the priority drop-down has no Critical option. */
    method SetFilters(status: Choice<Status>, priority: Choice<Priority>, complainant: Choice<ComplainantType>)
      requires priority != Only(Critical)
      modifies this`filterStatus, this`filterPriority, this`filterComplainantType
      ensures filterStatus == status && filterPriority == priority && filterComplainantType == complainant
    {
      filterStatus := status;
      filterPriority := priority;
      filterComplainantType := complainant;
    }

    /**
     * `handleUpdateStatus(status)`, once the PUT has settled. With no selected
     * complaint nothing happens. On success every entry with the selected id
     * gets the new status, the typed notes and the time `now`, the selection is
     * cleared and the modal closes. Otherwise (a failed call, or a reply
     * without `success`) the list, the selection and the typed notes are kept.
     * `updating` is false afterwards.
     */
    method UpdateStatus(status: Status, response: Response<()>, now: Timestamp)
      modifies this`complaints, this`selectedComplaint, this`isModalOpen, this`updating
      ensures old(selectedComplaint).None? ==>
        && complaints == old(complaints) && selectedComplaint == None && isModalOpen == old(isModalOpen)
        && updating == old(updating)
      ensures old(selectedComplaint).Some? ==> !updating
      ensures old(selectedComplaint).Some? && response.Succeeded() ==>
        && complaints == UpdateById(old(complaints), old(selectedComplaint).value.complaintId, status, adminNotes, now)
        && selectedComplaint == None && !isModalOpen
      ensures old(selectedComplaint).Some? && !response.Succeeded() ==>
        complaints == old(complaints) && selectedComplaint == old(selectedComplaint) && isModalOpen == old(isModalOpen)
    {
      if selectedComplaint.None? {
        return;
      }
      updating := true;
      if response.Succeeded() {
        complaints := UpdateById(complaints, selectedComplaint.value.complaintId, status, adminNotes, now);
        isModalOpen := false;
        selectedComplaint := None;
      }
      updating := false;
    }

    /**
     * A click on a status button: a disabled button does nothing, an enabled
     * one runs `UpdateStatus` for a transition the rule allows.
     */
    method ClickStatusButton(target: Status, response: Response<()>, now: Timestamp)
      modifies this`complaints, this`selectedComplaint, this`isModalOpen, this`updating
      ensures !old(StatusButtonEnabled(target)) ==>
        && complaints == old(complaints) && selectedComplaint == old(selectedComplaint) && isModalOpen == old(isModalOpen)
        && updating == old(updating)
      ensures old(StatusButtonEnabled(target)) ==>
        !old(updating) && CanTransition(old(selectedComplaint).value.status, target) && !updating
      ensures old(StatusButtonEnabled(target)) && response.Succeeded() ==>
        && complaints == UpdateById(old(complaints), old(selectedComplaint).value.complaintId, target, adminNotes, now)
        && selectedComplaint == None && !isModalOpen
      ensures old(StatusButtonEnabled(target)) && !response.Succeeded() ==>
        complaints == old(complaints) && selectedComplaint == old(selectedComplaint) && isModalOpen == old(isModalOpen)
      ensures old(selectedComplaint).Some? && IsTerminal(old(selectedComplaint).value.status) ==>
        complaints == old(complaints) && selectedComplaint == old(selectedComplaint) && isModalOpen == old(isModalOpen)
    {
      if selectedComplaint.Some? && IsTerminal(selectedComplaint.value.status) {
        TerminalStatusIsFinal(selectedComplaint.value, target);
      }
      if StatusButtonEnabled(target) {
        StatusButtonGuard(updating, selectedComplaint.value.status, target);
        UpdateStatus(target, response, now);
      }
    }
  }

  /**
   * A Resolved or Rejected complaint allows no transition, and each of its
   * status buttons is disabled even when no update is in flight; so a click
   * while it is selected changes nothing (`ComplaintsPage.ClickStatusButton`).
   */
  lemma TerminalStatusIsFinal(c: Complaint, target: Status)
    requires IsTerminal(c.status)
    ensures StatusButtonDisabled(false, c.status, target)
    ensures AllowedTargets(c.status) == {}
  {
  }

  /**
   * The lifecycle walk-through on the page: a Pending complaint is put Under
   * Review with notes, reverted to Pending, then Resolved, after which no
   * status button is enabled. With the filters as the page opens, the table
   * shows the loaded complaint.
   */
  method LifecycleWalkthrough(c: Complaint, t1: Timestamp, t2: Timestamp, t3: Timestamp)
    requires c.status == Pending
  {
    var page := new ComplaintsPage();
    page.FetchComplaints(Answered(true, Some([c])));
    assert page.complaints == [c];
    NoFilterShowsAll(page.complaints);
    assert page.Listed() == [c];

    page.ViewComplaint(c);
    page.EditAdminNotes("investigating");
    page.ClickStatusButton(UnderReview, Answered(true, ()), t1);
    UpdateByIdSpec([c], c.complaintId, UnderReview, "investigating", t1);
    var c1 := page.complaints[0];
    assert c1.status == UnderReview && c1.adminNotes == Some("investigating") && c1.updatedAt == t1;

    page.ViewComplaint(c1);
    page.ClickStatusButton(Pending, Answered(true, ()), t2);
    UpdateByIdSpec([c1], c1.complaintId, Pending, "investigating", t2);
    var c2 := page.complaints[0];
    assert c2.status == Pending;

    page.ViewComplaint(c2);
    page.ClickStatusButton(Resolved, Answered(true, ()), t3);
    UpdateByIdSpec([c2], c2.complaintId, Resolved, "investigating", t3);
    var c3 := page.complaints[0];
    assert c3.status == Resolved;

    page.ViewComplaint(c3);
    assert !page.StatusButtonEnabled(Pending) && !page.StatusButtonEnabled(UnderReview);
    assert !page.StatusButtonEnabled(Resolved) && !page.StatusButtonEnabled(Rejected);
  }
}
