# Complaint lifecycle and admin tables of a freelance-marketplace front end

This project models the logic under the React pages of a freelance-marketplace
front end. The model covers four areas:

- **The admin complaints list** (`AdminComplaints`). It covers the complaint
  record and the four statuses. It covers the status buttons' `disabled=`
  guard, reduced to one transition rule. It covers the four-way filter over
  the list: status, priority and complainant type, plus a case-insensitive
  search. Last, it covers the page state that loading, opening and updating a
  complaint changes. An update rewrites, by id, the entries of the complaint
  list.
- **The admin complaint detail page** (`AdminComplaintDetail`). It finds the
  first complaint with the id in the route. The same guard controls the
  buttons, and an update rewrites that single record.
- **The two complaint forms** (`EmployerComplaintForm`,
  `FreelancerComplaintForm`). They share one validator
  (`ComplaintValidation`). It builds a field-to-message map with a fixed
  precedence. Each form changes one field at a time and clears only that
  field's error. Submission is blocked while the form is invalid.
- **The admin freelancer, employer and job-listing tables**
  (`AdminFreelancers`, `AdminEmployers`, `AdminJobListings`). Each has a
  case-insensitive search over several fields. Each deletes by id, after the
  administrator confirms and the server agrees.

Each page is a `class` whose fields are the page's `useState` variables. Each
handler is a method. The outcome of its request is passed in as an
`Http.Response` argument:

- `Failed` is the `catch` branch.
- `Answered(success, payload)` is a settled call.

The window's confirm dialog is a boolean argument. The clock is a `Timestamp`
argument. Every handler runs as one atomic step after its request settles.
The pure parts are functions, with lemmas about them:

- the filters;
- the find-by-id lookup;
- the update-by-id;
- the guard;
- the validator.

Two modules are shared. `Seqs.Filter` is `Array.prototype.filter`; its lemmas
give order (a subsequence), multiplicity and membership. `Text` holds
`toLowerCase` (the ASCII fold), `includes` (a contiguous slice) and `trim`.
`trim` uses ECMAScript's whitespace and line-terminator characters.

`AdminComplaints.LifecycleWalkthrough` is a client of the list page. It takes
a Pending complaint to Under Review with notes, then back to Pending, then to
Resolved. After that it checks that no status button is enabled.

Points where the code does something easy to misread, each modelled as the code does it:

- The subject and description lengths are measured on the untrimmed string.
  Only the emptiness test trims. `ComplaintValidation.SubjectLengthIsUntrimmed`
  exhibits this: nine spaces then `x` passes the subject check.
- A failed status update on the list page only raises an alert. No page state
  records it. The detail page does set `error`.
- A settled reply without `success` is ignored by every handler. Only the
  `finally` clean-up runs.
- The list page's priority drop-down offers All, Low, Medium and High, but not
  Critical. So `ComplaintsPage.SetFilters` never receives `Only(Critical)`, and
  Critical complaints are listed only under All.

## Model

A function that computes something and whose meaning is stated by a lemma has no row of
its own. Its lemma's row covers it:

- `StatusBadgeClass` by `StatusBadgeClassSpec`;
- `StatusButtonDisabled` by `StatusButtonGuard`;
- `FilterComplaints` by `FilterComplaintsSpec`;
- `FormErrors` by `FormErrorsSpec`;
- `SubjectError` by `SubjectErrorSpec`;
- `DescriptionError` by `DescriptionErrorSpec`;
- each table's `Filter…` function by its `Filter…Spec`;
- each table's `Remove…` function by its `Remove…Spec`.

| member | source | states |
|---|---|---|
| AdminComplaints.StatusBadgeClassSpec | src/pages/Admin/Complaints.jsx:80-88 | each of the four statuses gets a non-empty badge class, a different one for each status; any other label gets `''` |
| AdminComplaints.StatusButtonGuard | src/pages/Admin/Complaints.jsx:357-384 | the four button conditions, as written, enable a button exactly when no update is in flight, the current status is neither Resolved nor Rejected, and the target differs from the current status |
| AdminComplaints.TransitionTable | src/pages/Admin/Complaints.jsx:358-382 | the rule allows exactly Pending to {Under Review, Resolved, Rejected} and Under Review to {Pending, Resolved, Rejected}; terminal statuses allow nothing |
| AdminComplaints.TerminalStatusIsFinal | src/pages/Admin/Complaints.jsx:374-381 | a Resolved or Rejected complaint allows no transition, and every button is disabled even with no update in flight |
| AdminComplaints.FilterComplaintsSpec | src/pages/Admin/Complaints.jsx:100-110 | a complaint is listed iff status, priority and complainant filters are All or equal, and the search is empty or occurs lower-cased in the subject, complainant name, complaint type or job title; the list is an order-preserving subsequence that keeps every occurrence of a listed complaint |
| AdminComplaints.NoFilterShowsAll | src/pages/Admin/Complaints.jsx:100-110 | with all filters All and an empty search the list is the whole collection, in order |
| AdminComplaints.EmptySearchMatchesAnyField | src/pages/Admin/Complaints.jsx:104-108 | every field contains the empty term, so the `searchTerm === ''` test never changes the outcome |
| AdminComplaints.SearchIgnoresCase | src/pages/Admin/Complaints.jsx:104-108 | replacing the search term by any term with the same lower-case form gives the same list |
| AdminComplaints.UpdateById | src/pages/Admin/Complaints.jsx:64-68 | the update-by-id keeps the number of complaints |
| AdminComplaints.UpdateByIdSpec | src/pages/Admin/Complaints.jsx:62-70 | the length is unchanged; exactly the entries with the selected id get the new status, notes and update time with every other field unchanged; all other entries are unchanged |
| AdminComplaints.ComplaintsPage.constructor | src/pages/Admin/Complaints.jsx:9-19 | the initial state: no complaints, loading, no error, nothing selected, modal closed, filters All, empty search and notes, not updating |
| AdminComplaints.ComplaintsPage.FetchComplaints | src/pages/Admin/Complaints.jsx:25-43 | the error is cleared; success replaces the list by the returned one or `[]`; failure sets the fixed message and keeps the list; loading is false afterwards |
| AdminComplaints.ComplaintsPage.ViewComplaint | src/pages/Admin/Complaints.jsx:45-49 | the complaint is selected, the notes become its notes or `''`, the modal opens |
| AdminComplaints.ComplaintsPage.EditAdminNotes | src/pages/Admin/Complaints.jsx:343 | the typed text becomes the notes |
| AdminComplaints.ComplaintsPage.CloseModal | src/pages/Admin/Complaints.jsx:258-262 | the modal closes and the selection is kept |
| AdminComplaints.ComplaintsPage.SetSearchTerm | src/pages/Admin/Complaints.jsx:130 | the typed text becomes the search term |
| AdminComplaints.ComplaintsPage.SetFilters | src/pages/Admin/Complaints.jsx:136-163 | the three drop-downs take the chosen values; the priority drop-down offers no Critical |
| AdminComplaints.ComplaintsPage.UpdateStatus | src/pages/Admin/Complaints.jsx:51-78 | with nothing selected nothing changes; on success the list is updated by the selected id with the status, typed notes and time, the selection is cleared and the modal closes; on failure list, selection and notes are kept; not updating afterwards |
| AdminComplaints.ComplaintsPage.ClickStatusButton | src/pages/Admin/Complaints.jsx:357-384 | a disabled button changes nothing, in particular any button while a Resolved or Rejected complaint is selected; an enabled one was pressed with no update in flight and an allowed transition; on success it performs the update-by-id, clears the selection and closes the modal; otherwise list, selection and modal are kept |
| AdminComplaintDetail.FindById | src/pages/Admin/ComplaintDetail.jsx:33-35 | a found complaint is in the list and carries the id; nothing is found iff no entry carries the id |
| AdminComplaintDetail.FindByIdIsFirst | src/pages/Admin/ComplaintDetail.jsx:33-35 | the complaint found is the one at the first index carrying the id |
| AdminComplaintDetail.SingleUpdateAgreesWithList | src/pages/Admin/ComplaintDetail.jsx:64 | updating the found record alone yields the same record the list page's update-by-id puts at its index |
| AdminComplaintDetail.ComplaintDetailPage.constructor | src/pages/Admin/ComplaintDetail.jsx:10-17 | the initial state for the route id: no complaint, loading, no error, empty notes and banner, not updating |
| AdminComplaintDetail.ComplaintDetailPage.FetchComplaintDetail | src/pages/Admin/ComplaintDetail.jsx:23-49 | the error is cleared; success shows the first complaint with the route id and loads its notes or `''`, or sets 'Complaint not found' keeping the shown complaint; a success without a list and a failure set the load-failed message; loading is false afterwards |
| AdminComplaintDetail.ComplaintDetailPage.EditAdminNotes | src/pages/Admin/ComplaintDetail.jsx:248 | the typed text becomes the notes |
| AdminComplaintDetail.ComplaintDetailPage.UpdateStatus | src/pages/Admin/ComplaintDetail.jsx:51-73 | with no complaint nothing changes; otherwise the banner is cleared, success replaces only status, notes and update time and names the new status in the banner, failure keeps the complaint and sets the error; not updating afterwards |
| AdminComplaintDetail.ComplaintDetailPage.ClickStatusButton | src/pages/Admin/ComplaintDetail.jsx:263-307 | a disabled button changes nothing; an enabled one was pressed with no update in flight and an allowed transition; on success only status, notes and update time change and the banner names the new status; a failure keeps the complaint and sets the error; an unsuccessful reply keeps complaint and error; the banner is cleared unless the update succeeded |
| Text.BlankIffAllWhitespace | src/pages/Employer/ComplaintForm/ComplaintForm.jsx:53 | `!s.trim()` holds exactly when every character of `s` is whitespace |
| Text.SearchIgnoresCaseExample | src/pages/Admin/Complaints.jsx:105 | "Payment delay issue" is found by "PAYMENT" |
| ComplaintValidation.FormErrorsSpec | src/pages/Employer/ComplaintForm/ComplaintForm.jsx:46-69 | the error map has the complaint type iff it is empty, the subject and description iff they fail, with their messages, and no other key; priority never has an error |
| ComplaintValidation.FormValidIff | src/pages/Employer/ComplaintForm/ComplaintForm.jsx:67-68 | the map is empty iff the type is chosen, the subject is not all whitespace with 10 to 200 characters, and the description is not all whitespace with at least 50 characters |
| ComplaintValidation.SubjectErrorSpec | src/pages/Employer/ComplaintForm/ComplaintForm.jsx:53-59 | 'required' iff all whitespace; else 'at least 10' iff shorter than 10; else 'must not exceed 200' iff longer than 200; else no error |
| ComplaintValidation.SubjectLengthBoundaries | src/pages/Freelancer/ComplaintForm.jsx:50-56 | for a non-blank subject: 9 characters fail as too short, 10 and 200 pass, 201 fail as too long |
| ComplaintValidation.SubjectLengthIsUntrimmed | src/pages/Employer/ComplaintForm/ComplaintForm.jsx:55-58 | nine spaces and a letter pass although the trimmed subject has one character |
| ComplaintValidation.DescriptionErrorSpec | src/pages/Freelancer/ComplaintForm.jsx:58-62 | 'required' iff all whitespace; else 'at least 50' iff shorter than 50; else no error |
| ComplaintValidation.DescriptionLengthBoundaries | src/pages/Employer/ComplaintForm/ComplaintForm.jsx:61-65 | for a non-blank description: 49 characters fail, 50 pass |
| ComplaintValidation.SubmitErrorMessage | src/pages/Employer/ComplaintForm/ComplaintForm.jsx:110-112 | the message is never empty and is the server's error whenever it sent a non-empty one |
| ComplaintValidation.WithField | src/pages/Employer/ComplaintForm/ComplaintForm.jsx:73-76 | the named field gets the value, every other field keeps its value, and the required fields stay present |
| ComplaintValidation.ClearedError | src/pages/Freelancer/ComplaintForm.jsx:75-80 | the named field's error is blanked if it was truthy; every other entry and the set of keys are unchanged |
| EmployerComplaintForm.ComplaintFormPage.constructor | src/pages/Employer/ComplaintForm/ComplaintForm.jsx:14-25 | job and freelancer ids from the navigation state or `''`, empty type, subject and description, priority Medium, no errors |
| EmployerComplaintForm.ComplaintFormPage.ValidateForm | src/pages/Employer/ComplaintForm/ComplaintForm.jsx:46-69 | the stored errors are the validator's map for the current data, and the result is true iff that map is empty |
| EmployerComplaintForm.ComplaintFormPage.HandleChange | src/pages/Employer/ComplaintForm/ComplaintForm.jsx:71-84 | only the named field changes; only that field's error is cleared |
| EmployerComplaintForm.ComplaintFormPage.HandleSubmit | src/pages/Employer/ComplaintForm/ComplaintForm.jsx:86-116 | an invalid form is not sent and shows the field errors; a valid one is sent unchanged; failure leaves only a `submit` error; success shows the banner; the form data never changes |
| FreelancerComplaintForm.ComplaintFormPage.constructor | src/pages/Freelancer/ComplaintForm.jsx:14-24 | job id from the navigation state or `''`, empty type, subject and description, priority Medium, no errors |
| FreelancerComplaintForm.ComplaintFormPage.ValidateForm | src/pages/Freelancer/ComplaintForm.jsx:43-66 | the stored errors are the validator's map for the current data, and the result is true iff that map is empty |
| FreelancerComplaintForm.ComplaintFormPage.HandleChange | src/pages/Freelancer/ComplaintForm.jsx:68-81 | only the named field changes; only that field's error is cleared |
| FreelancerComplaintForm.ComplaintFormPage.HandleSubmit | src/pages/Freelancer/ComplaintForm.jsx:83-113 | an invalid form is not sent and shows the field errors; a valid one is sent unchanged; failure leaves only a `submit` error; success shows the banner; the form data never changes |
| AdminFreelancers.FilterFreelancersSpec | src/pages/Admin/Freelancers.jsx:69-73 | a freelancer is listed iff the lower-cased term occurs in the lower-cased name, email or location; the list is an order-preserving subsequence keeping every occurrence |
| AdminFreelancers.EmptySearchListsFreelancers | src/pages/Admin/Freelancers.jsx:69-73 | an empty search lists every freelancer, in order |
| AdminFreelancers.RemoveFreelancerSpec | src/pages/Admin/Freelancers.jsx:54 | exactly the entries with the id are removed; the rest keep their order and multiplicity |
| AdminFreelancers.SearchAfterDelete | src/pages/Admin/Freelancers.jsx:69-73 | searching after a delete shows the rows the search showed before, without the freelancers with the deleted id |
| AdminFreelancers.FreelancersPage.constructor | src/pages/Admin/Freelancers.jsx:9-13 | no freelancers, loading, no error, empty search, nothing being deleted |
| AdminFreelancers.FreelancersPage.SetSearchTerm | src/pages/Admin/Freelancers.jsx:93 | the typed text becomes the search term |
| AdminFreelancers.FreelancersPage.FetchFreelancers | src/pages/Admin/Freelancers.jsx:19-37 | the error is cleared; success replaces the list or sets `[]`; failure sets the fixed message and keeps the list; loading is false afterwards |
| AdminFreelancers.FreelancersPage.DeleteFreelancer | src/pages/Admin/Freelancers.jsx:39-63 | declining changes nothing; otherwise success removes the entries with the id, and the table loses exactly its rows with that id; failure keeps the list; `deleting` is null afterwards |
| AdminEmployers.FilterEmployersSpec | src/pages/Admin/Employers.jsx:69-73 | an employer is listed iff the lower-cased term occurs in the lower-cased name, email or company name; the list is an order-preserving subsequence keeping every occurrence |
| AdminEmployers.EmptySearchListsEmployers | src/pages/Admin/Employers.jsx:69-73 | an empty search lists every employer, in order |
| AdminEmployers.RemoveEmployerSpec | src/pages/Admin/Employers.jsx:54 | exactly the entries with the id are removed; the rest keep their order and multiplicity |
| AdminEmployers.SearchAfterDelete | src/pages/Admin/Employers.jsx:69-73 | searching after a delete shows the rows the search showed before, without the employers with the deleted id |
| AdminEmployers.EmployersPage.constructor | src/pages/Admin/Employers.jsx:9-13 | no employers, loading, no error, empty search, nothing being deleted |
| AdminEmployers.EmployersPage.SetSearchTerm | src/pages/Admin/Employers.jsx:93 | the typed text becomes the search term |
| AdminEmployers.EmployersPage.FetchEmployers | src/pages/Admin/Employers.jsx:19-37 | the error is cleared; success replaces the list or sets `[]`; failure sets the fixed message and keeps the list; loading is false afterwards |
| AdminEmployers.EmployersPage.DeleteEmployer | src/pages/Admin/Employers.jsx:39-63 | declining changes nothing; otherwise success removes the entries with the id, and the table loses exactly its rows with that id; failure keeps the list; `deleting` is null afterwards |
| AdminJobListings.FilterJobsSpec | src/pages/Admin/JobListings.jsx:74-79 | a job is listed iff the lower-cased term occurs in the lower-cased title, employer name, company name or location; the list is an order-preserving subsequence keeping every occurrence |
| AdminJobListings.EmptySearchListsJobs | src/pages/Admin/JobListings.jsx:74-79 | an empty search lists every job, in order |
| AdminJobListings.RemoveJobSpec | src/pages/Admin/JobListings.jsx:59 | exactly the jobs with the id are removed; the rest keep their order and multiplicity |
| AdminJobListings.SearchAfterDelete | src/pages/Admin/JobListings.jsx:74-79 | searching after a delete shows the rows the search showed before, without the jobs with the deleted id |
| AdminJobListings.JobListingsPage.constructor | src/pages/Admin/JobListings.jsx:11-15 | no jobs, loading, no error, empty search, nothing being deleted |
| AdminJobListings.JobListingsPage.SetSearchTerm | src/pages/Admin/JobListings.jsx:99 | the typed text becomes the search term |
| AdminJobListings.JobListingsPage.FetchJobs | src/pages/Admin/JobListings.jsx:21-42 | the error is cleared; success replaces the list or sets `[]`; failure sets the fixed message and keeps the list; loading is false afterwards |
| AdminJobListings.JobListingsPage.DeleteJob | src/pages/Admin/JobListings.jsx:44-68 | declining changes nothing; otherwise success removes the jobs with the id, and the table loses exactly its rows with that id; failure keeps the list; `deleting` is null afterwards |

## Left out

- HTTP transport is left out: the backend, the URL, credentials and the request bodies. The
  model keeps only the outcome of each call, passed in as an argument. The form's POST is
  returned as the data that would be sent.
- Asynchrony is left out. Each handler is one atomic step after its request has settled, so
  `updating`, `loading` and `deleting` are observed only before and after a handler. The
  status buttons' guard (`StatusButtonEnabled`) is modelled. The delete button's
  `disabled={deleting === id}` is left out, because `deleting` is set only while a request is
  in flight, and the atomic model never shows that moment.
- Routing, timers and dialogs are left out: `navigate`, the redirect when no freelancer or job
  is passed, the two-second redirect after a submission, `alert`, and the chat buttons. The
  window's confirm dialog is a boolean argument.
- Rendering, CSS classes, inline styles and the image fallback are left out.
  `getStatusBadgeClass` and the `disabled=` conditions are kept. `getPriorityBadgeClass` is
  also left out: it is rendering only.
- Dates are left out: `new Date()`, `toLocaleDateString` and `toLocaleString`. Timestamps are
  opaque numbers, and the update time is an argument.
- The job budget's `toFixed(2)` formatting is left out: it is floating-point output.
- Text.Lower: lower-casing is the ASCII fold. JavaScript's `toLowerCase` also folds other
  scripts and can change a string's length.
- String lengths count characters. JavaScript counts UTF-16 code units, so a character outside
  the Basic Multilingual Plane counts twice in the source's length checks.
- Statuses, priorities and complainant types are enumerations. A record with some other
  string from the server is not modelled.
- A record whose searched field is null would make the source's `toLowerCase` throw. The
  model's records always hold strings.
- The subject input's `maxLength="200"` is left out. It is in
  src/pages/Employer/ComplaintForm/ComplaintForm.jsx:232 and
  src/pages/Freelancer/ComplaintForm.jsx:225, and it stops typing at 200 characters.
  `HandleChange` accepts a value of any length. So the "must not exceed 200" message, which
  the browser makes unreachable by typing, stays reachable in the model.
- The `console.error` and `console.log` diagnostics are left out, because they change no page
  state.
