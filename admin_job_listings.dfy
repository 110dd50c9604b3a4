/**
 * The admin job listings table: a case-insensitive search over the title,
 * employer name, company name or location, and deletion of one job after the
 * administrator confirms and the server agrees.
 */
module AdminJobListings {
  import opened Wrappers
  import opened Http
  import opened Text
  import Seqs

  datatype Job = Job(
    jobId: string,
    title: string,
    employerName: string,
    companyName: string,
    location: string)

  /**
   * The search test of `filteredJobs`: the term occurs, ignoring case, in the
   * title, employer name, company name or location.
   */
  predicate JobMatches(r: Job, term: string) {
    || IncludesIgnoringCase(r.title, term)
    || IncludesIgnoringCase(r.employerName, term)
    || IncludesIgnoringCase(r.companyName, term)
    || IncludesIgnoringCase(r.location, term)
  }

  /** `filteredJobs`. */
  function FilterJobs(rs: seq<Job>, term: string): seq<Job> {
    Seqs.Filter(rs, r => JobMatches(r, term))
  }

  /**
   * A job is listed iff the term occurs in the title, employer name, company
   * name or location; the listing keeps the original order and every occurrence
   * of a listed job.
   */
  lemma {:induction false} FilterJobsSpec(rs: seq<Job>, term: string)
    ensures Seqs.IsSubsequence(FilterJobs(rs, term), rs)
    ensures forall r :: multiset(FilterJobs(rs, term))[r] == if JobMatches(r, term) then multiset(rs)[r] else 0
    ensures forall r :: r in FilterJobs(rs, term) <==>
      && r in rs
      && (|| Contains(Lower(r.title), Lower(term))
          || Contains(Lower(r.employerName), Lower(term))
          || Contains(Lower(r.companyName), Lower(term))
          || Contains(Lower(r.location), Lower(term)))
  {
    Seqs.FilterSpec(rs, r => JobMatches(r, term));
  }

  /** An empty search term lists every job, in order. */
  lemma {:induction false} EmptySearchListsJobs(rs: seq<Job>)
    ensures FilterJobs(rs, "") == rs
  {
    forall i | 0 <= i < |rs| ensures JobMatches(rs[i], "") {
      assert Lower("") == "";
      ContainsEmpty(Lower(rs[i].title));
    }
    Seqs.FilterKeepsAll(rs, r => JobMatches(r, ""));
  }

  /** `jobs.filter(x => x.jobId !== id)`. */
  function RemoveJob(rs: seq<Job>, id: string): seq<Job> {
    Seqs.Filter(rs, (r: Job) => r.jobId != id)
  }

  /**
   * Deleting removes exactly the jobs with the id and keeps every other
   * one, each as often as before and in the original order.
   */
  lemma {:induction false} RemoveJobSpec(rs: seq<Job>, id: string)
    ensures Seqs.IsSubsequence(RemoveJob(rs, id), rs)
    ensures forall r :: multiset(RemoveJob(rs, id))[r] == if r.jobId != id then multiset(rs)[r] else 0
    ensures forall r :: r in RemoveJob(rs, id) <==> r in rs && r.jobId != id
  {
    Seqs.FilterSpec(rs, (r: Job) => r.jobId != id);
  }

  /**
   * Deleting and searching can be applied in either order: the rows a search
   * shows after a delete are the rows it showed before, without the deleted job.
   */
  lemma SearchAfterDelete(rs: seq<Job>, term: string, id: string)
    ensures FilterJobs(RemoveJob(rs, id), term) == RemoveJob(FilterJobs(rs, term), id)
  {
    Seqs.FilterCommutes(rs, (r: Job) => r.jobId != id, r => JobMatches(r, term));
  }

  const LoadFailedMessage := "Failed to load job listings. Please try again."

  /** The state of `AdminJobListings`. */
  class JobListingsPage {
    var jobs: seq<Job>
    var loading: bool
    var error: Option<string>
    var searchTerm: string
    var deleting: Option<string>

    /** The initial `useState` values. */
    constructor ()
      ensures jobs == [] && loading && error == None && searchTerm == "" && deleting == None
    {
      jobs := [];
      loading := true;
      error := None;
      searchTerm := "";
      deleting := None;
    }

    /** The rows of the table. */
    function Listed(): seq<Job>
      reads this
    {
      FilterJobs(jobs, searchTerm)
    }


    /** The search box's `onChange`. */
    method SetSearchTerm(term: string)
      modifies this`searchTerm
      ensures searchTerm == term
    {
      searchTerm := term;
    }

    /**
     * `fetchJobs`, once the request has settled: the error is cleared first; a
     * successful reply replaces the list (an absent list reads as empty); a
     * reply without `success` changes nothing; a failed call sets the fixed
     * message and keeps the list. Loading is over in every case.
     */
    method FetchJobs(response: Response<Option<seq<Job>>>)
      modifies this`jobs, this`loading, this`error
      ensures jobs == (if response.Succeeded() then response.payload.GetOr([]) else old(jobs))
      ensures error == (if response.Failed? then Some(LoadFailedMessage) else None)
      ensures !loading
    {
      loading := true;
      error := None;
      match response {
        case Answered(success, payload) =>
          if success {
            jobs := payload.GetOr([]);
          }
        case Failed(_) =>
          error := Some(LoadFailedMessage);
      }
      loading := false;
    }

    /**
     * `handleDeleteJob(id, name)`, once the DELETE (if any) has settled. Declining
     * the confirmation changes nothing. Otherwise a successful reply removes
     * the jobs with the id; anything else keeps the list. `deleting` is
     * null afterwards.
     */
    method DeleteJob(id: string, confirmed: bool, response: Response<()>)
      modifies this`jobs, this`deleting
      ensures !confirmed ==> jobs == old(jobs) && deleting == old(deleting)
      ensures confirmed ==> deleting == None
      ensures confirmed ==> jobs == (if response.Succeeded() then RemoveJob(old(jobs), id) else old(jobs))
      ensures confirmed && response.Succeeded() ==> Listed() == RemoveJob(old(Listed()), id)
    {
      if !confirmed {
        return;
      }
      deleting := Some(id);
      if response.Succeeded() {
        jobs := RemoveJob(jobs, id);
        SearchAfterDelete(old(jobs), searchTerm, id);
      }
      deleting := None;
    }
  }
}
