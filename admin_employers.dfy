/**
 * The admin employers table: a case-insensitive search over the name, email or company name, and
 * deletion of one employer after the administrator confirms and the server agrees.
 */
module AdminEmployers {
  import opened Wrappers
  import opened Http
  import opened Text
  import Seqs

  datatype Employer = Employer(
    employerId: string,
    name: string,
    email: string,
    companyName: string)

  /**
   * The search test of `filteredEmployers`: the term occurs, ignoring case, in
   * the name, email or company name.
   */
  predicate EmployerMatches(r: Employer, term: string) {
    || IncludesIgnoringCase(r.name, term)
    || IncludesIgnoringCase(r.email, term)
    || IncludesIgnoringCase(r.companyName, term)
  }

  /** `filteredEmployers`. */
  function FilterEmployers(rs: seq<Employer>, term: string): seq<Employer> {
    Seqs.Filter(rs, r => EmployerMatches(r, term))
  }

  /**
   * A employer is listed iff the term occurs in the name, email or company name; the listing keeps
   * the original order and every occurrence of a listed employer.
   */
  lemma {:induction false} FilterEmployersSpec(rs: seq<Employer>, term: string)
    ensures Seqs.IsSubsequence(FilterEmployers(rs, term), rs)
    ensures forall r :: multiset(FilterEmployers(rs, term))[r] == if EmployerMatches(r, term) then multiset(rs)[r] else 0
    ensures forall r :: r in FilterEmployers(rs, term) <==>
      && r in rs
      && (|| Contains(Lower(r.name), Lower(term))
          || Contains(Lower(r.email), Lower(term))
          || Contains(Lower(r.companyName), Lower(term)))
  {
    Seqs.FilterSpec(rs, r => EmployerMatches(r, term));
  }

  /** An empty search term lists every employer, in order. */
  lemma {:induction false} EmptySearchListsEmployers(rs: seq<Employer>)
    ensures FilterEmployers(rs, "") == rs
  {
    forall i | 0 <= i < |rs| ensures EmployerMatches(rs[i], "") {
      assert Lower("") == "";
      ContainsEmpty(Lower(rs[i].name));
    }
    Seqs.FilterKeepsAll(rs, r => EmployerMatches(r, ""));
  }

  /** `employers.filter(x => x.employerId !== id)`. */
  function RemoveEmployer(rs: seq<Employer>, id: string): seq<Employer> {
    Seqs.Filter(rs, (r: Employer) => r.employerId != id)
  }

  /**
   * Deleting removes exactly the employers with the id and keeps every other
   * one, each as often as before and in the original order.
   */
  lemma {:induction false} RemoveEmployerSpec(rs: seq<Employer>, id: string)
    ensures Seqs.IsSubsequence(RemoveEmployer(rs, id), rs)
    ensures forall r :: multiset(RemoveEmployer(rs, id))[r] == if r.employerId != id then multiset(rs)[r] else 0
    ensures forall r :: r in RemoveEmployer(rs, id) <==> r in rs && r.employerId != id
  {
    Seqs.FilterSpec(rs, (r: Employer) => r.employerId != id);
  }

  /**
   * Deleting and searching can be applied in either order: the rows a search
   * shows after a delete are the rows it showed before, without the deleted employer.
   */
  lemma SearchAfterDelete(rs: seq<Employer>, term: string, id: string)
    ensures FilterEmployers(RemoveEmployer(rs, id), term) == RemoveEmployer(FilterEmployers(rs, term), id)
  {
    Seqs.FilterCommutes(rs, (r: Employer) => r.employerId != id, r => EmployerMatches(r, term));
  }

  const LoadFailedMessage := "Failed to load employers. Please try again."

  /** The state of `AdminEmployers`. */
  class EmployersPage {
    var employers: seq<Employer>
    var loading: bool
    var error: Option<string>
    var searchTerm: string
    var deleting: Option<string>

    /** The initial `useState` values. */
    constructor ()
      ensures employers == [] && loading && error == None && searchTerm == "" && deleting == None
    {
      employers := [];
      loading := true;
      error := None;
      searchTerm := "";
      deleting := None;
    }

    /** The rows of the table. */
    function Listed(): seq<Employer>
      reads this
    {
      FilterEmployers(employers, searchTerm)
    }


    /** The search box's `onChange`. */
    method SetSearchTerm(term: string)
      modifies this`searchTerm
      ensures searchTerm == term
    {
      searchTerm := term;
    }

    /**
     * `fetchEmployers`, once the request has settled: the error is cleared first; a
     * successful reply replaces the list (an absent list reads as empty); a
     * reply without `success` changes nothing; a failed call sets the fixed
     * message and keeps the list. Loading is over in every case.
     */
    method FetchEmployers(response: Response<Option<seq<Employer>>>)
      modifies this`employers, this`loading, this`error
      ensures employers == (if response.Succeeded() then response.payload.GetOr([]) else old(employers))
      ensures error == (if response.Failed? then Some(LoadFailedMessage) else None)
      ensures !loading
    {
      loading := true;
      error := None;
      match response {
        case Answered(success, payload) =>
          if success {
            employers := payload.GetOr([]);
          }
        case Failed(_) =>
          error := Some(LoadFailedMessage);
      }
      loading := false;
    }

    /**
     * `handleDeleteEmployer(id, name)`, once the DELETE (if any) has settled. Declining
     * the confirmation changes nothing. Otherwise a successful reply removes
     * the employers with the id; anything else keeps the list. `deleting` is
     * null afterwards.
     */
    method DeleteEmployer(id: string, confirmed: bool, response: Response<()>)
      modifies this`employers, this`deleting
      ensures !confirmed ==> employers == old(employers) && deleting == old(deleting)
      ensures confirmed ==> deleting == None
      ensures confirmed ==> employers == (if response.Succeeded() then RemoveEmployer(old(employers), id) else old(employers))
      ensures confirmed && response.Succeeded() ==> Listed() == RemoveEmployer(old(Listed()), id)
    {
      if !confirmed {
        return;
      }
      deleting := Some(id);
      if response.Succeeded() {
        employers := RemoveEmployer(employers, id);
        SearchAfterDelete(old(employers), searchTerm, id);
      }
      deleting := None;
    }
  }
}
