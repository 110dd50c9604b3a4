/**
 * The admin freelancers table: a case-insensitive search over the name, email or location, and
 * deletion of one freelancer after the administrator confirms and the server agrees.
 */
module AdminFreelancers {
  import opened Wrappers
  import opened Http
  import opened Text
  import Seqs

  datatype Freelancer = Freelancer(
    freelancerId: string,
    name: string,
    email: string,
    location: string)

  /**
   * The search test of `filteredFreelancers`: the term occurs, ignoring case, in
   * the name, email or location.
   */
  predicate FreelancerMatches(r: Freelancer, term: string) {
    || IncludesIgnoringCase(r.name, term)
    || IncludesIgnoringCase(r.email, term)
    || IncludesIgnoringCase(r.location, term)
  }

  /** `filteredFreelancers`. */
  function FilterFreelancers(rs: seq<Freelancer>, term: string): seq<Freelancer> {
    Seqs.Filter(rs, r => FreelancerMatches(r, term))
  }

  /**
   * A freelancer is listed iff the term occurs in the name, email or location; the listing keeps
   * the original order and every occurrence of a listed freelancer.
   */
  lemma {:induction false} FilterFreelancersSpec(rs: seq<Freelancer>, term: string)
    ensures Seqs.IsSubsequence(FilterFreelancers(rs, term), rs)
    ensures forall r :: multiset(FilterFreelancers(rs, term))[r] == if FreelancerMatches(r, term) then multiset(rs)[r] else 0
    ensures forall r :: r in FilterFreelancers(rs, term) <==>
      && r in rs
      && (|| Contains(Lower(r.name), Lower(term))
          || Contains(Lower(r.email), Lower(term))
          || Contains(Lower(r.location), Lower(term)))
  {
    Seqs.FilterSpec(rs, r => FreelancerMatches(r, term));
  }

  /** An empty search term lists every freelancer, in order. */
  lemma {:induction false} EmptySearchListsFreelancers(rs: seq<Freelancer>)
    ensures FilterFreelancers(rs, "") == rs
  {
    forall i | 0 <= i < |rs| ensures FreelancerMatches(rs[i], "") {
      assert Lower("") == "";
      ContainsEmpty(Lower(rs[i].name));
    }
    Seqs.FilterKeepsAll(rs, r => FreelancerMatches(r, ""));
  }

  /** `freelancers.filter(x => x.freelancerId !== id)`. */
  function RemoveFreelancer(rs: seq<Freelancer>, id: string): seq<Freelancer> {
    Seqs.Filter(rs, (r: Freelancer) => r.freelancerId != id)
  }

  /**
   * Deleting removes exactly the freelancers with the id and keeps every other
   * one, each as often as before and in the original order.
   */
  lemma {:induction false} RemoveFreelancerSpec(rs: seq<Freelancer>, id: string)
    ensures Seqs.IsSubsequence(RemoveFreelancer(rs, id), rs)
    ensures forall r :: multiset(RemoveFreelancer(rs, id))[r] == if r.freelancerId != id then multiset(rs)[r] else 0
    ensures forall r :: r in RemoveFreelancer(rs, id) <==> r in rs && r.freelancerId != id
  {
    Seqs.FilterSpec(rs, (r: Freelancer) => r.freelancerId != id);
  }

  /**
   * Deleting and searching can be applied in either order: the rows a search
   * shows after a delete are the rows it showed before, without the deleted freelancer.
   */
  lemma SearchAfterDelete(rs: seq<Freelancer>, term: string, id: string)
    ensures FilterFreelancers(RemoveFreelancer(rs, id), term) == RemoveFreelancer(FilterFreelancers(rs, term), id)
  {
    Seqs.FilterCommutes(rs, (r: Freelancer) => r.freelancerId != id, r => FreelancerMatches(r, term));
  }

  const LoadFailedMessage := "Failed to load freelancers. Please try again."

  /** The state of `AdminFreelancers`. */
  class FreelancersPage {
    var freelancers: seq<Freelancer>
    var loading: bool
    var error: Option<string>
    var searchTerm: string
    var deleting: Option<string>

    /** The initial `useState` values. */
    constructor ()
      ensures freelancers == [] && loading && error == None && searchTerm == "" && deleting == None
    {
      freelancers := [];
      loading := true;
      error := None;
      searchTerm := "";
      deleting := None;
    }

    /** The rows of the table. */
    function Listed(): seq<Freelancer>
      reads this
    {
      FilterFreelancers(freelancers, searchTerm)
    }


    /** The search box's `onChange`. */
    method SetSearchTerm(term: string)
      modifies this`searchTerm
      ensures searchTerm == term
    {
      searchTerm := term;
    }

    /**
     * `fetchFreelancers`, once the request has settled: the error is cleared first; a
     * successful reply replaces the list (an absent list reads as empty); a
     * reply without `success` changes nothing; a failed call sets the fixed
     * message and keeps the list. Loading is over in every case.
     */
    method FetchFreelancers(response: Response<Option<seq<Freelancer>>>)
      modifies this`freelancers, this`loading, this`error
      ensures freelancers == (if response.Succeeded() then response.payload.GetOr([]) else old(freelancers))
      ensures error == (if response.Failed? then Some(LoadFailedMessage) else None)
      ensures !loading
    {
      loading := true;
      error := None;
      match response {
        case Answered(success, payload) =>
          if success {
            freelancers := payload.GetOr([]);
          }
        case Failed(_) =>
          error := Some(LoadFailedMessage);
      }
      loading := false;
    }

    /**
     * `handleDeleteFreelancer(id, name)`, once the DELETE (if any) has settled. Declining
     * the confirmation changes nothing. Otherwise a successful reply removes
     * the freelancers with the id; anything else keeps the list. `deleting` is
     * null afterwards.
     */
    method DeleteFreelancer(id: string, confirmed: bool, response: Response<()>)
      modifies this`freelancers, this`deleting
      ensures !confirmed ==> freelancers == old(freelancers) && deleting == old(deleting)
      ensures confirmed ==> deleting == None
      ensures confirmed ==> freelancers == (if response.Succeeded() then RemoveFreelancer(old(freelancers), id) else old(freelancers))
      ensures confirmed && response.Succeeded() ==> Listed() == RemoveFreelancer(old(Listed()), id)
    {
      if !confirmed {
        return;
      }
      deleting := Some(id);
      if response.Succeeded() {
        freelancers := RemoveFreelancer(freelancers, id);
        SearchAfterDelete(old(freelancers), searchTerm, id);
      }
      deleting := None;
    }
  }
}
