/** The customer list page: the in-memory search box, ten customers to a
    page, deleting a customer, and the explicit search that asks the server.
    The replies of the server calls are parameters. */
module Customers {
  import opened Base
  import opened Text
  import opened Schemas
  import CrudQueries
  import FormKit

  const PerPage: int := 10

  // ---------------------------------------------------------------------
  // The search box

  /** A customer matches a term when the lower-cased term occurs in the
      lower-cased first name, last name, email or driver licence, or the term
      as typed occurs in the phone number.  The term is not trimmed. */
  predicate MatchesTerm(c: Customer, term: string)
  {
    || ContainsIgnoringCase(c.info.firstName, term)
    || ContainsIgnoringCase(c.info.lastName, term)
    || ContainsIgnoringCase(c.info.email, term)
    || Contains(c.info.phone, term)
    || ContainsIgnoringCase(c.info.driverLicense, term)
  }

  /** The list the search effect leaves on the page: everything for a blank
      term, else the matching customers in their order. */
  function Visible(customers: seq<Customer>, term: string): (r: seq<Customer>)
    ensures IsBlank(term) ==> r == customers
    ensures !IsBlank(term) ==> forall i :: 0 <= i < |r| ==> r[i] in customers && MatchesTerm(r[i], term)
    ensures !IsBlank(term) ==> forall i :: 0 <= i < |customers| && MatchesTerm(customers[i], term) ==> customers[i] in r
  {
    if IsBlank(term) then customers else Filter(customers, (c: Customer) => MatchesTerm(c, term))
  }

  /** The search only ever drops customers; the rest keep their order. */
  lemma VisibleIsSubsequence(customers: seq<Customer>, term: string)
    ensures IsSubsequence(Visible(customers, term), customers)
  {
    if IsBlank(term) {
      SubsequenceOfItself(customers);
    } else {
      FilterIsSubsequence(customers, (c: Customer) => MatchesTerm(c, term));
    }
  }

  /** A case-sensitive occurrence is also a case-insensitive one. */
  lemma ContainsThenContainsIgnoringCase(s: string, t: string)
    requires Contains(s, t)
    ensures ContainsIgnoringCase(s, t)
  {
    var i :| 0 <= i <= |s| && OccursAt(s, t, i);
    assert Lower(s)[i..i + |t|] == Lower(t);
    assert OccursAt(Lower(s), Lower(t), i);
  }

  /** Every customer the page's filter keeps on account of the names, the
      email or the phone is one the server's search would also return; only
      a match on the driver licence is the page's own. */
  lemma PageMatchWithoutLicenceIsServerMatch(c: Customer, term: string)
    requires MatchesTerm(c, term) && !ContainsIgnoringCase(c.info.driverLicense, term)
    ensures CrudQueries.CustomerMatchesSearch(c, term)
  {
    if Contains(c.info.phone, term) {
      ContainsThenContainsIgnoringCase(c.info.phone, term);
    }
  }

  // ---------------------------------------------------------------------
  // Pagination

  /** The customers page p shows: `slice((p - 1) * 10, p * 10)`. */
  function PageSlice<T>(s: seq<T>, p: int): (r: seq<T>)
    requires p >= 1
    ensures |r| <= PerPage
    ensures forall i :: 0 <= i < |r| ==> (p - 1) * PerPage + i < |s| && r[i] == s[(p - 1) * PerPage + i]
  {
    OffsetLimit(s, (p - 1) * PerPage, PerPage)
  }

  /** totalPages: `Math.ceil(n / 10)`. */
  function PageCount(n: nat): (c: nat)
    ensures PerPage * (c - 1) < n <= PerPage * c
  {
    CeilDivPositive(n, PerPage);
    CeilDiv(n, PerPage)
  }

  /** Pages 1 to k, one after another. */
  function PagesUpTo<T>(s: seq<T>, k: nat): seq<T>
  {
    if k == 0 then [] else PagesUpTo(s, k - 1) + PageSlice(s, k)
  }

  lemma {:induction false} PagesUpToPrefix<T>(s: seq<T>, k: nat)
    requires k <= PageCount(|s|)
    ensures PagesUpTo(s, k) == s[..if PerPage * k <= |s| then PerPage * k else |s|]
  {
    if k > 0 {
      PagesUpToPrefix(s, k - 1);
      var lo := PerPage * (k - 1);
      var hi := if PerPage * k <= |s| then PerPage * k else |s|;
      assert lo < |s|;
      assert PageSlice(s, k) == s[lo..hi];
      assert s[..lo] + s[lo..hi] == s[..hi];
    }
  }

  /** The pages partition the list: read one after another, pages 1 to
      totalPages give back the whole list in order, each customer once. */
  lemma PagesPartitionList<T>(s: seq<T>)
    ensures PagesUpTo(s, PageCount(|s|)) == s
  {
    PagesUpToPrefix(s, PageCount(|s|));
    assert s[..|s|] == s;
  }

  /** Customer i is shown on page i / 10 + 1, at row i % 10. */
  lemma ItemOnItsPage<T>(s: seq<T>, i: int)
    requires 0 <= i < |s|
    ensures 1 <= i / PerPage + 1 <= PageCount(|s|)
    ensures |PageSlice(s, i / PerPage + 1)| > i % PerPage
    ensures PageSlice(s, i / PerPage + 1)[i % PerPage] == s[i]
  {
    assert PerPage * (i / PerPage) <= i;
  }

  /** The page buttons appear only when there is more than one page, that
      is when there are more than ten customers. */
  predicate ShowsPagination(n: nat)
  {
    PageCount(n) > 1
  }

  lemma PaginationShownIffMoreThanOnePage(n: nat)
    ensures ShowsPagination(n) <==> n > PerPage
  {
    var c := PageCount(n);
    if c > 1 {
      assert PerPage * c >= PerPage * 2;
    }
  }

  /** Previous is disabled on page 1, Next on the last page. */
  predicate PreviousDisabled(page: int)
  {
    page == 1
  }

  predicate NextDisabled(page: int, n: nat)
  {
    page == PageCount(n)
  }

  /** Every enabled Previous or Next button leads to a page that exists. */
  lemma EnabledButtonsStayInRange(page: int, n: nat)
    requires ShowsPagination(n) && 1 <= page <= PageCount(n)
    ensures !PreviousDisabled(page) ==> 1 <= page - 1 <= PageCount(n)
    ensures !NextDisabled(page, n) ==> 1 <= page + 1 <= PageCount(n)
  {
  }

  // ---------------------------------------------------------------------
  // Deleting

  /** The list after deleting customer id: `filter(c => c.customer_id !== id)`. */
  function WithoutCustomer(customers: seq<Customer>, id: int): (r: seq<Customer>)
    ensures forall i :: 0 <= i < |r| ==> r[i].customerId != id && r[i] in customers
    ensures forall i :: 0 <= i < |customers| && customers[i].customerId != id ==> customers[i] in r
  {
    Filter(customers, (c: Customer) => c.customerId != id)
  }

  /** Deleting keeps the other customers in their order. */
  lemma WithoutCustomerKeepsOrder(customers: seq<Customer>, id: int)
    ensures IsSubsequence(WithoutCustomer(customers, id), customers)
  {
    FilterIsSubsequence(customers, (c: Customer) => c.customerId != id);
  }

  /** Deleting a customer that is not listed changes nothing. */
  lemma WithoutAbsentCustomer(customers: seq<Customer>, id: int)
    requires forall i :: 0 <= i < |customers| ==> customers[i].customerId != id
    ensures WithoutCustomer(customers, id) == customers
  {
    FilterAll(customers, (c: Customer) => c.customerId != id);
  }

  const LoadFailed := "Failed to load customers"
  const SearchFailed := "Failed to search customers"
  const DeleteFailed := "Failed to delete customer"

  class Page {
    var customers: seq<Customer>
    var filteredCustomers: seq<Customer>
    var searchTerm: string
    var currentPage: int
    var loading: bool
    var error: Option<string>
    /** The last alert shown. */
    var alerted: Option<string>

    predicate Valid()
      reads this
    {
      currentPage >= 1
    }

    constructor()
      ensures Valid()
      ensures customers == [] && filteredCustomers == [] && searchTerm == "" && currentPage == 1
      ensures loading && error.None? && alerted.None?
    {
      customers := [];
      filteredCustomers := [];
      searchTerm := "";
      currentPage := 1;
      loading := true;
      error := None;
      alerted := None;
    }

    /** The customers shown on the current page. */
    function CurrentCustomers(): (r: seq<Customer>)
      requires Valid()
      reads this
      ensures |r| <= PerPage
      ensures forall i :: 0 <= i < |r| ==>
                (currentPage - 1) * PerPage + i < |filteredCustomers|
                && r[i] == filteredCustomers[(currentPage - 1) * PerPage + i]
    {
      PageSlice(filteredCustomers, currentPage)
    }

    /** The effect that runs whenever the term or the list changes: filter
        the list and go back to page 1. */
    method SearchEffect()
      modifies this`filteredCustomers, this`currentPage
      ensures Valid()
      ensures filteredCustomers == Visible(customers, searchTerm) && currentPage == 1
    {
      var term := searchTerm;
      if IsBlank(term) {
        filteredCustomers := customers;
      } else {
        filteredCustomers := Filter(customers, (c: Customer) => MatchesTerm(c, term));
      }
      currentPage := 1;
    }

    /** Typing in the search box; an unchanged term does not rerun the
        effect. */
    method SetSearchTerm(term: string)
      requires Valid()
      modifies this`searchTerm, this`filteredCustomers, this`currentPage
      ensures Valid() && searchTerm == term
      ensures term != old(searchTerm) ==> filteredCustomers == Visible(customers, term) && currentPage == 1
      ensures term == old(searchTerm) ==>
        filteredCustomers == old(filteredCustomers) && currentPage == old(currentPage)
    {
      if term != searchTerm {
        searchTerm := term;
        SearchEffect();
      }
    }

    /** fetchCustomers, with the reply as a parameter (None when the call
        failed).  A new list reruns the search effect. */
    method FetchCustomers(reply: Option<seq<Customer>>)
      requires Valid()
      modifies this`customers, this`filteredCustomers, this`currentPage, this`loading, this`error
      ensures Valid() && !loading
      ensures reply.None? ==>
        && error == Some(LoadFailed) && customers == old(customers)
        && filteredCustomers == old(filteredCustomers) && currentPage == old(currentPage)
      ensures reply.Some? ==>
        && error.None? && customers == reply.value
        && filteredCustomers == Visible(reply.value, searchTerm) && currentPage == 1
    {
      loading := true;
      error := None;
      match reply {
        case None =>
          error := Some(LoadFailed);
        case Some(data) =>
          customers := data;
          filteredCustomers := data;
          SearchEffect();
      }
      loading := false;
    }

    /** handleDelete, with the user's answer to the confirmation and the
        outcome of the delete call (None when it succeeded; ignored when the
        user declined). */
    method HandleDelete(id: int, confirmed: bool, outcome: Option<FormKit.ApiFailure>)
      requires Valid()
      modifies this`customers, this`filteredCustomers, this`currentPage, this`alerted
      ensures Valid()
      ensures !confirmed || outcome.Some? ==>
        customers == old(customers) && filteredCustomers == old(filteredCustomers) && currentPage == old(currentPage)
      ensures !confirmed ==> alerted == old(alerted)
      ensures confirmed && outcome.Some? ==> alerted == Some(DeleteFailed)
      ensures confirmed && outcome.None? ==>
        && customers == WithoutCustomer(old(customers), id) && alerted == old(alerted)
        && filteredCustomers == Visible(customers, searchTerm) && currentPage == 1
    {
      if !confirmed {
        return;
      }
      if outcome.None? {
        customers := Filter(customers, (c: Customer) => c.customerId != id);
        SearchEffect();
      } else {
        alerted := Some(DeleteFailed);
      }
    }

    /** handleSearch, with the reply of the call it makes as a parameter: a
        blank term reloads the whole list, any other asks the server and
        puts its results in place of the list, merging nothing. */
    method HandleSearch(reply: Option<seq<Customer>>)
      requires Valid()
      modifies this`customers, this`filteredCustomers, this`currentPage, this`loading, this`error
      ensures Valid() && !loading
      ensures reply.None? && IsBlank(searchTerm) ==> error == Some(LoadFailed)
      ensures reply.None? && !IsBlank(searchTerm) ==> error == Some(SearchFailed)
      ensures reply.None? ==>
        customers == old(customers) && filteredCustomers == old(filteredCustomers) && currentPage == old(currentPage)
      ensures reply.Some? ==>
        customers == reply.value && filteredCustomers == Visible(reply.value, searchTerm) && currentPage == 1
      ensures reply.Some? && IsBlank(searchTerm) ==> error.None?
      ensures reply.Some? && !IsBlank(searchTerm) ==> error == old(error)
    {
      if IsBlank(searchTerm) {
        FetchCustomers(reply);
        return;
      }
      loading := true;
      match reply {
        case None =>
          error := Some(SearchFailed);
        case Some(results) =>
          customers := results;
          filteredCustomers := results;
          SearchEffect();
      }
      loading := false;
    }

    /** A page button: Previous, Next or a page number, each of which names
        a page from 1 up. */
    method Paginate(p: int)
      requires p >= 1
      modifies this`currentPage
      ensures Valid() && currentPage == p
    {
      currentPage := p;
    }
  }
}
