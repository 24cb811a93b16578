/** The experts screen: every expert fetched at once, narrowed by search
    and month, paged on the client ten rows at a time, with a button for
    every page. */
module ExpertsScreen {
  import opened Text
  import opened Collections
  import opened Pagination
  import opened Listing
  import opened Responses

  /** An expert account; a missing status is "". */
  datatype Expert = Expert(
    id: string,
    firstName: string,
    lastName: string,
    email: string,
    createdAt: string,
    status: string)

  const PageSize: nat := 10

  /** The search looks at "first last" as typed and at the email. */
  predicate SearchHit(e: Expert, term: string) {
    Matches(e.firstName + " " + e.lastName, term) || Matches(e.email, term)
  }

  predicate MonthHit(e: Expert, month: string, monthOf: string -> string) {
    monthOf(e.createdAt) == month
  }

  predicate Keep(e: Expert, term: string, month: string, monthOf: string -> string) {
    (term == "" || SearchHit(e, term)) && (!MonthFilterOn(month) || MonthHit(e, month, monthOf))
  }

  function SearchFn(term: string): Expert -> bool {
    e => SearchHit(e, term)
  }

  function MonthFn(month: string, monthOf: string -> string): Expert -> bool {
    e => MonthHit(e, month, monthOf)
  }

  function KeepFn(term: string, month: string, monthOf: string -> string): Expert -> bool {
    e => Keep(e, term, month, monthOf)
  }

  /** The filter effect's result, as one filter. */
  function Filtered(experts: seq<Expert>, term: string, month: string, monthOf: string -> string): seq<Expert> {
    Filter(experts, KeepFn(term, month, monthOf))
  }

  lemma FilteredStepwise(experts: seq<Expert>, term: string, month: string, monthOf: string -> string)
    ensures Filtered(experts, term, month, monthOf)
      == Narrow(Narrow(experts, term != "", SearchFn(term)), MonthFilterOn(month), MonthFn(month, monthOf))
  {
    NarrowTwice(experts, term != "", SearchFn(term), MonthFilterOn(month), MonthFn(month, monthOf), KeepFn(term, month, monthOf));
  }

  /** The filtered list keeps the fetched order and holds exactly the
      experts matching the term (when one is typed) and created in the
      selected month (when one is picked). */
  lemma FilteredMeaning(experts: seq<Expert>, term: string, month: string, monthOf: string -> string)
    ensures IsSubsequence(Filtered(experts, term, month, monthOf), experts)
    ensures forall e :: e in Filtered(experts, term, month, monthOf) <==>
      e in experts
      && (term == "" || SearchHit(e, term))
      && (!MonthFilterOn(month) || monthOf(e.createdAt) == month)
    ensures term == "" && !MonthFilterOn(month) ==> Filtered(experts, term, month, monthOf) == experts
  {
    FilterIsSubsequence(experts, KeepFn(term, month, monthOf));
    if term == "" && !MonthFilterOn(month) {
      FilterAll(experts, KeepFn(term, month, monthOf));
    }
  }

  /** `getFullName`: the trimmed full name, else "N/A". */
  function DisplayName(e: Expert): (r: string)
    ensures r != ""
    ensures FullName(e.firstName, e.lastName) != "" ==> r == FullName(e.firstName, e.lastName)
    ensures FullName(e.firstName, e.lastName) == "" ==> r == "N/A"
  {
    OrElse(FullName(e.firstName, e.lastName), "N/A")
  }

  /** The status text defaults to "Active" when the expert has none. */
  function StatusText(e: Expert): (r: string)
    ensures r != ""
    ensures e.status == "" ==> r == "Active"
    ensures e.status != "" ==> r == e.status
  {
    OrElse(e.status, "Active")
  }

  /** `getStatusBadge`: green for "Active" exactly, yellow otherwise. */
  function StatusTone(e: Expert): (t: Tone)
    ensures t == Green <==> StatusText(e) == "Active"
    ensures t == Yellow <==> StatusText(e) != "Active"
  {
    if StatusText(e) == "Active" then Green else Yellow
  }

  /** The screen's state: the fetched experts, the filter inputs, the
      filtered list and the current page. */
  class Screen {
    /** The month name of a date, `toLocaleDateString("en-US", { month: "long" })`. */
    const monthOf: string -> string
    var experts: seq<Expert>
    var filteredExperts: seq<Expert>
    var searchTerm: string
    var selectedMonth: string
    var currentPage: int

    /** The filtered list is the effect's result, and the current page is
        page 1 or a real page. */
    predicate Valid()
      reads this
    {
      filteredExperts == Filtered(experts, searchTerm, selectedMonth, monthOf)
      && currentPage >= 1
      && (currentPage == 1 || currentPage <= PageCount())
    }

    function PageCount(): nat
      reads this
    {
      TotalPages(|filteredExperts|, PageSize)
    }

    function PageRows(): (rows: seq<Expert>)
      reads this
      ensures |rows| <= PageSize
      ensures currentPage >= 1 ==> forall k :: 0 <= k < |rows| ==>
        (currentPage - 1) * PageSize + k < |filteredExperts| &&
        rows[k] == filteredExperts[(currentPage - 1) * PageSize + k]
    {
      PageSliceSize(filteredExperts, currentPage, PageSize);
      if currentPage >= 1 then
        PageSliceRows(filteredExperts, currentPage, PageSize);
        PageSlice(filteredExperts, currentPage, PageSize)
      else
        PageSlice(filteredExperts, currentPage, PageSize)
    }

    /** One button per page. */
    function Buttons(): seq<int>
      reads this
    {
      PageList(PageCount())
    }

    /** "Showing a–b out of n", both bounds clamped to the filtered count. */
    function Showing(): (int, int)
      reads this
    {
      ClampedShowing(currentPage, PageSize, |filteredExperts|)
    }

    /** " (filtered from n total)" is appended when the filter removed rows. */
    predicate FilteredNote()
      reads this
    {
      |experts| != |filteredExperts|
    }

    /** The buttons are exactly the real pages, and the range shown counts
        the rows of the page; an empty list reads "Showing 0–0". */
    lemma ButtonsAreRealPages()
      requires Valid()
      ensures forall p :: p in Buttons() <==> 1 <= p <= PageCount()
      ensures |filteredExperts| > 0 ==> Showing().1 - Showing().0 + 1 == |PageRows()|
      ensures |filteredExperts| == 0 ==> Showing() == (0, 0) && Buttons() == []
    {
      forall p ensures p in Buttons() <==> 1 <= p <= PageCount() {
        PageListMembers(PageCount(), p);
      }
      if |filteredExperts| > 0 {
        ClampedShowingOfWholeList(filteredExperts, currentPage, PageSize);
      }
    }

    /** The note appears exactly when some fetched expert is filtered out,
        so never while neither filter is on. */
    lemma FilteredNoteMeansRowsHidden()
      requires Valid()
      ensures FilteredNote() <==> |filteredExperts| < |experts|
      ensures searchTerm == "" && !MonthFilterOn(selectedMonth) ==> !FilteredNote()
    {
      FilteredMeaning(experts, searchTerm, selectedMonth, monthOf);
    }

    constructor (monthOf: string -> string)
      ensures this.monthOf == monthOf
      ensures experts == [] && filteredExperts == []
      ensures searchTerm == "" && selectedMonth == ""
      ensures currentPage == 1
      ensures Valid()
    {
      this.monthOf := monthOf;
      experts := [];
      filteredExperts := [];
      searchTerm := "";
      selectedMonth := "";
      currentPage := 1;
    }

    /** The filter effect: narrow step by step, then back to page 1. */
    method ApplyFilters()
      modifies this`filteredExperts, this`currentPage
      ensures filteredExperts == Filtered(experts, searchTerm, selectedMonth, monthOf)
      ensures currentPage == 1
      ensures Valid()
    {
      var filtered := experts;
      if searchTerm != "" {
        filtered := Filter(filtered, SearchFn(searchTerm));
      }
      if MonthFilterOn(selectedMonth) {
        filtered := Filter(filtered, MonthFn(selectedMonth, monthOf));
      }
      FilteredStepwise(experts, searchTerm, selectedMonth, monthOf);
      filteredExperts := filtered;
      currentPage := 1;
    }

    /** A successful fetch stores `data.data`, and the effect refilters. */
    method Receive(body: Body<Expert>)
      modifies this`experts, this`filteredExperts, this`currentPage
      ensures experts == DataOnly(body)
      ensures filteredExperts == Filtered(experts, searchTerm, selectedMonth, monthOf)
      ensures currentPage == 1 && Valid()
    {
      experts := DataOnly(body);
      filteredExperts := experts;
      ApplyFilters();
    }

    method SetSearchTerm(term: string)
      modifies this`searchTerm, this`filteredExperts, this`currentPage
      ensures searchTerm == term
      ensures filteredExperts == Filtered(experts, term, selectedMonth, monthOf)
      ensures currentPage == 1 && Valid()
    {
      searchTerm := term;
      ApplyFilters();
    }

    method SetMonth(month: string)
      modifies this`selectedMonth, this`filteredExperts, this`currentPage
      ensures selectedMonth == month
      ensures filteredExperts == Filtered(experts, searchTerm, month, monthOf)
      ensures currentPage == 1 && Valid()
    {
      selectedMonth := month;
      ApplyFilters();
    }

    /** The previous button: disabled on page 1, otherwise one page back,
        never below page 1. */
    method PreviousPage()
      requires Valid()
      modifies this`currentPage
      ensures currentPage == if PrevDisabled(old(currentPage)) then old(currentPage) else PrevClamped(old(currentPage))
      ensures Valid()
    {
      if !PrevDisabled(currentPage) {
        currentPage := PrevClamped(currentPage);
      }
    }

    method SelectPage(page: int)
      requires Valid() && page in Buttons()
      modifies this`currentPage
      ensures currentPage == page
      ensures Valid()
    {
      PageListMembers(PageCount(), page);
      currentPage := page;
    }

    /** The next button as written tests `currentPage === totalPages`:
        with no experts left it stays enabled on page 1, and
        `Math.min(currentPage + 1, totalPages)` moves to page 0 (Finding 2). */
    lemma NextAsWrittenWithoutRows()
      requires Valid() && filteredExperts == [] && currentPage == 1
      ensures PageCount() == 0
      ensures !NextDisabledAsWritten(currentPage, PageCount()) && NextDisabled(currentPage, PageCount())
      ensures NextClamped(currentPage, PageCount()) == 0
    {
    }

    /** The next button, disabled whenever there is no later page: over an
        empty list it stays on page 1 instead of clamping to page 0. */
    method NextPage()
      requires Valid()
      modifies this`currentPage
      ensures currentPage == if NextDisabled(old(currentPage), PageCount()) then old(currentPage) else NextClamped(old(currentPage), PageCount())
      ensures !NextDisabled(old(currentPage), PageCount()) ==> currentPage == old(currentPage) + 1
      ensures Valid()
    {
      if !NextDisabled(currentPage, PageCount()) {
        currentPage := NextClamped(currentPage, PageCount());
      }
    }
  }
}
