/** The players' request screen: every sponsor application fetched at
    once, narrowed by search, status and month, and paged on the client
    seven rows at a time. */
module PlayersRequestScreen {
  import opened Wrappers
  import opened Text
  import opened Collections
  import opened Pagination
  import opened Listing
  import opened Responses
  import opened SponsorApplications

  const PageSize: nat := 7

  /** `getStatusBadge`: the colour of an application status, ignoring case. */
  function StatusTone(status: string): (t: Tone)
    ensures t == Green <==> Upper(status) == "ACCEPTED" || Upper(status) == "ACTIVE"
    ensures t == Yellow <==> Upper(status) == "PENDING"
    ensures t == Red <==> Upper(status) == "REJECTED" || Upper(status) == "INACTIVE"
    ensures t == Gray <==> Upper(status) !in {"ACCEPTED", "ACTIVE", "PENDING", "REJECTED", "INACTIVE"}
    ensures t != Blue
  {
    var s := Upper(status);
    if s == "ACCEPTED" || s == "ACTIVE" then Green
    else if s == "PENDING" then Yellow
    else if s == "REJECTED" || s == "INACTIVE" then Red
    else Gray
  }

  /** The line under the type as written: a non-zero amount is prefixed
      with "Â£", the pound sign's UTF-8 bytes read as Latin-1; `None`
      when no line is shown. */
  function AmountNoteAsWritten(a: Application, localeOf: real -> string): (r: Option<string>)
    ensures r.Some? <==> a.amount.Some? && a.amount.value != 0.0
    ensures r.Some? ==> r.value == "Â£" + localeOf(a.amount.value)
  {
    if a.amount.Some? && a.amount.value != 0.0 then Some("Â£" + localeOf(a.amount.value)) else None
  }

  /** The line under the type with a plain pound sign. */
  function AmountNote(a: Application, localeOf: real -> string): (r: Option<string>)
    ensures r.Some? <==> a.amount.Some? && a.amount.value != 0.0
    ensures r.Some? ==> r.value == "£" + localeOf(a.amount.value)
  {
    if a.amount.Some? && a.amount.value != 0.0 then Some("£" + localeOf(a.amount.value)) else None
  }

  /** Whenever the line is shown, the written text starts with "Â" and
      differs from the corrected text. */
  lemma AmountNoteAsWrittenIsGarbled(a: Application, localeOf: real -> string)
    requires a.amount.Some? && a.amount.value != 0.0
    ensures AmountNoteAsWritten(a, localeOf).value[0] == 'Â'
    ensures AmountNoteAsWritten(a, localeOf) != AmountNote(a, localeOf)
  {
    assert AmountNote(a, localeOf).value[0] == '£';
  }

  /** Statuses the status filter treats as equal get the same badge. */
  lemma BadgeIgnoresCase(a: string, b: string)
    requires SameStatus(a, b)
    ensures StatusTone(a) == StatusTone(b)
  {
  }

  /** The screen's state: the fetched applications, the filter inputs,
      the filtered list and the current page. */
  class Screen {
    /** The month name of a date, `toLocaleDateString("en-US", { month: "long" })`. */
    const monthOf: string -> string
    var applications: seq<Application>
    var filteredApplications: seq<Application>
    var searchTerm: string
    var selectedStatus: string
    var selectedMonth: string
    var currentPage: int

    /** The filtered list is the effect's result for the current inputs,
        and while the pager is shown the current page is a real page. */
    predicate Valid()
      reads this
    {
      filteredApplications == Filtered(applications, searchTerm, selectedStatus, selectedMonth, monthOf)
      && currentPage >= 1
      && (PagerShown() ==> currentPage <= PageCount())
    }

    function PageCount(): nat
      reads this
    {
      TotalPages(|filteredApplications|, PageSize)
    }

    /** The pager is rendered only when some application is left. */
    predicate PagerShown()
      reads this
    {
      |filteredApplications| > 0
    }

    /** The rows of the current page: at most seven, consecutive in the
        filtered list from `(currentPage - 1) * 7` on. */
    function PageRows(): (rows: seq<Application>)
      reads this
      ensures |rows| <= PageSize
      ensures currentPage >= 1 ==> forall k :: 0 <= k < |rows| ==>
        (currentPage - 1) * PageSize + k < |filteredApplications| &&
        rows[k] == filteredApplications[(currentPage - 1) * PageSize + k]
    {
      PageSliceSize(filteredApplications, currentPage, PageSize);
      if currentPage >= 1 then
        PageSliceRows(filteredApplications, currentPage, PageSize);
        PageSlice(filteredApplications, currentPage, PageSize)
      else
        PageSlice(filteredApplications, currentPage, PageSize)
    }

    function Buttons(): seq<int>
      reads this
    {
      Window(currentPage, PageCount())
    }

    /** "Showing start-end of n", with the unclamped bounds of the bar. */
    function Showing(): (int, int)
      reads this
    {
      (StartItem(currentPage, PageSize), EndItem(currentPage, PageSize, |filteredApplications|))
    }

    /** The window has min(pages, 5) buttons, each a real page, one of
        them the current page. */
    lemma ButtonsAreRealPages()
      requires Valid() && PagerShown()
      ensures |Buttons()| == Min(PageCount(), 5)
      ensures forall k :: 0 <= k < |Buttons()| ==> 1 <= Buttons()[k] <= PageCount()
      ensures currentPage in Buttons()
    {
      WindowHasCurrent(currentPage, PageCount());
    }

    /** The range shown counts exactly the rows of the page. */
    lemma ShowingCountsRows()
      requires Valid() && PagerShown()
      ensures 1 <= Showing().0 <= Showing().1 <= |filteredApplications|
      ensures Showing().1 - Showing().0 + 1 == |PageRows()|
    {
      ShowingCountsSlice(filteredApplications, currentPage, PageSize);
    }

    constructor (monthOf: string -> string)
      ensures this.monthOf == monthOf
      ensures applications == [] && filteredApplications == []
      ensures searchTerm == "" && selectedStatus == "" && selectedMonth == ""
      ensures currentPage == 1
      ensures Valid()
    {
      this.monthOf := monthOf;
      applications := [];
      filteredApplications := [];
      searchTerm := "";
      selectedStatus := "";
      selectedMonth := "";
      currentPage := 1;
    }

    /** The filter effect: narrow step by step, then back to page 1. */
    method ApplyFilters()
      modifies this`filteredApplications, this`currentPage
      ensures filteredApplications == Filtered(applications, searchTerm, selectedStatus, selectedMonth, monthOf)
      ensures currentPage == 1
      ensures Valid()
    {
      var filtered := applications;
      if searchTerm != "" {
        filtered := Filter(filtered, SearchFn(searchTerm));
      }
      if StatusFilterOn(selectedStatus) {
        filtered := Filter(filtered, StatusFn(selectedStatus));
      }
      if MonthFilterOn(selectedMonth) {
        filtered := Filter(filtered, MonthFn(selectedMonth, monthOf));
      }
      FilteredStepwise(applications, searchTerm, selectedStatus, selectedMonth, monthOf);
      filteredApplications := filtered;
      currentPage := 1;
    }

    /** A successful fetch stores `data.data`, and the effect refilters. */
    method Receive(body: Body<Application>)
      modifies this`applications, this`filteredApplications, this`currentPage
      ensures applications == DataOnly(body)
      ensures filteredApplications == Filtered(applications, searchTerm, selectedStatus, selectedMonth, monthOf)
      ensures currentPage == 1 && Valid()
    {
      applications := DataOnly(body);
      filteredApplications := applications;
      ApplyFilters();
    }

    method SetSearchTerm(term: string)
      modifies this`searchTerm, this`filteredApplications, this`currentPage
      ensures searchTerm == term
      ensures filteredApplications == Filtered(applications, term, selectedStatus, selectedMonth, monthOf)
      ensures currentPage == 1 && Valid()
    {
      searchTerm := term;
      ApplyFilters();
    }

    method SetStatus(status: string)
      modifies this`selectedStatus, this`filteredApplications, this`currentPage
      ensures selectedStatus == status
      ensures filteredApplications == Filtered(applications, searchTerm, status, selectedMonth, monthOf)
      ensures currentPage == 1 && Valid()
    {
      selectedStatus := status;
      ApplyFilters();
    }

    method SetMonth(month: string)
      modifies this`selectedMonth, this`filteredApplications, this`currentPage
      ensures selectedMonth == month
      ensures filteredApplications == Filtered(applications, searchTerm, selectedStatus, month, monthOf)
      ensures currentPage == 1 && Valid()
    {
      selectedMonth := month;
      ApplyFilters();
    }

    /** The bar's previous button: disabled on page 1, otherwise
        `currentPage - 1`. */
    method PreviousPage()
      requires Valid() && PagerShown()
      modifies this`currentPage
      ensures currentPage == if PrevDisabled(old(currentPage)) then old(currentPage) else old(currentPage) - 1
      ensures Valid()
    {
      if !PrevDisabled(currentPage) {
        currentPage := currentPage - 1;
      }
    }

    /** A page button of the window. */
    method SelectPage(page: int)
      requires Valid() && PagerShown() && page in Buttons()
      modifies this`currentPage
      ensures currentPage == page
      ensures Valid()
    {
      currentPage := page;
    }

    /** The bar's next button: disabled on the last page, otherwise
        `currentPage + 1`; the bar is only rendered over a non-empty list,
        so there is always a last page. */
    method NextPage()
      requires Valid() && PagerShown()
      modifies this`currentPage
      ensures currentPage == if NextDisabledAsWritten(old(currentPage), PageCount()) then old(currentPage) else old(currentPage) + 1
      ensures Valid()
    {
      if !NextDisabledAsWritten(currentPage, PageCount()) {
        currentPage := currentPage + 1;
      }
    }
  }
}
