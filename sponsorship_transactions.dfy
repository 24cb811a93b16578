/** The sponsorship transactions screen: every awarded sponsorship
    fetched at once, narrowed by search, status and month, and paged on
    the client seven rows at a time. Both drop-downs start on their
    "All …" entry. */
module SponsorshipTransactionsScreen {
  import opened Wrappers
  import opened Text
  import opened Collections
  import opened Pagination
  import opened Listing
  import opened Responses
  import opened SponsorApplications
  import PlayersRequestScreen

  const PageSize: nat := 7

  /** `getStatusBadge`: the colour of a sponsorship status, ignoring case;
      a completed sponsorship is green as well. */
  function StatusTone(status: string): (t: Tone)
    ensures t == Green <==> Upper(status) == "ACCEPTED" || Upper(status) == "COMPLETED" || Upper(status) == "ACTIVE"
    ensures t == Yellow <==> Upper(status) == "PENDING"
    ensures t == Red <==> Upper(status) == "REJECTED" || Upper(status) == "INACTIVE"
    ensures t == Gray <==> Upper(status) !in {"ACCEPTED", "COMPLETED", "ACTIVE", "PENDING", "REJECTED", "INACTIVE"}
    ensures t != Blue
  {
    var s := Upper(status);
    if s == "ACCEPTED" || s == "COMPLETED" || s == "ACTIVE" then Green
    else if s == "PENDING" then Yellow
    else if s == "REJECTED" || s == "INACTIVE" then Red
    else Gray
  }

  /** Statuses the status filter treats as equal get the same badge. */
  lemma BadgeIgnoresCase(a: string, b: string)
    requires SameStatus(a, b)
    ensures StatusTone(a) == StatusTone(b)
  {
  }

  /** The badge differs from the players' request screen's badge only on
      completed sponsorships, which that screen shows in gray. */
  lemma BadgesCompared(status: string)
    ensures Upper(status) != "COMPLETED" ==> StatusTone(status) == PlayersRequestScreen.StatusTone(status)
    ensures Upper(status) == "COMPLETED" ==> StatusTone(status) == Green && PlayersRequestScreen.StatusTone(status) == Gray
  {
  }

  /** `getSponsorshipAmount`, with `localeOf` for `toLocaleString`: a
      positive amount in pounds; otherwise "-" for a product sponsorship
      and "Not specified" for any other. */
  function SponsorshipAmount(a: Application, localeOf: real -> string): (r: string)
    ensures a.amount.Some? && a.amount.value > 0.0 ==> r == "£" + localeOf(a.amount.value)
    ensures !(a.amount.Some? && a.amount.value > 0.0) ==> (r == "-" <==> a.sponsorshipType == "Product")
    ensures !(a.amount.Some? && a.amount.value > 0.0) ==> (r == "Not specified" <==> a.sponsorshipType != "Product")
  {
    if a.amount.Some? && a.amount.value > 0.0 then "£" + localeOf(a.amount.value)
    else if a.sponsorshipType == "Product" then "-"
    else "Not specified"
  }

  /** For a positive amount the corrected line of the players' request
      screen is the text this screen shows. */
  lemma AmountNoteAgrees(a: Application, localeOf: real -> string)
    requires a.amount.Some? && a.amount.value > 0.0
    ensures PlayersRequestScreen.AmountNote(a, localeOf) == Some(SponsorshipAmount(a, localeOf))
  {
  }

  /** The screen's state: the fetched sponsorships, the filter inputs,
      the filtered list and the current page. */
  class Screen {
    /** The month name of a date, `toLocaleDateString("en-US", { month: "long" })`. */
    const monthOf: string -> string
    var sponsorships: seq<Application>
    var filteredSponsorships: seq<Application>
    var searchTerm: string
    var selectedStatus: string
    var selectedMonth: string
    var currentPage: int

    /** The filtered list is the effect's result for the current inputs,
        and while the pager is shown the current page is a real page. */
    predicate Valid()
      reads this
    {
      filteredSponsorships == Filtered(sponsorships, searchTerm, selectedStatus, selectedMonth, monthOf)
      && currentPage >= 1
      && (PagerShown() ==> currentPage <= PageCount())
    }

    function PageCount(): nat
      reads this
    {
      TotalPages(|filteredSponsorships|, PageSize)
    }

    /** The pager is rendered only when some sponsorship is left. */
    predicate PagerShown()
      reads this
    {
      |filteredSponsorships| > 0
    }

    /** The rows of the current page: at most seven, consecutive in the
        filtered list from `(currentPage - 1) * 7` on. */
    function PageRows(): (rows: seq<Application>)
      reads this
      ensures |rows| <= PageSize
      ensures currentPage >= 1 ==> forall k :: 0 <= k < |rows| ==>
        (currentPage - 1) * PageSize + k < |filteredSponsorships| &&
        rows[k] == filteredSponsorships[(currentPage - 1) * PageSize + k]
    {
      PageSliceSize(filteredSponsorships, currentPage, PageSize);
      if currentPage >= 1 then
        PageSliceRows(filteredSponsorships, currentPage, PageSize);
        PageSlice(filteredSponsorships, currentPage, PageSize)
      else
        PageSlice(filteredSponsorships, currentPage, PageSize)
    }

    function Buttons(): seq<int>
      reads this
    {
      Window(currentPage, PageCount())
    }

    /** "Showing start-end of n", with the unclamped bounds of the bar. */
    function Showing(): (int, int)
      reads this
    {
      (StartItem(currentPage, PageSize), EndItem(currentPage, PageSize, |filteredSponsorships|))
    }

    /** The window has min(pages, 5) buttons, each a real page, one of
        them the current page. */
    lemma ButtonsAreRealPages()
      requires Valid() && PagerShown()
      ensures |Buttons()| == Min(PageCount(), 5)
      ensures forall k :: 0 <= k < |Buttons()| ==> 1 <= Buttons()[k] <= PageCount()
      ensures currentPage in Buttons()
    {
      WindowHasCurrent(currentPage, PageCount());
    }

    /** The range shown counts exactly the rows of the page. */
    lemma ShowingCountsRows()
      requires Valid() && PagerShown()
      ensures 1 <= Showing().0 <= Showing().1 <= |filteredSponsorships|
      ensures Showing().1 - Showing().0 + 1 == |PageRows()|
    {
      ShowingCountsSlice(filteredSponsorships, currentPage, PageSize);
    }

    /** The starting selections switch both drop-down filters off: until
        something is typed or picked, the table lists every sponsorship. */
    lemma StartingFiltersShowAll()
      requires Valid()
      requires searchTerm == "" && selectedStatus == AllStatus && selectedMonth == AllMonths
      ensures filteredSponsorships == sponsorships
    {
      FilteredMeaning(sponsorships, searchTerm, selectedStatus, selectedMonth, monthOf);
    }

    constructor (monthOf: string -> string)
      ensures this.monthOf == monthOf
      ensures sponsorships == [] && filteredSponsorships == []
      ensures searchTerm == "" && selectedStatus == AllStatus && selectedMonth == AllMonths
      ensures currentPage == 1
      ensures Valid()
    {
      this.monthOf := monthOf;
      sponsorships := [];
      filteredSponsorships := [];
      searchTerm := "";
      selectedStatus := AllStatus;
      selectedMonth := AllMonths;
      currentPage := 1;
    }

    /** The filter effect: narrow step by step, then back to page 1. */
    method ApplyFilters()
      modifies this`filteredSponsorships, this`currentPage
      ensures filteredSponsorships == Filtered(sponsorships, searchTerm, selectedStatus, selectedMonth, monthOf)
      ensures currentPage == 1
      ensures Valid()
    {
      var filtered := sponsorships;
      if searchTerm != "" {
        filtered := Filter(filtered, SearchFn(searchTerm));
      }
      if StatusFilterOn(selectedStatus) {
        filtered := Filter(filtered, StatusFn(selectedStatus));
      }
      if MonthFilterOn(selectedMonth) {
        filtered := Filter(filtered, MonthFn(selectedMonth, monthOf));
      }
      FilteredStepwise(sponsorships, searchTerm, selectedStatus, selectedMonth, monthOf);
      filteredSponsorships := filtered;
      currentPage := 1;
    }

    /** A successful fetch stores `data.data`, and the effect refilters. */
    method Receive(body: Body<Application>)
      modifies this`sponsorships, this`filteredSponsorships, this`currentPage
      ensures sponsorships == DataOnly(body)
      ensures filteredSponsorships == Filtered(sponsorships, searchTerm, selectedStatus, selectedMonth, monthOf)
      ensures currentPage == 1 && Valid()
    {
      sponsorships := DataOnly(body);
      filteredSponsorships := sponsorships;
      ApplyFilters();
    }

    method SetSearchTerm(term: string)
      modifies this`searchTerm, this`filteredSponsorships, this`currentPage
      ensures searchTerm == term
      ensures filteredSponsorships == Filtered(sponsorships, term, selectedStatus, selectedMonth, monthOf)
      ensures currentPage == 1 && Valid()
    {
      searchTerm := term;
      ApplyFilters();
    }

    method SetStatus(status: string)
      modifies this`selectedStatus, this`filteredSponsorships, this`currentPage
      ensures selectedStatus == status
      ensures filteredSponsorships == Filtered(sponsorships, searchTerm, status, selectedMonth, monthOf)
      ensures currentPage == 1 && Valid()
    {
      selectedStatus := status;
      ApplyFilters();
    }

    method SetMonth(month: string)
      modifies this`selectedMonth, this`filteredSponsorships, this`currentPage
      ensures selectedMonth == month
      ensures filteredSponsorships == Filtered(sponsorships, searchTerm, selectedStatus, month, monthOf)
      ensures currentPage == 1 && Valid()
    {
      selectedMonth := month;
      ApplyFilters();
    }

    /** The bar's previous button: disabled on page 1, otherwise
        `currentPage - 1`. */
    method PreviousPage()
      requires Valid() && PagerShown()
      modifies this`currentPage
      ensures currentPage == if PrevDisabled(old(currentPage)) then old(currentPage) else old(currentPage) - 1
      ensures Valid()
    {
      if !PrevDisabled(currentPage) {
        currentPage := currentPage - 1;
      }
    }

    /** A page button of the window. */
    method SelectPage(page: int)
      requires Valid() && PagerShown() && page in Buttons()
      modifies this`currentPage
      ensures currentPage == page
      ensures Valid()
    {
      currentPage := page;
    }

    /** The bar's next button: disabled on the last page, otherwise
        `currentPage + 1`; the bar is only rendered over a non-empty list,
        so there is always a last page. */
    method NextPage()
      requires Valid() && PagerShown()
      modifies this`currentPage
      ensures currentPage == if NextDisabledAsWritten(old(currentPage), PageCount()) then old(currentPage) else old(currentPage) + 1
      ensures Valid()
    {
      if !NextDisabledAsWritten(currentPage, PageCount()) {
        currentPage := currentPage + 1;
      }
    }
  }
}
