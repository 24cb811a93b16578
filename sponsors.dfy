/** The sponsors screen: every sponsor fetched at once, narrowed by search
    and month, and paged on the client seven rows at a time. Its pager is
    rendered even when no sponsor is left. */
module SponsorsScreen {
  import opened Wrappers
  import opened Text
  import opened Collections
  import opened Pagination
  import opened Listing
  import opened Responses
  import SponsorApplications
  import SponsorshipTransactionsScreen

  /** A sponsor account; a missing text is "", a missing budget 0. */
  datatype Sponsor = Sponsor(
    id: string,
    firstName: string,
    lastName: string,
    email: string,
    createdAt: string,
    status: string,
    companyName: string,
    sponsorshipBudget: real,
    sponsorshipType: string)

  const PageSize: nat := 7

  /** The search looks at "first last" as typed, the email, and the
      company when the sponsor has one. */
  predicate SearchHit(s: Sponsor, term: string) {
    Matches(s.firstName + " " + s.lastName, term)
    || Matches(s.email, term)
    || (s.companyName != "" && Matches(s.companyName, term))
  }

  predicate MonthHit(s: Sponsor, month: string, monthOf: string -> string) {
    monthOf(s.createdAt) == month
  }

  predicate Keep(s: Sponsor, term: string, month: string, monthOf: string -> string) {
    (term == "" || SearchHit(s, term)) && (!MonthFilterOn(month) || MonthHit(s, month, monthOf))
  }

  function SearchFn(term: string): Sponsor -> bool {
    s => SearchHit(s, term)
  }

  function MonthFn(month: string, monthOf: string -> string): Sponsor -> bool {
    s => MonthHit(s, month, monthOf)
  }

  function KeepFn(term: string, month: string, monthOf: string -> string): Sponsor -> bool {
    s => Keep(s, term, month, monthOf)
  }

  /** The filter effect's result, as one filter. */
  function Filtered(sponsors: seq<Sponsor>, term: string, month: string, monthOf: string -> string): seq<Sponsor> {
    Filter(sponsors, KeepFn(term, month, monthOf))
  }

  lemma FilteredStepwise(sponsors: seq<Sponsor>, term: string, month: string, monthOf: string -> string)
    ensures Filtered(sponsors, term, month, monthOf)
      == Narrow(Narrow(sponsors, term != "", SearchFn(term)), MonthFilterOn(month), MonthFn(month, monthOf))
  {
    NarrowTwice(sponsors, term != "", SearchFn(term), MonthFilterOn(month), MonthFn(month, monthOf), KeepFn(term, month, monthOf));
  }

  /** The filtered list keeps the fetched order and holds exactly the
      sponsors matching the term (when one is typed) and created in the
      selected month (when one is picked). */
  lemma FilteredMeaning(sponsors: seq<Sponsor>, term: string, month: string, monthOf: string -> string)
    ensures IsSubsequence(Filtered(sponsors, term, month, monthOf), sponsors)
    ensures forall s :: s in Filtered(sponsors, term, month, monthOf) <==>
      s in sponsors
      && (term == "" || SearchHit(s, term))
      && (!MonthFilterOn(month) || monthOf(s.createdAt) == month)
    ensures term == "" && !MonthFilterOn(month) ==> Filtered(sponsors, term, month, monthOf) == sponsors
  {
    FilterIsSubsequence(sponsors, KeepFn(term, month, monthOf));
    if term == "" && !MonthFilterOn(month) {
      FilterAll(sponsors, KeepFn(term, month, monthOf));
    }
  }

  /** `getFullName`: the trimmed full name, else the company, else "N/A". */
  function DisplayName(s: Sponsor): (r: string)
    ensures r != ""
    ensures r == FirstPresent([FullName(s.firstName, s.lastName), s.companyName], "N/A")
  {
    FirstPresentEmpty([FullName(s.firstName, s.lastName), s.companyName], "N/A");
    FirstPresent([FullName(s.firstName, s.lastName), s.companyName], "N/A")
  }

  /** `getSponsorshipType`: the type, else "Not specified". */
  function SponsorshipType(s: Sponsor): (r: string)
    ensures r != ""
    ensures s.sponsorshipType != "" ==> r == s.sponsorshipType
    ensures s.sponsorshipType == "" ==> r == "Not specified"
    ensures r == FirstPresent([s.sponsorshipType], "Not specified")
  {
    OrElse(s.sponsorshipType, "Not specified")
  }

  /** This screen and the players' request screen show a sponsorship
      type the same way. */
  lemma SponsorshipTypesAgree(s: Sponsor, a: SponsorApplications.Application)
    requires s.sponsorshipType == a.sponsorshipType
    ensures SponsorshipType(s) == SponsorApplications.SponsorshipType(a)
    ensures SponsorshipType(s) == "Not specified" || SponsorshipType(s) == s.sponsorshipType
  {
  }

  /** `getSponsorshipBudget` as written: a non-zero budget is prefixed
      with "Â£", the pound sign's UTF-8 bytes read as Latin-1. */
  function SponsorshipBudgetAsWritten(s: Sponsor, localeOf: real -> string): (r: string)
    ensures s.sponsorshipBudget != 0.0 ==> r == "Â£" + localeOf(s.sponsorshipBudget)
  {
    if s.sponsorshipBudget != 0.0 then "Â£" + localeOf(s.sponsorshipBudget)
    else if s.sponsorshipType == "Product" then "-"
    else "Not specified"
  }

  /** The budget the table shows: a non-zero budget in pounds; otherwise
      "-" for a product sponsorship and "Not specified" for any other. */
  function SponsorshipBudget(s: Sponsor, localeOf: real -> string): (r: string)
    ensures s.sponsorshipBudget != 0.0 ==> r == "£" + localeOf(s.sponsorshipBudget)
    ensures s.sponsorshipBudget == 0.0 ==> (r == "-" <==> s.sponsorshipType == "Product")
    ensures s.sponsorshipBudget == 0.0 ==> (r == "Not specified" <==> s.sponsorshipType != "Product")
  {
    if s.sponsorshipBudget != 0.0 then "£" + localeOf(s.sponsorshipBudget)
    else if s.sponsorshipType == "Product" then "-"
    else "Not specified"
  }

  /** The written budget never shows a plain pound sign: its first
      character is "Â", and it differs from the corrected text whenever a
      budget is set. */
  lemma BudgetAsWrittenIsGarbled(s: Sponsor, localeOf: real -> string)
    requires s.sponsorshipBudget != 0.0
    ensures SponsorshipBudgetAsWritten(s, localeOf)[0] == 'Â'
    ensures SponsorshipBudgetAsWritten(s, localeOf) != SponsorshipBudget(s, localeOf)
  {
    assert SponsorshipBudget(s, localeOf)[0] == '£';
  }

  /** For a positive budget the corrected text is the one the sponsorship
      transactions screen prints for the same amount, and the two screens
      agree on the fallbacks too. */
  lemma BudgetAgreesWithTransactions(s: Sponsor, a: SponsorApplications.Application, localeOf: real -> string)
    requires a.sponsorshipType == s.sponsorshipType
    requires s.sponsorshipBudget > 0.0 ==> a.amount == Some(s.sponsorshipBudget)
    requires s.sponsorshipBudget <= 0.0 ==> a.amount == None
    requires s.sponsorshipBudget >= 0.0
    ensures SponsorshipBudget(s, localeOf) == SponsorshipTransactionsScreen.SponsorshipAmount(a, localeOf)
  {
  }

  /** The status text shows a present status unchanged and defaults to
      "Active" when the sponsor has none. */
  function StatusText(s: Sponsor): (r: string)
    ensures r != ""
    ensures s.status == "" ==> r == "Active"
    ensures s.status != "" ==> r == s.status
    ensures r == FirstPresent([s.status], "Active")
  {
    OrElse(s.status, "Active")
  }

  /** `getStatusBadge`: green for "Active" exactly, yellow otherwise. */
  function StatusTone(s: Sponsor): (t: Tone)
    ensures t == Green <==> StatusText(s) == "Active"
    ensures t == Yellow <==> StatusText(s) != "Active"
  {
    if StatusText(s) == "Active" then Green else Yellow
  }

  /** The screen's state: the fetched sponsors, the filter inputs, the
      filtered list and the current page. */
  class Screen {
    /** The month name of a date, `toLocaleDateString("en-US", { month: "long" })`. */
    const monthOf: string -> string
    var sponsors: seq<Sponsor>
    var filteredSponsors: seq<Sponsor>
    var searchTerm: string
    var selectedMonth: string
    var currentPage: int

    /** The filtered list is the effect's result, and the current page is
        page 1 or a real page. */
    predicate Valid()
      reads this
    {
      filteredSponsors == Filtered(sponsors, searchTerm, selectedMonth, monthOf)
      && currentPage >= 1
      && (currentPage == 1 || currentPage <= PageCount())
    }

    function PageCount(): nat
      reads this
    {
      TotalPages(|filteredSponsors|, PageSize)
    }

    function PageRows(): (rows: seq<Sponsor>)
      reads this
      ensures |rows| <= PageSize
      ensures currentPage >= 1 ==> forall k :: 0 <= k < |rows| ==>
        (currentPage - 1) * PageSize + k < |filteredSponsors| &&
        rows[k] == filteredSponsors[(currentPage - 1) * PageSize + k]
    {
      PageSliceSize(filteredSponsors, currentPage, PageSize);
      if currentPage >= 1 then
        PageSliceRows(filteredSponsors, currentPage, PageSize);
        PageSlice(filteredSponsors, currentPage, PageSize)
      else
        PageSlice(filteredSponsors, currentPage, PageSize)
    }

    function Buttons(): seq<int>
      reads this
    {
      Window(currentPage, PageCount())
    }

    /** "Showing start-end of n", with the unclamped bounds of the bar. */
    function Showing(): (int, int)
      reads this
    {
      (StartItem(currentPage, PageSize), EndItem(currentPage, PageSize, |filteredSponsors|))
    }

    /** Over a non-empty list the range shown counts the page's rows;
        over an empty one the bar reads "Showing 1-0 of 0" and has no page
        buttons. */
    lemma ShowingCountsRows()
      requires Valid()
      ensures |filteredSponsors| > 0 ==> Showing().1 - Showing().0 + 1 == |PageRows()|
      ensures |filteredSponsors| == 0 ==> Showing() == (1, 0) && Buttons() == []
    {
      if |filteredSponsors| > 0 {
        ShowingCountsSlice(filteredSponsors, currentPage, PageSize);
      }
    }

    constructor (monthOf: string -> string)
      ensures this.monthOf == monthOf
      ensures sponsors == [] && filteredSponsors == []
      ensures searchTerm == "" && selectedMonth == ""
      ensures currentPage == 1
      ensures Valid()
    {
      this.monthOf := monthOf;
      sponsors := [];
      filteredSponsors := [];
      searchTerm := "";
      selectedMonth := "";
      currentPage := 1;
    }

    /** The filter effect: narrow step by step, then back to page 1. */
    method ApplyFilters()
      modifies this`filteredSponsors, this`currentPage
      ensures filteredSponsors == Filtered(sponsors, searchTerm, selectedMonth, monthOf)
      ensures currentPage == 1
      ensures Valid()
    {
      var filtered := sponsors;
      if searchTerm != "" {
        filtered := Filter(filtered, SearchFn(searchTerm));
      }
      if MonthFilterOn(selectedMonth) {
        filtered := Filter(filtered, MonthFn(selectedMonth, monthOf));
      }
      FilteredStepwise(sponsors, searchTerm, selectedMonth, monthOf);
      filteredSponsors := filtered;
      currentPage := 1;
    }

    /** A successful fetch stores `data.data`, and the effect refilters. */
    method Receive(body: Body<Sponsor>)
      modifies this`sponsors, this`filteredSponsors, this`currentPage
      ensures sponsors == DataOnly(body)
      ensures filteredSponsors == Filtered(sponsors, searchTerm, selectedMonth, monthOf)
      ensures currentPage == 1 && Valid()
    {
      sponsors := DataOnly(body);
      filteredSponsors := sponsors;
      ApplyFilters();
    }

    method SetSearchTerm(term: string)
      modifies this`searchTerm, this`filteredSponsors, this`currentPage
      ensures searchTerm == term
      ensures filteredSponsors == Filtered(sponsors, term, selectedMonth, monthOf)
      ensures currentPage == 1 && Valid()
    {
      searchTerm := term;
      ApplyFilters();
    }

    method SetMonth(month: string)
      modifies this`selectedMonth, this`filteredSponsors, this`currentPage
      ensures selectedMonth == month
      ensures filteredSponsors == Filtered(sponsors, searchTerm, month, monthOf)
      ensures currentPage == 1 && Valid()
    {
      selectedMonth := month;
      ApplyFilters();
    }

    /** The bar's previous button: disabled on page 1, otherwise
        `currentPage - 1`. */
    method PreviousPage()
      requires Valid()
      modifies this`currentPage
      ensures currentPage == if PrevDisabled(old(currentPage)) then old(currentPage) else old(currentPage) - 1
      ensures Valid()
    {
      if !PrevDisabled(currentPage) {
        currentPage := currentPage - 1;
      }
    }

    method SelectPage(page: int)
      requires Valid() && page in Buttons()
      modifies this`currentPage
      ensures currentPage == page
      ensures Valid()
    {
      currentPage := page;
    }

    /** The next button as written tests `currentPage === totalPages`:
        with no sponsors left it stays enabled on page 1, and
        `onPageChange(currentPage + 1)` would move to page 2, which is
        not a page (Finding 2). */
    lemma NextAsWrittenWithoutRows()
      requires Valid() && filteredSponsors == [] && currentPage == 1
      ensures PageCount() == 0
      ensures !NextDisabledAsWritten(currentPage, PageCount()) && NextDisabled(currentPage, PageCount())
      ensures currentPage + 1 > PageCount()
    {
    }

    /** The bar's next button, disabled whenever there is no later page:
        over an empty list it stays on page 1. */
    method NextPage()
      requires Valid()
      modifies this`currentPage
      ensures currentPage == if NextDisabled(old(currentPage), PageCount()) then old(currentPage) else old(currentPage) + 1
      ensures Valid()
    {
      if !NextDisabled(currentPage, PageCount()) {
        currentPage := currentPage + 1;
      }
    }
  }
}
