/** The players screen: one page of players fetched per page number, a
    total estimated from the page's length, and a search and month filter
    over the fetched page only. */
module PlayerScreen {
  import opened Text
  import opened Collections
  import opened Arith
  import opened Pagination
  import opened Listing
  import opened CountEstimate

  /** A player account; a missing name or customer id is "". */
  datatype PlayerData = PlayerData(
    id: string,
    firstName: string,
    lastName: string,
    username: string,
    createdAt: string,
    stripeCustomerId: string)

  const PageSize: nat := 10

  /** `getFullName`: the trimmed full name, else the username. */
  function DisplayName(p: PlayerData): (r: string)
    ensures r == FullName(p.firstName, p.lastName) || r == p.username
    ensures FullName(p.firstName, p.lastName) != "" ==> r == FullName(p.firstName, p.lastName)
    ensures r == "" <==> FullName(p.firstName, p.lastName) == "" && p.username == ""
  {
    OrElse(FullName(p.firstName, p.lastName), p.username)
  }

  /** `getAccountType` and `getSubscriptionType`: a player with a Stripe
      customer id is a yearly premium member. */
  function AccountType(p: PlayerData): (r: string)
    ensures r == "Premium" <==> p.stripeCustomerId != ""
    ensures r == "Free" <==> p.stripeCustomerId == ""
  {
    if p.stripeCustomerId != "" then "Premium" else "Free"
  }

  function SubscriptionType(p: PlayerData): (r: string)
    ensures r == "Yearly" <==> AccountType(p) == "Premium"
    ensures r == "Monthly" <==> AccountType(p) == "Free"
  {
    if p.stripeCustomerId != "" then "Yearly" else "Monthly"
  }

  /** The search matches the display name or the username; an empty term
      is contained in both, so it matches every player. */
  predicate SearchHit(p: PlayerData, term: string) {
    Matches(DisplayName(p), term) || Matches(p.username, term)
  }

  predicate Keep(p: PlayerData, term: string, month: string, monthOf: string -> string) {
    SearchHit(p, term) && (!MonthFilterOn(month) || monthOf(p.createdAt) == month)
  }

  function KeepFn(term: string, month: string, monthOf: string -> string): PlayerData -> bool {
    p => Keep(p, term, month, monthOf)
  }

  /** `filteredPlayers`, recomputed from the fetched page on every render. */
  function Filtered(players: seq<PlayerData>, term: string, month: string, monthOf: string -> string): seq<PlayerData> {
    Filter(players, KeepFn(term, month, monthOf))
  }

  /** The filtered page keeps the fetched order and holds exactly the
      players that match the term and, unless "All Months" or nothing is
      picked, were created in the selected month; with no term and no
      month it is the whole page. */
  lemma FilteredMeaning(players: seq<PlayerData>, term: string, month: string, monthOf: string -> string)
    ensures IsSubsequence(Filtered(players, term, month, monthOf), players)
    ensures forall p :: p in Filtered(players, term, month, monthOf) <==>
      p in players && SearchHit(p, term) && (!MonthFilterOn(month) || monthOf(p.createdAt) == month)
    ensures term == "" && !MonthFilterOn(month) ==> Filtered(players, term, month, monthOf) == players
  {
    FilterIsSubsequence(players, KeepFn(term, month, monthOf));
    if term == "" && !MonthFilterOn(month) {
      forall k | 0 <= k < |players| ensures Keep(players[k], term, month, monthOf) {
        IncludesEmptyAndSelf(Lower(players[k].username));
      }
      FilterAll(players, KeepFn(term, month, monthOf));
    }
  }

  /** A player is found by searching for the name the table shows. */
  lemma ShownNameIsSearchable(p: PlayerData)
    ensures SearchHit(p, DisplayName(p))
  {
    IncludesEmptyAndSelf(Lower(DisplayName(p)));
  }

  /** "Showing a–b" as written: both bounds clamped to the filtered rows
      of the current page. */
  function ShowingAsWritten(page: int, rows: nat): (int, int) {
    ClampedShowing(page, PageSize, rows)
  }

  /** The screen's state: the fetched page, its estimated total, the
      filter inputs and the current page. */
  class Screen {
    /** The month name of a date, `toLocaleDateString("en-US", { month: "long" })`. */
    const monthOf: string -> string
    var players: seq<PlayerData>
    var totalPlayers: int
    var searchTerm: string
    var selectedMonth: string
    var currentPage: int

    predicate Valid()
      reads this
    {
      currentPage >= 1 && totalPlayers >= 0
    }

    function PageCount(): nat
      reads this
      requires totalPlayers >= 0
    {
      TotalPages(totalPlayers, PageSize)
    }

    function FilteredPlayers(): seq<PlayerData>
      reads this
    {
      Filtered(players, searchTerm, selectedMonth, monthOf)
    }

    /** The pager is rendered when the fetched page has rows, even when
        the filter leaves none of them. */
    predicate PagerShown()
      reads this
    {
      |players| > 0
    }

    function Buttons(): seq<int>
      reads this
      requires Valid()
    {
      Window(currentPage, PageCount())
    }

    /** "Showing a–b of total", counted from the rows before this page, as
        the fans screen computes it. */
    function Showing(): (int, int)
      reads this
    {
      OffsetShowing(currentPage, PageSize, |FilteredPlayers()|)
    }

    /** On a page of at most ten filtered rows the range shown counts
        them, after the rows of the earlier pages. */
    lemma ShowingCountsRows()
      requires Valid() && 1 <= |FilteredPlayers()| <= PageSize
      ensures Showing().0 == (currentPage - 1) * PageSize + 1
      ensures Showing().1 - Showing().0 + 1 == |FilteredPlayers()|
    {
      OffsetShowingCountsRows(currentPage, PageSize, |FilteredPlayers()|);
    }

    /** The range as written clamps both bounds to the filtered rows of
        the page: from page 2 on it reads "len–len" (Finding 1). */
    lemma ShowingAsWrittenOnLaterPage()
      requires Valid() && currentPage >= 2 && 1 <= |FilteredPlayers()| <= PageSize
      ensures ShowingAsWritten(currentPage, |FilteredPlayers()|) == (|FilteredPlayers()|, |FilteredPlayers()|)
      ensures ShowingAsWritten(currentPage, |FilteredPlayers()|) != Showing()
    {
      ClampedShowingOnLaterPage(currentPage, PageSize, |FilteredPlayers()|);
      OffsetShowingCountsRows(currentPage, PageSize, |FilteredPlayers()|);
      MulMonotone(1, currentPage - 1, PageSize);
    }

    /** Right after a fetch the pager offers exactly one page more after a
        full page, and none after a short one. */
    lemma PagerAfterFetch()
      requires Valid() && totalPlayers == EstimateTotal(currentPage, |players|, PageSize)
      ensures |players| >= PageSize ==> PageCount() == currentPage + 1
      ensures 1 <= |players| < PageSize ==> PageCount() == currentPage
    {
      if |players| >= PageSize {
        FullPageOffersOneMore(currentPage, |players|, PageSize);
      } else if 1 <= |players| {
        ShortPageIsLast(currentPage, |players|, PageSize);
      }
    }

    /** The month drop-down is set to "All Months" when the screen mounts. */
    constructor (monthOf: string -> string)
      ensures this.monthOf == monthOf
      ensures players == [] && totalPlayers == 0
      ensures searchTerm == "" && selectedMonth == AllMonths
      ensures currentPage == 1
      ensures Valid()
    {
      this.monthOf := monthOf;
      players := [];
      totalPlayers := 0;
      searchTerm := "";
      selectedMonth := AllMonths;
      currentPage := 1;
    }

    /** A successful fetch of the current page stores its rows and
        estimates the total from their number. */
    method Receive(rows: seq<PlayerData>)
      requires Valid()
      modifies this`players, this`totalPlayers
      ensures players == rows
      ensures totalPlayers == EstimateTotal(currentPage, |rows|, PageSize)
      ensures Valid()
    {
      players := rows;
      var est := EstimateTotal(currentPage, |rows|, PageSize);
      totalPlayers := est;
    }

    method SetSearchTerm(term: string)
      modifies this`searchTerm
      ensures searchTerm == term
    {
      searchTerm := term;
    }

    method SetMonth(month: string)
      modifies this`selectedMonth
      ensures selectedMonth == month
    {
      selectedMonth := month;
    }

    /** `handlePageChange`: only a real page is accepted. */
    method HandlePageChange(newPage: int)
      requires Valid()
      modifies this`currentPage
      ensures currentPage == Guarded(old(currentPage), newPage, PageCount())
      ensures old(currentPage) <= PageCount() ==> currentPage <= PageCount()
      ensures Valid()
    {
      currentPage := Guarded(currentPage, newPage, PageCount());
    }

    method PreviousPage()
      requires Valid() && PagerShown()
      modifies this`currentPage
      ensures currentPage == if PrevDisabled(old(currentPage)) then old(currentPage) else Guarded(old(currentPage), old(currentPage) - 1, PageCount())
      ensures Valid()
    {
      if !PrevDisabled(currentPage) {
        HandlePageChange(currentPage - 1);
      }
    }

    method SelectPage(page: int)
      requires Valid() && PagerShown() && page in Buttons()
      modifies this`currentPage
      ensures currentPage == page
      ensures Valid()
    {
      HandlePageChange(page);
    }

    method NextPage()
      requires Valid() && PagerShown()
      modifies this`currentPage
      ensures currentPage == if NextDisabledAsWritten(old(currentPage), PageCount()) then old(currentPage) else Guarded(old(currentPage), old(currentPage) + 1, PageCount())
      ensures Valid()
    {
      if !NextDisabledAsWritten(currentPage, PageCount()) {
        HandlePageChange(currentPage + 1);
      }
    }
  }
}
