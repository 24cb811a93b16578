/** The sponsorship applications screen: one page of a player's
    sponsorship applications fetched per page number, with the amount and
    status formatting of its table. */
module SponsorshipApplicationsScreen {
  import opened Arith
  import opened Text
  import opened Pagination
  import opened Listing
  import opened Responses
  import opened CountEstimate

  /** An application; a missing amount is "". The amount is text, and may
      already carry its currency sign. */
  datatype Application = Application(
    id: string,
    playerId: string,
    sponsorId: string,
    kind: string,
    amount: string,
    status: string,
    createdAt: string)

  const PageSize: nat := 10

  predicate HasCurrencySign(s: string) {
    Includes(s, "£") || Includes(s, "$")
  }

  /** `formatAmount`: "N/A" for no amount, the amount itself when it
      names a currency, else the amount in pounds. */
  function FormatAmount(amount: string): (r: string)
    ensures amount == "" ==> r == "N/A"
    ensures amount != "" && HasCurrencySign(amount) ==> r == amount
    ensures amount != "" && !HasCurrencySign(amount) ==> r == "£" + amount
  {
    if amount == "" then "N/A"
    else if HasCurrencySign(amount) then amount
    else "£" + amount
  }

  /** Every formatted amount is "N/A" or names a currency, so formatting a
      formatted amount changes nothing. */
  lemma FormatAmountIdempotent(amount: string)
    ensures FormatAmount(amount) == "N/A" || HasCurrencySign(FormatAmount(amount))
    ensures amount != "" ==> FormatAmount(FormatAmount(amount)) == FormatAmount(amount)
  {
    if amount != "" && !HasCurrencySign(amount) {
      IncludesAfterPrefix("£", amount, "");
    }
  }

  /** `getStatusBadgeClass`: green when approved, red when rejected,
      yellow for pending and anything else. */
  function StatusTone(status: string): (t: Tone)
    ensures t == Green <==> Upper(status) == "APPROVED"
    ensures t == Red <==> Upper(status) == "REJECTED"
    ensures t == Yellow <==> Upper(status) != "APPROVED" && Upper(status) != "REJECTED"
  {
    var s := Upper(status);
    if s == "APPROVED" then Green
    else if s == "REJECTED" then Red
    else Yellow
  }

  /** The type column: `type.toLowerCase()`. */
  function KindText(a: Application): (r: string)
    ensures |r| == |a.kind|
    ensures forall k :: 0 <= k < |r| ==> r[k] == LowerChar(a.kind[k])
    ensures Lower(r) == r
  {
    LowerIdempotent(a.kind);
    Lower(a.kind)
  }

  /** The total as written: the number of rows on the fetched page. */
  function TotalAsWritten(rows: seq<Application>): nat {
    |rows|
  }

  /** With that total a page of at most ten rows makes a single page, so
      the guard refuses page 2 and later rows can never be fetched. */
  lemma TotalAsWrittenHasOnePage(rows: seq<Application>)
    requires |rows| <= PageSize
    ensures TotalPages(TotalAsWritten(rows), PageSize) <= 1
    ensures Guarded(1, 2, TotalPages(TotalAsWritten(rows), PageSize)) == 1
  {
  }

  /** "Showing a–b" as written: both bounds clamped to the rows of the
      current page. */
  function ShowingAsWritten(page: int, rows: nat): (int, int) {
    ClampedShowing(page, PageSize, rows)
  }

  /** The screen's state: the fetched page, the total and the current page. */
  class Screen {
    var applications: seq<Application>
    var totalItems: int
    var currentPage: int

    predicate Valid()
      reads this
    {
      currentPage >= 1 && totalItems >= 0
    }

    function PageCount(): nat
      reads this
      requires totalItems >= 0
    {
      TotalPages(totalItems, PageSize)
    }

    /** The pager is rendered when the fetched page has rows. */
    predicate PagerShown()
      reads this
    {
      |applications| > 0
    }

    function Buttons(): seq<int>
      reads this
      requires Valid()
    {
      Window(currentPage, PageCount())
    }

    /** "Showing a–b of total", counted from the rows before this page. */
    function Showing(): (int, int)
      reads this
    {
      OffsetShowing(currentPage, PageSize, |applications|)
    }

    lemma ShowingCountsRows()
      requires Valid() && PagerShown() && |applications| <= PageSize
      ensures Showing().0 == (currentPage - 1) * PageSize + 1
      ensures Showing().1 - Showing().0 + 1 == |applications|
    {
      OffsetShowingCountsRows(currentPage, PageSize, |applications|);
    }

    /** The range as written clamps both bounds to the rows of the page:
        from page 2 on it reads "len–len". */
    lemma ShowingAsWrittenOnLaterPage()
      requires Valid() && currentPage >= 2 && 1 <= |applications| <= PageSize
      ensures ShowingAsWritten(currentPage, |applications|) == (|applications|, |applications|)
      ensures ShowingAsWritten(currentPage, |applications|) != Showing()
    {
      ClampedShowingOnLaterPage(currentPage, PageSize, |applications|);
      OffsetShowingCountsRows(currentPage, PageSize, |applications|);
      MulMonotone(1, currentPage - 1, PageSize);
    }

    /** With the estimated total a full page always leaves the next page
        reachable, and a short page is the last. */
    lemma PagerAfterFetch()
      requires Valid() && totalItems == EstimateTotal(currentPage, |applications|, PageSize)
      ensures |applications| >= PageSize ==> PageCount() == currentPage + 1
      ensures |applications| >= PageSize ==> Guarded(currentPage, currentPage + 1, PageCount()) == currentPage + 1
      ensures 1 <= |applications| < PageSize ==> PageCount() == currentPage
    {
      if |applications| >= PageSize {
        FullPageOffersOneMore(currentPage, |applications|, PageSize);
      } else if 1 <= |applications| {
        ShortPageIsLast(currentPage, |applications|, PageSize);
      }
    }

    constructor ()
      ensures applications == [] && totalItems == 0 && currentPage == 1
      ensures Valid()
    {
      applications := [];
      totalItems := 0;
      currentPage := 1;
    }

    /** A successful fetch picks the rows out of the body (a bare array,
        else `data`, else `applications`) and estimates the total. */
    method Receive(body: Body<Application>)
      requires Valid()
      modifies this`applications, this`totalItems
      ensures applications == ArrayFirst(body)
      ensures totalItems == EstimateTotal(currentPage, |applications|, PageSize)
      ensures Valid()
    {
      applications := ArrayFirst(body);
      totalItems := EstimateTotal(currentPage, |applications|, PageSize);
    }

    /** `handlePageChange`: only a real page is accepted. */
    method HandlePageChange(newPage: int)
      requires Valid()
      modifies this`currentPage
      ensures currentPage == Guarded(old(currentPage), newPage, PageCount())
      ensures old(currentPage) <= PageCount() ==> currentPage <= PageCount()
      ensures Valid()
    {
      currentPage := Guarded(currentPage, newPage, PageCount());
    }

    method PreviousPage()
      requires Valid() && PagerShown()
      modifies this`currentPage
      ensures currentPage == if PrevDisabled(old(currentPage)) then old(currentPage) else Guarded(old(currentPage), old(currentPage) - 1, PageCount())
      ensures Valid()
    {
      if !PrevDisabled(currentPage) {
        HandlePageChange(currentPage - 1);
      }
    }

    method SelectPage(page: int)
      requires Valid() && PagerShown() && page in Buttons()
      modifies this`currentPage
      ensures currentPage == page
      ensures Valid()
    {
      HandlePageChange(page);
    }

    method NextPage()
      requires Valid() && PagerShown()
      modifies this`currentPage
      ensures currentPage == if NextDisabledAsWritten(old(currentPage), PageCount()) then old(currentPage) else Guarded(old(currentPage), old(currentPage) + 1, PageCount())
      ensures Valid()
    {
      if !NextDisabledAsWritten(currentPage, PageCount()) {
        HandlePageChange(currentPage + 1);
      }
    }
  }
}
