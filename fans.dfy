/** The fans and followers screen: one page of users fetched per page
    number, a total estimated from the page's length, and a status badge
    that treats an unknown activity flag as active. */
module FansScreen {
  import opened Wrappers
  import opened Text
  import opened Pagination
  import opened Listing
  import opened CountEstimate

  /** A user; a missing name is "", a missing activity flag `None`. */
  datatype User = User(id: string, name: string, email: string, createdAt: string, isActive: Option<bool>)

  const PageSize: nat := 10

  /** `user.name || user.email`. */
  function DisplayName(u: User): (r: string)
    ensures u.name != "" ==> r == u.name
    ensures u.name == "" ==> r == u.email
  {
    OrElse(u.name, u.email)
  }

  /** `user.isActive ?? true`: only an explicit `false` is inactive. */
  function IsActive(u: User): (r: bool)
    ensures r <==> u.isActive != Some(false)
  {
    u.isActive.GetOr(true)
  }

  function StatusText(u: User): (r: string)
    ensures r == "Active" <==> IsActive(u)
    ensures r == "Inactive" <==> !IsActive(u)
  {
    if IsActive(u) then "Active" else "Inactive"
  }

  /** `statusClass`: green for an active user, yellow otherwise. */
  function StatusTone(u: User): (t: Tone)
    ensures t == Green <==> StatusText(u) == "Active"
    ensures t == Yellow <==> StatusText(u) == "Inactive"
  {
    if IsActive(u) then Green else Yellow
  }

  /** The screen's state: the fetched page, its estimated total and the
      current page. */
  class Screen {
    var users: seq<User>
    var totalUsers: int
    var currentPage: int

    predicate Valid()
      reads this
    {
      currentPage >= 1 && totalUsers >= 0
    }

    function PageCount(): nat
      reads this
      requires totalUsers >= 0
    {
      TotalPages(totalUsers, PageSize)
    }

    /** The pager is rendered only when the page has rows. */
    predicate PagerShown()
      reads this
    {
      |users| > 0
    }

    function Buttons(): seq<int>
      reads this
      requires Valid()
    {
      Window(currentPage, PageCount())
    }

    /** "Showing a–b of total": from the first row number of the page to
        that number plus the rows on it. */
    function Showing(): (int, int)
      reads this
    {
      OffsetShowing(currentPage, PageSize, |users|)
    }

    /** The range shown counts the rows of a page of at most ten. */
    lemma ShowingCountsRows()
      requires Valid() && PagerShown() && |users| <= PageSize
      ensures Showing().0 == (currentPage - 1) * PageSize + 1
      ensures Showing().1 - Showing().0 + 1 == |users|
    {
      OffsetShowingCountsRows(currentPage, PageSize, |users|);
    }

    /** Right after a fetch the pager offers exactly one page more after a
        full page, and none after a short one, and the total covers every
        row seen so far. */
    lemma PagerAfterFetch()
      requires Valid() && totalUsers == EstimateTotal(currentPage, |users|, PageSize)
      ensures |users| <= PageSize ==> totalUsers >= (currentPage - 1) * PageSize + |users|
      ensures |users| >= PageSize ==> PageCount() == currentPage + 1
      ensures 1 <= |users| < PageSize ==> PageCount() == currentPage
    {
      if |users| <= PageSize {
        EstimateCoversSeen(currentPage, |users|, PageSize);
      }
      if |users| >= PageSize {
        FullPageOffersOneMore(currentPage, |users|, PageSize);
      } else if 1 <= |users| {
        ShortPageIsLast(currentPage, |users|, PageSize);
      }
    }

    constructor ()
      ensures users == [] && totalUsers == 0 && currentPage == 1
      ensures Valid()
    {
      users := [];
      totalUsers := 0;
      currentPage := 1;
    }

    /** A successful fetch of the current page stores its rows and
        estimates the total from their number. */
    method Receive(rows: seq<User>)
      requires Valid()
      modifies this`users, this`totalUsers
      ensures users == rows
      ensures totalUsers == EstimateTotal(currentPage, |rows|, PageSize)
      ensures Valid()
    {
      users := rows;
      totalUsers := EstimateTotal(currentPage, |rows|, PageSize);
    }

    /** `handlePageChange`: only a real page is accepted. */
    method HandlePageChange(newPage: int)
      requires Valid()
      modifies this`currentPage
      ensures currentPage == Guarded(old(currentPage), newPage, PageCount())
      ensures old(currentPage) <= PageCount() ==> currentPage <= PageCount()
      ensures Valid()
    {
      currentPage := Guarded(currentPage, newPage, PageCount());
    }

    method PreviousPage()
      requires Valid() && PagerShown()
      modifies this`currentPage
      ensures currentPage == if PrevDisabled(old(currentPage)) then old(currentPage) else Guarded(old(currentPage), old(currentPage) - 1, PageCount())
      ensures Valid()
    {
      if !PrevDisabled(currentPage) {
        HandlePageChange(currentPage - 1);
      }
    }

    method SelectPage(page: int)
      requires Valid() && PagerShown() && page in Buttons()
      modifies this`currentPage
      ensures currentPage == page
      ensures Valid()
    {
      HandlePageChange(page);
    }

    method NextPage()
      requires Valid() && PagerShown()
      modifies this`currentPage
      ensures currentPage == if NextDisabledAsWritten(old(currentPage), PageCount()) then old(currentPage) else Guarded(old(currentPage), old(currentPage) + 1, PageCount())
      ensures Valid()
    {
      if !NextDisabledAsWritten(currentPage, PageCount()) {
        HandlePageChange(currentPage + 1);
      }
    }
  }
}
