/** The player media screen: one page of documents and one page of media
    files fetched per page number, grouped into one row per player, with
    the same item dialog as the sponsor media screen. The page count comes
    from the number of players on the fetched page. */
module PlayerMediaScreen {
  import opened Arith
  import opened Pagination
  import opened MediaGrouping

  const PageSize: nat := 10

  /** "Showing a–b of n" as written: both bounds clamped to the number of
      rows on the current page. */
  function ShowingAsWritten(page: int, rows: nat): (int, int) {
    ClampedShowing(page, PageSize, rows)
  }

  /** On page 2 with three rows the written bounds read "3–3": one row
      counted where three are listed. */
  lemma ShowingAsWrittenMiscounts()
    ensures ShowingAsWritten(2, 3) == (3, 3)
    ensures ShowingAsWritten(2, 3).1 - ShowingAsWritten(2, 3).0 + 1 != 3
  {
  }

  /** The screen's state. The fetched documents and files of the current
      page are kept as ghost state so the rows can be related to them. */
  class Screen {
    ghost var documents: seq<MediaDocument>
    ghost var files: seq<MediaFile>
    var mediaData: seq<Bucket>
    var totalItems: nat
    var currentPage: int
    var modal: Dialog

    /** The rows are the grouping of the fetched items and the total is
        the number of players among them. */
    ghost predicate Valid()
      reads this
    {
      mediaData == Grouped(documents, files)
      && totalItems == |mediaData|
      && currentPage >= 1
    }

    function PageCount(): nat
      reads this
    {
      TotalPages(totalItems, PageSize)
    }

    /** The pager is rendered only when the page has some row. */
    predicate PagerShown()
      reads this
    {
      |mediaData| > 0
    }

    function Buttons(): seq<int>
      reads this
    {
      Window(currentPage, PageCount())
    }

    /** "Showing a–b of n", with the bounds counted from the rows before
        this page, as the fans screen computes them. */
    function Showing(): (int, int)
      reads this
    {
      OffsetShowing(currentPage, PageSize, |mediaData|)
    }

    /** Every fetched player has a row, so the total counts the distinct
        owners, and the pager has a page for every ten of them. */
    lemma TotalCountsPlayers()
      requires Valid()
      ensures totalItems == |set u | u in DocumentOwners(documents) + FileOwners(files)|
      ensures PagerShown() <==> totalItems > 0
      ensures PagerShown() ==> PageCount() >= 1
    {
      GroupedOwners(documents, files);
    }

    /** The total counts only the players of the fetched page, so a page
        with at most ten of them has at most one page in the pager and the
        next button never moves past the current page. */
    lemma FewPlayersKeepOnePage()
      requires Valid() && |mediaData| <= PageSize
      ensures PageCount() <= 1
      ensures Guarded(currentPage, currentPage + 1, PageCount()) == currentPage
    {
    }

    /** With at most ten players on the page the range shown counts the
        rows, after those of the earlier pages. */
    lemma ShowingCountsRows()
      requires Valid() && PagerShown() && |mediaData| <= PageSize
      ensures Showing().0 == (currentPage - 1) * PageSize + 1
      ensures Showing().1 - Showing().0 + 1 == |mediaData|
    {
      OffsetShowingCountsRows(currentPage, PageSize, |mediaData|);
    }

    /** The range as written clamps both bounds to the rows of the page:
        from page 2 on it reads "len–len" (Finding 1). */
    lemma ShowingAsWrittenOnLaterPage()
      requires Valid() && currentPage >= 2 && 1 <= |mediaData| <= PageSize
      ensures ShowingAsWritten(currentPage, |mediaData|) == (|mediaData|, |mediaData|)
      ensures ShowingAsWritten(currentPage, |mediaData|) != Showing()
    {
      ClampedShowingOnLaterPage(currentPage, PageSize, |mediaData|);
      OffsetShowingCountsRows(currentPage, PageSize, |mediaData|);
      MulMonotone(1, currentPage - 1, PageSize);
    }

    constructor ()
      ensures documents == [] && files == []
      ensures mediaData == [] && totalItems == 0
      ensures currentPage == 1 && modal == ClosedDialog()
      ensures Valid()
    {
      documents := [];
      files := [];
      mediaData := [];
      totalItems := 0;
      currentPage := 1;
      modal := ClosedDialog();
    }

    /** A successful fetch of the current page groups its documents and
        files by user and counts the players. */
    method Receive(docs: seq<MediaDocument>, fs: seq<MediaFile>)
      requires currentPage >= 1
      modifies this`documents, this`files, this`mediaData, this`totalItems
      ensures documents == docs && files == fs
      ensures mediaData == Grouped(docs, fs) && totalItems == |Owners(docs, fs)|
      ensures Valid()
    {
      documents := docs;
      files := fs;
      var processed := GroupByUser(docs, fs);
      GroupedOwners(docs, fs);
      mediaData := processed;
      totalItems := |processed|;
    }

    /** `handlePageChange`: only a real page is accepted. */
    method HandlePageChange(newPage: int)
      requires Valid()
      modifies this`currentPage
      ensures currentPage == Guarded(old(currentPage), newPage, PageCount())
      ensures old(currentPage) <= PageCount() ==> currentPage <= PageCount()
      ensures Valid()
    {
      currentPage := Guarded(currentPage, newPage, PageCount());
    }

    /** The previous button: disabled on page 1, otherwise asks for the
        page before. */
    method PreviousPage()
      requires Valid() && PagerShown()
      modifies this`currentPage
      ensures currentPage == if PrevDisabled(old(currentPage)) then old(currentPage) else Guarded(old(currentPage), old(currentPage) - 1, PageCount())
      ensures Valid()
    {
      if !PrevDisabled(currentPage) {
        HandlePageChange(currentPage - 1);
      }
    }

    /** A page button of the window. */
    method SelectPage(page: int)
      requires Valid() && PagerShown() && page in Buttons()
      modifies this`currentPage
      ensures currentPage == page
      ensures Valid()
    {
      HandlePageChange(page);
    }

    /** The next button: disabled on the last page, otherwise asks for the
        page after; the guard refuses a page past the count. */
    method NextPage()
      requires Valid() && PagerShown()
      modifies this`currentPage
      ensures currentPage == if NextDisabledAsWritten(old(currentPage), PageCount()) then old(currentPage) else Guarded(old(currentPage), old(currentPage) + 1, PageCount())
      ensures old(currentPage) <= PageCount() ==> currentPage <= PageCount()
      ensures Valid()
    {
      if !NextDisabledAsWritten(currentPage, PageCount()) {
        HandlePageChange(currentPage + 1);
      }
    }

    /** `openModal(kind, row.playerId, row)` from a row of the table. */
    method OpenModal(kind: DialogKind, row: Bucket)
      requires Valid() && row in mediaData
      modifies this`modal
      ensures modal == OpenDialog(kind, row.ownerId, row)
      ensures Valid()
    {
      modal := OpenDialog(kind, row.ownerId, row);
    }

    /** The dialog opened from a row lists exactly that player's fetched
        items of the chosen kind. */
    lemma DialogListsPlayersItems(kind: DialogKind, row: Bucket)
      requires Valid() && row in mediaData
      ensures forall f: MediaFile :: FileItem(f) in OpenDialog(kind, row.ownerId, row).items <==>
        f in files && f.userId == row.ownerId
        && ((kind == Videos && f.kind == Video) || (kind == Photos && f.kind == Photo))
      ensures forall d: MediaDocument :: DocumentItem(d) in OpenDialog(kind, row.ownerId, row).items <==>
        d in documents && d.userId == row.ownerId
        && ((kind == Awards && d.kind == Award) || (kind == Certificates && d.kind == Certificate))
    {
      var k :| 0 <= k < |mediaData| && mediaData[k] == row;
      DialogOfGroupedRow(documents, files, k, kind);
    }

    /** `closeModal`: back to the initial dialog state. */
    method CloseModal()
      modifies this`modal
      ensures modal == ClosedDialog()
    {
      modal := ClosedDialog();
    }
  }
}
