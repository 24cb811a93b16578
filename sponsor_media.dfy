/** The sponsor media screen: every document and media file fetched at
    once, grouped into one row per sponsor, narrowed by a search on the
    sponsor id and by month, paged on the client seven rows at a time,
    with a dialog listing one row's items of one kind. */
module SponsorMediaScreen {
  import opened Text
  import opened Collections
  import opened Pagination
  import opened Listing
  import opened MediaGrouping

  const PageSize: nat := 7

  /** The search looks at the sponsor id only. */
  predicate SearchHit(b: Bucket, term: string) {
    Matches(b.ownerId, term)
  }

  predicate Keep(b: Bucket, term: string, month: string, monthOf: string -> string) {
    (term == "" || SearchHit(b, term)) && (!MonthFilterOn(month) || HasItemFrom(b, month, monthOf))
  }

  function SearchFn(term: string): Bucket -> bool {
    b => SearchHit(b, term)
  }

  function MonthFn(month: string, monthOf: string -> string): Bucket -> bool {
    b => HasItemFrom(b, month, monthOf)
  }

  function KeepFn(term: string, month: string, monthOf: string -> string): Bucket -> bool {
    b => Keep(b, term, month, monthOf)
  }

  /** The filter effect's result, as one filter. */
  function Filtered(rows: seq<Bucket>, term: string, month: string, monthOf: string -> string): seq<Bucket> {
    Filter(rows, KeepFn(term, month, monthOf))
  }

  lemma FilteredStepwise(rows: seq<Bucket>, term: string, month: string, monthOf: string -> string)
    ensures Filtered(rows, term, month, monthOf)
      == Narrow(Narrow(rows, term != "", SearchFn(term)), MonthFilterOn(month), MonthFn(month, monthOf))
  {
    NarrowTwice(rows, term != "", SearchFn(term), MonthFilterOn(month), MonthFn(month, monthOf), KeepFn(term, month, monthOf));
  }

  /** Over the grouped rows, the filtered list keeps the grouping's order
      and holds exactly the sponsors whose id contains the term (when one
      is typed) and who uploaded a file or a document in the selected
      month (when one is picked). */
  lemma FilteredMeaning(docs: seq<MediaDocument>, files: seq<MediaFile>, term: string, month: string, monthOf: string -> string)
    ensures IsSubsequence(Filtered(Grouped(docs, files), term, month, monthOf), Grouped(docs, files))
    ensures forall k :: 0 <= k < |Grouped(docs, files)| ==>
      (Grouped(docs, files)[k] in Filtered(Grouped(docs, files), term, month, monthOf) <==>
        (term == "" || Matches(Grouped(docs, files)[k].ownerId, term))
        && (!MonthFilterOn(month)
            || (exists f :: f in files && f.userId == Grouped(docs, files)[k].ownerId && monthOf(f.createdAt) == month)
            || (exists d :: d in docs && d.userId == Grouped(docs, files)[k].ownerId && monthOf(d.createdAt) == month)))
    ensures term == "" && !MonthFilterOn(month) ==> Filtered(Grouped(docs, files), term, month, monthOf) == Grouped(docs, files)
  {
    var g := Grouped(docs, files);
    FilterIsSubsequence(g, KeepFn(term, month, monthOf));
    forall k | 0 <= k < |g|
      ensures HasItemFrom(g[k], month, monthOf) <==>
        (exists f :: f in files && f.userId == g[k].ownerId && monthOf(f.createdAt) == month)
        || (exists d :: d in docs && d.userId == g[k].ownerId && monthOf(d.createdAt) == month)
    {
      MonthOfGroupedRow(docs, files, k, month, monthOf);
    }
    if term == "" && !MonthFilterOn(month) {
      FilterAll(g, KeepFn(term, month, monthOf));
    }
  }

  /** The screen's state. The fetched documents and files are kept as
      ghost state so the rows can be related to them. */
  class Screen {
    /** The month name of a date, `toLocaleDateString("en-US", { month: "long" })`. */
    const monthOf: string -> string
    ghost var documents: seq<MediaDocument>
    ghost var files: seq<MediaFile>
    var mediaData: seq<Bucket>
    var filteredData: seq<Bucket>
    var totalItems: nat
    var searchTerm: string
    var selectedMonth: string
    var currentPage: int
    var modal: Dialog

    /** The rows are the grouping of the fetched items, the filtered rows
        the effect's result, and while the pager is shown the current page
        is a real page. */
    ghost predicate Valid()
      reads this
    {
      mediaData == Grouped(documents, files)
      && totalItems == |mediaData|
      && filteredData == Filtered(mediaData, searchTerm, selectedMonth, monthOf)
      && currentPage >= 1
      && (PagerShown() ==> currentPage <= PageCount())
    }

    function PageCount(): nat
      reads this
    {
      TotalPages(|filteredData|, PageSize)
    }

    /** The pager is rendered only when some row is left. */
    predicate PagerShown()
      reads this
    {
      |filteredData| > 0
    }

    /** The rows of the current page: at most seven, consecutive in the
        filtered list from `(currentPage - 1) * 7` on. */
    function PageRows(): (rows: seq<Bucket>)
      reads this
      ensures |rows| <= PageSize
      ensures currentPage >= 1 ==> forall k :: 0 <= k < |rows| ==>
        (currentPage - 1) * PageSize + k < |filteredData| &&
        rows[k] == filteredData[(currentPage - 1) * PageSize + k]
    {
      PageSliceSize(filteredData, currentPage, PageSize);
      if currentPage >= 1 then
        PageSliceRows(filteredData, currentPage, PageSize);
        PageSlice(filteredData, currentPage, PageSize)
      else
        PageSlice(filteredData, currentPage, PageSize)
    }

    function Buttons(): seq<int>
      reads this
    {
      Window(currentPage, PageCount())
    }

    /** "Showing start to end of n", with the unclamped bounds of the bar. */
    function Showing(): (int, int)
      reads this
    {
      (StartItem(currentPage, PageSize), EndItem(currentPage, PageSize, |filteredData|))
    }

    lemma ButtonsAreRealPages()
      requires Valid() && PagerShown()
      ensures |Buttons()| == Min(PageCount(), 5)
      ensures forall k :: 0 <= k < |Buttons()| ==> 1 <= Buttons()[k] <= PageCount()
      ensures currentPage in Buttons()
    {
      WindowHasCurrent(currentPage, PageCount());
    }

    lemma ShowingCountsRows()
      requires Valid() && PagerShown()
      ensures 1 <= Showing().0 <= Showing().1 <= |filteredData|
      ensures Showing().1 - Showing().0 + 1 == |PageRows()|
    {
      ShowingCountsSlice(filteredData, currentPage, PageSize);
    }

    /** The rows of the page are rows of the filtered list and of the grouping. */
    lemma PageRowsAreGroups()
      requires Valid()
      ensures forall b :: b in PageRows() ==> b in filteredData && b in Grouped(documents, files)
    {
      var rows := PageRows();
      forall b | b in rows ensures b in filteredData {
        var k :| 0 <= k < |rows| && rows[k] == b;
      }
    }

    /** The dialog opened from a row of the page lists exactly that
        sponsor's fetched items of the chosen kind. */
    lemma DialogListsSponsorsItems(kind: DialogKind, row: Bucket)
      requires Valid() && row in PageRows()
      ensures forall f: MediaFile :: FileItem(f) in OpenDialog(kind, row.ownerId, row).items <==>
        f in files && f.userId == row.ownerId
        && ((kind == Videos && f.kind == Video) || (kind == Photos && f.kind == Photo))
      ensures forall d: MediaDocument :: DocumentItem(d) in OpenDialog(kind, row.ownerId, row).items <==>
        d in documents && d.userId == row.ownerId
        && ((kind == Awards && d.kind == Award) || (kind == Certificates && d.kind == Certificate))
    {
      PageRowsAreGroups();
      var g := Grouped(documents, files);
      var k :| 0 <= k < |g| && g[k] == row;
      DialogOfGroupedRow(documents, files, k, kind);
    }

    constructor (monthOf: string -> string)
      ensures this.monthOf == monthOf
      ensures documents == [] && files == []
      ensures mediaData == [] && filteredData == [] && totalItems == 0
      ensures searchTerm == "" && selectedMonth == ""
      ensures currentPage == 1 && modal == ClosedDialog()
      ensures Valid()
    {
      this.monthOf := monthOf;
      documents := [];
      files := [];
      mediaData := [];
      filteredData := [];
      totalItems := 0;
      searchTerm := "";
      selectedMonth := "";
      currentPage := 1;
      modal := ClosedDialog();
    }

    /** The filter effect: narrow step by step, then back to page 1. */
    method ApplyFilters()
      requires mediaData == Grouped(documents, files) && totalItems == |mediaData|
      modifies this`filteredData, this`currentPage
      ensures filteredData == Filtered(mediaData, searchTerm, selectedMonth, monthOf)
      ensures currentPage == 1
      ensures Valid()
    {
      var filtered := mediaData;
      if searchTerm != "" {
        filtered := Filter(filtered, SearchFn(searchTerm));
      }
      if MonthFilterOn(selectedMonth) {
        filtered := Filter(filtered, MonthFn(selectedMonth, monthOf));
      }
      FilteredStepwise(mediaData, searchTerm, selectedMonth, monthOf);
      filteredData := filtered;
      currentPage := 1;
    }

    /** A successful fetch groups the documents and the files by user, and
        the effect refilters the rows. */
    method Receive(docs: seq<MediaDocument>, fs: seq<MediaFile>)
      modifies this`documents, this`files, this`mediaData, this`totalItems, this`filteredData, this`currentPage
      ensures documents == docs && files == fs
      ensures mediaData == Grouped(docs, fs) && totalItems == |Owners(docs, fs)|
      ensures filteredData == Filtered(mediaData, searchTerm, selectedMonth, monthOf)
      ensures currentPage == 1 && Valid()
    {
      documents := docs;
      files := fs;
      var processed := GroupByUser(docs, fs);
      GroupedOwners(docs, fs);
      mediaData := processed;
      filteredData := processed;
      totalItems := |processed|;
      ApplyFilters();
    }

    method SetSearchTerm(term: string)
      requires Valid()
      modifies this`searchTerm, this`filteredData, this`currentPage
      ensures searchTerm == term
      ensures filteredData == Filtered(mediaData, term, selectedMonth, monthOf)
      ensures currentPage == 1 && Valid()
    {
      searchTerm := term;
      ApplyFilters();
    }

    method SetMonth(month: string)
      requires Valid()
      modifies this`selectedMonth, this`filteredData, this`currentPage
      ensures selectedMonth == month
      ensures filteredData == Filtered(mediaData, searchTerm, month, monthOf)
      ensures currentPage == 1 && Valid()
    {
      selectedMonth := month;
      ApplyFilters();
    }

    /** The bar's previous button: disabled on page 1, otherwise
        `currentPage - 1`. */
    method PreviousPage()
      requires Valid() && PagerShown()
      modifies this`currentPage
      ensures currentPage == if PrevDisabled(old(currentPage)) then old(currentPage) else old(currentPage) - 1
      ensures Valid()
    {
      if !PrevDisabled(currentPage) {
        currentPage := currentPage - 1;
      }
    }

    method SelectPage(page: int)
      requires Valid() && PagerShown() && page in Buttons()
      modifies this`currentPage
      ensures currentPage == page
      ensures Valid()
    {
      currentPage := page;
    }

    /** The bar's next button: disabled on the last page, otherwise
        `currentPage + 1`. */
    method NextPage()
      requires Valid() && PagerShown()
      modifies this`currentPage
      ensures currentPage == if NextDisabledAsWritten(old(currentPage), PageCount()) then old(currentPage) else old(currentPage) + 1
      ensures Valid()
    {
      if !NextDisabledAsWritten(currentPage, PageCount()) {
        currentPage := currentPage + 1;
      }
    }

    /** `openModal(kind, row.sponsorId, row)` from a row of the page. */
    method OpenModal(kind: DialogKind, row: Bucket)
      requires Valid() && row in PageRows()
      modifies this`modal
      ensures modal == OpenDialog(kind, row.ownerId, row)
      ensures Valid()
    {
      modal := OpenDialog(kind, row.ownerId, row);
    }

    /** `closeModal`: back to the initial dialog state. */
    method CloseModal()
      modifies this`modal
      ensures modal == ClosedDialog()
    {
      modal := ClosedDialog();
    }
  }
}
