/** The player bookings screen: one page of bookings fetched per page
    number, a total estimated from the page's length, and a month filter
    over the fetched page on the session's start date. */
module PlayerBookingsScreen {
  import opened Text
  import opened Collections
  import opened Arith
  import opened Pagination
  import opened Listing
  import opened CountEstimate
  import opened Durations

  /** A booking as the table shows it; a missing text field is "". */
  datatype Booking = Booking(
    id: string,
    playerId: string,
    expertId: string,
    startAt: string,
    endAt: string,
    status: string,
    paymentIntentId: string,
    meetingRecording: string,
    recordedVideo: string,
    playerMarkedComplete: bool,
    expertMarkedComplete: bool)

  const PageSize: nat := 10

  /** `getStatusColor`: the colour of a booking status, ignoring case. */
  function StatusTone(status: string): (t: Tone)
    ensures t == Blue <==> Upper(status) == "SCHEDULED"
    ensures t == Green <==> Upper(status) == "COMPLETED"
    ensures t == Red <==> Upper(status) == "CANCELLED"
    ensures t == Yellow <==> Upper(status) == "IN_PROGRESS"
    ensures t == Gray <==> Upper(status) !in {"SCHEDULED", "COMPLETED", "CANCELLED", "IN_PROGRESS"}
  {
    var s := Upper(status);
    if s == "SCHEDULED" then Blue
    else if s == "COMPLETED" then Green
    else if s == "CANCELLED" then Red
    else if s == "IN_PROGRESS" then Yellow
    else Gray
  }

  /** `getBookingDuration`, with the dates read by `millisOf`. */
  function Duration(b: Booking, millisOf: string -> int): (r: string)
    ensures var d := millisOf(b.endAt) - millisOf(b.startAt);
      && (0 <= d < HourMs ==> r == IntToString(d / MinuteMs) + "m")
      && (d >= HourMs && (d / MinuteMs) % 60 != 0 ==> r == IntToString(d / HourMs) + "h " + IntToString((d / MinuteMs) % 60) + "m")
      && (d >= HourMs && (d / MinuteMs) % 60 == 0 ==> r == IntToString(d / HourMs) + "h")
  {
    HoursOrMinutesText(millisOf(b.endAt) - millisOf(b.startAt));
    HoursOrMinutes(millisOf(b.endAt) - millisOf(b.startAt))
  }

  /** The payment column: "Paid" once a payment intent exists. */
  function PaymentText(b: Booking): (r: string)
    ensures r == "Paid" <==> b.paymentIntentId != ""
    ensures r == "Pending" <==> b.paymentIntentId == ""
  {
    if b.paymentIntentId != "" then "Paid" else "Pending"
  }

  /** The recordings column lists a recording link when either exists. */
  function HasRecording(b: Booking): (r: bool)
    ensures r <==> b.meetingRecording != "" || b.recordedVideo != ""
  {
    OrElse(b.meetingRecording, b.recordedVideo) != ""
  }

  /** The player and expert columns: the first eight characters of the id. */
  function IdLabel(id: string): (r: string)
    ensures r == Prefix(id, 8) + "..."
    ensures |r| <= 11 && Prefix(id, 8) <= r
  {
    Prefix(id, 8) + "..."
  }

  /** Only the exact entry "All Months" switches the filter off. */
  predicate Keep(b: Booking, month: string, monthOf: string -> string) {
    month == AllMonths || monthOf(b.startAt) == month
  }

  function KeepFn(month: string, monthOf: string -> string): Booking -> bool {
    b => Keep(b, month, monthOf)
  }

  /** `filteredBookings`, recomputed from the fetched page on every render. */
  function Filtered(bookings: seq<Booking>, month: string, monthOf: string -> string): seq<Booking> {
    Filter(bookings, KeepFn(month, monthOf))
  }

  /** The filtered page keeps the fetched order and holds the bookings
      starting in the selected month, or all of them for "All Months". */
  lemma FilteredMeaning(bookings: seq<Booking>, month: string, monthOf: string -> string)
    ensures IsSubsequence(Filtered(bookings, month, monthOf), bookings)
    ensures forall b :: b in Filtered(bookings, month, monthOf) <==>
      b in bookings && (month == AllMonths || monthOf(b.startAt) == month)
    ensures month == AllMonths ==> Filtered(bookings, month, monthOf) == bookings
  {
    FilterIsSubsequence(bookings, KeepFn(month, monthOf));
    if month == AllMonths {
      FilterAll(bookings, KeepFn(month, monthOf));
    }
  }

  /** Unlike the other month filters, an empty selection is not "off": it
      keeps only bookings whose month reads "", which no date produces. */
  lemma EmptyMonthKeepsNothing(bookings: seq<Booking>, monthOf: string -> string)
    requires forall k :: 0 <= k < |bookings| ==> monthOf(bookings[k].startAt) != ""
    ensures Filtered(bookings, "", monthOf) == []
  {
    FilterNone(bookings, KeepFn("", monthOf));
  }

  /** "Showing a–b" as written: both bounds clamped to the filtered rows
      of the current page. */
  function ShowingAsWritten(page: int, rows: nat): (int, int) {
    ClampedShowing(page, PageSize, rows)
  }

  /** The screen's state: the fetched page, its estimated total, the
      month picked and the current page. */
  class Screen {
    /** The month name of a date, `toLocaleDateString("en-US", { month: "long" })`. */
    const monthOf: string -> string
    var bookings: seq<Booking>
    var totalBookings: int
    var selectedMonth: string
    var currentPage: int

    predicate Valid()
      reads this
    {
      currentPage >= 1 && totalBookings >= 0
    }

    function PageCount(): nat
      reads this
      requires totalBookings >= 0
    {
      TotalPages(totalBookings, PageSize)
    }

    function FilteredBookings(): seq<Booking>
      reads this
    {
      Filtered(bookings, selectedMonth, monthOf)
    }

    /** The pager is rendered when the fetched page has rows. */
    predicate PagerShown()
      reads this
    {
      |bookings| > 0
    }

    function Buttons(): seq<int>
      reads this
      requires Valid()
    {
      Window(currentPage, PageCount())
    }

    /** "Showing a–b out of total", counted from the rows before this
        page, as the fans screen computes it. */
    function Showing(): (int, int)
      reads this
    {
      OffsetShowing(currentPage, PageSize, |FilteredBookings()|)
    }

    lemma ShowingCountsRows()
      requires Valid() && 1 <= |FilteredBookings()| <= PageSize
      ensures Showing().0 == (currentPage - 1) * PageSize + 1
      ensures Showing().1 - Showing().0 + 1 == |FilteredBookings()|
    {
      OffsetShowingCountsRows(currentPage, PageSize, |FilteredBookings()|);
    }

    /** The range as written clamps both bounds to the filtered rows of
        the page: from page 2 on it reads "len–len" (Finding 1). */
    lemma ShowingAsWrittenOnLaterPage()
      requires Valid() && currentPage >= 2 && 1 <= |FilteredBookings()| <= PageSize
      ensures ShowingAsWritten(currentPage, |FilteredBookings()|) == (|FilteredBookings()|, |FilteredBookings()|)
      ensures ShowingAsWritten(currentPage, |FilteredBookings()|) != Showing()
    {
      ClampedShowingOnLaterPage(currentPage, PageSize, |FilteredBookings()|);
      OffsetShowingCountsRows(currentPage, PageSize, |FilteredBookings()|);
      MulMonotone(1, currentPage - 1, PageSize);
    }

    /** Right after a fetch the pager offers exactly one page more after a
        full page, and none after a short one. */
    lemma PagerAfterFetch()
      requires Valid() && totalBookings == EstimateTotal(currentPage, |bookings|, PageSize)
      ensures |bookings| >= PageSize ==> PageCount() == currentPage + 1
      ensures 1 <= |bookings| < PageSize ==> PageCount() == currentPage
    {
      if |bookings| >= PageSize {
        FullPageOffersOneMore(currentPage, |bookings|, PageSize);
      } else if 1 <= |bookings| {
        ShortPageIsLast(currentPage, |bookings|, PageSize);
      }
    }

    constructor (monthOf: string -> string)
      ensures this.monthOf == monthOf
      ensures bookings == [] && totalBookings == 0
      ensures selectedMonth == AllMonths && currentPage == 1
      ensures Valid()
    {
      this.monthOf := monthOf;
      bookings := [];
      totalBookings := 0;
      selectedMonth := AllMonths;
      currentPage := 1;
    }

    /** A successful fetch of the current page stores its rows and
        estimates the total from their number. */
    method Receive(rows: seq<Booking>)
      requires Valid()
      modifies this`bookings, this`totalBookings
      ensures bookings == rows
      ensures totalBookings == EstimateTotal(currentPage, |rows|, PageSize)
      ensures Valid()
    {
      bookings := rows;
      totalBookings := EstimateTotal(currentPage, |rows|, PageSize);
    }

    method SetMonth(month: string)
      modifies this`selectedMonth
      ensures selectedMonth == month
    {
      selectedMonth := month;
    }

    /** `handlePageChange`: only a real page is accepted. */
    method HandlePageChange(newPage: int)
      requires Valid()
      modifies this`currentPage
      ensures currentPage == Guarded(old(currentPage), newPage, PageCount())
      ensures old(currentPage) <= PageCount() ==> currentPage <= PageCount()
      ensures Valid()
    {
      currentPage := Guarded(currentPage, newPage, PageCount());
    }

    method PreviousPage()
      requires Valid() && PagerShown()
      modifies this`currentPage
      ensures currentPage == if PrevDisabled(old(currentPage)) then old(currentPage) else Guarded(old(currentPage), old(currentPage) - 1, PageCount())
      ensures Valid()
    {
      if !PrevDisabled(currentPage) {
        HandlePageChange(currentPage - 1);
      }
    }

    method SelectPage(page: int)
      requires Valid() && PagerShown() && page in Buttons()
      modifies this`currentPage
      ensures currentPage == page
      ensures Valid()
    {
      HandlePageChange(page);
    }

    method NextPage()
      requires Valid() && PagerShown()
      modifies this`currentPage
      ensures currentPage == if NextDisabledAsWritten(old(currentPage), PageCount()) then old(currentPage) else Guarded(old(currentPage), old(currentPage) + 1, PageCount())
      ensures Valid()
    {
      if !NextDisabledAsWritten(currentPage, PageCount()) {
        HandlePageChange(currentPage + 1);
      }
    }
  }
}
