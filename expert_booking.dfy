/** The expert bookings screen: every booking fetched at once, narrowed by a
    search term, a status and a month, and shown ten to a page. */
module ExpertBookingScreen {
  import opened Wrappers
  import opened Text
  import opened Collections
  import opened Pagination
  import opened Listing
  import opened People
  import opened Responses
  import opened Durations

  datatype Service = Service(name: string, description: string)

  /** A booking as the bookings endpoint returns it; an absent optional
      string is "". */
  datatype Booking = Booking(
    id: string,
    playerId: string,
    expertId: string,
    status: string,
    startAt: string,
    endAt: string,
    paymentIntentId: string,
    recordedVideo: string,
    meetingRecording: string,
    expertMarkedComplete: bool,
    playerMarkedComplete: bool,
    player: Option<Contact>,
    expert: Option<Contact>,
    service: Option<Service>)

  const PageSize: nat := 10

  /** The expert's name the search looks at: the trimmed full name, the
      username, the email, and the expert id as the last resort. */
  function ExpertSearchName(b: Booking): string {
    match b.expert
    case None => b.expertId
    case Some(e) => FirstPresent([FullName(e.firstName, e.lastName), e.username, e.email], b.expertId)
  }

  function PlayerSearchName(b: Booking): string {
    match b.player
    case None => b.playerId
    case Some(p) => FirstPresent([FullName(p.firstName, p.lastName), p.username, p.email], b.playerId)
  }

  /** `booking.service?.name || "Service"`. */
  function ServiceSearchName(b: Booking): string {
    match b.service
    case None => "Service"
    case Some(s) => OrElse(s.name, "Service")
  }

  predicate SearchHit(b: Booking, term: string) {
    Matches(ExpertSearchName(b), term) || Matches(PlayerSearchName(b), term)
    || Matches(ServiceSearchName(b), term) || Matches(b.id, term)
  }

  predicate StatusHit(b: Booking, status: string) {
    SameStatus(b.status, status)
  }

  predicate MonthHit(b: Booking, month: string, monthOf: string -> string) {
    monthOf(b.startAt) == month
  }

  /** Whether a booking survives the three filters together. */
  predicate Keep(b: Booking, term: string, status: string, month: string, monthOf: string -> string) {
    (term == "" || SearchHit(b, term))
    && (!StatusFilterOn(status) || StatusHit(b, status))
    && (!MonthFilterOn(month) || MonthHit(b, month, monthOf))
  }

  function SearchFn(term: string): Booking -> bool {
    b => SearchHit(b, term)
  }

  function StatusFn(status: string): Booking -> bool {
    b => StatusHit(b, status)
  }

  function MonthFn(month: string, monthOf: string -> string): Booking -> bool {
    b => MonthHit(b, month, monthOf)
  }

  function KeepFn(term: string, status: string, month: string, monthOf: string -> string): Booking -> bool {
    b => Keep(b, term, status, month, monthOf)
  }

  /** What the filter effect computes, as one filter. */
  function Filtered(bookings: seq<Booking>, term: string, status: string, month: string, monthOf: string -> string): seq<Booking> {
    Filter(bookings, KeepFn(term, status, month, monthOf))
  }

  /** The three steps of the effect, one after the other, are the one filter. */
  lemma FilteredStepwise(bookings: seq<Booking>, term: string, status: string, month: string, monthOf: string -> string)
    ensures Filtered(bookings, term, status, month, monthOf)
      == Narrow(Narrow(Narrow(bookings, term != "", SearchFn(term)),
                       StatusFilterOn(status), StatusFn(status)),
                MonthFilterOn(month), MonthFn(month, monthOf))
  {
    NarrowThrice(bookings, term != "", SearchFn(term), StatusFilterOn(status), StatusFn(status),
      MonthFilterOn(month), MonthFn(month, monthOf), KeepFn(term, status, month, monthOf));
  }

  /** The filtered list keeps the fetched order, holds exactly the bookings
      that pass every active filter, and is the whole list when no filter
      is active. */
  lemma FilteredMeaning(bookings: seq<Booking>, term: string, status: string, month: string, monthOf: string -> string)
    ensures IsSubsequence(Filtered(bookings, term, status, month, monthOf), bookings)
    ensures forall b :: b in Filtered(bookings, term, status, month, monthOf) <==>
      b in bookings && (term == "" || SearchHit(b, term))
      && (!StatusFilterOn(status) || SameStatus(b.status, status))
      && (!MonthFilterOn(month) || monthOf(b.startAt) == month)
    ensures term == "" && !StatusFilterOn(status) && !MonthFilterOn(month) ==>
      Filtered(bookings, term, status, month, monthOf) == bookings
  {
    FilterIsSubsequence(bookings, KeepFn(term, status, month, monthOf));
    if term == "" && !StatusFilterOn(status) && !MonthFilterOn(month) {
      FilterAll(bookings, KeepFn(term, status, month, monthOf));
    }
  }

  /** Under an active status filter every booking left wears the badge of
      the selected status. */
  lemma FilteredShareBadge(bookings: seq<Booking>, term: string, status: string, month: string, monthOf: string -> string)
    requires StatusFilterOn(status)
    ensures forall b :: b in Filtered(bookings, term, status, month, monthOf) ==> StatusTone(b.status) == StatusTone(status)
  {
    forall b | b in Filtered(bookings, term, status, month, monthOf)
      ensures StatusTone(b.status) == StatusTone(status)
    {
      BadgeIgnoresCase(b.status, status);
    }
  }

  /** `getExpertDisplayName`: never empty; an embedded expert gives the
      first of full name, username and email, or "Unknown Expert"; without
      one it is "Expert " and the first eight characters of the id. */
  function ExpertDisplayName(b: Booking): (r: string)
    ensures r != ""
    ensures b.expert.None? ==> r == "Expert " + Prefix(b.expertId, 8) + "..."
    ensures b.expert.Some? ==>
      r == FirstPresent([FullName(b.expert.value.firstName, b.expert.value.lastName), b.expert.value.username, b.expert.value.email], "Unknown Expert")
  {
    match b.expert
    case None => "Expert " + Prefix(b.expertId, 8) + "..."
    case Some(e) =>
      var options := [FullName(e.firstName, e.lastName), e.username, e.email];
      FirstPresentEmpty(options, "Unknown Expert");
      FirstPresent(options, "Unknown Expert")
  }

  /** `getPlayerDisplayName`, the same chain for the player. */
  function PlayerDisplayName(b: Booking): (r: string)
    ensures r != ""
    ensures b.player.None? ==> r == "Player " + Prefix(b.playerId, 8) + "..."
    ensures b.player.Some? ==>
      r == FirstPresent([FullName(b.player.value.firstName, b.player.value.lastName), b.player.value.username, b.player.value.email], "Unknown Player")
  {
    match b.player
    case None => "Player " + Prefix(b.playerId, 8) + "..."
    case Some(p) =>
      var options := [FullName(p.firstName, p.lastName), p.username, p.email];
      FirstPresentEmpty(options, "Unknown Player");
      FirstPresent(options, "Unknown Player")
  }

  /** `getServiceName`: the service's name, else its description, else
      "Service"; "Expert Service" when no service is embedded. */
  function ServiceName(b: Booking): (r: string)
    ensures r != ""
    ensures b.service.None? ==> r == "Expert Service"
    ensures b.service.Some? ==> r == FirstPresent([b.service.value.name, b.service.value.description], "Service")
    ensures b.service.Some? && b.service.value.name != "" ==> r == b.service.value.name
    ensures b.service.Some? && b.service.value.name == "" && b.service.value.description != "" ==> r == b.service.value.description
    ensures b.service.Some? && b.service.value.name == "" && b.service.value.description == "" ==> r == "Service"
  {
    assert b.service.Some? ==> [b.service.value.name, b.service.value.description][1..] == [b.service.value.description];
    match b.service
    case None => "Expert Service"
    case Some(s) => OrElse(s.name, OrElse(s.description, "Service"))
  }

  /** Shown and searched names differ only in their last resort: for a
      booking whose expert has a name, username or email, the table shows
      the name the search matches against. */
  lemma ShownNameIsSearched(b: Booking)
    requires b.expert.Some?
    requires FullName(b.expert.value.firstName, b.expert.value.lastName) != "" || b.expert.value.username != "" || b.expert.value.email != ""
    ensures ExpertDisplayName(b) == ExpertSearchName(b)
  {
    var e := b.expert.value;
    var options := [FullName(e.firstName, e.lastName), e.username, e.email];
    assert options[0] != "" || options[1] != "" || options[2] != "";
    FirstPresentIgnoresFallback(options, "Unknown Expert", b.expertId);
  }

  /** `getStatusBadge`: the colour of a booking status, ignoring case. */
  function StatusTone(status: string): (t: Tone)
    ensures t == Green <==> Upper(status) == "COMPLETED"
    ensures t == Blue <==> Upper(status) == "SCHEDULED" || Upper(status) == "CONFIRMED"
    ensures t == Yellow <==> Upper(status) == "PENDING"
    ensures t == Red <==> Upper(status) == "CANCELLED"
    ensures t == Gray <==> Upper(status) !in {"COMPLETED", "SCHEDULED", "CONFIRMED", "PENDING", "CANCELLED"}
  {
    var s := Upper(status);
    if s == "COMPLETED" then Green
    else if s == "SCHEDULED" || s == "CONFIRMED" then Blue
    else if s == "PENDING" then Yellow
    else if s == "CANCELLED" then Red
    else Gray
  }

  /** Statuses the status filter treats as equal get the same badge. */
  lemma BadgeIgnoresCase(a: string, b: string)
    requires SameStatus(a, b)
    ensures StatusTone(a) == StatusTone(b)
  {
  }

  datatype Payment = Paid | Processing | Unpaid

  /** `getPaymentStatus`: paid once completed with a payment intent,
      processing with an intent before completion, pending without one. */
  function PaymentStatus(b: Booking): (p: Payment)
    ensures p == Paid <==> Upper(b.status) == "COMPLETED" && b.paymentIntentId != ""
    ensures p == Processing <==> b.paymentIntentId != "" && Upper(b.status) != "COMPLETED"
    ensures p == Unpaid <==> b.paymentIntentId == ""
  {
    var hasPaymentIntent := b.paymentIntentId != "";
    var isCompleted := Upper(b.status) == "COMPLETED";
    if isCompleted && hasPaymentIntent then Paid
    else if hasPaymentIntent then Processing
    else Unpaid
  }

  /** The badge text: each payment state has its own label. */
  function PaymentText(p: Payment): (r: string)
    ensures r == "Paid" <==> p == Paid
    ensures r == "Processing" <==> p == Processing
    ensures r == "Pending" <==> p == Unpaid
  {
    match p
    case Paid => "Paid"
    case Processing => "Processing"
    case Unpaid => "Pending"
  }

  /** The badge colour: green, blue or yellow, one per payment state. */
  function PaymentTone(p: Payment): (t: Tone)
    ensures t == Green <==> p == Paid
    ensures t == Blue <==> p == Processing
    ensures t == Yellow <==> p == Unpaid
  {
    match p
    case Paid => Green
    case Processing => Blue
    case Unpaid => Yellow
  }

  /** `hasReport`: both parties marked the session complete, or a
      recording of it exists. */
  function HasReport(b: Booking): (r: bool)
    ensures b.expertMarkedComplete && b.playerMarkedComplete ==> r
    ensures b.recordedVideo != "" || b.meetingRecording != "" ==> r
    ensures r ==> (b.expertMarkedComplete && b.playerMarkedComplete) || b.recordedVideo != "" || b.meetingRecording != ""
  {
    (b.expertMarkedComplete && b.playerMarkedComplete) || OrElse(b.recordedVideo, b.meetingRecording) != ""
  }

  /** `getBookingDuration`, with the dates read by `millisOf`. */
  function Duration(b: Booking, millisOf: string -> int): (r: string)
    ensures var d := millisOf(b.endAt) - millisOf(b.startAt);
      && (0 <= d < HourMs ==> r == IntToString(d / MinuteMs) + "m")
      && (d >= HourMs ==> r == IntToString(d / HourMs) + "h " + IntToString((d / MinuteMs) % 60) + "m")
  {
    HoursAndMinutesText(millisOf(b.endAt) - millisOf(b.startAt));
    HoursAndMinutes(millisOf(b.endAt) - millisOf(b.startAt))
  }

  /** The screen's state: the fetched bookings, the filter inputs, the
      filtered list and the current page. */
  class Screen {
    /** The month name of a date, `toLocaleDateString("en-US", { month: "long" })`. */
    const monthOf: string -> string
    var bookings: seq<Booking>
    var filteredBookings: seq<Booking>
    var searchTerm: string
    var selectedStatus: string
    var selectedMonth: string
    var currentPage: int

    /** The filtered list is the effect's result for the current inputs,
        and while the pager is shown the current page is a real page. */
    predicate Valid()
      reads this
    {
      filteredBookings == Filtered(bookings, searchTerm, selectedStatus, selectedMonth, monthOf)
      && currentPage >= 1
      && (PagerShown() ==> currentPage <= PageCount())
    }

    function PageCount(): nat
      reads this
    {
      TotalPages(|filteredBookings|, PageSize)
    }

    /** The pager is rendered only when some booking is left. */
    predicate PagerShown()
      reads this
    {
      |filteredBookings| > 0
    }

    /** The rows of the current page: at most ten, consecutive in the
        filtered list from `(currentPage - 1) * 10` on. */
    function PageRows(): (rows: seq<Booking>)
      reads this
      ensures |rows| <= PageSize
      ensures currentPage >= 1 ==> forall k :: 0 <= k < |rows| ==>
        (currentPage - 1) * PageSize + k < |filteredBookings| &&
        rows[k] == filteredBookings[(currentPage - 1) * PageSize + k]
    {
      PageSliceSize(filteredBookings, currentPage, PageSize);
      if currentPage >= 1 then
        PageSliceRows(filteredBookings, currentPage, PageSize);
        PageSlice(filteredBookings, currentPage, PageSize)
      else
        PageSlice(filteredBookings, currentPage, PageSize)
    }

    function Buttons(): seq<int>
      reads this
    {
      Window(currentPage, PageCount())
    }

    /** "Showing a–b of n". */
    function Showing(): (int, int)
      reads this
    {
      ClampedShowing(currentPage, PageSize, |filteredBookings|)
    }

    /** The window has min(pages, 5) buttons, each a real page, one of
        them the current page. */
    lemma ButtonsAreRealPages()
      requires Valid() && PagerShown()
      ensures |Buttons()| == Min(PageCount(), 5)
      ensures forall k :: 0 <= k < |Buttons()| ==> 1 <= Buttons()[k] <= PageCount()
      ensures currentPage in Buttons()
    {
      WindowHasCurrent(currentPage, PageCount());
    }

    /** The range shown counts exactly the rows of the page. */
    lemma ShowingCountsRows()
      requires Valid() && PagerShown()
      ensures 1 <= Showing().0 <= Showing().1 <= |filteredBookings|
      ensures Showing().1 - Showing().0 + 1 == |PageRows()|
    {
      ClampedShowingOfWholeList(filteredBookings, currentPage, PageSize);
      ClampedShowingOrdered(currentPage, PageSize, |filteredBookings|);
    }

    constructor (monthOf: string -> string)
      ensures this.monthOf == monthOf
      ensures bookings == [] && filteredBookings == []
      ensures searchTerm == "" && selectedStatus == "" && selectedMonth == ""
      ensures currentPage == 1
      ensures Valid()
    {
      this.monthOf := monthOf;
      bookings := [];
      filteredBookings := [];
      searchTerm := "";
      selectedStatus := "";
      selectedMonth := "";
      currentPage := 1;
    }

    /** The filter effect: narrow step by step, then back to page 1. */
    method ApplyFilters()
      modifies this`filteredBookings, this`currentPage
      ensures filteredBookings == Filtered(bookings, searchTerm, selectedStatus, selectedMonth, monthOf)
      ensures currentPage == 1
      ensures Valid()
    {
      var filtered := bookings;
      if searchTerm != "" {
        filtered := Filter(filtered, SearchFn(searchTerm));
      }
      if StatusFilterOn(selectedStatus) {
        filtered := Filter(filtered, StatusFn(selectedStatus));
      }
      if MonthFilterOn(selectedMonth) {
        filtered := Filter(filtered, MonthFn(selectedMonth, monthOf));
      }
      FilteredStepwise(bookings, searchTerm, selectedStatus, selectedMonth, monthOf);
      filteredBookings := filtered;
      currentPage := 1;
    }

    /** A successful fetch stores the rows, and the effect refilters them. */
    method Receive(body: Body<Booking>)
      modifies this`bookings, this`filteredBookings, this`currentPage
      ensures bookings == DataOrArray(body)
      ensures filteredBookings == Filtered(bookings, searchTerm, selectedStatus, selectedMonth, monthOf)
      ensures currentPage == 1 && Valid()
    {
      bookings := DataOrArray(body);
      filteredBookings := bookings;
      ApplyFilters();
    }

    method SetSearchTerm(term: string)
      modifies this`searchTerm, this`filteredBookings, this`currentPage
      ensures searchTerm == term
      ensures filteredBookings == Filtered(bookings, term, selectedStatus, selectedMonth, monthOf)
      ensures currentPage == 1 && Valid()
    {
      searchTerm := term;
      ApplyFilters();
    }

    method SetStatus(status: string)
      modifies this`selectedStatus, this`filteredBookings, this`currentPage
      ensures selectedStatus == status
      ensures filteredBookings == Filtered(bookings, searchTerm, status, selectedMonth, monthOf)
      ensures currentPage == 1 && Valid()
    {
      selectedStatus := status;
      ApplyFilters();
    }

    method SetMonth(month: string)
      modifies this`selectedMonth, this`filteredBookings, this`currentPage
      ensures selectedMonth == month
      ensures filteredBookings == Filtered(bookings, searchTerm, selectedStatus, month, monthOf)
      ensures currentPage == 1 && Valid()
    {
      selectedMonth := month;
      ApplyFilters();
    }

    /** The previous button: disabled on page 1, otherwise one page back,
        never below 1. */
    method PreviousPage()
      requires Valid() && PagerShown()
      modifies this`currentPage
      ensures currentPage == if PrevDisabled(old(currentPage)) then old(currentPage) else PrevClamped(old(currentPage))
      ensures Valid()
    {
      if !PrevDisabled(currentPage) {
        currentPage := PrevClamped(currentPage);
      }
    }

    /** A page button of the window. */
    method SelectPage(page: int)
      requires Valid() && PagerShown() && page in Buttons()
      modifies this`currentPage
      ensures currentPage == page
      ensures Valid()
    {
      currentPage := page;
    }

    /** The next button: disabled on the last page, otherwise one page on,
        never past the last. */
    method NextPage()
      requires Valid() && PagerShown()
      modifies this`currentPage
      ensures currentPage == if NextDisabledAsWritten(old(currentPage), PageCount()) then old(currentPage) else NextClamped(old(currentPage), PageCount())
      ensures Valid()
    {
      if !NextDisabledAsWritten(currentPage, PageCount()) {
        currentPage := NextClamped(currentPage, PageCount());
      }
    }
  }
}
