/** The registered teams screen: every team fetched at once, narrowed by
    search and month, and paged on the client ten rows at a time, with the
    display helpers of its table (name, details, services, a made-up
    enrollment count and a profile status). */
module RegisteredTeamsScreen {
  import opened Text
  import opened Collections
  import opened Pagination
  import opened Listing
  import opened Responses
  import opened JsNumbers

  /** A team account; every optional text field is "" when absent. */
  datatype Team = Team(
    id: string,
    firstName: string,
    lastName: string,
    username: string,
    createdAt: string,
    city: string,
    club: string,
    company: string,
    country: string,
    profession: string,
    subProfession: string,
    sport: string)

  const PageSize: nat := 10

  /** The search looks at "first last" as typed (not trimmed), the
      username, and the company and club when the team has them. */
  predicate SearchHit(t: Team, term: string) {
    Matches(t.firstName + " " + t.lastName, term)
    || Matches(t.username, term)
    || (t.company != "" && Matches(t.company, term))
    || (t.club != "" && Matches(t.club, term))
  }

  predicate MonthHit(t: Team, month: string, monthOf: string -> string) {
    monthOf(t.createdAt) == month
  }

  predicate Keep(t: Team, term: string, month: string, monthOf: string -> string) {
    (term == "" || SearchHit(t, term)) && (!MonthFilterOn(month) || MonthHit(t, month, monthOf))
  }

  function SearchFn(term: string): Team -> bool {
    t => SearchHit(t, term)
  }

  function MonthFn(month: string, monthOf: string -> string): Team -> bool {
    t => MonthHit(t, month, monthOf)
  }

  function KeepFn(term: string, month: string, monthOf: string -> string): Team -> bool {
    t => Keep(t, term, month, monthOf)
  }

  /** The filter effect's result, as one filter. */
  function Filtered(teams: seq<Team>, term: string, month: string, monthOf: string -> string): seq<Team> {
    Filter(teams, KeepFn(term, month, monthOf))
  }

  lemma FilteredStepwise(teams: seq<Team>, term: string, month: string, monthOf: string -> string)
    ensures Filtered(teams, term, month, monthOf)
      == Narrow(Narrow(teams, term != "", SearchFn(term)), MonthFilterOn(month), MonthFn(month, monthOf))
  {
    NarrowTwice(teams, term != "", SearchFn(term), MonthFilterOn(month), MonthFn(month, monthOf), KeepFn(term, month, monthOf));
  }

  /** The filtered list keeps the fetched order and holds exactly the teams
      that match the term (when one is typed) and were created in the
      selected month (when one is picked). */
  lemma FilteredMeaning(teams: seq<Team>, term: string, month: string, monthOf: string -> string)
    ensures IsSubsequence(Filtered(teams, term, month, monthOf), teams)
    ensures forall t :: t in Filtered(teams, term, month, monthOf) <==>
      t in teams
      && (term == "" || SearchHit(t, term))
      && (!MonthFilterOn(month) || monthOf(t.createdAt) == month)
    ensures term == "" && !MonthFilterOn(month) ==> Filtered(teams, term, month, monthOf) == teams
  {
    FilterIsSubsequence(teams, KeepFn(term, month, monthOf));
    if term == "" && !MonthFilterOn(month) {
      FilterAll(teams, KeepFn(term, month, monthOf));
    }
  }

  /** `getTeamDisplayName`: company, else club, else the trimmed full
      name, else the username, else "Team". */
  function DisplayName(t: Team): (r: string)
    ensures r != ""
    ensures r == FirstPresent([t.company, t.club, FullName(t.firstName, t.lastName), t.username], "Team")
    ensures t.company != "" ==> r == t.company
  {
    var options := [t.company, t.club, FullName(t.firstName, t.lastName), t.username];
    FirstPresentEmpty(options, "Team");
    FirstPresent(options, "Team")
  }

  /** A team shown under its company, club, full name or username is
      found by searching for the name shown. */
  lemma ShownNameIsSearchable(t: Team)
    requires t.company != "" || t.club != "" || FullName(t.firstName, t.lastName) != "" || t.username != ""
    ensures SearchHit(t, DisplayName(t))
  {
    if t.company != "" {
      IncludesEmptyAndSelf(Lower(t.company));
    } else if t.club != "" {
      ShownClubIsSearchable(t);
    } else if FullName(t.firstName, t.lastName) != "" {
      ShownFullNameIsSearchable(t);
    } else {
      ShownUsernameIsSearchable(t);
    }
  }

  lemma ShownClubIsSearchable(t: Team)
    requires t.company == "" && t.club != ""
    ensures SearchHit(t, DisplayName(t))
  {
    var options := [t.company, t.club, FullName(t.firstName, t.lastName), t.username];
    assert options[1] != "" && forall k :: 0 <= k < 1 ==> options[k] == "";
    IncludesEmptyAndSelf(Lower(t.club));
  }

  lemma ShownFullNameIsSearchable(t: Team)
    requires t.company == "" && t.club == "" && FullName(t.firstName, t.lastName) != ""
    ensures SearchHit(t, DisplayName(t))
  {
    var full := FullName(t.firstName, t.lastName);
    var options := [t.company, t.club, full, t.username];
    assert options[2] != "" && forall k :: 0 <= k < 2 ==> options[k] == "";
    assert DisplayName(t) == full;
    MatchesOwnTrim(t.firstName + " " + t.lastName);
  }

  lemma ShownUsernameIsSearchable(t: Team)
    requires t.company == "" && t.club == "" && FullName(t.firstName, t.lastName) == "" && t.username != ""
    ensures SearchHit(t, DisplayName(t))
  {
    var options := [t.company, t.club, FullName(t.firstName, t.lastName), t.username];
    assert options[3] != "" && forall k :: 0 <= k < 3 ==> options[k] == "";
    IncludesEmptyAndSelf(Lower(t.username));
  }

  /** The fields `getTeamInfo` pushes, in the order it tests them. */
  function InfoParts(t: Team): seq<string> {
    [t.company, t.club, t.city, t.country]
  }

  /** `getTeamInfo`: company, club, city and country, those present,
      joined by " • "; the username when none is. */
  function Info(t: Team): (r: string)
    ensures Present(InfoParts(t)) == [] ==> r == t.username
    ensures Present(InfoParts(t)) != [] ==> r == Join(Present(InfoParts(t)), " • ")
    ensures t.company != "" ==> t.company <= r
    ensures t.company == "" && t.club != "" ==> t.club <= r
  {
    var parts := InfoParts(t);
    assert parts[1..] == [t.club, t.city, t.country];
    assert t.company == "" && t.club != "" ==>
      Present(parts) == Present(parts[1..]) == [t.club] + Present([t.city, t.country]);
    var info := Present(parts);
    if |info| > 0 then Join(info, " • ") else t.username
  }

  /** With every field present the details read
      "company • club • city • country". */
  lemma InfoOfCompleteTeam(t: Team)
    requires t.company != "" && t.club != "" && t.city != "" && t.country != ""
    ensures Info(t) == t.company + " • " + t.club + " • " + t.city + " • " + t.country
  {
    PresentOfNonEmpty(InfoParts(t));
    JoinSmall(t.company, t.club, t.city, t.country, " • ");
  }

  /** A missing field is skipped together with its separator: with only
      the city and the country the details read "city • country". */
  lemma InfoSkipsMissing(t: Team)
    requires t.company == "" && t.club == "" && t.city != "" && t.country != ""
    ensures Info(t) == t.city + " • " + t.country
  {
    var parts := InfoParts(t);
    var tail := parts[2..];
    assert parts[1..][1..] == tail == [t.city, t.country];
    assert Present(parts) == Present(tail);
    PresentOfNonEmpty(tail);
    JoinSmall(t.city, t.country, "", "", " • ");
  }

  /** The entries `getServicesOffered` pushes, in order. */
  function ServiceParts(t: Team): seq<string> {
    [t.profession, t.subProfession, if t.sport != "" then t.sport + " Training" else ""]
  }

  /** `getServicesOffered`: profession, sub-profession and "<sport>
      Training", those present, joined by ", "; a stock phrase when none is. */
  function Services(t: Team): (r: string)
    ensures r != ""
    ensures Present(ServiceParts(t)) == [] <==> t.profession == "" && t.subProfession == "" && t.sport == ""
    ensures Present(ServiceParts(t)) == [] ==> r == "Training and Enrollments"
    ensures Present(ServiceParts(t)) != [] ==> r == Join(Present(ServiceParts(t)), ", ")
    ensures t.profession != "" ==> t.profession <= r
  {
    var parts := ServiceParts(t);
    assert parts[1..][1..][1..] == [];
    var services := Present(parts);
    if |services| > 0 then Join(services, ", ") else "Training and Enrollments"
  }

  /** With all three present the services read
      "profession, sub-profession, <sport> Training". */
  lemma ServicesOfCompleteTeam(t: Team)
    requires t.profession != "" && t.subProfession != "" && t.sport != ""
    ensures Services(t) == t.profession + ", " + t.subProfession + ", " + t.sport + " Training"
  {
    var training := t.sport + " Training";
    assert ServiceParts(t) == [t.profession, t.subProfession, training];
    PresentOfNonEmpty(ServiceParts(t));
    JoinSmall(t.profession, t.subProfession, training, "", ", ");
    var head := t.profession + ", " + t.subProfession + ", ";
    assert head + training == head + t.sport + " Training";
  }

  /** Each UTF-16 code unit of a character, as `split("")` and
      `charCodeAt` see it: one below U+10000, a surrogate pair above. */
  function CharUnits(c: char): (r: seq<int>)
    ensures 1 <= |r| <= 2
    ensures forall k :: 0 <= k < |r| ==> 0 <= r[k] < 0x1_0000
    ensures (c as int) < 0x1_0000 ==> r == [c as int]
    ensures (c as int) >= 0x1_0000 ==>
      |r| == 2 && 0xD800 <= r[0] < 0xDC00 && 0xDC00 <= r[1] < 0xE000
      && 0x1_0000 + (r[0] - 0xD800) * 0x400 + (r[1] - 0xDC00) == c as int
  {
    var v := c as int;
    if v < 0x1_0000 then [v]
    else
      var hi := (v - 0x1_0000) / 0x400;
      var lo := (v - 0x1_0000) % 0x400;
      assert hi < 0x400;
      [0xD800 + hi, 0xDC00 + lo]
  }

  /** The UTF-16 code units of a string, in order. */
  function CodeUnits(s: string): (r: seq<int>)
    ensures |s| <= |r| <= 2 * |s|
    ensures forall k :: 0 <= k < |r| ==> 0 <= r[k] < 0x1_0000
  {
    if s == [] then [] else CharUnits(s[0]) + CodeUnits(s[1..])
  }

  /** The units of a string are those of its characters, one after the
      other: the units of a concatenation are the concatenated units. */
  lemma {:induction false} CodeUnitsAppend(a: string, b: string)
    ensures CodeUnits(a + b) == CodeUnits(a) + CodeUnits(b)
  {
    if a == [] {
      assert a + b == b;
    } else {
      assert (a + b)[0] == a[0];
      assert (a + b)[1..] == a[1..] + b;
      CodeUnitsAppend(a[1..], b);
    }
  }

  lemma CodeUnitsOfChar(c: char)
    ensures CodeUnits([c]) == CharUnits(c)
  {
    assert [c][1..] == [];
  }

  /** Text below U+10000, such as an ASCII id, has one unit per character. */
  lemma {:induction false} CodeUnitsOfBasicText(s: string)
    requires forall k :: 0 <= k < |s| ==> (s[k] as int) < 0x1_0000
    ensures |CodeUnits(s)| == |s|
    ensures forall k :: 0 <= k < |s| ==> CodeUnits(s)[k] == s[k] as int
  {
    if s != [] {
      CodeUnitsOfBasicText(s[1..]);
    }
  }

  /** One step of the reducer: `a = (a << 5) - a + unit; return a & a`. */
  function HashStep(a: int, unit: int): (r: int)
    ensures -TwoTo31 <= r < TwoTo31
  {
    ToInt32(ShiftLeft5(a) - a + unit)
  }

  /** The reducer folded over the units from the left, starting at 0. */
  function HashOf(units: seq<int>): (h: int)
    ensures -TwoTo31 <= h < TwoTo31
  {
    if units == [] then 0 else HashStep(HashOf(units[..|units| - 1]), units[|units| - 1])
  }

  /** A short id never wraps: its hash is the polynomial hash
      `31 * a + unit` with nothing lost. */
  lemma HashOfSmall(u0: int, u1: int)
    requires 0 <= u0 < 0x1_0000 && 0 <= u1 < 0x1_0000
    ensures HashOf([u0]) == u0
    ensures HashOf([u0, u1]) == 31 * u0 + u1
  {
    assert [u0][..0] == [];
    assert [u0, u1][..1] == [u0];
  }

  /** The hash of a team id, computed unit by unit. */
  method IdHash(id: string) returns (hash: int)
    ensures hash == HashOf(CodeUnits(id))
    ensures -TwoTo31 <= hash < TwoTo31
  {
    var units := CodeUnits(id);
    hash := 0;
    var i := 0;
    while i < |units|
      invariant 0 <= i <= |units|
      invariant hash == HashOf(units[..i])
    {
      assert units[..i + 1][..i] == units[..i];
      hash := HashStep(hash, units[i]);
      i := i + 1;
    }
    assert units[..|units|] == units;
  }

  /** `Math.abs(hash % 15) + 5`: an enrollment count from 5 to 19. */
  function EnrollmentCount(hash: int): (n: int)
    ensures 5 <= n <= 19
    ensures hash >= 0 ==> n == hash % 15 + 5
  {
    Abs(JsRem(hash, 15)) + 5
  }

  /** `getEnrollmentCount`: the count the table shows for a team. */
  method TeamEnrollment(t: Team) returns (n: int)
    ensures n == EnrollmentCount(HashOf(CodeUnits(t.id)))
    ensures 5 <= n <= 19
  {
    var hash := IdHash(t.id);
    n := EnrollmentCount(hash);
  }

  /** `getTeamStatus`: a profile is complete with a first and a last name
      and a company or a club. */
  function IsActive(t: Team): (r: bool)
    ensures r <==> t.firstName != "" && t.lastName != "" && (t.company != "" || t.club != "")
  {
    t.firstName != "" && t.lastName != "" && OrElse(t.company, t.club) != ""
  }

  function StatusText(t: Team): string {
    if IsActive(t) then "Active" else "Inactive"
  }

  /** `getStatusBadge`: green for an active team, yellow otherwise. */
  function StatusTone(t: Team): (tone: Tone)
    ensures tone == Green <==> StatusText(t) == "Active"
    ensures tone == Yellow <==> StatusText(t) == "Inactive"
  {
    if StatusText(t) == "Active" then Green else Yellow
  }

  /** An active team has a company or a club, so it is never shown under
      its personal name or username. */
  lemma ActiveTeamShownByOrganisation(t: Team)
    requires IsActive(t)
    ensures DisplayName(t) == t.company || DisplayName(t) == t.club
  {
    var options := [t.company, t.club, FullName(t.firstName, t.lastName), t.username];
    if t.company == "" {
      assert options[0] == "" && options[1] != "";
    }
  }

  /** The screen's state: the fetched teams, the filter inputs, the
      filtered list and the current page. */
  class Screen {
    /** The month name of a date, `toLocaleDateString("en-US", { month: "long" })`. */
    const monthOf: string -> string
    var teams: seq<Team>
    var filteredTeams: seq<Team>
    var searchTerm: string
    var selectedMonth: string
    var currentPage: int

    /** The filtered list is the effect's result for the current inputs,
        and while the pager is shown the current page is a real page. */
    predicate Valid()
      reads this
    {
      filteredTeams == Filtered(teams, searchTerm, selectedMonth, monthOf)
      && currentPage >= 1
      && (PagerShown() ==> currentPage <= PageCount())
    }

    function PageCount(): nat
      reads this
    {
      TotalPages(|filteredTeams|, PageSize)
    }

    /** The pager is rendered only when some team is left. */
    predicate PagerShown()
      reads this
    {
      |filteredTeams| > 0
    }

    /** The rows of the current page: at most ten, consecutive in the
        filtered list from `(currentPage - 1) * 10` on. */
    function PageRows(): (rows: seq<Team>)
      reads this
      ensures |rows| <= PageSize
      ensures currentPage >= 1 ==> forall k :: 0 <= k < |rows| ==>
        (currentPage - 1) * PageSize + k < |filteredTeams| &&
        rows[k] == filteredTeams[(currentPage - 1) * PageSize + k]
    {
      PageSliceSize(filteredTeams, currentPage, PageSize);
      if currentPage >= 1 then
        PageSliceRows(filteredTeams, currentPage, PageSize);
        PageSlice(filteredTeams, currentPage, PageSize)
      else
        PageSlice(filteredTeams, currentPage, PageSize)
    }

    function Buttons(): seq<int>
      reads this
    {
      Window(currentPage, PageCount())
    }

    /** "Showing start-end of n", with the unclamped bounds of the bar. */
    function Showing(): (int, int)
      reads this
    {
      (StartItem(currentPage, PageSize), EndItem(currentPage, PageSize, |filteredTeams|))
    }

    /** The window has min(pages, 5) buttons, each a real page, one of
        them the current page. */
    lemma ButtonsAreRealPages()
      requires Valid() && PagerShown()
      ensures |Buttons()| == Min(PageCount(), 5)
      ensures forall k :: 0 <= k < |Buttons()| ==> 1 <= Buttons()[k] <= PageCount()
      ensures currentPage in Buttons()
    {
      WindowHasCurrent(currentPage, PageCount());
    }

    /** The range shown counts exactly the rows of the page. */
    lemma ShowingCountsRows()
      requires Valid() && PagerShown()
      ensures 1 <= Showing().0 <= Showing().1 <= |filteredTeams|
      ensures Showing().1 - Showing().0 + 1 == |PageRows()|
    {
      ShowingCountsSlice(filteredTeams, currentPage, PageSize);
    }

    constructor (monthOf: string -> string)
      ensures this.monthOf == monthOf
      ensures teams == [] && filteredTeams == []
      ensures searchTerm == "" && selectedMonth == ""
      ensures currentPage == 1
      ensures Valid()
    {
      this.monthOf := monthOf;
      teams := [];
      filteredTeams := [];
      searchTerm := "";
      selectedMonth := "";
      currentPage := 1;
    }

    /** The filter effect: narrow step by step, then back to page 1. */
    method ApplyFilters()
      modifies this`filteredTeams, this`currentPage
      ensures filteredTeams == Filtered(teams, searchTerm, selectedMonth, monthOf)
      ensures currentPage == 1
      ensures Valid()
    {
      var filtered := teams;
      if searchTerm != "" {
        filtered := Filter(filtered, SearchFn(searchTerm));
      }
      if MonthFilterOn(selectedMonth) {
        filtered := Filter(filtered, MonthFn(selectedMonth, monthOf));
      }
      FilteredStepwise(teams, searchTerm, selectedMonth, monthOf);
      filteredTeams := filtered;
      currentPage := 1;
    }

    /** A successful fetch stores `data.data`, or the body itself when it
        is an array, and the effect refilters. */
    method Receive(body: Body<Team>)
      modifies this`teams, this`filteredTeams, this`currentPage
      ensures teams == DataOrArray(body)
      ensures filteredTeams == Filtered(teams, searchTerm, selectedMonth, monthOf)
      ensures currentPage == 1 && Valid()
    {
      teams := DataOrArray(body);
      filteredTeams := teams;
      ApplyFilters();
    }

    method SetSearchTerm(term: string)
      modifies this`searchTerm, this`filteredTeams, this`currentPage
      ensures searchTerm == term
      ensures filteredTeams == Filtered(teams, term, selectedMonth, monthOf)
      ensures currentPage == 1 && Valid()
    {
      searchTerm := term;
      ApplyFilters();
    }

    method SetMonth(month: string)
      modifies this`selectedMonth, this`filteredTeams, this`currentPage
      ensures selectedMonth == month
      ensures filteredTeams == Filtered(teams, searchTerm, month, monthOf)
      ensures currentPage == 1 && Valid()
    {
      selectedMonth := month;
      ApplyFilters();
    }

    /** The bar's previous button: disabled on page 1, otherwise
        `currentPage - 1`. */
    method PreviousPage()
      requires Valid() && PagerShown()
      modifies this`currentPage
      ensures currentPage == if PrevDisabled(old(currentPage)) then old(currentPage) else old(currentPage) - 1
      ensures Valid()
    {
      if !PrevDisabled(currentPage) {
        currentPage := currentPage - 1;
      }
    }

    /** A page button of the window. */
    method SelectPage(page: int)
      requires Valid() && PagerShown() && page in Buttons()
      modifies this`currentPage
      ensures currentPage == page
      ensures Valid()
    {
      currentPage := page;
    }

    /** The bar's next button: disabled on the last page, otherwise
        `currentPage + 1`. */
    method NextPage()
      requires Valid() && PagerShown()
      modifies this`currentPage
      ensures currentPage == if NextDisabledAsWritten(old(currentPage), PageCount()) then old(currentPage) else old(currentPage) + 1
      ensures Valid()
    {
      if !NextDisabledAsWritten(currentPage, PageCount()) {
        currentPage := currentPage + 1;
      }
    }
  }
}
