/** The sponsor application record that the players' request screen and
    the sponsorship transactions screen both list, with the search and
    the display names the two screens share. */
module SponsorApplications {
  import opened Wrappers
  import opened Text
  import opened Collections
  import opened Listing
  import opened People

  /** An application of a player to a sponsor, or an awarded sponsorship;
      the amount is a number of pounds, fractions allowed, `None` when
      absent. */
  datatype Application = Application(
    id: string,
    playerId: string,
    sponsorId: string,
    sponsorshipType: string,
    amount: Option<real>,
    status: string,
    createdAt: string,
    player: Option<Contact>,
    sponsor: Option<Contact>)

  /** The sponsor's name the search looks at: full name, company, email,
      and the sponsor id as the last resort. */
  function SponsorSearchName(a: Application): string {
    match a.sponsor
    case None => a.sponsorId
    case Some(s) => FirstPresent([FullName(s.firstName, s.lastName), s.companyName, s.email], a.sponsorId)
  }

  /** The player's name the search looks at: full name, email, player id. */
  function PlayerSearchName(a: Application): string {
    match a.player
    case None => a.playerId
    case Some(p) => FirstPresent([FullName(p.firstName, p.lastName), p.email], a.playerId)
  }

  predicate SearchHit(a: Application, term: string) {
    Matches(SponsorSearchName(a), term) || Matches(PlayerSearchName(a), term) || Matches(a.id, term)
  }

  predicate StatusHit(a: Application, status: string) {
    SameStatus(a.status, status)
  }

  predicate MonthHit(a: Application, month: string, monthOf: string -> string) {
    monthOf(a.createdAt) == month
  }

  predicate Keep(a: Application, term: string, status: string, month: string, monthOf: string -> string) {
    (term == "" || SearchHit(a, term))
    && (!StatusFilterOn(status) || StatusHit(a, status))
    && (!MonthFilterOn(month) || MonthHit(a, month, monthOf))
  }

  function SearchFn(term: string): Application -> bool {
    a => SearchHit(a, term)
  }

  function StatusFn(status: string): Application -> bool {
    a => StatusHit(a, status)
  }

  function MonthFn(month: string, monthOf: string -> string): Application -> bool {
    a => MonthHit(a, month, monthOf)
  }

  function KeepFn(term: string, status: string, month: string, monthOf: string -> string): Application -> bool {
    a => Keep(a, term, status, month, monthOf)
  }

  /** What the filter effect of either screen computes, as one filter. */
  function Filtered(apps: seq<Application>, term: string, status: string, month: string, monthOf: string -> string): seq<Application> {
    Filter(apps, KeepFn(term, status, month, monthOf))
  }

  lemma FilteredStepwise(apps: seq<Application>, term: string, status: string, month: string, monthOf: string -> string)
    ensures Filtered(apps, term, status, month, monthOf)
      == Narrow(Narrow(Narrow(apps, term != "", SearchFn(term)),
                       StatusFilterOn(status), StatusFn(status)),
                MonthFilterOn(month), MonthFn(month, monthOf))
  {
    NarrowThrice(apps, term != "", SearchFn(term), StatusFilterOn(status), StatusFn(status),
      MonthFilterOn(month), MonthFn(month, monthOf), KeepFn(term, status, month, monthOf));
  }

  /** The filtered list keeps the fetched order and holds exactly the
      applications one of whose names or whose id contains the term, whose
      status equals the selected one ignoring case and whose month is the
      selected one, each test only when its filter is on. */
  lemma FilteredMeaning(apps: seq<Application>, term: string, status: string, month: string, monthOf: string -> string)
    ensures IsSubsequence(Filtered(apps, term, status, month, monthOf), apps)
    ensures forall a :: a in Filtered(apps, term, status, month, monthOf) <==>
      a in apps
      && (term == "" || Matches(SponsorSearchName(a), term) || Matches(PlayerSearchName(a), term) || Matches(a.id, term))
      && (!StatusFilterOn(status) || SameStatus(a.status, status))
      && (!MonthFilterOn(month) || monthOf(a.createdAt) == month)
    ensures term == "" && !StatusFilterOn(status) && !MonthFilterOn(month) ==>
      Filtered(apps, term, status, month, monthOf) == apps
  {
    FilterIsSubsequence(apps, KeepFn(term, status, month, monthOf));
    if term == "" && !StatusFilterOn(status) && !MonthFilterOn(month) {
      FilterAll(apps, KeepFn(term, status, month, monthOf));
    }
  }

  /** `getSponsorDisplayName`: never empty; the first of full name,
      company and email, else "Unknown Sponsor"; without an embedded
      sponsor, "Sponsor " and the first eight characters of its id. */
  function SponsorDisplayName(a: Application): (r: string)
    ensures r != ""
    ensures a.sponsor.None? ==> r == "Sponsor " + Prefix(a.sponsorId, 8) + "..."
    ensures a.sponsor.Some? ==>
      r == FirstPresent([FullName(a.sponsor.value.firstName, a.sponsor.value.lastName), a.sponsor.value.companyName, a.sponsor.value.email], "Unknown Sponsor")
  {
    match a.sponsor
    case None => "Sponsor " + Prefix(a.sponsorId, 8) + "..."
    case Some(s) =>
      var options := [FullName(s.firstName, s.lastName), s.companyName, s.email];
      FirstPresentEmpty(options, "Unknown Sponsor");
      FirstPresent(options, "Unknown Sponsor")
  }

  /** `getPlayerDisplayName`: full name, else email, else "Unknown Player";
      without an embedded player, "Player " and eight characters of its id. */
  function PlayerDisplayName(a: Application): (r: string)
    ensures r != ""
    ensures a.player.None? ==> r == "Player " + Prefix(a.playerId, 8) + "..."
    ensures a.player.Some? ==>
      r == FirstPresent([FullName(a.player.value.firstName, a.player.value.lastName), a.player.value.email], "Unknown Player")
  {
    match a.player
    case None => "Player " + Prefix(a.playerId, 8) + "..."
    case Some(p) =>
      var options := [FullName(p.firstName, p.lastName), p.email];
      FirstPresentEmpty(options, "Unknown Player");
      FirstPresent(options, "Unknown Player")
  }

  /** A sponsor the table names by a name, company or email is found by
      searching for that name. */
  lemma ShownSponsorIsSearchable(a: Application)
    requires a.sponsor.Some?
    requires FullName(a.sponsor.value.firstName, a.sponsor.value.lastName) != "" || a.sponsor.value.companyName != "" || a.sponsor.value.email != ""
    ensures SponsorDisplayName(a) == SponsorSearchName(a)
    ensures SearchHit(a, SponsorDisplayName(a))
  {
    var s := a.sponsor.value;
    var options := [FullName(s.firstName, s.lastName), s.companyName, s.email];
    assert options[0] != "" || options[1] != "" || options[2] != "";
    FirstPresentIgnoresFallback(options, "Unknown Sponsor", a.sponsorId);
    IncludesEmptyAndSelf(Lower(SponsorDisplayName(a)));
  }

  /** `getSponsorInfo`: email, else company, else "No additional info";
      without an embedded sponsor, twelve characters of its id and "...". */
  function SponsorInfo(a: Application): (r: string)
    ensures r != ""
    ensures a.sponsor.None? ==> r == Prefix(a.sponsorId, 12) + "..."
    ensures a.sponsor.Some? ==> r == FirstPresent([a.sponsor.value.email, a.sponsor.value.companyName], "No additional info")
  {
    match a.sponsor
    case None => Prefix(a.sponsorId, 12) + "..."
    case Some(s) =>
      FirstPresentEmpty([s.email, s.companyName], "No additional info");
      FirstPresent([s.email, s.companyName], "No additional info")
  }

  /** `getPlayerInfo`: the player's email, else "No additional info". */
  function PlayerInfo(a: Application): (r: string)
    ensures r != ""
    ensures a.player.None? ==> r == Prefix(a.playerId, 12) + "..."
    ensures a.player.Some? && a.player.value.email != "" ==> r == a.player.value.email
    ensures a.player.Some? && a.player.value.email == "" ==> r == "No additional info"
    ensures a.player.Some? ==> r == FirstPresent([a.player.value.email], "No additional info")
  {
    match a.player
    case None => Prefix(a.playerId, 12) + "..."
    case Some(p) => OrElse(p.email, "No additional info")
  }

  /** `getSponsorshipType`: the type, else "Not specified". */
  function SponsorshipType(a: Application): (r: string)
    ensures r != ""
    ensures a.sponsorshipType != "" ==> r == a.sponsorshipType
    ensures a.sponsorshipType == "" ==> r == "Not specified"
    ensures r == FirstPresent([a.sponsorshipType], "Not specified")
  {
    OrElse(a.sponsorshipType, "Not specified")
  }
}
