# Outceedo admin screens, modelled in Dafny

This project models the admin front end of Outceedo, a sports platform
where players, experts, sponsors, teams and fans hold accounts:

- The table screens. Each screen fetches a list of records and keeps it
  in React state. It narrows the list by a search term, a status and a
  month; it pages the list; and it renders each row through small
  formatting helpers. A "Showing a–b of n" line and a row of page buttons
  sit under each table.
- The admin login form.

Each screen is a module with a `Screen` class. The class fields are the
screen's state variables. Each method is one state change of the screen:

- a finished fetch (`Receive`);
- the filter effect (`ApplyFilters` and the setters that trigger it);
- a page button (`PreviousPage`, `SelectPage`, `NextPage`);
- on the media screens, opening or closing the document dialog.

`Valid()` is the invariant these methods keep. It says, for example:

- the filtered list is the filter of the fetched list;
- on the media screens, the rows are the grouping of the fetched items;
- the current page is 1 or a real page. On the sponsors and experts
  screens this holds only with the corrected next button (Finding 2).

The helpers shared by the screens are written once. They are:

- the five-button page window and the full page list (`Pagination`);
- `slice` and the "Showing" arithmetic (`Pagination`);
- the guarded and the clamped page change (`Pagination`);
- the page-count guess of the server-paged screens (`CountEstimate`);
- the per-user media grouping built on a `Map` (`MediaGrouping`);
- the step-by-step filter effect (`Listing`, `Collections`);
- JavaScript string operations (`Text`);
- JavaScript number operations (`JsNumbers`).

Some source behaviour is given to the model as parameters:

- `monthOf` is a date's month name;
- `millisOf` is a date's timestamp;
- `localeOf` is `toLocaleString` on a number.

A missing optional string is written as `""`. This is because the source
reads such strings only through truthiness or `|| ""`.

## Model

| member | source | states |
|---|---|---|
| Pagination.TotalPages | src/Adminpages/Sponsor/SponsorMedia.tsx:195 | `ceil(n/size)`: the page count is the least number of pages of `size` rows that holds all `n` rows. |
| Pagination.Window | src/Adminpages/Sponsor/SponsorMedia.tsx:121-131 | The window has exactly min(totalPages,5) buttons. They are consecutive and ascending, and each lies in [1,totalPages] whatever the current page is. |
| Pagination.WindowHasCurrent | src/Adminpages/Sponsor/SponsorMedia.tsx:121-131 | The current page is one of the window's buttons iff 1 ≤ currentPage ≤ totalPages. |
| Pagination.WindowPosition | src/Adminpages/Sponsor/SponsorMedia.tsx:123-130 | The window starts at 1 near the start and ends at totalPages near the end. In between, it is centred on the current page. |
| Pagination.PageList | src/Adminpages/Expert/Expert.tsx:332-342 | `Array.from({length: totalPages}, (_, i) => i + 1)` has totalPages entries, and entry k is k+1. |
| Pagination.PageListMembers | src/Adminpages/Expert/Expert.tsx:332-342 | A number is in the page list iff it lies in [1,totalPages]. |
| Pagination.WindowOfFewPages | src/Adminpages/Player/Media.tsx:526-527 | With five pages or fewer, the window is the full page list. |
| Pagination.JsSlice | src/Adminpages/Sponsor/SponsorMedia.tsx:196-199 | `Array.prototype.slice` with its negative-index and clamping rules. Element k of the result is element start+k of the input, with start normalised. |
| Pagination.PageSliceSize | src/Adminpages/Sponsor/SponsorMedia.tsx:194-199 | A page slice never holds more than `size` rows, whatever the page number. |
| Pagination.PageSliceRows | src/Adminpages/Sponsor/SponsorMedia.tsx:196-199 | Row k of page p is row (p−1)·size+k of the filtered list. |
| Pagination.PagesCoverAll | src/Adminpages/Sponsor/SponsorMedia.tsx:194-199 | The slices of pages 1..totalPages, concatenated, are the filtered list. |
| Pagination.ShowingCountsSlice | src/Adminpages/Sponsor/SponsorMedia.tsx:102-103 | For a page in range, endItem = min(p·size, n), and endItem−startItem+1 is the slice length. |
| Pagination.ClampedShowingOfWholeList | src/Adminpages/Expert/ExpertBooking.tsx:585-591 | With both bounds clamped to the length of the whole filtered list, the range counts the rows of the page. |
| Pagination.ClampedShowingOrdered | src/Adminpages/Player/Media.tsx:510-512 | For len ≥ 1 the clamped bounds satisfy 1 ≤ lower ≤ upper ≤ len. |
| Pagination.ClampedShowingOnLaterPage | src/Adminpages/Player/Booking.tsx:452-458 | Clamping to the rows of the current page, on page 2 or later, reads "len–len". That counts one row where len are listed (Finding 1, code as written). |
| Pagination.OffsetShowingCountsRows | src/Adminpages/Fans/Fans.tsx:255-260 | start = (p−1)·size+1 and end = min(p·size, (p−1)·size+len). So end−start+1 = len for 1 ≤ len ≤ size (Finding 1, corrected). |
| Pagination.Guarded | src/Adminpages/Player/Media.tsx:204-208 | `handlePageChange` moves to the requested page iff it lies in [1,totalPages]; otherwise the page is unchanged. |
| Pagination.GuardedStaysInRange | src/Adminpages/Player/Media.tsx:204-208 | From a real page, the guard always leaves a real page. |
| Pagination.PrevClamped | src/Adminpages/Expert/ExpertBooking.tsx:598 | `Math.max(p−1, 1)` is p−1 above page 1, and 1 otherwise. |
| Pagination.NextClamped | src/Adminpages/Expert/ExpertBooking.tsx:629-630 | `Math.min(p+1, totalPages)` is p+1 below the last page, and totalPages otherwise. |
| Pagination.ClampsStayInRange | src/Adminpages/Expert/ExpertBooking.tsx:598-630 | Both clamps keep a real page a real page. |
| Pagination.NextEnabledWithoutPages | src/Adminpages/Expert/Expert.tsx:343-347 | With no rows there are no pages, yet page 1's next button as written is enabled. It leads to page 0 (clamped) or page 2 (unguarded) (Finding 2, code as written). |
| Pagination.EnabledButtonsStayInRange | src/Adminpages/Sponsor/Sponsor.tsx:95-104 | With next disabled when there is no later page, an enabled prev or next button leads to a real page, on a real page and on page 1 of an empty list. With no pages the corrected test disables next where the written `===` test does not (Finding 2, corrected). |
| Pagination.NextDisabledWithoutPages | src/Adminpages/Expert/Expert.tsx:343-347 | With no rows, for page sizes 10 and 7, the corrected test disables next on page 1 and the written test leaves it enabled (Finding 2). |
| Pagination.NextDisabledAgreesInRange | src/Adminpages/Sponsor/Sponsor.tsx:97-101 | On a real page, the corrected test and `currentPage === totalPages` agree. |
| CountEstimate.EstimateTotal | src/Adminpages/Player/Booking.tsx:92-98 | For a short page (len < size) the estimate is exactly (page−1)·size+len; the page 1 branch agrees with this. |
| CountEstimate.EstimateCoversSeen | src/Adminpages/Player/Booking.tsx:92-98 | The estimate is never below (page−1)·size+len, the rows seen through this page. |
| CountEstimate.FullPageOffersOneMore | src/Adminpages/Player/Booking.tsx:97-98 | After a full page, ceil(estimate/size) = page+1: exactly one further page is offered. |
| CountEstimate.ShortPageIsLast | src/Adminpages/Player/Player.tsx:89-93 | After a non-empty short page, the current page is the last one. |
| CountEstimate.EmptyLaterPage | src/Adminpages/Fans/Fans.tsx:73-78 | An empty page after the first leaves the page count one below the current page. |
| Collections.Filter | src/Adminpages/Sponsor/Sponsor.tsx:215-225 | `filter` keeps exactly the elements satisfying the predicate, and is never longer than its input. |
| Collections.FilterIsSubsequence | src/Adminpages/Sponsor/Sponsor.tsx:210-241 | The filtered array keeps the original order. |
| Collections.FilterCounts | src/Adminpages/Sponsor/Sponsor.tsx:215-225 | Each kept element occurs as often as in the input; dropped ones occur zero times. |
| Collections.FilterAppend | src/Adminpages/Sponsor/Sponsor.tsx:215-225 | Filtering distributes over concatenation. |
| Collections.FilterAll | src/Adminpages/Sponsor/Sponsor.tsx:215-225 | A predicate true of every element keeps the whole array. |
| Collections.FilterNone | src/Adminpages/Sponsor/Sponsor.tsx:215-225 | A predicate false of every element keeps nothing. |
| Collections.FilterPartition | src/Adminpages/Sponsor/Sponsor.tsx:215-225 | A predicate and its negation split the array: the two lengths add up to the whole. |
| Collections.FilterAgree | src/Adminpages/Sponsor/Sponsor.tsx:215-225 | Predicates that agree on the elements filter alike. |
| Collections.FilterThenFilter | src/Adminpages/Sponsor/Sponsor.tsx:211-239 | Two successive `.filter` calls are one filter by the conjunction. |
| Collections.Distinct | src/Adminpages/Sponsor/SponsorMedia.tsx:233-279 | The keys of a `Map` filled in order are each distinct element once, and nothing else. |
| Collections.DistinctSnoc | src/Adminpages/Sponsor/SponsorMedia.tsx:242-248 | A new key is appended to the key order; an existing key leaves the order unchanged. |
| Collections.DistinctCardinality | src/Adminpages/Player/Media.tsx:180 | `map.size` is the number of distinct keys. |
| Listing.SameStatusIsEquivalence | src/Adminpages/Expert/ExpertBooking.tsx:216-221 | Case-insensitive status equality is reflexive, symmetric and transitive, and ignores case changes. |
| Listing.Narrow | src/Adminpages/Expert/ExpertBooking.tsx:216-221 | A switched-off step leaves the list unchanged. |
| Listing.NarrowIsFilter | src/Adminpages/Expert/ExpertBooking.tsx:216-221 | One step `if (on) filtered = filtered.filter(p)` is a filter by "off, or p". |
| Listing.NarrowTwice | src/Adminpages/Sponsor/Sponsor.tsx:210-241 | Two steps in sequence are one filter by the conjunction of their conditions. |
| Listing.NarrowThrice | src/Adminpages/Expert/ExpertBooking.tsx:180-236 | Three steps in sequence are one filter by the conjunction of their conditions. |
| Text.Trim | src/Adminpages/Player/Player.tsx:158 | `trim` removes exactly the leading and trailing ECMAScript whitespace: the result is the tidy block that starts after the leading whitespace and is followed only by whitespace. |
| Text.TrimUnique | src/Adminpages/Player/Player.tsx:158 | Any tidy block that is preceded and followed only by whitespace in s is `s.trim()`: the trim is the unique such block. |
| Text.MatchesOwnTrim | src/Adminpages/Teams/RegisteredTeams.tsx:233-236 | A string contains its own trim, so a search for the trimmed full name finds the untrimmed one. |
| Text.FullNameCases | src/Adminpages/Player/Player.tsx:155-160 | For names without outer whitespace, `${first} ${last}`.trim() is the other name when one is empty, and first + " " + last otherwise. |
| Text.Includes | src/Adminpages/Expert/Expert.tsx:132-135 | `s.includes(t)` holds iff t occurs in s at some position. |
| Text.IncludesEmptyAndSelf | src/Adminpages/Player/Player.tsx:171-176 | The empty term occurs in every string, and a string occurs in itself. |
| Text.Lower | src/Adminpages/Expert/Expert.tsx:132-135 | `toLowerCase` maps every character and keeps the length. |
| Text.Upper | src/Adminpages/Expert/ExpertBooking.tsx:219 | `toUpperCase` maps every character and keeps the length. |
| Text.OrElse | src/Adminpages/Sponsor/Sponsor.tsx:268 | `a \|\| b` on strings is a when a is non-empty and b when it is empty; so it is empty iff both are. |
| Text.FirstPresent | src/Adminpages/Sponsor/Sponsor.tsx:258-264 | `a \|\| b \|\| … \|\| fallback` is the first non-empty option; it is the fallback when all are empty. |
| Text.FirstPresentEmpty | src/Adminpages/Sponsor/Playersrequest.tsx:302-315 | The chain yields an option or the fallback. It is empty only if all options and the fallback are. |
| Text.Present | src/Adminpages/Teams/RegisteredTeams.tsx:284-288 | The fields pushed by `if (x) info.push(x)` are the filter of the list by non-emptiness: every non-empty field, only those, at most as many as the list. |
| Text.Join | src/Adminpages/Teams/RegisteredTeams.tsx:290 | `join` of no parts is "", of one part that part, and every join starts with its first part. |
| Text.JoinSnoc | src/Adminpages/Teams/RegisteredTeams.tsx:290 | Appending a part to a non-empty list appends the separator and the part to the join. |
| Text.JoinSmall | src/Adminpages/Teams/RegisteredTeams.tsx:290 | The joins of two, three and four parts are the parts with the separator between each neighbouring pair. |
| Text.JoinLength | src/Adminpages/Teams/RegisteredTeams.tsx:290 | The join of n ≥ 1 parts is as long as the parts together plus n−1 separators. |
| Text.PresentCons | src/Adminpages/Teams/RegisteredTeams.tsx:284-288 | A leading non-empty field is pushed first; a leading empty one is skipped. |
| Text.PresentOfNonEmpty | src/Adminpages/Teams/RegisteredTeams.tsx:284-288 | When every field is non-empty, every field is pushed, in order. |
| Text.PresentKeepsOrder | src/Adminpages/Teams/RegisteredTeams.tsx:284-288 | The pushed fields keep the order of the checks, and each non-empty value occurs as often as among the fields; "" never occurs. |
| Text.Prefix | src/Adminpages/Expert/ExpertBooking.tsx:297 | `substring(0, n)` is a prefix of length min(n, \|s\|). |
| Text.IncludesAfterPrefix | src/Adminpages/Player/SponsorShipApplication.tsx:127-133 | A prefix occurs in the prefixed string, and a substring of s survives prefixing. |
| JsNumbers.JsRem | src/Adminpages/Expert/ExpertBooking.tsx:360 | JavaScript `%`: the remainder takes the sign of the dividend. It agrees with Dafny's `%` for non-negative dividends. |
| JsNumbers.ToInt32 | src/Adminpages/Teams/RegisteredTeams.tsx:308 | `a & a` wraps to a signed 32-bit value congruent to a mod 2^32. It is the identity in range. |
| JsNumbers.ShiftLeft5 | src/Adminpages/Teams/RegisteredTeams.tsx:307 | `a << 5` is a signed 32-bit value, and is a·32 when that fits. |
| Durations.SplitDuration | src/Adminpages/Expert/ExpertBooking.tsx:354-369 | For d ≥ 0: the hours are d div 3600000, the minutes are (d mod 3600000) div 60000 < 60, and together they are the whole minutes of d. |
| Durations.FormatsAgree | src/Adminpages/Player/Booking.tsx:181-193 | The two screens' duration texts agree, except for a whole number of hours: there one prints "Hh 0m" and the other "Hh". |
| Durations.HoursAndMinutesText | src/Adminpages/Expert/ExpertBooking.tsx:354-369 | The booking screen's text: "Mm" below an hour; from an hour on, "Hh Mm" with H whole hours and M the minutes past the hour, even M = 0. |
| Durations.HoursOrMinutesText | src/Adminpages/Player/Booking.tsx:181-193 | The player bookings text: "Mm" below an hour; from an hour on, "Hh Mm", or just "Hh" when no minutes are left over. |
| Responses.DataOrArray | src/Adminpages/Teams/RegisteredTeams.tsx:208-218 | The rows are `data.data` when it is an array, else a bare array body, else none. |
| Responses.DataOnly | src/Adminpages/Sponsor/Sponsor.tsx:159-165 | The rows are `data.data` when present; a bare array is not read. |
| Responses.ArrayFirst | src/Adminpages/Player/SponsorShipApplication.tsx:67-69 | Rows come from the first of: a bare array, `.data`, `.applications`, []. |
| Responses.ReadersCompared | src/Adminpages/Player/SponsorShipApplication.tsx:67-69 | The three readers agree on an object with `data`. Where one reads nothing and another reads rows, the rows come from the more lenient reader. |
| MediaGrouping.GroupByUser | src/Adminpages/Sponsor/SponsorMedia.tsx:233-279 | The `forEach` loops over documents, then media, with `Map` get/set, `push` and the counters. They produce `Grouped(docs, files)`: one bucket per user. |
| MediaGrouping.PushDocument | src/Adminpages/Sponsor/SponsorMedia.tsx:241-256 | One document step adds the document to its user's bucket (created on first sight), bumps its counter, and leaves every other bucket unchanged. |
| MediaGrouping.PushFile | src/Adminpages/Sponsor/SponsorMedia.tsx:263-276 | One media step does the same for a media file. |
| MediaGrouping.GroupedOwners | src/Adminpages/Sponsor/SponsorMedia.tsx:241-279 | Bucket k belongs to user k of first appearance. Documents are scanned before media, and users are distinct. |
| MediaGrouping.GroupedCountersAgree | src/Adminpages/Player/Media.tsx:149-151 | In every bucket, totalDocuments = \|documents\| and totalMedia = \|media\|. |
| MediaGrouping.Placement | src/Adminpages/Sponsor/SponsorMedia.tsx:233-279 | A document or file is in a bucket iff that bucket is its user's. Each item has that bucket. |
| MediaGrouping.RowsKeepOrder | src/Adminpages/Sponsor/SponsorMedia.tsx:241-276 | Each bucket lists its user's items in input order, each exactly as often as in the input. |
| MediaGrouping.GroupedTotals | src/Adminpages/Player/Media.tsx:131-181 | The counters over all buckets sum to the input lengths: nothing is lost or duplicated. |
| MediaGrouping.CountsAddUp | src/Adminpages/Player/Media.tsx:211-221 | videos + photos = totalMedia, and certificates + awards = totalDocuments. |
| MediaGrouping.StatusOf | src/Adminpages/Sponsor/SponsorMedia.tsx:353-364 | Completed iff both totals are > 0; Partial iff exactly one is; Pending iff neither. |
| MediaGrouping.StatusTone | src/Adminpages/Sponsor/SponsorMedia.tsx:353-364 | Green iff Completed, yellow iff Partial, red iff Pending. |
| MediaGrouping.GroupedNeverPending | src/Adminpages/Player/Media.tsx:223-234 | A bucket made by the grouping holds an item, so it is never Pending. |
| MediaGrouping.ClosedDialog | src/Adminpages/Sponsor/SponsorMedia.tsx:186-192 | The initial and closed dialog state: not open, no items, owner "", kind videos and title "". |
| MediaGrouping.OpenDialog | src/Adminpages/Sponsor/SponsorMedia.tsx:366-402 | `openModal` lists the bucket's media for the file kinds and its documents for the document kinds: exactly the items of the chosen kind, as many as the table counts, in the bucket's order (an ordered subsequence of its media or documents). |
| MediaGrouping.Title | src/Adminpages/Sponsor/SponsorMedia.tsx:374-393 | "Videos", "Photos", "Awards" and "Certificates", each iff the dialog is of that kind. |
| MediaGrouping.DialogOfGroupedRow | src/Adminpages/Sponsor/SponsorMedia.tsx:366-402 | The dialog opened on a grouped row lists exactly that user's input items of the requested kind. |
| MediaGrouping.MonthOfGroupedRow | src/Adminpages/Sponsor/SponsorMedia.tsx:318-330 | A grouped row has an item from the month iff one of its user's input documents or files is from that month. |
| SponsorMediaScreen.FilteredMeaning | src/Adminpages/Sponsor/SponsorMedia.tsx:306-335 | The filtered rows are a subsequence of the grouping. A row is kept iff its sponsor id contains the term (when there is one) and the sponsor has an item from the month (unless "" or "All Months"). |
| SponsorMediaScreen.FilteredStepwise | src/Adminpages/Sponsor/SponsorMedia.tsx:306-335 | The search and month steps, one after another, are the filter. |
| SponsorMediaScreen.Screen.PageRows | src/Adminpages/Sponsor/SponsorMedia.tsx:194-199 | At most 7 rows, consecutive in the filtered list from (p−1)·7. |
| SponsorMediaScreen.Screen.ButtonsAreRealPages | src/Adminpages/Sponsor/SponsorMedia.tsx:121-131 | The window has min(pages,5) buttons, all real pages, one of them the current page. |
| SponsorMediaScreen.Screen.ShowingCountsRows | src/Adminpages/Sponsor/SponsorMedia.tsx:102-108 | The range shown counts the rows of the page. |
| SponsorMediaScreen.Screen.PageRowsAreGroups | src/Adminpages/Sponsor/SponsorMedia.tsx:194-199 | The rows of the page are grouped rows that pass the filter. |
| SponsorMediaScreen.Screen.DialogListsSponsorsItems | src/Adminpages/Sponsor/SponsorMedia.tsx:366-402 | The dialog opened from a row lists exactly that sponsor's fetched items of the kind. |
| SponsorMediaScreen.Screen.ApplyFilters | src/Adminpages/Sponsor/SponsorMedia.tsx:306-335 | The effect stores the filter of the rows and resets to page 1. |
| SponsorMediaScreen.Screen.Receive | src/Adminpages/Sponsor/SponsorMedia.tsx:233-299 | A fetch stores the grouped rows and their count, then refilters. |
| SponsorMediaScreen.Screen.constructor | src/Adminpages/Sponsor/SponsorMedia.tsx:163-192 | No documents, files or rows, empty filters, page 1, dialog closed; the invariant holds. |
| SponsorMediaScreen.Screen.SetSearchTerm | src/Adminpages/Sponsor/SponsorMedia.tsx:466 | The term changes and the effect refilters the grouped rows by it and resets to page 1. |
| SponsorMediaScreen.Screen.SetMonth | src/Adminpages/Sponsor/SponsorMedia.tsx:473 | The month changes and the effect refilters by it and resets to page 1. |
| SponsorMediaScreen.Screen.PreviousPage | src/Adminpages/Sponsor/SponsorMedia.tsx:115-116 | Disabled on page 1, otherwise p−1. |
| SponsorMediaScreen.Screen.SelectPage | src/Adminpages/Sponsor/SponsorMedia.tsx:141 | A page button selects its page, a real page. |
| SponsorMediaScreen.Screen.NextPage | src/Adminpages/Sponsor/SponsorMedia.tsx:149-156 | Next is disabled on the last page and otherwise goes to p+1, staying a real page. |
| SponsorMediaScreen.Screen.OpenModal | src/Adminpages/Sponsor/SponsorMedia.tsx:366-402 | The dialog opens on the row, for the kind. |
| SponsorMediaScreen.Screen.CloseModal | src/Adminpages/Sponsor/SponsorMedia.tsx:404-412 | Closing restores the initial dialog state. |
| PlayerMediaScreen.ShowingAsWrittenMiscounts | src/Adminpages/Player/Media.tsx:510-512 | On page 2 with 3 rows the written bounds are (3,3) (Finding 1, code as written). |
| PlayerMediaScreen.Screen.TotalCountsPlayers | src/Adminpages/Player/Media.tsx:177-181 | totalItems is the number of distinct owners among the fetched items, and every owner has a row. |
| PlayerMediaScreen.Screen.FewPlayersKeepOnePage | src/Adminpages/Player/Media.tsx:177-208 | With at most ten players on the fetched page there is at most one page, and the guarded next request never moves past the current page. |
| PlayerMediaScreen.Screen.ShowingCountsRows | src/Adminpages/Player/Media.tsx:510-512 | With at most 10 rows, the corrected range counts the rows after those of earlier pages (Finding 1, corrected). |
| PlayerMediaScreen.Screen.ShowingAsWrittenOnLaterPage | src/Adminpages/Player/Media.tsx:510-512 | From page 2 on, with 1..10 rows, the range as written reads "len–len" and differs from the corrected one (Finding 1, code as written). |
| PlayerMediaScreen.Screen.Receive | src/Adminpages/Player/Media.tsx:131-181 | A fetch stores the grouping of the page's items and the number of players. |
| PlayerMediaScreen.Screen.HandlePageChange | src/Adminpages/Player/Media.tsx:204-208 | The page changes only to a page in [1,totalPages]. |
| PlayerMediaScreen.Screen.constructor | src/Adminpages/Player/Media.tsx:89-100 | No items or rows, no total, page 1, dialog closed; the invariant holds. |
| PlayerMediaScreen.Screen.PreviousPage | src/Adminpages/Player/Media.tsx:518-519 | Disabled on page 1, otherwise asks for p−1 through the guard. |
| PlayerMediaScreen.Screen.SelectPage | src/Adminpages/Player/Media.tsx:544 | A page button selects its page, a real page. |
| PlayerMediaScreen.Screen.NextPage | src/Adminpages/Player/Media.tsx:552-556 | Next asks for p+1 through the guard. |
| PlayerMediaScreen.Screen.DialogListsPlayersItems | src/Adminpages/Player/Media.tsx:236-272 | The dialog lists exactly the player's fetched items of the kind. |
| PlayerMediaScreen.Screen.OpenModal | src/Adminpages/Player/Media.tsx:236-272 | The dialog opens on the row's owner and bucket, for the kind. |
| PlayerMediaScreen.Screen.CloseModal | src/Adminpages/Player/Media.tsx:274-282 | Closing restores the initial dialog state. |
| ExpertBookingScreen.FilteredStepwise | src/Adminpages/Expert/ExpertBooking.tsx:180-236 | The three steps of the effect, one after another, are one filter. |
| ExpertBookingScreen.FilteredMeaning | src/Adminpages/Expert/ExpertBooking.tsx:180-236 | The filtered list is an ordered subsequence. It keeps a booking iff the term is in the expert name, player name, service name (default "Service") or id; the status matches case-insensitively; and the month matches. Each filter is skipped when off. |
| ExpertBookingScreen.FilteredShareBadge | src/Adminpages/Expert/ExpertBooking.tsx:216-221 | Under a status filter every remaining booking gets the badge colour of the selected status. |
| ExpertBookingScreen.ExpertDisplayName | src/Adminpages/Expert/ExpertBooking.tsx:271-284 | Full name, username, email or "Unknown Expert". With no expert object it is "Expert " + the first 8 characters of the id + "...". |
| ExpertBookingScreen.PlayerDisplayName | src/Adminpages/Expert/ExpertBooking.tsx:286-299 | The same chain for the player. |
| ExpertBookingScreen.ServiceName | src/Adminpages/Expert/ExpertBooking.tsx:301-306 | With no service object, "Expert Service". Otherwise the first non-empty of name and description, else "Service". Each of the three cases is stated, and the result is never empty. |
| ExpertBookingScreen.ShownNameIsSearched | src/Adminpages/Expert/ExpertBooking.tsx:186-193 | When the expert has a name, username or email, the table shows the name the search matches against. |
| ExpertBookingScreen.StatusTone | src/Adminpages/Expert/ExpertBooking.tsx:308-331 | COMPLETED gives green, SCHEDULED/CONFIRMED blue, PENDING yellow, CANCELLED red and anything else gray, ignoring case. |
| ExpertBookingScreen.BadgeIgnoresCase | src/Adminpages/Expert/ExpertBooking.tsx:309 | Statuses equal up to case get the same badge. |
| ExpertBookingScreen.PaymentStatus | src/Adminpages/Expert/ExpertBooking.tsx:333-344 | Paid iff COMPLETED with an intent; Processing iff an intent and not COMPLETED; Pending iff no intent. |
| ExpertBookingScreen.PaymentText | src/Adminpages/Expert/ExpertBooking.tsx:333-344 | "Paid" iff paid, "Processing" iff processing, "Pending" iff unpaid. |
| ExpertBookingScreen.PaymentTone | src/Adminpages/Expert/ExpertBooking.tsx:333-344 | Green iff paid, blue iff processing, yellow iff unpaid. |
| ExpertBookingScreen.Duration | src/Adminpages/Expert/ExpertBooking.tsx:354-369 | The end minus the start, printed "Mm" below an hour and "Hh Mm" from an hour on. |
| ExpertBookingScreen.HasReport | src/Adminpages/Expert/ExpertBooking.tsx:346-352 | True iff both parties marked the booking complete, or a recorded video or meeting recording exists. |
| ExpertBookingScreen.Screen.PageRows | src/Adminpages/Expert/ExpertBooking.tsx:78-83 | At most 10 rows, consecutive from (p−1)·10. |
| ExpertBookingScreen.Screen.ButtonsAreRealPages | src/Adminpages/Expert/ExpertBooking.tsx:602-623 | The window has min(pages,5) buttons, all real pages, including the current page. |
| ExpertBookingScreen.Screen.ShowingCountsRows | src/Adminpages/Expert/ExpertBooking.tsx:585-591 | The range is ordered and counts the rows of the page. |
| ExpertBookingScreen.Screen.ApplyFilters | src/Adminpages/Expert/ExpertBooking.tsx:180-236 | The effect stores the filter and resets to page 1. |
| ExpertBookingScreen.Screen.constructor | src/Adminpages/Expert/ExpertBooking.tsx:68-76 | No bookings, empty filters, page 1; the invariant holds. |
| ExpertBookingScreen.Screen.Receive | src/Adminpages/Expert/ExpertBooking.tsx:144-155 | A fetch stores `data.data` or the bare array, refilters and resets to page 1. |
| ExpertBookingScreen.Screen.SetSearchTerm | src/Adminpages/Expert/ExpertBooking.tsx:415 | The term changes and the effect refilters by it and resets to page 1. |
| ExpertBookingScreen.Screen.SetStatus | src/Adminpages/Expert/ExpertBooking.tsx:423 | The status changes and the effect refilters by it and resets to page 1. |
| ExpertBookingScreen.Screen.SetMonth | src/Adminpages/Expert/ExpertBooking.tsx:435 | The month changes and the effect refilters by it and resets to page 1. |
| ExpertBookingScreen.Screen.PreviousPage | src/Adminpages/Expert/ExpertBooking.tsx:595-598 | Disabled on page 1, otherwise `Math.max(p−1,1)`. |
| ExpertBookingScreen.Screen.SelectPage | src/Adminpages/Expert/ExpertBooking.tsx:620 | A page button selects its page, a real page. |
| ExpertBookingScreen.Screen.NextPage | src/Adminpages/Expert/ExpertBooking.tsx:626-630 | Disabled on the last page, otherwise `Math.min(p+1,totalPages)`; always a real page. |
| SponsorApplications.FilteredStepwise | src/Adminpages/Sponsor/Playersrequest.tsx:232-282 | The search, status and month steps are one filter. |
| SponsorApplications.FilteredMeaning | src/Adminpages/Sponsor/Playersrequest.tsx:232-282 | An ordered subsequence. A row is kept iff the term is in the sponsor's search name (full name, company, email, sponsorId), the player's (full name, email, playerId) or the row id; the status matches ignoring case; and the month matches. The source's "All Status"/"All Months"/"" keep all. |
| SponsorApplications.SponsorDisplayName | src/Adminpages/Sponsor/Playersrequest.tsx:302-315 | Full name, company or email, else "Unknown Sponsor". With no sponsor object it is "Sponsor " + id[0..8] + "...". |
| SponsorApplications.PlayerDisplayName | src/Adminpages/Sponsor/Playersrequest.tsx:317-325 | Full name or email, else "Unknown Player". With no player object it is "Player " + id[0..8] + "...". |
| SponsorApplications.ShownSponsorIsSearchable | src/Adminpages/Sponsor/Playersrequest.tsx:238-246 | A sponsor with a name, company or email is found by searching for the name the table shows. |
| SponsorApplications.SponsorInfo | src/Adminpages/Sponsor/Playersrequest.tsx:327-336 | Email, company or "No additional info". With no sponsor object it is id[0..12] + "...". |
| SponsorApplications.PlayerInfo | src/Adminpages/Sponsor/Playersrequest.tsx:338-343 | With a player object, the email when non-empty and "No additional info" when empty; with none, id[0..12] + "...". Never empty. |
| SponsorApplications.SponsorshipType | src/Adminpages/Sponsor/Playersrequest.tsx:368-370 | The type when non-empty, "Not specified" when empty; never empty. |
| PlayersRequestScreen.StatusTone | src/Adminpages/Sponsor/Playersrequest.tsx:345-366 | ACCEPTED/ACTIVE gives green, PENDING yellow, REJECTED/INACTIVE red and anything else gray, ignoring case; never blue. |
| PlayersRequestScreen.BadgeIgnoresCase | src/Adminpages/Sponsor/Playersrequest.tsx:346 | Statuses equal up to case get the same badge. |
| PlayersRequestScreen.AmountNoteAsWritten | src/Adminpages/Sponsor/Playersrequest.tsx:526-530 | A note appears iff the amount is set and non-zero, and reads "Â£" + the amount (Finding 5, code as written). |
| PlayersRequestScreen.AmountNote | src/Adminpages/Sponsor/Playersrequest.tsx:526-530 | A note appears iff the amount is set and non-zero, and reads "£" + the amount (Finding 5, corrected). |
| PlayersRequestScreen.AmountNoteAsWrittenIsGarbled | src/Adminpages/Sponsor/Playersrequest.tsx:528 | A shown note as written starts with "Â" and differs from the corrected note (Finding 5, code as written). |
| PlayersRequestScreen.Screen.PageRows | src/Adminpages/Sponsor/Playersrequest.tsx:142-147 | At most 7 rows, consecutive from (p−1)·7. |
| PlayersRequestScreen.Screen.ButtonsAreRealPages | src/Adminpages/Sponsor/Playersrequest.tsx:88-98 | The window law. |
| PlayersRequestScreen.Screen.ShowingCountsRows | src/Adminpages/Sponsor/Playersrequest.tsx:68-74 | The range counts the page's rows. |
| PlayersRequestScreen.Screen.ApplyFilters | src/Adminpages/Sponsor/Playersrequest.tsx:232-282 | The effect stores the filter and resets to page 1. |
| PlayersRequestScreen.Screen.Receive | src/Adminpages/Sponsor/Playersrequest.tsx:175-230 | A fetch stores `data.data` and refilters. |
| PlayersRequestScreen.Screen.constructor | src/Adminpages/Sponsor/Playersrequest.tsx:131-140 | No applications, empty filters, page 1; the invariant holds. |
| PlayersRequestScreen.Screen.SetSearchTerm | src/Adminpages/Sponsor/Playersrequest.tsx:419 | The term changes and the effect refilters by it and resets to page 1. |
| PlayersRequestScreen.Screen.SetStatus | src/Adminpages/Sponsor/Playersrequest.tsx:427 | The status changes and the effect refilters by it and resets to page 1. |
| PlayersRequestScreen.Screen.SetMonth | src/Adminpages/Sponsor/Playersrequest.tsx:439 | The month changes and the effect refilters by it and resets to page 1. |
| PlayersRequestScreen.Screen.PreviousPage | src/Adminpages/Sponsor/Playersrequest.tsx:83-84 | Disabled on page 1, otherwise p−1. |
| PlayersRequestScreen.Screen.SelectPage | src/Adminpages/Sponsor/Playersrequest.tsx:108 | A page button selects its page, a real page. |
| PlayersRequestScreen.Screen.NextPage | src/Adminpages/Sponsor/Playersrequest.tsx:119-122 | Disabled on the last page, otherwise p+1. |
| SponsorshipTransactionsScreen.StatusTone | src/Adminpages/Sponsor/Sponsorshiptransactions.tsx:314-336 | ACCEPTED/COMPLETED/ACTIVE gives green, PENDING yellow, REJECTED/INACTIVE red, else gray, ignoring case. |
| SponsorshipTransactionsScreen.BadgeIgnoresCase | src/Adminpages/Sponsor/Sponsorshiptransactions.tsx:315 | Statuses equal up to case get the same badge. |
| SponsorshipTransactionsScreen.BadgesCompared | src/Adminpages/Sponsor/Sponsorshiptransactions.tsx:314-336 | This badge differs from the requests screen's only for COMPLETED, which is green here and gray there. |
| SponsorshipTransactionsScreen.SponsorshipAmount | src/Adminpages/Sponsor/Sponsorshiptransactions.tsx:307-312 | A positive amount gives "£" + the amount. Otherwise the text is "-" iff the type is "Product", and "Not specified" iff it is not. |
| SponsorshipTransactionsScreen.AmountNoteAgrees | src/Adminpages/Sponsor/Sponsorshiptransactions.tsx:307-312 | For a positive amount the corrected note of the requests screen is this screen's amount text. |
| SponsorshipTransactionsScreen.Screen.StartingFiltersShowAll | src/Adminpages/Sponsor/Sponsorshiptransactions.tsx:152-154 | With the initial "All Status"/"All Months" and no term, the filtered list is the whole list. |
| SponsorshipTransactionsScreen.Screen.PageRows | src/Adminpages/Sponsor/Sponsorshiptransactions.tsx:157-162 | At most 7 rows, consecutive from (p−1)·7. |
| SponsorshipTransactionsScreen.Screen.ButtonsAreRealPages | src/Adminpages/Sponsor/Sponsorshiptransactions.tsx:103-113 | The window law. |
| SponsorshipTransactionsScreen.Screen.ShowingCountsRows | src/Adminpages/Sponsor/Sponsorshiptransactions.tsx:84-90 | The range counts the page's rows. |
| SponsorshipTransactionsScreen.Screen.ApplyFilters | src/Adminpages/Sponsor/Sponsorshiptransactions.tsx:230-281 | The effect stores the filter and resets to page 1. |
| SponsorshipTransactionsScreen.Screen.constructor | src/Adminpages/Sponsor/Sponsorshiptransactions.tsx:146-155 | No rows, no term, "All Status" and "All Months", page 1; the invariant holds. |
| SponsorshipTransactionsScreen.Screen.Receive | src/Adminpages/Sponsor/Sponsorshiptransactions.tsx:201-204 | A fetch stores `data.data`, refilters and resets to page 1. |
| SponsorshipTransactionsScreen.Screen.SetSearchTerm | src/Adminpages/Sponsor/Sponsorshiptransactions.tsx:381 | The term changes and the effect refilters by it and resets to page 1. |
| SponsorshipTransactionsScreen.Screen.SetStatus | src/Adminpages/Sponsor/Sponsorshiptransactions.tsx:389 | The status changes and the effect refilters by it and resets to page 1. |
| SponsorshipTransactionsScreen.Screen.SetMonth | src/Adminpages/Sponsor/Sponsorshiptransactions.tsx:401 | The month changes and the effect refilters by it and resets to page 1. |
| SponsorshipTransactionsScreen.Screen.PreviousPage | src/Adminpages/Sponsor/Sponsorshiptransactions.tsx:97-98 | Disabled on page 1, otherwise p−1. |
| SponsorshipTransactionsScreen.Screen.SelectPage | src/Adminpages/Sponsor/Sponsorshiptransactions.tsx:123 | A page button selects its page, a real page. |
| SponsorshipTransactionsScreen.Screen.NextPage | src/Adminpages/Sponsor/Sponsorshiptransactions.tsx:133-136 | Disabled on the last page, otherwise p+1. |
| RegisteredTeamsScreen.FilteredMeaning | src/Adminpages/Teams/RegisteredTeams.tsx:227-257 | An ordered subsequence. A team is kept iff the term is in "first last", username, company or club, and the month matches when one is picked. |
| RegisteredTeamsScreen.FilteredStepwise | src/Adminpages/Teams/RegisteredTeams.tsx:227-257 | The search and month steps, one after another, are the filter. |
| RegisteredTeamsScreen.DisplayName | src/Adminpages/Teams/RegisteredTeams.tsx:278-281 | Company, club, trimmed full name, username, then "Team". |
| RegisteredTeamsScreen.ShownNameIsSearchable | src/Adminpages/Teams/RegisteredTeams.tsx:232-243 | Searching for the name shown finds the team, whenever company, club, full name or username is non-empty (the shown name is then not the "Team" fallback). |
| RegisteredTeamsScreen.Info | src/Adminpages/Teams/RegisteredTeams.tsx:283-291 | When some of company, club, city, country is present, the join of exactly those, in that order, with " • "; the username when none is. It starts with the company, else the club, when present. |
| RegisteredTeamsScreen.InfoOfCompleteTeam | src/Adminpages/Teams/RegisteredTeams.tsx:283-291 | All four present: "company • club • city • country". |
| RegisteredTeamsScreen.InfoSkipsMissing | src/Adminpages/Teams/RegisteredTeams.tsx:283-291 | No company or club: "city • country", with no stray separator. |
| RegisteredTeamsScreen.Services | src/Adminpages/Teams/RegisteredTeams.tsx:293-302 | Never empty. With none of profession, sub-profession and sport present it is "Training and Enrollments" (and only then); otherwise the join with ", " of the present ones, the sport as sport + " Training". |
| RegisteredTeamsScreen.ServicesOfCompleteTeam | src/Adminpages/Teams/RegisteredTeams.tsx:293-302 | All three present: "profession, sub-profession, sport Training". |
| RegisteredTeamsScreen.CodeUnits | src/Adminpages/Teams/RegisteredTeams.tsx:306-307 | `split("")` with `charCodeAt(0)`: between one and two UTF-16 code units per character, each below 2^16. |
| RegisteredTeamsScreen.CharUnits | src/Adminpages/Teams/RegisteredTeams.tsx:306-307 | A BMP character is its own code unit. Any other is a surrogate pair, high then low, that decodes back to the character. |
| RegisteredTeamsScreen.CodeUnitsAppend | src/Adminpages/Teams/RegisteredTeams.tsx:306-307 | The code units of a concatenation are the code units of the parts, concatenated. |
| RegisteredTeamsScreen.CodeUnitsOfChar | src/Adminpages/Teams/RegisteredTeams.tsx:306-307 | A one-character string's code units are that character's. |
| RegisteredTeamsScreen.HashOf | src/Adminpages/Teams/RegisteredTeams.tsx:306-309 | The `reduce` from 0: each step wraps `(a << 5) - a + unit` to a signed 32-bit value. |
| RegisteredTeamsScreen.HashStep | src/Adminpages/Teams/RegisteredTeams.tsx:308 | One step `(a << 5) - a + unit` then `a & a` is a signed 32-bit value. |
| RegisteredTeamsScreen.HashOfSmall | src/Adminpages/Teams/RegisteredTeams.tsx:306-309 | The hash of one unit is that unit; the hash of two is 31·u0 + u1. |
| RegisteredTeamsScreen.IdHash | src/Adminpages/Teams/RegisteredTeams.tsx:306-309 | The loop computes the fold, a signed 32-bit integer. |
| RegisteredTeamsScreen.EnrollmentCount | src/Adminpages/Teams/RegisteredTeams.tsx:310 | `Math.abs(hash % 15) + 5` lies in [5,19]. |
| RegisteredTeamsScreen.TeamEnrollment | src/Adminpages/Teams/RegisteredTeams.tsx:304-311 | The count depends only on the id and lies in [5,19]. |
| RegisteredTeamsScreen.IsActive | src/Adminpages/Teams/RegisteredTeams.tsx:313-319 | "Active" iff first and last name are non-empty and company or club is present. |
| RegisteredTeamsScreen.StatusTone | src/Adminpages/Teams/RegisteredTeams.tsx:321-335 | Green iff "Active", yellow iff "Inactive". |
| RegisteredTeamsScreen.ActiveTeamShownByOrganisation | src/Adminpages/Teams/RegisteredTeams.tsx:278-319 | An active team's display name is its company or club. |
| RegisteredTeamsScreen.Screen.PageRows | src/Adminpages/Teams/RegisteredTeams.tsx:143-148 | At most 10 rows, consecutive from (p−1)·10. |
| RegisteredTeamsScreen.Screen.ButtonsAreRealPages | src/Adminpages/Teams/RegisteredTeams.tsx:97-107 | The window law. |
| RegisteredTeamsScreen.Screen.ShowingCountsRows | src/Adminpages/Teams/RegisteredTeams.tsx:81-87 | The range counts the page's rows. |
| RegisteredTeamsScreen.Screen.ApplyFilters | src/Adminpages/Teams/RegisteredTeams.tsx:227-257 | The effect stores the filter and resets to page 1. |
| RegisteredTeamsScreen.Screen.Receive | src/Adminpages/Teams/RegisteredTeams.tsx:208-218 | A fetch stores `data.data` or the bare array, then refilters. |
| RegisteredTeamsScreen.Screen.constructor | src/Adminpages/Teams/RegisteredTeams.tsx:134-141 | No teams, empty filters, page 1; the invariant holds. |
| RegisteredTeamsScreen.Screen.SetSearchTerm | src/Adminpages/Teams/RegisteredTeams.tsx:383 | The term changes and the effect refilters by it and resets to page 1. |
| RegisteredTeamsScreen.Screen.SetMonth | src/Adminpages/Teams/RegisteredTeams.tsx:391 | The month changes and the effect refilters by it and resets to page 1. |
| RegisteredTeamsScreen.Screen.PreviousPage | src/Adminpages/Teams/RegisteredTeams.tsx:92-93 | Disabled on page 1, otherwise p−1. |
| RegisteredTeamsScreen.Screen.SelectPage | src/Adminpages/Teams/RegisteredTeams.tsx:115 | A page button selects its page, a real page. |
| RegisteredTeamsScreen.Screen.NextPage | src/Adminpages/Teams/RegisteredTeams.tsx:123-124 | Disabled on the last page, otherwise p+1. |
| PlayerScreen.DisplayName | src/Adminpages/Player/Player.tsx:155-160 | The trimmed full name, else the username. |
| PlayerScreen.AccountType | src/Adminpages/Player/Player.tsx:162-164 | "Premium" iff stripeCustomerId is non-empty. |
| PlayerScreen.SubscriptionType | src/Adminpages/Player/Player.tsx:166-169 | "Yearly" iff stripeCustomerId is non-empty, so iff the account is Premium. |
| PlayerScreen.FilteredMeaning | src/Adminpages/Player/Player.tsx:171-183 | An ordered subsequence. The empty term matches every player, and the month is skipped for "" and "All Months". |
| PlayerScreen.ShownNameIsSearchable | src/Adminpages/Player/Player.tsx:171-176 | Searching for the name shown finds the player. |
| PlayerScreen.Screen.ShowingCountsRows | src/Adminpages/Player/Player.tsx:386-388 | The corrected range counts the filtered rows after those of earlier pages (Finding 1, corrected). |
| PlayerScreen.Screen.ShowingAsWrittenOnLaterPage | src/Adminpages/Player/Player.tsx:386-388 | From page 2 on, with 1..10 filtered rows, the range as written reads "len–len" and differs from the corrected one (Finding 1, code as written). |
| PlayerScreen.Screen.PagerAfterFetch | src/Adminpages/Player/Player.tsx:89-95 | After a fetch, a full page offers exactly one page more and a short page is the last. |
| PlayerScreen.Screen.Receive | src/Adminpages/Player/Player.tsx:62-95 | A fetch stores the page's rows and the estimated total. |
| PlayerScreen.Screen.HandlePageChange | src/Adminpages/Player/Player.tsx:141-145 | The page changes only to a page in [1,totalPages]. |
| PlayerScreen.Screen.constructor | src/Adminpages/Player/Player.tsx:50-57 | No players, no total, no term, "All Months", page 1; the invariant holds. |
| PlayerScreen.Screen.SetSearchTerm | src/Adminpages/Player/Player.tsx:211 | Only the term changes; the table filters the page by it when rendering. |
| PlayerScreen.Screen.SetMonth | src/Adminpages/Player/Player.tsx:218 | Only the month changes; the table filters the page by it when rendering. |
| PlayerScreen.Screen.PreviousPage | src/Adminpages/Player/Player.tsx:394-395 | Disabled on page 1, otherwise asks for p−1 through the guard. |
| PlayerScreen.Screen.SelectPage | src/Adminpages/Player/Player.tsx:417 | A page button selects its page, a real page. |
| PlayerScreen.Screen.NextPage | src/Adminpages/Player/Player.tsx:425-426 | Disabled on the last page, otherwise asks for p+1 through the guard. |
| FansScreen.DisplayName | src/Adminpages/Fans/Fans.tsx:187 | `user.name \|\| user.email`. |
| FansScreen.IsActive | src/Adminpages/Fans/Fans.tsx:222-225 | A missing isActive counts as true; only an explicit false is inactive. |
| FansScreen.StatusText | src/Adminpages/Fans/Fans.tsx:222-225 | "Active" iff active, otherwise "Inactive". |
| FansScreen.StatusTone | src/Adminpages/Fans/Fans.tsx:27-28 | Green iff active, yellow otherwise. |
| FansScreen.Screen.ShowingCountsRows | src/Adminpages/Fans/Fans.tsx:255-260 | On a page of at most 10 rows, end−start+1 is the number of rows. |
| FansScreen.Screen.PagerAfterFetch | src/Adminpages/Fans/Fans.tsx:73-81 | The estimate covers the rows seen. A full page offers one page more, and a short page is the last. |
| FansScreen.Screen.HandlePageChange | src/Adminpages/Fans/Fans.tsx:103-107 | The page changes only to a page in [1,totalPages]. |
| FansScreen.Screen.constructor | src/Adminpages/Fans/Fans.tsx:39-43 | No users, no total, page 1; the invariant holds. |
| FansScreen.Screen.Receive | src/Adminpages/Fans/Fans.tsx:71-79 | A fetch stores the page's users and the estimated total. |
| FansScreen.Screen.PreviousPage | src/Adminpages/Fans/Fans.tsx:265-266 | Disabled on page 1, otherwise asks for p−1 through the guard. |
| FansScreen.Screen.SelectPage | src/Adminpages/Fans/Fans.tsx:289 | A page button selects its page, a real page. |
| FansScreen.Screen.NextPage | src/Adminpages/Fans/Fans.tsx:298-299 | Disabled on the last page, otherwise asks for p+1 through the guard. |
| PlayerBookingsScreen.StatusTone | src/Adminpages/Player/Booking.tsx:166-179 | SCHEDULED gives blue, COMPLETED green, CANCELLED red, IN_PROGRESS yellow, else gray, ignoring case. |
| PlayerBookingsScreen.PaymentText | src/Adminpages/Player/Booking.tsx:356 | "Paid" iff a payment intent exists, and "Pending" iff none does. |
| PlayerBookingsScreen.HasRecording | src/Adminpages/Player/Booking.tsx:383-408 | A recording link is listed iff a recorded video or a meeting recording exists. |
| PlayerBookingsScreen.IdLabel | src/Adminpages/Player/Booking.tsx:299-311 | The first 8 characters of an id, followed by "...". |
| PlayerBookingsScreen.Duration | src/Adminpages/Player/Booking.tsx:181-193 | The end minus the start, printed "Mm" below an hour, "Hh Mm" from an hour on, and "Hh" on a whole hour. |
| PlayerBookingsScreen.FilteredMeaning | src/Adminpages/Player/Booking.tsx:195-202 | "All Months" keeps the page unchanged. Otherwise the result is the ordered subsequence of bookings starting in the month. |
| PlayerBookingsScreen.EmptyMonthKeepsNothing | src/Adminpages/Player/Booking.tsx:195-202 | An empty selection keeps only bookings whose month name is "". |
| PlayerBookingsScreen.Screen.ShowingCountsRows | src/Adminpages/Player/Booking.tsx:452-458 | The corrected range counts the filtered rows after those of earlier pages (Finding 1, corrected). |
| PlayerBookingsScreen.Screen.ShowingAsWrittenOnLaterPage | src/Adminpages/Player/Booking.tsx:452-458 | From page 2 on, with 1..10 filtered rows, the range as written reads "len–len" and differs from the corrected one (Finding 1, code as written). |
| PlayerBookingsScreen.Screen.PagerAfterFetch | src/Adminpages/Player/Booking.tsx:92-98 | A full page offers exactly one page more, and a short page is the last. |
| PlayerBookingsScreen.Screen.HandlePageChange | src/Adminpages/Player/Booking.tsx:144-148 | The page changes only to a page in [1,totalPages]. |
| PlayerBookingsScreen.Screen.constructor | src/Adminpages/Player/Booking.tsx:54-60 | No bookings, no total, "All Months", page 1; the invariant holds. |
| PlayerBookingsScreen.Screen.Receive | src/Adminpages/Player/Booking.tsx:90-97 | A fetch stores the page's bookings and the estimated total. |
| PlayerBookingsScreen.Screen.SetMonth | src/Adminpages/Player/Booking.tsx:226 | Only the month changes; the table filters the page by it when rendering. |
| PlayerBookingsScreen.Screen.PreviousPage | src/Adminpages/Player/Booking.tsx:464-465 | Disabled on page 1, otherwise asks for p−1 through the guard. |
| PlayerBookingsScreen.Screen.SelectPage | src/Adminpages/Player/Booking.tsx:490 | A page button selects its page, a real page. |
| PlayerBookingsScreen.Screen.NextPage | src/Adminpages/Player/Booking.tsx:499-500 | Disabled on the last page, otherwise asks for p+1 through the guard. |
| SponsorshipApplicationsScreen.FormatAmount | src/Adminpages/Player/SponsorShipApplication.tsx:127-133 | An empty amount gives "N/A". An amount containing "£" or "$" is unchanged; any other gets a "£" prefix. |
| SponsorshipApplicationsScreen.FormatAmountIdempotent | src/Adminpages/Player/SponsorShipApplication.tsx:127-133 | Formatting a non-empty amount twice is formatting it once. |
| SponsorshipApplicationsScreen.StatusTone | src/Adminpages/Player/SponsorShipApplication.tsx:103-113 | APPROVED gives green, REJECTED red, any other status yellow. |
| SponsorshipApplicationsScreen.KindText | src/Adminpages/Player/SponsorShipApplication.tsx:242 | The type in lower case: same length, and each character is the lower-case form of the type's character at that position. |
| SponsorshipApplicationsScreen.TotalAsWrittenHasOnePage | src/Adminpages/Player/SponsorShipApplication.tsx:74 | With totalItems = rows on this page (≤ 10) there is at most one page, so the guard refuses page 2 (Finding 4, code as written). |
| SponsorshipApplicationsScreen.Screen.PagerAfterFetch | src/Adminpages/Player/SponsorShipApplication.tsx:97-101 | With the estimated total, a full page offers one page more and the guard accepts it (Finding 4, corrected). |
| SponsorshipApplicationsScreen.Screen.ShowingCountsRows | src/Adminpages/Player/SponsorShipApplication.tsx:309-311 | With at most 10 rows, the corrected range starts after the rows of earlier pages and counts this page's rows (Finding 1, corrected). |
| SponsorshipApplicationsScreen.Screen.ShowingAsWrittenOnLaterPage | src/Adminpages/Player/SponsorShipApplication.tsx:309-311 | From page 2 on, with 1..10 rows, the range as written reads "len–len" and differs from the corrected one (Finding 1, code as written). |
| SponsorshipApplicationsScreen.Screen.Receive | src/Adminpages/Player/SponsorShipApplication.tsx:67-74 | A fetch stores the rows read array-first, and the estimated total. |
| SponsorshipApplicationsScreen.Screen.HandlePageChange | src/Adminpages/Player/SponsorShipApplication.tsx:97-101 | The page changes only to a page in [1,totalPages]. |
| SponsorshipApplicationsScreen.Screen.constructor | src/Adminpages/Player/SponsorShipApplication.tsx:34-38 | No applications, no total, page 1; the invariant holds. |
| SponsorshipApplicationsScreen.Screen.PreviousPage | src/Adminpages/Player/SponsorShipApplication.tsx:318-319 | Disabled on page 1, otherwise asks for p−1 through the guard. |
| SponsorshipApplicationsScreen.Screen.SelectPage | src/Adminpages/Player/SponsorShipApplication.tsx:344 | A page button selects its page, a real page. |
| SponsorshipApplicationsScreen.Screen.NextPage | src/Adminpages/Player/SponsorShipApplication.tsx:353-354 | Disabled on the last page, otherwise asks for p+1 through the guard. |
| SponsorsScreen.FilteredStepwise | src/Adminpages/Sponsor/Sponsor.tsx:210-241 | The search and month steps are one filter. |
| SponsorsScreen.FilteredMeaning | src/Adminpages/Sponsor/Sponsor.tsx:210-241 | An ordered subsequence. A sponsor is kept iff the term is in "first last", the email or the company, and the month matches when one is picked. |
| SponsorsScreen.DisplayName | src/Adminpages/Sponsor/Sponsor.tsx:258-264 | Trimmed full name, else company, else "N/A"; never empty. |
| SponsorsScreen.SponsorshipType | src/Adminpages/Sponsor/Sponsor.tsx:267-269 | The type when non-empty, "Not specified" when empty; never empty. |
| SponsorsScreen.SponsorshipTypesAgree | src/Adminpages/Sponsor/Sponsor.tsx:267-269 | The sponsors screen and the requests screen print the same type text for the same type, and it is the type or "Not specified". |
| SponsorsScreen.SponsorshipBudgetAsWritten | src/Adminpages/Sponsor/Sponsor.tsx:272-277 | A non-zero budget is printed as "Â£" + the amount (Finding 3, code as written). |
| SponsorsScreen.BudgetAsWrittenIsGarbled | src/Adminpages/Sponsor/Sponsor.tsx:272-277 | A set budget is printed starting with "Â", unlike the corrected text (Finding 3, code as written). |
| SponsorsScreen.SponsorshipBudget | src/Adminpages/Sponsor/Sponsor.tsx:272-277 | A non-zero budget, fractional or negative included, gives "£" + the amount. For a zero budget the text is "-" iff the type is "Product", and "Not specified" iff it is not (Finding 3, corrected). |
| SponsorsScreen.BudgetAgreesWithTransactions | src/Adminpages/Sponsor/Sponsor.tsx:272-277 | For a budget ≥ 0 the corrected text is what the transactions screen prints for the same amount and type. |
| SponsorsScreen.StatusText | src/Adminpages/Sponsor/Sponsor.tsx:280-281 | A present status is shown unchanged; a missing one defaults to "Active"; the text equals FirstPresent([status], "Active"). |
| SponsorsScreen.StatusTone | src/Adminpages/Sponsor/Sponsor.tsx:283-293 | Green iff the status is "Active", yellow otherwise. |
| SponsorsScreen.Screen.PageRows | src/Adminpages/Sponsor/Sponsor.tsx:121-128 | At most 7 rows, consecutive from (p−1)·7. |
| SponsorsScreen.Screen.ShowingCountsRows | src/Adminpages/Sponsor/Sponsor.tsx:449-455 | The bar is always shown. Over rows it counts the page's rows; over none it reads "1-0" and has no buttons. |
| SponsorsScreen.Screen.ApplyFilters | src/Adminpages/Sponsor/Sponsor.tsx:210-241 | The effect stores the filter and resets to page 1. |
| SponsorsScreen.Screen.Receive | src/Adminpages/Sponsor/Sponsor.tsx:159-165 | A fetch stores `data.data` and refilters. |
| SponsorsScreen.Screen.constructor | src/Adminpages/Sponsor/Sponsor.tsx:112-119 | No sponsors, empty filters, page 1; the invariant holds. |
| SponsorsScreen.Screen.SetSearchTerm | src/Adminpages/Sponsor/Sponsor.tsx:338 | The term changes and the effect refilters by it and resets to page 1. |
| SponsorsScreen.Screen.SetMonth | src/Adminpages/Sponsor/Sponsor.tsx:345 | The month changes and the effect refilters by it and resets to page 1. |
| SponsorsScreen.Screen.PreviousPage | src/Adminpages/Sponsor/Sponsor.tsx:64-65 | Disabled on page 1, otherwise p−1. |
| SponsorsScreen.Screen.SelectPage | src/Adminpages/Sponsor/Sponsor.tsx:89 | A page button selects its page, a real page. |
| SponsorsScreen.Screen.NextPage | src/Adminpages/Sponsor/Sponsor.tsx:95-104 | Next is disabled when there is no later page, so the page stays 1 or a real page even with no rows (Finding 2, corrected). |
| SponsorsScreen.Screen.NextAsWrittenWithoutRows | src/Adminpages/Sponsor/Sponsor.tsx:95-104 | With no rows, on page 1, there are no pages; the button as written is enabled and its p+1 is past the last page, while the corrected test disables it (Finding 2, code as written). |
| ExpertsScreen.FilteredStepwise | src/Adminpages/Expert/Expert.tsx:125-152 | The search and month steps are one filter. |
| ExpertsScreen.FilteredMeaning | src/Adminpages/Expert/Expert.tsx:125-152 | An ordered subsequence. An expert is kept iff the term is in "first last" or the email, and the month matches when one is picked. |
| ExpertsScreen.DisplayName | src/Adminpages/Expert/Expert.tsx:169-171 | The trimmed full name, or "N/A". |
| ExpertsScreen.StatusText | src/Adminpages/Expert/Expert.tsx:176 | A present status is shown unchanged; a missing one defaults to "Active". |
| ExpertsScreen.StatusTone | src/Adminpages/Expert/Expert.tsx:178-188 | Green iff "Active", yellow otherwise. |
| ExpertsScreen.Screen.PageRows | src/Adminpages/Expert/Expert.tsx:44-48 | At most 10 rows, consecutive from (p−1)·10. |
| ExpertsScreen.Screen.ButtonsAreRealPages | src/Adminpages/Expert/Expert.tsx:317-342 | The buttons are exactly the pages 1..totalPages. The clamped range counts the page's rows; an empty list reads "0–0". |
| ExpertsScreen.Screen.FilteredNoteMeansRowsHidden | src/Adminpages/Expert/Expert.tsx:321-322 | "(filtered from N total)" appears iff the filter removed some expert, and never with both filters off. |
| ExpertsScreen.Screen.ApplyFilters | src/Adminpages/Expert/Expert.tsx:125-152 | The effect stores the filter and resets to page 1. |
| ExpertsScreen.Screen.constructor | src/Adminpages/Expert/Expert.tsx:32-39 | No experts, empty filters, page 1; the invariant holds. |
| ExpertsScreen.Screen.Receive | src/Adminpages/Expert/Expert.tsx:77-80 | A fetch stores `data.data`, refilters and resets to page 1. |
| ExpertsScreen.Screen.SetSearchTerm | src/Adminpages/Expert/Expert.tsx:234 | The term changes and the effect refilters by it and resets to page 1. |
| ExpertsScreen.Screen.SetMonth | src/Adminpages/Expert/Expert.tsx:242 | The month changes and the effect refilters by it and resets to page 1. |
| ExpertsScreen.Screen.PreviousPage | src/Adminpages/Expert/Expert.tsx:325-331 | Disabled on page 1, otherwise `Math.max(p−1,1)`. |
| ExpertsScreen.Screen.SelectPage | src/Adminpages/Expert/Expert.tsx:332-342 | A page button selects its page. |
| ExpertsScreen.Screen.NextPage | src/Adminpages/Expert/Expert.tsx:343-351 | Disabled when there is no later page, otherwise p+1 exactly; always 1 or a real page (Finding 2, corrected). |
| ExpertsScreen.Screen.NextAsWrittenWithoutRows | src/Adminpages/Expert/Expert.tsx:343-347 | With no rows, on page 1, there are no pages; the button as written is enabled and `Math.min(p+1, totalPages)` leads to page 0, while the corrected test disables it (Finding 2, code as written). |
| AdminLogin.HasAtIsMember | src/components/auth/login.tsx:50 | `email.includes("@")` holds iff the character '@' occurs in it. |
| AdminLogin.Validate | src/components/auth/login.tsx:45-53 | "Please fill in all fields" iff a field is blank after trimming. "Please enter a valid email address" iff both are filled and the email has no "@". No error iff neither. |
| AdminLogin.RequestBody | src/components/auth/login.tsx:61-64 | The body carries the password exactly as typed, and as email the tidy block of the typed email that only whitespace precedes and follows: its `trim()`. |
| AdminLogin.SentEmailIsPlausible | src/components/auth/login.tsx:45-64 | A body that passed the checks has a non-empty email containing "@" and a non-blank password. |
| AdminLogin.FailureMessage | src/components/auth/login.tsx:105-119 | A 404 shows the server's message, else "Email or password not found"; every message is non-empty. |
| AdminLogin.FailureMessageCases | src/components/auth/login.tsx:105-119 | 401, 403, 429 and 500 have fixed messages, and every other status (or none) has the fallback. Only 404 depends on the server's message. |
| AdminLogin.FailureIsNotValidation | src/components/auth/login.tsx:45-53 | A failed request never shows a validation message or the no-token message. |
| AdminLogin.LoginForm.InputChange | src/components/auth/login.tsx:32-40 | Only the named field changes, and the error is cleared. |
| AdminLogin.LoginForm.BeginSubmit | src/components/auth/login.tsx:42-64 | A failed check sets its message and sends nothing. Otherwise the error is cleared, the form is busy, and the trimmed body is sent. |
| AdminLogin.LoginForm.Complete | src/components/auth/login.tsx:72-130 | A 200 with a token stores it and the user, then navigates. A 200 without one sets "Authentication failed. No token received.". A rejection sets its failure message. The busy flag is cleared. |

## Left out

- Network calls (axios), HTTP headers, environment variables,
  `localStorage` (beyond the stored token and user of the login form),
  Swal pop-ups, `navigate` (a flag only), `downloadFile` and `window.open`.
  These are I/O or foreign calls. Fetched arrays and status codes are
  inputs.
- The per-screen fetch error messages and the missing-token branch of each
  fetch. These are I/O error paths with fixed strings.
- JSX rendering, Tailwind classes and image `onError` fallbacks. Only colour
  categories (`Tone`) are kept.
- Date parsing and formatting (`new Date`, `toLocaleDateString`,
  `toLocaleTimeString`, `formatDate`, `formatDateTime`). The month name
  and the timestamp of a date are the parameters `monthOf` and `millisOf`.
  Invalid dates (NaN) are not modelled.
- `toLocaleString` and `toFixed` on amounts. The text of a number is the
  parameter `localeOf`.
- Unicode case folding. `toLowerCase`/`toUpperCase` fold ASCII letters only.
- Loading flags (except the login form's), async ordering and effect
  scheduling. `Receive` stands for a completed fetch. The server-paged
  screens' refetch-on-page-change effect is the caller calling `Receive`
  after a page change.
- JavaScript `Map` aliasing. The fold's `Map` is a Dafny `map` of bucket
  values, and the buckets the table reads are its values in key order.
- src/App.tsx routing.
- PlayerScreen.Screen.ShowingCountsRows: states the corrected range of
  Finding 1. The range as written is `ShowingAsWritten`, and
  `ShowingAsWrittenOnLaterPage` shows where it differs.
- PlayerBookingsScreen.Screen.ShowingCountsRows: states the corrected
  range of Finding 1. The range as written is `ShowingAsWritten`, and
  `ShowingAsWrittenOnLaterPage` shows where it differs.
- PlayerMediaScreen.Screen.ShowingCountsRows: states the corrected range of
  Finding 1; the range as written is `ShowingAsWritten`, and
  `ShowingAsWrittenOnLaterPage` shows where it differs. It also states the
  count only when the page has at most ten players. A fetched page can
  group into more rows than the page size, because the server pages
  items, not players.
- SponsorshipApplicationsScreen.Screen.ShowingCountsRows: states the
  corrected range of Finding 1. The range as written is
  `ShowingAsWritten`, and `ShowingAsWrittenOnLaterPage` shows where it
  differs.
- SponsorsScreen.Screen.NextPage: disables next by the corrected test
  `currentPage >= totalPages` (Finding 2). The written test
  `currentPage === totalPages` is `NextDisabledAsWritten`, and
  `NextAsWrittenWithoutRows` shows it enabled on an empty list, leading
  past the last page. The screen's invariant (page 1 or a real page)
  holds only with the corrected test.
- ExpertsScreen.Screen.NextPage: disables next by the corrected test
  (Finding 2). With the written test, `NextAsWrittenWithoutRows` shows
  next enabled on an empty list, where `Math.min(p+1, totalPages)` leads
  to page 0. The screen's invariant holds only with the corrected test.
- `amount` and `sponsorshipBudget` are real numbers, so fractional and
  negative values are covered. JavaScript's NaN, Infinity and −0 are not
  modelled. The text of a number is the parameter `localeOf`.
- PlayersRequestScreen.AmountNoteAsWritten: for an amount of 0,
  `app.amount && …` evaluates to 0, which React renders as the text "0".
  The model gives no note in that case.
- SponsorshipApplicationsScreen.Screen.Receive: uses the estimated total
  (Finding 4) rather than the page length of line 74. The as-written total
  is `TotalAsWritten`.
- The mis-encoded characters of the player bookings screen's labels are
  not modelled.

## Findings

| source | as written | input that shows it | evidently intended | confidence | as-written member | corrected member |
|---|---|---|---|---|---|---|
| src/Adminpages/Player/Booking.tsx:452-458 (and Player.tsx:386-388, Media.tsx:510-512, SponsorShipApplication.tsx:309-311) | "Showing" clamps both bounds to the rows of the current server page: `min((p−1)·10+1, len)`–`min(p·10, len)` | page 2 with 3 rows reads "3–3 of …" instead of "11–13" | bounds counted from the rows before the page, `(p−1)·10+1`–`min(p·10, (p−1)·10+len)`, as Fans.tsx:255-260 computes them | not executed | Pagination.ClampedShowingOnLaterPage | Pagination.OffsetShowingCountsRows |
| src/Adminpages/Expert/Expert.tsx:343-347 and src/Adminpages/Sponsor/Sponsor.tsx:95-104,449-455 | the next button is disabled only when `currentPage === totalPages`, and both pagers render with no rows | no rows: totalPages = 0, page 1; next is enabled and leads to page 0 (Expert) or page 2 (Sponsor) | next disabled whenever there is no later page (`currentPage >= totalPages`) | not executed | Pagination.NextEnabledWithoutPages | Pagination.EnabledButtonsStayInRange |
| src/Adminpages/Sponsor/Sponsor.tsx:274 | the budget is prefixed with "Â£", the pound sign's UTF-8 bytes read as Latin-1 | a sponsor with budget 500 shows "Â£500" | "£500", as Sponsorshiptransactions.tsx:309 writes it | not executed | SponsorsScreen.BudgetAsWrittenIsGarbled | SponsorsScreen.SponsorshipBudget |
| src/Adminpages/Player/SponsorShipApplication.tsx:74 | `totalItems` is the length of the page the server returned | a full first page of 10 rows: totalPages = 1, so the guard refuses page 2 and later applications are never fetched | a total that lets a full page reach the next, as the other server-paged screens estimate it | not executed | SponsorshipApplicationsScreen.TotalAsWrittenHasOnePage | SponsorshipApplicationsScreen.Screen.PagerAfterFetch |
| src/Adminpages/Sponsor/Playersrequest.tsx:528 | the amount note under the sponsorship type is prefixed with "Â£", as in row 3 | an application with amount 500 shows "Â£500" | "£500" | not executed | PlayersRequestScreen.AmountNoteAsWrittenIsGarbled | PlayersRequestScreen.AmountNote |
