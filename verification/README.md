# Contest tracker, modelled in Dafny

A model of the contest tracker in the cp-mit-manipal site, with proofs about it. The tracker covers four pieces of source:

- **Contest utilities** (`lib/contest-utils.ts`):
  - whether a contest is past, recent-past (ended within a week), ongoing or upcoming;
  - the duration text ("2h 5m") and the countdown text ("3d 4h", "Started");
  - the filter the settings dialog applies;
  - each platform's badge colour and icon.
- **Tracker component** (`components/contest-tracker.tsx`):
  - its state: the loaded contests, the displayed list, bookmarks, filter settings, the active tab and the selected platform;
  - the handlers that change that state;
  - the effect that recomputes the displayed list;
  - the platform menu entries and the empty-list message.
- **YouTube stand-in** (`lib/youtube-service.ts`): the solution videos it makes up for a finished contest, the watch URL it builds from a video id, and the id-to-solutions map for a contest list.
- **Mock contest endpoint** (`app/api/contests/route.ts`): the ten contests it places around the request time.

Every reading of the clock (`new Date()`) is replaced by one parameter `now`, in milliseconds since the epoch. Contest times are integers in the same unit.

Files, with one module each:

- `optional.dfy`: `Option`.
- `seqs.dfy`: `Array.prototype.filter` as `Filter`, and subsequences.
- `text.dfy`:
  - `${n}` rendering, with its reader;
  - "2h 5m"-style strings, with their reader;
  - `String.prototype.split` and join;
  - character (code-point) order on strings, which agrees with the UTF-16 code-unit order of `Array.prototype.sort` on the platform names.
- `types.dfy`: the records of `lib/types.ts`.
- `contest_utils.dfy`, `tracker.dfy`, `youtube_service.dfy` and `contests_route.dfy`: one for each source file above.

The tracker component is a class, `Tracker.ContestTracker`:

- Each state setter is a method that changes only its own fields.
- The effect is the method `ApplyFilters(now)`. It is proved equal to the function `FilteredView`, and the lemmas about that function state what the displayed list is.
- `findContestSolutions` and `updateContestSolutions` build their results step by step in the source, by `push` and by a loop. They are methods proved equal to the functions `MockSolutions` and `SolutionsMap`.

## Model

| member | source | states |
|---|---|---|
| Types.ParsePlatform | lib/types.ts:4 | a string names a platform exactly when it is "codeforces", "codechef" or "leetcode", and the platform found is spelt as that string |
| Types.ParsePlatformName | lib/types.ts:4 | reading a platform's own spelling gives that platform back |
| Seqs.Filter | lib/contest-utils.ts:69 | `Array.prototype.filter`: the result keeps the input's order, holds exactly the input elements that pass the predicate, and keeps each one as many times as it occurs |
| Seqs.FilterIdempotent | lib/contest-utils.ts:69 | filtering twice with the same predicate equals filtering once |
| Seqs.FilterNoDup | components/contest-tracker.tsx:149 | filtering a duplicate-free list gives a duplicate-free list |
| Text.NatToString | lib/contest-utils.ts:8 | `${n}` on a natural below 2^53 is a non-empty string of decimal digits, with a leading zero only for 0 (larger numbers are outside the model, see Left out) |
| Text.ParseNatToString | lib/contest-utils.ts:8 | reading the digits of `${n}` gives back `n` |
| Text.ParseJoinQuantities | lib/contest-utils.ts:38 | a space-separated list of fields such as "3d 4h" reads back as exactly that list of amounts and units |
| Text.Split | lib/youtube-service.ts:84 | `split` returns at least one piece; no piece contains the separator; there is one piece exactly when the separator is absent; the first piece is the text before the first separator |
| Text.JoinSplit | lib/youtube-service.ts:84 | joining the pieces of a split with the separator gives the original string |
| Text.SplitAtFirstSep | lib/youtube-service.ts:84 | splitting "x-y", where x has no '-', gives x followed by the pieces of y |
| Text.LexLessAsymmetric | components/contest-tracker.tsx:181 | the character order standing in for `sort()`'s order never puts two strings before each other |
| ContestUtils.FormatDuration | lib/contest-utils.ts:3-14 | `formatDuration` itself: whole hours and leftover minutes as "Mm", "Hh" or "Hh Mm"; what its text means is stated by FormatDurationReadsBack, DurationFields and FormatDurationExamples |
| ContestUtils.FormatDurationReadsBack | lib/contest-utils.ts:3-14 | the text reads back as "Mm" under an hour, "Hh" for a positive whole number of hours, and "Hh Mm" otherwise; the fields add up to the duration |
| ContestUtils.DurationFields | lib/contest-utils.ts:4-5 | `hours*60 + mins == minutes` with `mins < 60`; hours is 0 exactly under an hour |
| ContestUtils.FormatDurationExamples | lib/contest-utils.ts:3-14 | 125 gives "2h 5m", 60 gives "1h", 0 gives "0m" |
| ContestUtils.CountdownOf | lib/contest-utils.ts:33-35 | for a positive distance: hours < 24, minutes < 60, and days, hours and minutes add up to the distance less under one minute |
| ContestUtils.CountdownBounds | lib/contest-utils.ts:37-43 | days and hours alone understate the distance by under an hour; with no days, hours and minutes understate it by under a minute |
| ContestUtils.TimeRemaining | lib/contest-utils.ts:25-44 | `getTimeRemaining` itself, with the clock read as `now`; its fields come from CountdownOf, and TimeRemainingStarted, TimeRemainingReadsBack and TimeRemainingUnderAMinute state what it returns |
| ContestUtils.TimeRemainingStarted | lib/contest-utils.ts:25-31 | the countdown is "Started" exactly when the target is not in the future |
| ContestUtils.TimeRemainingReadsBack | lib/contest-utils.ts:33-43 | the countdown reads back as "Dd Hh" with a day or more left (minutes dropped), "Hh Mm" with an hour or more, else "Mm"; the fields never overstate the time left and understate it by less than one unit of the last field |
| ContestUtils.TimeRemainingUnderAMinute | lib/contest-utils.ts:33-43 | any distance between 0 and one minute, both exclusive, shows "0m" |
| ContestUtils.IsPast | lib/contest-utils.ts:46-48 | `isPastContest`: `now` is after the end; ExactlyOneStatus relates it to the other statuses |
| ContestUtils.IsRecentPast | lib/contest-utils.ts:50-54 | `isRecentPastContest`: ended, and after the instant a week before `now`; RecentPastIsPast characterises it |
| ContestUtils.IsUpcoming | lib/contest-utils.ts:56-58 | `isUpcomingContest`: `now` is before the start; see ExactlyOneStatus |
| ContestUtils.IsOngoing | lib/contest-utils.ts:60-63 | `isOngoingContest`: `now` is within the window, both ends included; see ExactlyOneStatus |
| ContestUtils.ExactlyOneStatus | lib/contest-utils.ts:46-63 | for a window with start no later than end, exactly one of past, ongoing and upcoming holds; both boundary instants are ongoing |
| ContestUtils.RecentPastIsPast | lib/contest-utils.ts:50-54 | recent-past implies past, and it holds exactly when the end lies strictly between a week ago and now |
| ContestUtils.Kept | lib/contest-utils.ts:69-89 | the predicate passed to `filter`, with its four tests in the source's order; FilterContests states what it admits and KeptByDefault what the default settings admit |
| ContestUtils.KeptByDefault | lib/contest-utils.ts:69-89 | under the default settings, a contest is dropped exactly when it ended a week or more ago (endTime <= now - 7 days); one that ended exactly a week ago is dropped |
| ContestUtils.FilterContests | lib/contest-utils.ts:65-90 | the result keeps the input's order. Each kept contest has its platform enabled and did not end a week or more ago. It is not past while past contests are hidden, nor upcoming while upcoming ones are hidden. An ongoing contest on an enabled platform is always kept. |
| ContestUtils.FilterContestsIdempotent | lib/contest-utils.ts:65-90 | filtering twice with the same settings equals filtering once |
| ContestUtils.PlatformColor | lib/contest-utils.ts:92-103 | the gray default is returned exactly for strings that name no platform |
| ContestUtils.PlatformIcon | lib/contest-utils.ts:105-116 | the magnifying-glass default is returned exactly for strings that name no platform |
| ContestUtils.PlatformBadgesDistinct | lib/contest-utils.ts:92-116 | two different platforms get different colours and different icons |
| Tracker.ToggledBookmarks | components/contest-tracker.tsx:148-150 | the id's membership flips and every other id's membership stays; an absent id is appended at the end; removal keeps the other ids in order with their multiplicities |
| Tracker.ToggleBookmarkTwice | components/contest-tracker.tsx:148-150 | adding an absent id and then toggling it again restores the exact list |
| Tracker.ToggleBookmarkNoDup | components/contest-tracker.tsx:148-150 | a bookmark list without duplicates stays without duplicates |
| Tracker.WithPlatformToggled | components/contest-tracker.tsx:185-193 | only the chosen platform's switch flips; the other switches and both status flags are unchanged |
| Tracker.TogglePlatformTwice | components/contest-tracker.tsx:185-193 | toggling the same platform twice restores the settings |
| Tracker.TabRefine | components/contest-tracker.tsx:127-135 | the tab step keeps the list's order and keeps exactly the contests of the active tab ("bookmarked", "ongoing", "upcoming", "past"), each with its multiplicity; any other tab, null included, keeps everything |
| Tracker.FilteredView | components/contest-tracker.tsx:125-140 | the list the effect computes: settings filter, then tab, then platform; FilteredViewSpec states its properties and ApplyFilters is proved to store it |
| Tracker.FilteredViewSpec | components/contest-tracker.tsx:123-144 | the displayed list keeps the order of the filtered contests. Each status tab keeps only its own contests; "bookmarked" keeps only bookmarked ids; "all" and null keep all of them; a selected platform keeps only its own contests. Nothing that the settings, the tab and the platform all admit is dropped. |
| Tracker.NameOrder | components/contest-tracker.tsx:181 | the platforms ordered by `sort()` are codechef, codeforces, leetcode; the order is strict and total |
| Tracker.AvailablePlatforms | components/contest-tracker.tsx:165-182 | no entries before contests load; otherwise a strictly name-sorted, duplicate-free list of exactly the platforms of the active tab's contests; the filter settings play no part |
| Tracker.SortedByNameUnique | components/contest-tracker.tsx:180-181 | two name-sorted lists with the same members are equal, so the menu is determined by the set of platforms |
| Tracker.AvailablePlatformsEvery | components/contest-tracker.tsx:165-182 | when the active tab has contests of all three platforms, the menu is codechef, codeforces, leetcode |
| Tracker.AvailablePlatformsOne | components/contest-tracker.tsx:165-182 | when the active tab's contests are all on one platform, and there is one, the menu is that platform alone |
| Tracker.AvailablePlatformsOneRunning | components/contest-tracker.tsx:170-181 | when exactly one contest is running, the "ongoing" menu lists its platform alone |
| Tracker.EmptyMessage | components/contest-tracker.tsx:394-411 | `getEmptyMessage`, with a missing or empty `emptyMessage` falling through to the tab's message; EmptyMessageGiven, EmptyMessageParts, EmptyMessageInsertsPlatform and EmptyMessageNamesPlatform state what it returns |
| Tracker.EmptyMessageParts | components/contest-tracker.tsx:397-410 | with no message given, the message is the tab's opening words, then " for P" only when a platform P is selected, then the tab's closing words |
| Tracker.EmptyMessageGiven | components/contest-tracker.tsx:395 | a non-empty message passed in is returned as is |
| Tracker.EmptyMessageInsertsPlatform | components/contest-tracker.tsx:397-410 | with a platform selected, the message is the "all" message with " for P" inserted at one place |
| Tracker.EmptyMessageNamesPlatform | components/contest-tracker.tsx:397-410 | two different selected platforms give two different messages |
| Tracker.ContestTracker.constructor | components/contest-tracker.tsx:38-55 | nothing loaded or bookmarked; every filter switch on; tab and platform "all" |
| Tracker.ContestTracker.SetContests | components/contest-tracker.tsx:88 | stores the fetched list and changes nothing else |
| Tracker.ContestTracker.ToggleBookmark | components/contest-tracker.tsx:147-152 | the bookmarks become the toggled list, with the membership flip, and nothing else changes |
| Tracker.ContestTracker.TogglePlatformFilter | components/contest-tracker.tsx:185-193 | only that platform's switch flips, and nothing else in the state changes |
| Tracker.ContestTracker.ToggleShowUpcoming | components/contest-tracker.tsx:279 | only the upcoming flag flips |
| Tracker.ContestTracker.ToggleShowPast | components/contest-tracker.tsx:289 | only the past flag flips |
| Tracker.ContestTracker.ResetFilters | components/contest-tracker.tsx:196-207 | every switch and both flags are on and the platform is "all", whatever they were before, so resetting twice equals resetting once; the tab, bookmarks and lists are unchanged |
| Tracker.ContestTracker.SetActiveTab | components/contest-tracker.tsx:331 | only the active tab changes, and it may become null |
| Tracker.ContestTracker.SetSelectedPlatform | components/contest-tracker.tsx:334 | only the selected platform changes |
| Tracker.ContestTracker.ApplyFilters | components/contest-tracker.tsx:123-144 | with contests loaded, the displayed list becomes settings-filter, then tab, then platform; with none loaded it is left as it was; no other field changes |
| YouTubeService.MockSolutions | lib/youtube-service.ts:18-79 | the videos made up for a contest at `now`; SolutionsOnlyWhenPast, CodeforcesSolutions, LeetCodeSolutions, CodeChefSolutions and SolutionEntries characterise it, and FindContestSolutions is proved to return it |
| YouTubeService.FindContestSolutions | lib/youtube-service.ts:18-79 | the pushed-together list equals the videos defined for the contest at `now` |
| YouTubeService.SolutionsOnlyWhenPast | lib/youtube-service.ts:26-27 | the list is empty exactly when the contest has not ended |
| YouTubeService.CodeforcesSolutions | lib/youtube-service.ts:29-48 | a finished Codeforces contest gets takeUforward at end + 12 h first. TLE Eliminators at end + 24 h is second, exactly when the id contains '1' or '3'. |
| YouTubeService.LeetCodeSolutions | lib/youtube-service.ts:49-65 | a finished LeetCode contest gets exactly takeUforward at + 8 h and then TLE Eliminators at + 10 h |
| YouTubeService.CodeChefSolutions | lib/youtube-service.ts:66-74 | a finished CodeChef contest gets exactly one TLE Eliminators video at + 18 h |
| YouTubeService.SolutionEntries | lib/youtube-service.ts:31-74 | at most two videos, each from a tracked channel, published after the end, with an id "youtube-<contest id>-..." |
| YouTubeService.VideoUrl | lib/youtube-service.ts:82-86 | an id without '-' gives the URL ending in "undefined" |
| YouTubeService.VideoUrlSecondPiece | lib/youtube-service.ts:84-85 | for "x-y" with no '-' in x, the URL carries y's text before its first '-' |
| YouTubeService.VideoUrlOfSolution | lib/youtube-service.ts:82-86 | for every made-up video the URL carries the contest id's text before its first '-' ("cf" for "cf-1"), not a video id |
| YouTubeService.SolutionsMap | lib/youtube-service.ts:90-103 | the map of the contests entered in list order; SolutionsMapKeys and SolutionsMapLastWins characterise it, and UpdateContestSolutions is proved to return it |
| YouTubeService.UpdateContestSolutions | lib/youtube-service.ts:90-103 | the loop builds the map of the contests taken in list order, later ids overwriting earlier ones |
| YouTubeService.SolutionsMapKeys | lib/youtube-service.ts:93-98 | an id is a key exactly when some contest with that id has ended and has solutions, which means exactly when one has ended |
| YouTubeService.SolutionsMapLastWins | lib/youtube-service.ts:94-97 | an id's value holds the solutions of the last ended contest with that id |
| ContestsRoute.MockContests | app/api/contests/route.ts:5-107 | the ten contests `GET` answers with at `now`; the MockContests lemmas below state their ids, windows, statuses, and what the tracker makes of them |
| ContestsRoute.MockContestsIds | app/api/contests/route.ts:11-107 | ten contests with pairwise distinct ids |
| ContestsRoute.MockContestsWindows | app/api/contests/route.ts:18-106 | every window lasts its stated duration, so it starts no later than it ends; every start lies between a week ago and two weeks ahead |
| ContestsRoute.MockContestsStatus | app/api/contests/route.ts:12-106 | cf-1, cc-1 and lc-1 are past and recent-past; cf-2 is ongoing; the other six are upcoming |
| ContestsRoute.DefaultFiltersKeepAll | app/api/contests/route.ts:11-107 | the default settings keep all ten contests |
| ContestsRoute.MockContestsPlatformsAll | app/api/contests/route.ts:11-107 | on the "all" tab the menu lists codechef, codeforces, leetcode |
| ContestsRoute.MockContestsPlatformsOngoing | app/api/contests/route.ts:11-107 | on the "ongoing" tab the menu lists codeforces alone |
| ContestsRoute.MockContestsSolutions | app/api/contests/route.ts:11-107 | the solutions map has exactly the keys cf-1, cc-1 and lc-1, with two videos for cf-1 |

## Left out

- `formatDate` (`lib/contest-utils.ts:16-23`): it calls `Intl.DateTimeFormat`, which is locale code outside the model.
- Fetching contests (`fetch`, the HTTP status check, the array check, the date conversion) is left out. Its result enters as the argument of `SetContests`.
- The `loading` and `error` state is left out.
- `localStorage` is left out: reading and parsing bookmarks at start-up, and writing them in `toggleBookmark`. Bookmarks live only in the `bookmarks` field.
- The 60-second `setInterval` and `timeNow` are left out. The effect takes the current instant as the argument `now`.
- Each `new Date()` reads the clock separately in the source. The model uses one `now` throughout, so drift between those reads is not modelled.
- Tracker.ContestTracker.ApplyFilters: React re-runs the effect whenever its dependencies change. In the model the caller invokes `ApplyFilters` after changing the state, and React's batching of state updates is not modelled.
- The filter dialog's open/closed state, the JSX, theming and the other rendering code are left out.
- ContestUtils.FormatDurationReadsBack: the duration is a natural number of minutes. Negative or fractional minutes, where JavaScript's `%` and float division differ, are not modelled.
- Text.NatToString: numbers are JavaScript doubles in the source and unbounded integers in the model. `${n}` (which switches to exponential notation from 1e21) and the floor divisions of `Math.floor(minutes / 60)` (`lib/contest-utils.ts:4`) and of the countdown (`lib/contest-utils.ts:33-35`) agree with the model only for integers below 2^53. Durations in minutes and millisecond distances of real contests stay far below that bound.
- Publication times stay integers; `toISOString` is not modelled.
- The `async`/`Promise` wrappers of the YouTube service are dropped. Nothing there runs concurrently.
- `NextResponse.json` serialisation of the endpoint's list is not modelled. The route computes `oneWeekAgo` and `twoWeeksFromNow` (lines 7-8) but never uses them, so the model leaves them out.
- Strings are sequences of Unicode scalar values, not of UTF-16 code units. `LexLess` compares code points, and it can order strings with characters above U+FFFF differently from `sort()`. The two orders agree on the ASCII platform names the menu sorts.
- YouTubeService.SolutionsMap: a JavaScript `Map` iterates in insertion order, and an overwritten id keeps its first position. The Dafny `map` has no order. No caller in the source iterates the map.
- The contest-solutions endpoint, the navbar menu and the remaining pages and components are not part of this model.
