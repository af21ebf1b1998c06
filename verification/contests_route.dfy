/**
 * The mock contest endpoint: ten contests placed around the instant `now`
 * of the request (three finished within the last week, one running, six to
 * come), and what the tracker's helpers make of them.
 */
module ContestsRoute {
  import opened Optional
  import opened Seqs
  import opened Types
  import opened ContestUtils
  import opened Tracker
  import opened YouTubeService

  /** One and a half hours, written `1.5 * 60 * 60 * 1000` in the endpoint: an exact integer. */
  const HourAndAHalfMs: int := 5400000

  /** The contest list the endpoint answers with at instant `now`. */
  function MockContests(now: int): seq<Contest> {
    [
      // Finished within the last week
      Contest("cf-1", "Codeforces Round #835 (Div. 2)", Codeforces, "https://codeforces.com/contests",
              now - 5 * DayMs, now - 5 * DayMs + 2 * HourMs, 120),
      Contest("cc-1", "CodeChef Starters 68", CodeChef, "https://www.codechef.com/contests",
              now - 3 * DayMs, now - 3 * DayMs + 3 * HourMs, 180),
      Contest("lc-1", "LeetCode Weekly Contest 320", LeetCode, "https://leetcode.com/contest/",
              now - 2 * DayMs, now - 2 * DayMs + HourAndAHalfMs, 90),
      // Running
      Contest("cf-2", "Codeforces Educational Round 150", Codeforces, "https://codeforces.com/contests",
              now - 1 * HourMs, now + 1 * HourMs, 120),
      // To come
      Contest("lc-2", "LeetCode Biweekly Contest 95", LeetCode, "https://leetcode.com/contest/",
              now + 1 * DayMs, now + 1 * DayMs + HourAndAHalfMs, 90),
      Contest("cc-2", "CodeChef Long Challenge April", CodeChef, "https://www.codechef.com/contests",
              now + 2 * DayMs, now + 12 * DayMs, 10 * 24 * 60),
      Contest("cf-3", "Codeforces Round #836 (Div. 1)", Codeforces, "https://codeforces.com/contests",
              now + 3 * DayMs, now + 3 * DayMs + 2 * HourMs, 120),
      Contest("lc-3", "LeetCode Weekly Contest 321", LeetCode, "https://leetcode.com/contest/",
              now + 5 * DayMs, now + 5 * DayMs + HourAndAHalfMs, 90),
      Contest("cc-3", "CodeChef Starters 69", CodeChef, "https://www.codechef.com/contests",
              now + 7 * DayMs, now + 7 * DayMs + 3 * HourMs, 180),
      Contest("cf-4", "Codeforces Round #837 (Div. 2)", Codeforces, "https://codeforces.com/contests",
              now + 10 * DayMs, now + 10 * DayMs + 2 * HourMs, 120)
    ]
  }

  /** Ten contests with pairwise distinct ids. */
  lemma MockContestsIds(now: int)
    ensures |MockContests(now)| == 10
    ensures forall i, j :: 0 <= i < j < |MockContests(now)| ==> MockContests(now)[i].id != MockContests(now)[j].id
  {
  }

  /**
   * Every contest's window is as long as its stated duration, so it starts
   * no later than it ends, and every start lies between a week ago and two
   * weeks ahead.
   */
  lemma MockContestsWindows(now: int)
    ensures forall i :: 0 <= i < |MockContests(now)| ==>
      var c := MockContests(now)[i];
      && c.endTime - c.startTime == c.duration * 60000
      && c.startTime <= c.endTime
      && now - WeekMs <= c.startTime <= now + 14 * DayMs
  {
  }

  /** cf-1, cc-1 and lc-1 ended within the last week, cf-2 is running, the other six are to come. */
  lemma MockContestsStatus(now: int)
    ensures forall i :: 0 <= i < |MockContests(now)| ==>
      var c := MockContests(now)[i];
      && (c.id in ["cf-1", "cc-1", "lc-1"] ==> IsPast(c, now) && IsRecentPast(c, now))
      && (c.id == "cf-2" ==> IsOngoing(c, now))
      && (c.id !in ["cf-1", "cc-1", "lc-1", "cf-2"] ==> IsUpcoming(c, now))
  {
  }

  /** Under the default settings nothing generated is filtered out. */
  lemma DefaultFiltersKeepAll(now: int)
    ensures FilterContests(MockContests(now), DefaultFilters, now) == MockContests(now)
  {
    var cs := MockContests(now);
    MockContestsStatus(now);
    forall c | c in cs ensures Kept(c, DefaultFilters, now) {
      var i :| 0 <= i < |cs| && cs[i] == c;
      KeptByDefault(c, now);
    }
    FilterAll(cs, c => Kept(c, DefaultFilters, now));
  }

  /** The platform menu lists all three platforms on the "all" tab. */
  lemma MockContestsPlatformsAll(now: int, bookmarks: seq<string>)
    ensures AvailablePlatforms(MockContests(now), Some("all"), bookmarks, now) == PlatformsByName
  {
    var cs := MockContests(now);
    assert TabRefine(cs, Some("all"), bookmarks, now) == cs;
    EveryPlatformPresent(cs, 0, 1, 2);
    AvailablePlatformsEvery(cs, Some("all"), bookmarks, now);
  }

  /** The platform menu lists Codeforces alone on the "ongoing" tab. */
  lemma MockContestsPlatformsOngoing(now: int, bookmarks: seq<string>)
    ensures AvailablePlatforms(MockContests(now), Some("ongoing"), bookmarks, now) == [Codeforces]
  {
    MockContestsStatus(now);
    AvailablePlatformsOneRunning(MockContests(now), 3, bookmarks, now);
  }

  /** Solutions are found for the three finished contests, two of them for cf-1. */
  lemma MockContestsSolutions(now: int)
    ensures SolutionsMap(MockContests(now), now).Keys == {"cf-1", "cc-1", "lc-1"}
    ensures |SolutionsMap(MockContests(now), now)["cf-1"]| == 2
  {
    var cs := MockContests(now);
    var m := SolutionsMap(cs, now);
    forall k ensures k in m <==> k in {"cf-1", "cc-1", "lc-1"} {
      SolutionsMapKeys(cs, now, k);
      if k in {"cf-1", "cc-1", "lc-1"} {
        var i := if k == "cf-1" then 0 else if k == "cc-1" then 1 else 2;
        assert cs[i].id == k && IsPast(cs[i], now);
      }
    }
    SolutionsMapLastWins(cs, now, 0);
  }
}
