/**
 * The stand-in for a YouTube search: fabricated solution videos for a
 * finished contest, the watch URL built from a video id, and the map from
 * contest id to solutions for a whole contest list.
 *
 * Publication times stay in milliseconds rather than ISO-8601 text.
 */
module YouTubeService {
  import opened Text
  import opened Types
  import opened ContestUtils

  /** A video as the service reports it. */
  datatype Video = Video(id: string, title: string, channelTitle: string, publishedAt: int, thumbnailUrl: string)

  /** The channels tracked for solutions. */
  const SolutionChannels: seq<string> := ["takeUforward", "TLE Eliminators"]

  const Thumbnail := "https://i.ytimg.com/vi/placeholder/hqdefault.jpg"

  const WatchPrefix := "https://www.youtube.com/watch?v="

  function TakeUForwardVideo(c: Contest, title: string, delay: int): Video {
    Video("youtube-" + c.id + "-takeUforward", c.name + title, "takeUforward", c.endTime + delay, Thumbnail)
  }

  function TleVideo(c: Contest, title: string, delay: int): Video {
    Video("youtube-" + c.id + "-TLE", c.name + title, "TLE Eliminators", c.endTime + delay, Thumbnail)
  }

  /**
   * The solutions fabricated for a contest at instant `now`: none before it
   * ends; for Codeforces a takeUforward video, and a TLE Eliminators one when
   * the contest id contains '1' or '3'; for LeetCode both channels; for
   * CodeChef TLE Eliminators only.
   */
  function MockSolutions(c: Contest, now: int): seq<Video> {
    if now > c.endTime then
      match c.platform
      case Codeforces =>
        [TakeUForwardVideo(c, " Solutions | Problem A to E Explained", 12 * HourMs)]
        + (if '1' in c.id || '3' in c.id
           then [TleVideo(c, " Editorial | Complete Walkthrough", 24 * HourMs)]
           else [])
      case LeetCode =>
        [TakeUForwardVideo(c, " Solutions | Detailed Explanation", 8 * HourMs),
         TleVideo(c, " | Problem by Problem Analysis", 10 * HourMs)]
      case CodeChef =>
        [TleVideo(c, " | Complete Solutions", 18 * HourMs)]
    else []
  }

  /** `findContestSolutions`: the list is built by pushing one video at a time. */
  method FindContestSolutions(contest: Contest, now: int) returns (mockSolutions: seq<Video>)
    ensures mockSolutions == MockSolutions(contest, now)
  {
    mockSolutions := [];
    if now > contest.endTime {
      if contest.platform == Codeforces {
        mockSolutions := mockSolutions + [TakeUForwardVideo(contest, " Solutions | Problem A to E Explained", 12 * HourMs)];
        if '1' in contest.id || '3' in contest.id {
          mockSolutions := mockSolutions + [TleVideo(contest, " Editorial | Complete Walkthrough", 24 * HourMs)];
        }
      } else if contest.platform == LeetCode {
        mockSolutions := mockSolutions + [TakeUForwardVideo(contest, " Solutions | Detailed Explanation", 8 * HourMs)];
        mockSolutions := mockSolutions + [TleVideo(contest, " | Problem by Problem Analysis", 10 * HourMs)];
      } else if contest.platform == CodeChef {
        mockSolutions := mockSolutions + [TleVideo(contest, " | Complete Solutions", 18 * HourMs)];
      }
    }
  }

  /** Nothing is fabricated for a contest that has not ended; something is for every one that has. */
  lemma SolutionsOnlyWhenPast(c: Contest, now: int)
    ensures MockSolutions(c, now) == [] <==> !IsPast(c, now)
  {
  }

  /**
   * A finished Codeforces contest: takeUforward twelve hours after the end,
   * then TLE Eliminators a day after the end exactly when the id contains
   * '1' or '3'.
   */
  lemma CodeforcesSolutions(c: Contest, now: int)
    requires c.platform == Codeforces && IsPast(c, now)
    ensures var r := MockSolutions(c, now);
      && 1 <= |r| <= 2
      && r[0].channelTitle == "takeUforward" && r[0].publishedAt == c.endTime + 12 * HourMs
      && (|r| == 2 <==> '1' in c.id || '3' in c.id)
      && (|r| == 2 ==> r[1].channelTitle == "TLE Eliminators" && r[1].publishedAt == c.endTime + 24 * HourMs)
  {
  }

  /** A finished LeetCode contest: takeUforward at eight hours, TLE Eliminators at ten. */
  lemma LeetCodeSolutions(c: Contest, now: int)
    requires c.platform == LeetCode && IsPast(c, now)
    ensures var r := MockSolutions(c, now);
      && |r| == 2
      && r[0].channelTitle == "takeUforward" && r[0].publishedAt == c.endTime + 8 * HourMs
      && r[1].channelTitle == "TLE Eliminators" && r[1].publishedAt == c.endTime + 10 * HourMs
  {
  }

  /** A finished CodeChef contest: TLE Eliminators alone, at eighteen hours. */
  lemma CodeChefSolutions(c: Contest, now: int)
    requires c.platform == CodeChef && IsPast(c, now)
    ensures var r := MockSolutions(c, now);
      |r| == 1 && r[0].channelTitle == "TLE Eliminators" && r[0].publishedAt == c.endTime + 18 * HourMs
  {
  }

  /**
   * At most two videos, each from a tracked channel, published after the
   * contest ended, with an id of the form "youtube-<contest id>-...".
   */
  lemma SolutionEntries(c: Contest, now: int)
    ensures |MockSolutions(c, now)| <= 2
    ensures forall v :: v in MockSolutions(c, now) ==> VideoEntry(c, v)
  {
    if now > c.endTime {
      match c.platform
      case Codeforces =>
        TakeUForwardEntry(c, " Solutions | Problem A to E Explained", 12 * HourMs);
        TleEntry(c, " Editorial | Complete Walkthrough", 24 * HourMs);
      case LeetCode =>
        TakeUForwardEntry(c, " Solutions | Detailed Explanation", 8 * HourMs);
        TleEntry(c, " | Problem by Problem Analysis", 10 * HourMs);
      case CodeChef =>
        TleEntry(c, " | Complete Solutions", 18 * HourMs);
    }
  }

  /**
   * The shape every fabricated video of contest `c` has: from a tracked
   * channel, published after the contest ended, with an id of the form
   * "youtube-<contest id>-...".
   */
  ghost predicate VideoEntry(c: Contest, v: Video) {
    && v.channelTitle in SolutionChannels
    && v.publishedAt > c.endTime
    && exists suffix :: v.id == "youtube-" + c.id + "-" + suffix
  }

  lemma TakeUForwardEntry(c: Contest, title: string, delay: int)
    requires delay > 0
    ensures VideoEntry(c, TakeUForwardVideo(c, title, delay))
  {
    assert TakeUForwardVideo(c, title, delay).id == "youtube-" + c.id + "-" + "takeUforward";
  }

  lemma TleEntry(c: Contest, title: string, delay: int)
    requires delay > 0
    ensures VideoEntry(c, TleVideo(c, title, delay))
  {
    assert TleVideo(c, title, delay).id == "youtube-" + c.id + "-" + "TLE";
  }

  /** `getYouTubeVideoUrl`: the watch URL for the piece of the id after its first '-'. */
  function VideoUrl(videoId: string): (r: string)
    ensures '-' !in videoId ==> r == WatchPrefix + "undefined"
  {
    var parts := Split(videoId, '-');
    var actualId := if |parts| > 1 then parts[1] else "undefined";
    WatchPrefix + actualId
  }

  /** For an id "x-y" with no '-' in x, the URL carries the text of y before its first '-'. */
  lemma VideoUrlSecondPiece(x: string, y: string)
    requires '-' !in x
    ensures VideoUrl(x + "-" + y) == WatchPrefix + Split(y, '-')[0]
  {
    SplitAtFirstSep(x, '-', y);
  }

  /**
   * For a fabricated solution the URL carries the contest id's text before
   * its first '-' ("cf" for "cf-1"), not a video id.
   */
  lemma VideoUrlOfSolution(c: Contest, now: int, v: Video)
    requires v in MockSolutions(c, now)
    ensures VideoUrl(v.id) == WatchPrefix + Split(c.id, '-')[0]
  {
    SolutionEntries(c, now);
    var suffix :| v.id == "youtube-" + c.id + "-" + suffix;
    assert v.id == "youtube" + "-" + (c.id + ['-'] + suffix);
    VideoUrlSecondPiece("youtube", c.id + ['-'] + suffix);
    SplitFirstPiece(c.id, '-', suffix);
  }

  /**
   * The map `updateContestSolutions` returns for the contests `cs`, entered
   * in list order, so that a later contest with the same id overwrites an
   * earlier one.
   */
  function SolutionsMap(cs: seq<Contest>, now: int): map<string, seq<Video>> {
    if cs == [] then map[]
    else
      var m := SolutionsMap(cs[..|cs| - 1], now);
      var c := cs[|cs| - 1];
      if IsPast(c, now) && |MockSolutions(c, now)| > 0 then m[c.id := MockSolutions(c, now)] else m
  }

  method UpdateContestSolutions(contests: seq<Contest>, now: int) returns (solutionsMap: map<string, seq<Video>>)
    ensures solutionsMap == SolutionsMap(contests, now)
  {
    solutionsMap := map[];
    for i := 0 to |contests|
      invariant solutionsMap == SolutionsMap(contests[..i], now)
    {
      assert contests[..i + 1][..i] == contests[..i];
      var contest := contests[i];
      if now > contest.endTime {
        var solutions := FindContestSolutions(contest, now);
        if |solutions| > 0 {
          solutionsMap := solutionsMap[contest.id := solutions];
        }
      }
    }
    assert contests[..|contests|] == contests;
  }

  /**
   * An id is a key exactly when some contest with that id has ended and has
   * solutions; since every ended contest has solutions, exactly when some
   * contest with that id has ended.
   */
  lemma {:induction false} SolutionsMapKeys(cs: seq<Contest>, now: int, k: string)
    ensures k in SolutionsMap(cs, now) <==>
      exists i :: 0 <= i < |cs| && cs[i].id == k && IsPast(cs[i], now) && MockSolutions(cs[i], now) != []
    ensures k in SolutionsMap(cs, now) <==> exists i :: 0 <= i < |cs| && cs[i].id == k && IsPast(cs[i], now)
  {
    if cs != [] {
      var init := cs[..|cs| - 1];
      SolutionsMapKeys(init, now, k);
      forall i | 0 <= i < |init| ensures init[i] == cs[i] { }
      SolutionsOnlyWhenPast(cs[|cs| - 1], now);
      if k in SolutionsMap(init, now) {
        var i :| 0 <= i < |init| && init[i].id == k && IsPast(init[i], now);
        SolutionsOnlyWhenPast(init[i], now);
        assert cs[i] == init[i];
      }
      forall i | 0 <= i < |cs| && cs[i].id == k && IsPast(cs[i], now)
        ensures k in SolutionsMap(cs, now)
      {
        SolutionsOnlyWhenPast(cs[i], now);
        if i < |init| {
          assert init[i] == cs[i];
        }
      }
    }
  }

  /** The value for an id comes from the last ended contest with that id. */
  lemma {:induction false} SolutionsMapLastWins(cs: seq<Contest>, now: int, i: nat)
    requires i < |cs| && IsPast(cs[i], now)
    requires forall j :: i < j < |cs| && cs[j].id == cs[i].id ==> !IsPast(cs[j], now)
    ensures cs[i].id in SolutionsMap(cs, now)
    ensures SolutionsMap(cs, now)[cs[i].id] == MockSolutions(cs[i], now)
  {
    var init := cs[..|cs| - 1];
    SolutionsOnlyWhenPast(cs[i], now);
    if i < |cs| - 1 {
      assert init[i] == cs[i];
      forall j | i < j < |init| && init[j].id == init[i].id ensures !IsPast(init[j], now) {
        assert init[j] == cs[j];
      }
      SolutionsMapLastWins(init, now, i);
    }
  }
}
