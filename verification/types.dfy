/** The contest tracker's records: a contest and the filter settings of the tracker. */
module Types {
  import opened Optional

  /** The three platforms a contest can come from. */
  datatype Platform = Codeforces | CodeChef | LeetCode

  /** The literal each platform is spelt as in contest records and in the UI. */
  function PlatformName(p: Platform): string {
    match p
    case Codeforces => "codeforces"
    case CodeChef => "codechef"
    case LeetCode => "leetcode"
  }

  /** The platform a string names, if any. */
  function ParsePlatform(s: string): (r: Option<Platform>)
    ensures r.Some? ==> PlatformName(r.value) == s
    ensures r.None? <==> s !in {"codeforces", "codechef", "leetcode"}
  {
    if s == "codeforces" then Some(Codeforces)
    else if s == "codechef" then Some(CodeChef)
    else if s == "leetcode" then Some(LeetCode)
    else None
  }

  lemma ParsePlatformName(p: Platform)
    ensures ParsePlatform(PlatformName(p)) == Some(p)
  {
  }

  /**
   * A contest. Times are milliseconds since the epoch (what `Date.getTime()`
   * returns); the duration is in minutes.
   */
  datatype Contest = Contest(
    id: string,
    name: string,
    platform: Platform,
    url: string,
    startTime: int,
    endTime: int,
    duration: int)

  /** One visibility switch per platform. */
  datatype PlatformToggles = PlatformToggles(codeforces: bool, codechef: bool, leetcode: bool)

  /** The tracker's filter settings. */
  datatype ContestFilters = ContestFilters(platforms: PlatformToggles, showPast: bool, showUpcoming: bool)

  /** `filters.platforms[platform]`. */
  function Enabled(t: PlatformToggles, p: Platform): bool {
    match p
    case Codeforces => t.codeforces
    case CodeChef => t.codechef
    case LeetCode => t.leetcode
  }

  /** Every platform shown, past and upcoming contests shown. */
  const DefaultFilters: ContestFilters :=
    ContestFilters(PlatformToggles(true, true, true), true, true)
}
