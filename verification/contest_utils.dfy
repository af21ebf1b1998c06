/**
 * The tracker's pure helpers: duration and countdown text, the status of a
 * contest relative to the current instant, the filter settings applied to a
 * contest list, and the per-platform colour and icon.
 *
 * Every reading of the clock becomes the parameter `now` (milliseconds).
 */
module ContestUtils {
  import opened Optional
  import opened Seqs
  import opened Text
  import opened Types

  const MinuteMs: nat := 60 * 1000
  const HourMs: nat := 60 * MinuteMs
  const DayMs: nat := 24 * HourMs
  const WeekMs: nat := 7 * DayMs

  /** The length in milliseconds one unit letter of a displayed span stands for. */
  function UnitMs(unit: char): nat {
    if unit == 'd' then DayMs
    else if unit == 'h' then HourMs
    else if unit == 'm' then MinuteMs
    else 0
  }

  /** The time span, in milliseconds, a list of displayed quantities adds up to. */
  function SpanMs(qs: seq<Quantity>): int {
    if qs == [] then 0 else qs[0].amount * UnitMs(qs[0].unit) + SpanMs(qs[1..])
  }

  // ---------------------------------------------------------------------
  // formatDuration

  /** A duration in minutes as "Mm", "Hh" or "Hh Mm". */
  function FormatDuration(minutes: nat): string {
    var hours := minutes / 60;
    var mins := minutes % 60;
    if hours == 0 then NatToString(mins) + "m"
    else if mins == 0 then NatToString(hours) + "h"
    else NatToString(hours) + ['h', ' '] + NatToString(mins) + "m"
  }

  /**
   * The text `FormatDuration` produces reads back as hours and minutes that
   * add up to the duration: minutes alone under an hour, hours alone on a
   * whole number of hours, both otherwise, with fewer than 60 minutes.
   */
  lemma FormatDurationReadsBack(minutes: nat)
    ensures minutes < 60 ==>
      ParseQuantities(FormatDuration(minutes)) == Some([Quantity(minutes, 'm')])
    ensures minutes >= 60 && minutes % 60 == 0 ==>
      ParseQuantities(FormatDuration(minutes)) == Some([Quantity(minutes / 60, 'h')])
    ensures minutes >= 60 && minutes % 60 != 0 ==>
      ParseQuantities(FormatDuration(minutes)) == Some([Quantity(minutes / 60, 'h'), Quantity(minutes % 60, 'm')])
    ensures ParseQuantities(FormatDuration(minutes)).Some?
    ensures SpanMs(ParseQuantities(FormatDuration(minutes)).value) == minutes * MinuteMs
  {
    var hours, mins := minutes / 60, minutes % 60;
    DurationFields(minutes, hours, mins);
    if minutes < 60 {
      ReadsBackOne(FormatDuration(minutes), minutes, 'm');
      SpanOne(minutes, 'm');
    } else if mins == 0 {
      ReadsBackOne(FormatDuration(minutes), hours, 'h');
      SpanOne(hours, 'h');
    } else {
      ReadsBackTwo(FormatDuration(minutes), hours, 'h', mins, 'm');
      SpanTwo(hours, 'h', mins, 'm');
    }
  }

  /** Whole hours and leftover minutes of a duration. */
  lemma DurationFields(minutes: nat, hours: nat, mins: nat)
    requires hours == minutes / 60 && mins == minutes % 60
    ensures mins < 60 && minutes == hours * 60 + mins
    ensures hours == 0 <==> minutes < 60
    ensures hours == 0 ==> mins == minutes
    ensures hours * HourMs + mins * MinuteMs == minutes * MinuteMs
  {
  }

  /** A one-field text reads back as that field. */
  lemma ReadsBackOne(s: string, n: nat, u: char)
    requires IsUnit(u)
    requires s == NatToString(n) + [u]
    ensures ParseQuantities(s) == Some([Quantity(n, u)])
  {
    ParseNatToString(n);
    ParseQuantitiesStep(NatToString(n), u, "");
    assert s == NatToString(n) + [u] + "";
  }

  /** A two-field text reads back as those two fields. */
  lemma ReadsBackTwo(s: string, n1: nat, u1: char, n2: nat, u2: char)
    requires IsUnit(u1) && IsUnit(u2)
    requires s == NatToString(n1) + [u1, ' '] + NatToString(n2) + [u2]
    ensures ParseQuantities(s) == Some([Quantity(n1, u1), Quantity(n2, u2)])
  {
    var rest := " " + NatToString(n2) + [u2];
    assert s == NatToString(n1) + [u1] + rest;
    ParseNatToString(n1);
    assert rest[1..] == NatToString(n2) + [u2];
    ReadsBackOne(rest[1..], n2, u2);
    ParseQuantitiesStep(NatToString(n1), u1, rest);
    assert [Quantity(n1, u1)] + [Quantity(n2, u2)] == [Quantity(n1, u1), Quantity(n2, u2)];
  }

  lemma SpanOne(n: nat, u: char)
    ensures SpanMs([Quantity(n, u)]) == n * UnitMs(u)
  {
    assert [Quantity(n, u)][1..] == [];
  }

  lemma SpanTwo(n1: nat, u1: char, n2: nat, u2: char)
    ensures SpanMs([Quantity(n1, u1), Quantity(n2, u2)]) == n1 * UnitMs(u1) + n2 * UnitMs(u2)
  {
    assert [Quantity(n1, u1), Quantity(n2, u2)][1..] == [Quantity(n2, u2)];
    SpanOne(n2, u2);
  }

  lemma FormatDurationExamples()
    ensures FormatDuration(125) == "2h 5m"
    ensures FormatDuration(60) == "1h"
    ensures FormatDuration(0) == "0m"
  {
  }

  // ---------------------------------------------------------------------
  // getTimeRemaining

  /** The whole days, hours and minutes of a countdown. */
  datatype Countdown = Countdown(days: nat, hours: nat, minutes: nat)

  function CountdownMs(c: Countdown): int {
    c.days * DayMs + c.hours * HourMs + c.minutes * MinuteMs
  }

  lemma HourDivMod(x: int, q: int, r: int)
    requires 0 <= r < HourMs && x == q * HourMs + r
    ensures x / HourMs == q && x % HourMs == r
  {
  }

  /**
   * The countdown fields of `getTimeRemaining` for a positive distance `diff`:
   * days, then the hours within the day, then the minutes within the hour,
   * each truncated.
   */
  function CountdownOf(diff: int): (c: Countdown)
    requires diff > 0
    ensures c.hours < 24 && c.minutes < 60
    ensures CountdownMs(c) <= diff < CountdownMs(c) + MinuteMs
  {
    var days := diff / DayMs;
    var hours := (diff % DayMs) / HourMs;
    var minutes := (diff % HourMs) / MinuteMs;
    var inDay := diff % DayMs;
    var inHour := inDay % HourMs;
    assert diff == (days * 24 + hours) * HourMs + inHour;
    HourDivMod(diff, days * 24 + hours, inHour);
    Countdown(days, hours, minutes)
  }

  /** The time left until `target`, or "Started" once it has passed. */
  function TimeRemaining(target: int, now: int): string {
    var diff := target - now;
    if diff <= 0 then "Started"
    else
      var c := CountdownOf(diff);
      if c.days > 0 then NatToString(c.days) + ['d', ' '] + NatToString(c.hours) + "h"
      else if c.hours > 0 then NatToString(c.hours) + ['h', ' '] + NatToString(c.minutes) + "m"
      else NatToString(c.minutes) + "m"
  }

  lemma TimeRemainingStarted(target: int, now: int)
    ensures TimeRemaining(target, now) == "Started" <==> target - now <= 0
  {
    var r := TimeRemaining(target, now);
    if target - now > 0 {
      var c := CountdownOf(target - now);
      var n := if c.days > 0 then c.days else if c.hours > 0 then c.hours else c.minutes;
      assert r[0] == NatToString(n)[0];
      assert IsDigit(r[0]) && !IsDigit("Started"[0]);
    }
  }

  /**
   * The countdown text reads back as "Dd Hh" when a day or more is left
   * (minutes dropped), "Hh Mm" when an hour or more is left, "Mm" otherwise.
   * The fields it shows never overstate the time left and understate it by
   * less than one unit of the last field shown.
   */
  lemma TimeRemainingReadsBack(target: int, now: int)
    requires target - now > 0
    ensures ParseQuantities(TimeRemaining(target, now)).Some?
    ensures var c := CountdownOf(target - now);
      var qs := ParseQuantities(TimeRemaining(target, now)).value;
      && (c.days > 0 ==> qs == [Quantity(c.days, 'd'), Quantity(c.hours, 'h')])
      && (c.days == 0 && c.hours > 0 ==> qs == [Quantity(c.hours, 'h'), Quantity(c.minutes, 'm')])
      && (c.days == 0 && c.hours == 0 ==> qs == [Quantity(c.minutes, 'm')])
      && SpanMs(qs) <= target - now < SpanMs(qs) + UnitMs(qs[|qs| - 1].unit)
  {
    var c := CountdownOf(target - now);
    var r := TimeRemaining(target, now);
    CountdownBounds(c, target - now);
    if c.days > 0 {
      ReadsBackTwo(r, c.days, 'd', c.hours, 'h');
      SpanTwo(c.days, 'd', c.hours, 'h');
    } else if c.hours > 0 {
      ReadsBackTwo(r, c.hours, 'h', c.minutes, 'm');
      SpanTwo(c.hours, 'h', c.minutes, 'm');
    } else {
      ReadsBackOne(r, c.minutes, 'm');
      SpanOne(c.minutes, 'm');
    }
  }

  /** What the countdown text leaves out of the time left is less than one unit of its last field. */
  lemma CountdownBounds(c: Countdown, diff: int)
    requires c.hours < 24 && c.minutes < 60
    requires CountdownMs(c) <= diff < CountdownMs(c) + MinuteMs
    ensures c.days * DayMs + c.hours * HourMs <= diff < c.days * DayMs + c.hours * HourMs + HourMs
    ensures c.days == 0 ==> c.hours * HourMs + c.minutes * MinuteMs <= diff < c.hours * HourMs + c.minutes * MinuteMs + MinuteMs
  {
  }

  lemma TimeRemainingUnderAMinute(target: int, now: int)
    requires 0 < target - now < MinuteMs
    ensures TimeRemaining(target, now) == "0m"
  {
    var c := CountdownOf(target - now);
    assert c.days == 0 && c.hours == 0 && c.minutes == 0;
  }

  // ---------------------------------------------------------------------
  // Contest status

  predicate IsPast(c: Contest, now: int) {
    now > c.endTime
  }

  /** Ended, and within the last seven days. */
  predicate IsRecentPast(c: Contest, now: int) {
    var oneWeekAgo := now - WeekMs;
    c.endTime < now && c.endTime > oneWeekAgo
  }

  predicate IsUpcoming(c: Contest, now: int) {
    now < c.startTime
  }

  /** Started and not yet ended; both boundary instants count. */
  predicate IsOngoing(c: Contest, now: int) {
    now >= c.startTime && now <= c.endTime
  }

  /** For a well-formed time window, exactly one status holds at every instant. */
  lemma ExactlyOneStatus(c: Contest, now: int)
    requires c.startTime <= c.endTime
    ensures IsPast(c, now) || IsOngoing(c, now) || IsUpcoming(c, now)
    ensures !(IsPast(c, now) && IsOngoing(c, now))
    ensures !(IsPast(c, now) && IsUpcoming(c, now))
    ensures !(IsOngoing(c, now) && IsUpcoming(c, now))
    ensures now == c.startTime || now == c.endTime ==> IsOngoing(c, now)
  {
  }

  lemma RecentPastIsPast(c: Contest, now: int)
    ensures IsRecentPast(c, now) ==> IsPast(c, now)
    ensures IsRecentPast(c, now) <==> now - WeekMs < c.endTime < now
  {
  }

  // ---------------------------------------------------------------------
  // filterContests

  /** Whether `filterContests` keeps one contest: the predicate passed to `Array.prototype.filter`. */
  predicate Kept(c: Contest, filters: ContestFilters, now: int) {
    if !Enabled(filters.platforms, c.platform) then false
    else if IsPast(c, now) && !IsRecentPast(c, now) then false
    else if IsPast(c, now) && !filters.showPast then false
    else if IsUpcoming(c, now) && !filters.showUpcoming then false
    else true
  }

  /**
   * Under the default settings only contests that ended a week or more ago
   * (endTime <= now - 7 days) are dropped: a contest that ended exactly a
   * week ago is past but no longer recent-past.
   */
  lemma KeptByDefault(c: Contest, now: int)
    ensures Kept(c, DefaultFilters, now) <==> !IsPast(c, now) || IsRecentPast(c, now)
    ensures Kept(c, DefaultFilters, now) <==> c.endTime > now - WeekMs
  {
  }

  /**
   * The contests the filter settings let through, in their original order:
   * each kept one is on an enabled platform, did not end a week or more ago,
   * and is neither past with past contests hidden nor upcoming with upcoming
   * ones hidden; an ongoing contest on an enabled platform is always kept.
   */
  function FilterContests(contests: seq<Contest>, filters: ContestFilters, now: int): (r: seq<Contest>)
    ensures IsSubseq(r, contests)
    ensures forall c :: c in r ==>
      && c in contests
      && Enabled(filters.platforms, c.platform)
      && (IsPast(c, now) ==> IsRecentPast(c, now))
      && (!filters.showPast ==> !IsPast(c, now))
      && (!filters.showUpcoming ==> !IsUpcoming(c, now))
    ensures forall c :: c in contests && Enabled(filters.platforms, c.platform) && IsOngoing(c, now) ==> c in r
    ensures forall c :: c in contests && Kept(c, filters, now) ==> multiset(r)[c] == multiset(contests)[c]
  {
    Filter(contests, c => Kept(c, filters, now))
  }

  lemma FilterContestsIdempotent(contests: seq<Contest>, filters: ContestFilters, now: int)
    ensures FilterContests(FilterContests(contests, filters, now), filters, now)
         == FilterContests(contests, filters, now)
  {
    FilterIdempotent(contests, c => Kept(c, filters, now));
  }

  // ---------------------------------------------------------------------
  // getPlatformColor, getPlatformIcon

  const DefaultColor := "from-gray-500 to-gray-600"
  const DefaultIcon := "\U{1F50D}"

  /** The gradient classes of a platform's badge; gray for a string naming no platform. */
  function PlatformColor(platform: string): (r: string)
    ensures r == DefaultColor <==> ParsePlatform(platform).None?
  {
    if platform == "codeforces" then "from-blue-500 to-indigo-600"
    else if platform == "codechef" then "from-green-500 to-emerald-600"
    else if platform == "leetcode" then "from-yellow-500 to-amber-600"
    else DefaultColor
  }

  /** The icon of a platform's badge; a magnifying glass for a string naming no platform. */
  function PlatformIcon(platform: string): (r: string)
    ensures r == DefaultIcon <==> ParsePlatform(platform).None?
  {
    if platform == "codeforces" then "\U{1F3C6}"
    else if platform == "codechef" then "\U{1F468}\U{200D}\U{1F373}"
    else if platform == "leetcode" then "\U{1F4BB}"
    else DefaultIcon
  }

  /** Distinct platforms get distinct colours and distinct icons. */
  lemma PlatformBadgesDistinct(p: Platform, q: Platform)
    requires p != q
    ensures PlatformColor(PlatformName(p)) != PlatformColor(PlatformName(q))
    ensures PlatformIcon(PlatformName(p)) != PlatformIcon(PlatformName(q))
  {
  }
}
