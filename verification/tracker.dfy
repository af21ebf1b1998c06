/**
 * The contest tracker component: its state (the loaded contests, the list on
 * display, the bookmarked ids, the filter settings, the active tab and the
 * selected platform), the event handlers that update it, the effect that
 * recomputes the displayed list, and the two values it derives for the
 * menu and the empty list.
 */
module Tracker {
  import opened Optional
  import opened Seqs
  import opened Text
  import opened Types
  import opened ContestUtils

  // ---------------------------------------------------------------------
  // Bookmarks

  /**
   * The bookmark list after toggling `id`: an absent id is appended at the
   * end; a present one is removed everywhere it occurs, the other ids keeping
   * their order and their number of occurrences.
   */
  function ToggledBookmarks(bookmarks: seq<string>, id: string): (r: seq<string>)
    ensures id in r <==> id !in bookmarks
    ensures forall x :: x != id ==> (x in r <==> x in bookmarks)
    ensures id !in bookmarks ==> r == bookmarks + [id]
    ensures id in bookmarks ==> IsSubseq(r, bookmarks)
    ensures id in bookmarks ==> forall x :: x in bookmarks && x != id ==> multiset(r)[x] == multiset(bookmarks)[x]
  {
    if id in bookmarks then Filter(bookmarks, x => x != id) else bookmarks + [id]
  }

  /** Bookmarking an id and then removing it restores the list exactly. */
  lemma ToggleBookmarkTwice(bookmarks: seq<string>, id: string)
    requires id !in bookmarks
    ensures ToggledBookmarks(ToggledBookmarks(bookmarks, id), id) == bookmarks
  {
    var p := (x: string) => x != id;
    FilterAppend(bookmarks, [id], p);
    FilterAll(bookmarks, p);
    assert Filter([id], p) == [];
  }

  /** A list without duplicates stays without duplicates. */
  lemma ToggleBookmarkNoDup(bookmarks: seq<string>, id: string)
    requires NoDup(bookmarks)
    ensures NoDup(ToggledBookmarks(bookmarks, id))
  {
    if id in bookmarks {
      FilterNoDup(bookmarks, x => x != id);
    } else {
      var r := bookmarks + [id];
      forall i, j | 0 <= i < j < |r| ensures r[i] != r[j] {
        if j == |bookmarks| {
          assert r[i] == bookmarks[i];
        } else {
          assert r[i] == bookmarks[i] && r[j] == bookmarks[j];
        }
      }
    }
  }

  // ---------------------------------------------------------------------
  // Filter settings

  /** The settings with one platform's switch flipped. */
  function WithPlatformToggled(filters: ContestFilters, p: Platform): (r: ContestFilters)
    ensures Enabled(r.platforms, p) == !Enabled(filters.platforms, p)
    ensures forall q :: q != p ==> Enabled(r.platforms, q) == Enabled(filters.platforms, q)
    ensures r.showPast == filters.showPast && r.showUpcoming == filters.showUpcoming
  {
    var t := filters.platforms;
    match p
    case Codeforces => filters.(platforms := t.(codeforces := !t.codeforces))
    case CodeChef => filters.(platforms := t.(codechef := !t.codechef))
    case LeetCode => filters.(platforms := t.(leetcode := !t.leetcode))
  }

  lemma TogglePlatformTwice(filters: ContestFilters, p: Platform)
    ensures WithPlatformToggled(WithPlatformToggled(filters, p), p) == filters
  {
  }

  // ---------------------------------------------------------------------
  // Tabs

  /** Whether a contest belongs to the tab `tab` (`None` is the tab reset to null). */
  predicate InTab(c: Contest, tab: Option<string>, bookmarks: seq<string>, now: int) {
    if tab == Some("bookmarked") then c.id in bookmarks
    else if tab == Some("ongoing") then IsOngoing(c, now)
    else if tab == Some("upcoming") then IsUpcoming(c, now)
    else if tab == Some("past") then IsPast(c, now)
    else true
  }

  /** The contests of `s` that belong to the active tab, in order. */
  function TabRefine(s: seq<Contest>, tab: Option<string>, bookmarks: seq<string>, now: int): (r: seq<Contest>)
    ensures IsSubseq(r, s)
    ensures forall c :: c in r ==> c in s && InTab(c, tab, bookmarks, now)
    ensures forall c :: c in s && InTab(c, tab, bookmarks, now) ==> c in r
    ensures forall c :: c in s && InTab(c, tab, bookmarks, now) ==> multiset(r)[c] == multiset(s)[c]
  {
    SubseqRefl(s);
    if tab == Some("bookmarked") then Filter(s, (c: Contest) => c.id in bookmarks)
    else if tab == Some("ongoing") then Filter(s, (c: Contest) => IsOngoing(c, now))
    else if tab == Some("upcoming") then Filter(s, (c: Contest) => IsUpcoming(c, now))
    else if tab == Some("past") then Filter(s, (c: Contest) => IsPast(c, now))
    else s
  }

  /** The contests of `s` on the platform named `selected`, in order. */
  function OnPlatform(s: seq<Contest>, selected: string): seq<Contest> {
    Filter(s, (c: Contest) => PlatformName(c.platform) == selected)
  }

  /** The displayed list the effect computes from the tracker's state. */
  function FilteredView(contests: seq<Contest>, filters: ContestFilters, bookmarks: seq<string>,
                        tab: Option<string>, selected: string, now: int): seq<Contest>
  {
    var filtered := TabRefine(FilterContests(contests, filters, now), tab, bookmarks, now);
    if selected != "all" then OnPlatform(filtered, selected) else filtered
  }

  /**
   * The displayed list is an ordered part of what the filter settings let
   * through; each tab keeps only its own contests, "all" and null keep
   * everything the settings let through, and a selected platform keeps only
   * that platform's contests. Nothing the settings, the tab and the platform
   * all admit is dropped.
   */
  lemma FilteredViewSpec(contests: seq<Contest>, filters: ContestFilters, bookmarks: seq<string>,
                         tab: Option<string>, selected: string, now: int)
    ensures var base := FilterContests(contests, filters, now);
      var r := FilteredView(contests, filters, bookmarks, tab, selected, now);
      && IsSubseq(r, base)
      && (tab == Some("ongoing") ==> forall c :: c in r ==> IsOngoing(c, now))
      && (tab == Some("upcoming") ==> forall c :: c in r ==> IsUpcoming(c, now))
      && (tab == Some("past") ==> forall c :: c in r ==> IsPast(c, now))
      && (tab == Some("bookmarked") ==> forall c :: c in r ==> c.id in bookmarks)
      && (selected != "all" ==> forall c :: c in r ==> PlatformName(c.platform) == selected)
      && ((tab == None || tab == Some("all")) && selected == "all" ==> r == base)
      && (forall c :: (c in base && InTab(c, tab, bookmarks, now)
                       && (selected == "all" || PlatformName(c.platform) == selected)) ==> c in r)
  {
    var base := FilterContests(contests, filters, now);
    var byTab := TabRefine(base, tab, bookmarks, now);
    var r := FilteredView(contests, filters, bookmarks, tab, selected, now);
    if selected != "all" {
      assert r == OnPlatform(byTab, selected);
      SubseqTrans(r, byTab, base);
      assert forall c :: c in r ==> c in byTab && PlatformName(c.platform) == selected;
    } else {
      assert r == byTab;
    }
    assert forall c :: c in r ==> InTab(c, tab, bookmarks, now);
  }

  // ---------------------------------------------------------------------
  // getAvailablePlatforms

  /** The three platforms in the order of their names. */
  const PlatformsByName: seq<Platform> := [CodeChef, Codeforces, LeetCode]

  predicate NameLess(p: Platform, q: Platform) {
    LexLess(PlatformName(p), PlatformName(q))
  }

  predicate SortedByName(ps: seq<Platform>) {
    forall i, j :: 0 <= i < j < |ps| ==> NameLess(ps[i], ps[j])
  }

  lemma NameOrder()
    ensures SortedByName(PlatformsByName)
    ensures forall p :: p in PlatformsByName
    ensures forall p, q :: NameLess(p, q) ==> !NameLess(q, p)
    ensures forall p, q :: p != q ==> NameLess(p, q) || NameLess(q, p)
  {
    forall p, q ensures NameLess(p, q) ==> !NameLess(q, p) {
      LexLessAsymmetric(PlatformName(p), PlatformName(q));
    }
    assert PlatformName(CodeChef) == "code" + "chef";
    assert PlatformName(Codeforces) == "code" + "forces";
    LexLessCommonPrefix("code", "chef", "forces");
    assert NameLess(CodeChef, Codeforces);
    assert NameLess(Codeforces, LeetCode);
    assert NameLess(CodeChef, LeetCode);
    assert PlatformsByName[0] == CodeChef && PlatformsByName[1] == Codeforces && PlatformsByName[2] == LeetCode;
    forall p ensures p in PlatformsByName {
      match p
      case CodeChef => assert PlatformsByName[0] == p;
      case Codeforces => assert PlatformsByName[1] == p;
      case LeetCode => assert PlatformsByName[2] == p;
    }
  }

  /** The platforms the contests `cs` are on. */
  function PlatformsOf(cs: seq<Contest>): set<Platform> {
    set c | c in cs :: c.platform
  }

  /**
   * The platform menu's entries: none before contests are loaded; otherwise
   * each platform of the contests belonging to the active tab, once, in the
   * order of their names. The filter settings play no part.
   */
  function AvailablePlatforms(contests: seq<Contest>, tab: Option<string>, bookmarks: seq<string>, now: int)
    : (r: seq<Platform>)
    ensures contests == [] ==> r == []
    ensures SortedByName(r) && NoDup(r)
    ensures contests != [] ==> forall p :: p in r <==> p in PlatformsOf(TabRefine(contests, tab, bookmarks, now))
  {
    if contests == [] then []
    else
      var relevant := TabRefine(contests, tab, bookmarks, now);
      var present := PlatformsOf(relevant);
      var r := Filter(PlatformsByName, p => p in present);
      NameOrder();
      SubseqOrdered(r, PlatformsByName, NameLess);
      SortedNoDup(r);
      r
  }

  /** A strictly name-sorted list names no platform twice. */
  lemma SortedNoDup(ps: seq<Platform>)
    requires SortedByName(ps)
    ensures NoDup(ps)
  {
    NameOrder();
  }

  /** A name-sorted list is its head followed by a name-sorted tail of later names. */
  lemma SortedByNameTail(a: seq<Platform>)
    requires SortedByName(a) && a != []
    ensures SortedByName(a[1..])
    ensures forall p :: p in a <==> p == a[0] || p in a[1..]
    ensures forall p :: p in a[1..] ==> NameLess(a[0], p)
  {
    assert a == [a[0]] + a[1..];
    forall p | p in a[1..] ensures NameLess(a[0], p) {
      var i :| 0 <= i < |a[1..]| && a[1..][i] == p;
      assert a[i + 1] == p;
    }
    forall i, j | 0 <= i < j < |a[1..]| ensures NameLess(a[1..][i], a[1..][j]) {
      assert a[1..][i] == a[i + 1] && a[1..][j] == a[j + 1];
    }
  }

  /** Two name-sorted platform lists with the same members are the same list. */
  lemma {:induction false} SortedByNameUnique(a: seq<Platform>, b: seq<Platform>)
    requires SortedByName(a) && SortedByName(b)
    requires forall p :: p in a <==> p in b
    ensures a == b
  {
    assert a != [] ==> a[0] in a;
    assert b != [] ==> b[0] in b;
    if a != [] && b != [] {
      SortedByNameTail(a);
      SortedByNameTail(b);
      SortedHeadsEqual(a, b);
      SortedByNameUnique(a[1..], b[1..]);
      assert a == [a[0]] + a[1..] && b == [b[0]] + b[1..];
    }
  }

  /** Two non-empty name-sorted lists with the same members share their head and their tail's members. */
  lemma SortedHeadsEqual(a: seq<Platform>, b: seq<Platform>)
    requires a != [] && b != []
    requires forall p :: p in a <==> p == a[0] || p in a[1..]
    requires forall p :: p in a[1..] ==> NameLess(a[0], p)
    requires forall p :: p in b <==> p == b[0] || p in b[1..]
    requires forall p :: p in b[1..] ==> NameLess(b[0], p)
    requires forall p :: p in a <==> p in b
    ensures a[0] == b[0]
    ensures forall p :: p in a[1..] <==> p in b[1..]
  {
    NameOrder();
    var a0, b0 := a[0], b[0];
    assert a0 != b0 ==> NameLess(b0, a0) && NameLess(a0, b0);
  }

  /** When the active tab holds contests of every platform, the menu lists all three. */
  lemma AvailablePlatformsEvery(contests: seq<Contest>, tab: Option<string>, bookmarks: seq<string>, now: int)
    requires forall p :: p in PlatformsOf(TabRefine(contests, tab, bookmarks, now))
    ensures AvailablePlatforms(contests, tab, bookmarks, now) == PlatformsByName
  {
    NameOrder();
    var r := AvailablePlatforms(contests, tab, bookmarks, now);
    assert CodeChef in PlatformsOf(TabRefine(contests, tab, bookmarks, now));
    assert contests != [];
    SortedByNameUnique(r, PlatformsByName);
  }

  /** When every contest of the active tab is on platform `p`, and there is one, the menu lists `p` alone. */
  lemma AvailablePlatformsOne(contests: seq<Contest>, tab: Option<string>, bookmarks: seq<string>, now: int, p: Platform)
    requires exists c :: c in TabRefine(contests, tab, bookmarks, now)
    requires forall c :: c in TabRefine(contests, tab, bookmarks, now) ==> c.platform == p
    ensures AvailablePlatforms(contests, tab, bookmarks, now) == [p]
  {
    var r := AvailablePlatforms(contests, tab, bookmarks, now);
    var c :| c in TabRefine(contests, tab, bookmarks, now);
    assert contests != [];
    SortedByNameUnique(r, [p]);
  }

  /** A list holding a contest of each platform names them all. */
  lemma EveryPlatformPresent(cs: seq<Contest>, i: nat, j: nat, k: nat)
    requires i < |cs| && j < |cs| && k < |cs|
    requires cs[i].platform == Codeforces && cs[j].platform == CodeChef && cs[k].platform == LeetCode
    ensures forall p :: p in PlatformsOf(cs)
  {
    forall p ensures p in PlatformsOf(cs) {
      var n := match p case Codeforces => i case CodeChef => j case LeetCode => k;
      assert cs[n] in cs;
    }
  }

  /** When exactly one contest is running, the "ongoing" tab's menu lists its platform alone. */
  lemma AvailablePlatformsOneRunning(cs: seq<Contest>, k: nat, bookmarks: seq<string>, now: int)
    requires k < |cs| && IsOngoing(cs[k], now)
    requires forall j :: 0 <= j < |cs| && j != k ==> !IsOngoing(cs[j], now)
    ensures AvailablePlatforms(cs, Some("ongoing"), bookmarks, now) == [cs[k].platform]
  {
    var running := TabRefine(cs, Some("ongoing"), bookmarks, now);
    assert InTab(cs[k], Some("ongoing"), bookmarks, now);
    assert cs[k] in running;
    forall c | c in running ensures c.platform == cs[k].platform {
      var i :| 0 <= i < |cs| && cs[i] == c;
    }
    AvailablePlatformsOne(cs, Some("ongoing"), bookmarks, now, cs[k].platform);
  }

  // ---------------------------------------------------------------------
  // getEmptyMessage

  /** The text shown in place of an empty contest list. */
  function EmptyMessage(emptyMessage: Option<string>, tab: Option<string>, selected: string): string {
    if emptyMessage.Some? && emptyMessage.value != "" then emptyMessage.value
    else
      var platformText := if selected != "all" then " for " + selected else "";
      if tab == Some("bookmarked") then
        "No Bookmarked Contests" + platformText + ". Add Contests to your Bookmarks to See them Here."
      else if tab == Some("ongoing") then "No Ongoing Contests" + platformText + " at the moment."
      else if tab == Some("upcoming") then "No Upcoming Contests" + platformText + " found."
      else if tab == Some("past") then "No Past Contests" + platformText + " found."
      else "No Contests Found" + platformText + " Matching Your Filters."
  }

  /** The part of a tab's default message before the platform text. */
  function MessageHead(tab: Option<string>): string {
    if tab == Some("bookmarked") then "No Bookmarked Contests"
    else if tab == Some("ongoing") then "No Ongoing Contests"
    else if tab == Some("upcoming") then "No Upcoming Contests"
    else if tab == Some("past") then "No Past Contests"
    else "No Contests Found"
  }

  /** The part of a tab's default message after the platform text. */
  function MessageTail(tab: Option<string>): string {
    if tab == Some("bookmarked") then ". Add Contests to your Bookmarks to See them Here."
    else if tab == Some("ongoing") then " at the moment."
    else if tab == Some("upcoming") || tab == Some("past") then " found."
    else " Matching Your Filters."
  }

  lemma EmptyMessageParts(tab: Option<string>, selected: string)
    ensures selected == "all" ==> EmptyMessage(None, tab, selected) == MessageHead(tab) + MessageTail(tab)
    ensures selected != "all" ==>
      EmptyMessage(None, tab, selected) == MessageHead(tab) + " for " + selected + MessageTail(tab)
  {
    var platformText := if selected != "all" then " for " + selected else "";
    assert EmptyMessage(None, tab, selected) == MessageHead(tab) + platformText + MessageTail(tab);
    assert selected == "all" ==> MessageHead(tab) + platformText == MessageHead(tab);
  }

  /** A non-empty caller-supplied message wins over the tab's message. */
  lemma EmptyMessageGiven(emptyMessage: string, tab: Option<string>, selected: string)
    requires emptyMessage != ""
    ensures EmptyMessage(Some(emptyMessage), tab, selected) == emptyMessage
  {
  }

  /**
   * With a platform selected, the message is the tab's message for "all"
   * with " for P" inserted at one place.
   */
  lemma EmptyMessageInsertsPlatform(tab: Option<string>, selected: string)
    requires selected != "all"
    ensures var base := EmptyMessage(None, tab, "all");
      exists k :: 0 <= k <= |base| && EmptyMessage(None, tab, selected) == base[..k] + " for " + selected + base[k..]
  {
    var head, tail := MessageHead(tab), MessageTail(tab);
    EmptyMessageParts(tab, "all");
    EmptyMessageParts(tab, selected);
    var base := EmptyMessage(None, tab, "all");
    assert base[..|head|] == head && base[|head|..] == tail;
  }

  /** The message names the selected platform: two platforms give two messages. */
  lemma EmptyMessageNamesPlatform(tab: Option<string>, selected: string, other: string)
    requires selected != "all" && other != "all" && selected != other
    ensures EmptyMessage(None, tab, selected) != EmptyMessage(None, tab, other)
  {
    var head, tail := MessageHead(tab), MessageTail(tab);
    EmptyMessageParts(tab, selected);
    EmptyMessageParts(tab, other);
    var m1 := EmptyMessage(None, tab, selected);
    var m2 := EmptyMessage(None, tab, other);
    if |selected| == |other| {
      var lo := |head| + 5;
      assert m1[lo..lo + |selected|] == selected;
      assert m2[lo..lo + |other|] == other;
    } else {
      assert |m1| != |m2|;
    }
  }

  // ---------------------------------------------------------------------
  // The component

  class ContestTracker {
    var contests: seq<Contest>
    var filteredContests: seq<Contest>
    var bookmarks: seq<string>
    var filters: ContestFilters
    var activeTab: Option<string>
    var selectedPlatform: string

    /** The component's initial state: nothing loaded, every filter on, tab and platform "all". */
    constructor ()
      ensures contests == [] && filteredContests == [] && bookmarks == []
      ensures filters == DefaultFilters
      ensures activeTab == Some("all") && selectedPlatform == "all"
    {
      contests := [];
      filteredContests := [];
      bookmarks := [];
      filters := DefaultFilters;
      activeTab := Some("all");
      selectedPlatform := "all";
    }

    /** The list a successful fetch stores. */
    method SetContests(loaded: seq<Contest>)
      modifies this
      ensures contests == loaded
      ensures filteredContests == old(filteredContests) && bookmarks == old(bookmarks)
      ensures filters == old(filters) && activeTab == old(activeTab) && selectedPlatform == old(selectedPlatform)
    {
      contests := loaded;
    }

    method ToggleBookmark(id: string)
      modifies this
      ensures bookmarks == ToggledBookmarks(old(bookmarks), id)
      ensures id in bookmarks <==> id !in old(bookmarks)
      ensures forall x :: x != id ==> (x in bookmarks <==> x in old(bookmarks))
      ensures contests == old(contests) && filteredContests == old(filteredContests)
      ensures filters == old(filters) && activeTab == old(activeTab) && selectedPlatform == old(selectedPlatform)
    {
      var newBookmarks := if id in bookmarks then Filter(bookmarks, x => x != id) else bookmarks + [id];
      bookmarks := newBookmarks;
    }

    method TogglePlatformFilter(p: Platform)
      modifies this
      ensures filters == WithPlatformToggled(old(filters), p)
      ensures Enabled(filters.platforms, p) == !Enabled(old(filters).platforms, p)
      ensures forall q :: q != p ==> Enabled(filters.platforms, q) == Enabled(old(filters).platforms, q)
      ensures filters.showPast == old(filters).showPast && filters.showUpcoming == old(filters).showUpcoming
      ensures contests == old(contests) && filteredContests == old(filteredContests) && bookmarks == old(bookmarks)
      ensures activeTab == old(activeTab) && selectedPlatform == old(selectedPlatform)
    {
      filters := WithPlatformToggled(filters, p);
    }

    method ToggleShowUpcoming()
      modifies this
      ensures filters == old(filters).(showUpcoming := !old(filters).showUpcoming)
      ensures contests == old(contests) && filteredContests == old(filteredContests) && bookmarks == old(bookmarks)
      ensures activeTab == old(activeTab) && selectedPlatform == old(selectedPlatform)
    {
      filters := filters.(showUpcoming := !filters.showUpcoming);
    }

    method ToggleShowPast()
      modifies this
      ensures filters == old(filters).(showPast := !old(filters).showPast)
      ensures contests == old(contests) && filteredContests == old(filteredContests) && bookmarks == old(bookmarks)
      ensures activeTab == old(activeTab) && selectedPlatform == old(selectedPlatform)
    {
      filters := filters.(showPast := !filters.showPast);
    }

    /** Every switch on and platform "all", whatever the settings were: resetting twice is resetting once. */
    method ResetFilters()
      modifies this
      ensures filters == DefaultFilters && selectedPlatform == "all"
      ensures forall p :: Enabled(filters.platforms, p)
      ensures filters.showPast && filters.showUpcoming
      ensures contests == old(contests) && filteredContests == old(filteredContests) && bookmarks == old(bookmarks)
      ensures activeTab == old(activeTab)
    {
      filters := ContestFilters(PlatformToggles(true, true, true), true, true);
      selectedPlatform := "all";
    }

    method SetActiveTab(tab: Option<string>)
      modifies this
      ensures activeTab == tab
      ensures contests == old(contests) && filteredContests == old(filteredContests) && bookmarks == old(bookmarks)
      ensures filters == old(filters) && selectedPlatform == old(selectedPlatform)
    {
      activeTab := tab;
    }

    method SetSelectedPlatform(platform: string)
      modifies this
      ensures selectedPlatform == platform
      ensures contests == old(contests) && filteredContests == old(filteredContests) && bookmarks == old(bookmarks)
      ensures filters == old(filters) && activeTab == old(activeTab)
    {
      selectedPlatform := platform;
    }

    /**
     * The effect that recomputes the displayed list: with contests loaded it
     * applies the filter settings, then the tab, then the selected platform;
     * with none loaded it leaves the displayed list as it was.
     */
    method ApplyFilters(now: int)
      modifies this
      ensures contests != [] ==>
        filteredContests == FilteredView(contests, filters, bookmarks, activeTab, selectedPlatform, now)
      ensures contests == [] ==> filteredContests == old(filteredContests)
      ensures contests == old(contests) && bookmarks == old(bookmarks) && filters == old(filters)
      ensures activeTab == old(activeTab) && selectedPlatform == old(selectedPlatform)
    {
      if |contests| > 0 {
        var filtered := FilterContests(contests, filters, now);
        filtered := TabRefine(filtered, activeTab, bookmarks, now);
        if selectedPlatform != "all" {
          filtered := OnPlatform(filtered, selectedPlatform);
        }
        filteredContests := filtered;
      }
    }
  }
}
