/** The public Matches page: three status tabs, a bucket of matches per
    status filled by the fetch for the selected tab, and a search box over
    "team1 vs team2". */
module Matches {
  import opened Common
  import opened Seqs
  import opened Text
  import opened Search

  datatype MatchStatus = Live | Upcoming | Completed

  datatype Match = Match(mid: int, team1: string, team2: string, matchDate: string, stadium: string)

  /** What a status bucket holds: the array the server sent, or some other JSON value. */
  datatype MatchList = List(matches: seq<Match>) | NonArray

  /** The text a match row shows and the search runs over. */
  function MatchText(m: Match): string
  {
    m.team1 + " vs " + m.team2
  }

  /** `filteredMatches`: nothing for a bucket that is not an array; otherwise
      the matches whose text contains the search term, ignoring case, in order. */
  function FilteredMatches(list: MatchList, searchTerm: string): (r: seq<Match>)
    ensures list.NonArray? ==> r == []
    ensures list.List? ==> forall m :: m in r <==> m in list.matches && IncludesIgnoringCase(MatchText(m), searchTerm)
    ensures list.List? ==> IsSubsequence(r, list.matches)
    ensures list.List? ==>
              forall m :: multiset(r)[m] == (if IncludesIgnoringCase(MatchText(m), searchTerm) then multiset(list.matches)[m] else 0)
  {
    match list
    case NonArray => []
    case List(ms) => SearchFilter(ms, MatchText, searchTerm)
  }

  /** An empty search box shows the whole bucket. */
  lemma EmptySearchShowsAll(ms: seq<Match>)
    ensures FilteredMatches(List(ms), "") == ms
  {
    EmptyTermKeepsAll(ms, MatchText);
  }

  /** Searching for a match's first team always keeps that match. */
  lemma SearchByFirstTeamKeeps(ms: seq<Match>, m: Match)
    requires m in ms
    ensures m in FilteredMatches(List(ms), m.team1)
  {
    assert MatchText(m) == m.team1 + (" vs " + m.team2);
    PrefixIncludedIgnoringCase(m.team1, " vs " + m.team2);
  }

  /** The tab labels in order, the same list the fetch indexes and the tables enumerate. */
  const StatusTabs: seq<MatchStatus> := [Live, Upcoming, Completed]

  /** `statusMap[tabValue]`: the status fetched for a tab, None past the three tabs. */
  function StatusOfTab(tab: int): (s: Option<MatchStatus>)
    ensures s == Some(Live) <==> tab == 0
    ensures s == Some(Upcoming) <==> tab == 1
    ensures s == Some(Completed) <==> tab == 2
    ensures s.None? <==> tab < 0 || tab > 2
  {
    if 0 <= tab < |StatusTabs| then Some(StatusTabs[tab]) else None
  }

  /** The index of a status among the tables, the `index` the table compares with `tabValue`. */
  function TabIndex(s: MatchStatus): (i: nat)
    ensures i < |StatusTabs| && StatusTabs[i] == s
  {
    match s
    case Live => 0
    case Upcoming => 1
    case Completed => 2
  }

  /** The bucket fetched for a tab is the bucket whose table that tab shows. */
  lemma FetchedBucketIsShown(tab: int, s: MatchStatus)
    ensures StatusOfTab(tab) == Some(s) <==> TabIndex(s) == tab
  {
  }

  /** One table row: its text, whether clicking it opens the result dialog,
      and whether it has the Live button. */
  datatype MatchRow = MatchRow(text: string, detailsClick: bool, liveButton: bool)

  function RowOf(status: MatchStatus, m: Match): (row: MatchRow)
    ensures row.text == MatchText(m)
    ensures row.detailsClick <==> status == Completed
    ensures row.liveButton <==> status == Live
  {
    MatchRow(MatchText(m), status == Completed, status == Live)
  }

  /** No row offers both the result dialog and the Live button. */
  lemma RowActionsExclusive(status: MatchStatus, m: Match)
    ensures !(RowOf(status, m).detailsClick && RowOf(status, m).liveButton)
  {
  }

  const InitialBuckets: map<MatchStatus, MatchList> := map[Live := List([]), Upcoming := List([]), Completed := List([])]

  /** The page: selected tab, search term and `matchesData`, one bucket per status. */
  class MatchesPage {
    var tabValue: int
    var searchTerm: string
    var buckets: map<MatchStatus, MatchList>

    predicate Valid()
      reads this
    {
      Live in buckets && Upcoming in buckets && Completed in buckets
    }

    /** The page opens on the LIVE tab with empty buckets; its first fetch is for LIVE. */
    constructor ()
      ensures Valid()
      ensures tabValue == 0 && searchTerm == "" && buckets == InitialBuckets
      ensures StatusOfTab(tabValue) == Some(Live)
    {
      tabValue := 0;
      searchTerm := "";
      buckets := InitialBuckets;
    }

    /** `handleChange` on the tabs; the effect then fetches `fetch`. */
    method ChangeTab(newValue: int) returns (fetch: Option<MatchStatus>)
      modifies this
      ensures tabValue == newValue && fetch == StatusOfTab(newValue)
      ensures searchTerm == old(searchTerm) && buckets == old(buckets)
    {
      tabValue := newValue;
      fetch := StatusOfTab(newValue);
    }

    method ChangeSearch(term: string)
      modifies this
      ensures searchTerm == term
      ensures tabValue == old(tabValue) && buckets == old(buckets)
    {
      searchTerm := term;
    }

    /** The reply to the fetch for `status`: a failure leaves every bucket as it
        was; otherwise only that bucket changes, to the body or to [] when the
        body is empty. */
    method ReceiveMatches(status: MatchStatus, reply: Response<MatchList>)
      requires Valid()
      modifies this
      ensures Valid()
      ensures reply.Failed? ==> buckets == old(buckets)
      ensures !reply.Failed? ==> buckets == old(buckets)[status := BodyOr(reply, List([]))]
      ensures forall s :: s != status ==> buckets[s] == old(buckets)[s]
      ensures tabValue == old(tabValue) && searchTerm == old(searchTerm)
    {
      if !reply.Failed? {
        buckets := buckets[status := BodyOr(reply, List([]))];
      }
    }

    /** The rows on screen: the table of the selected tab, over its filtered bucket. */
    function ShownRows(): (rows: Option<seq<MatchRow>>)
      requires Valid()
      reads this
      ensures rows.None? <==> tabValue < 0 || tabValue > 2
      ensures rows.Some? ==>
                var s := StatusTabs[tabValue];
                |rows.value| == |FilteredMatches(buckets[s], searchTerm)|
                && forall i :: 0 <= i < |rows.value| ==> rows.value[i] == RowOf(s, FilteredMatches(buckets[s], searchTerm)[i])
    {
      match StatusOfTab(tabValue)
      case None => None
      case Some(s) =>
        var ms := FilteredMatches(buckets[s], searchTerm);
        Some(seq(|ms|, i requires 0 <= i < |ms| => RowOf(s, ms[i])))
    }
  }

  // ---------------------------------------------------------------- scenario

  const TeamA := "Team A"
  const TeamB := "Team B"
  const TeamC := "Team C"
  const TeamD := "Team D"

  lemma LowerTeamA()
    ensures Lower(TeamA) == "team a"
  {
  }

  lemma LowerTeamC()
    ensures Lower(TeamC) == "team c"
  {
  }

  lemma LowerTeamD()
    ensures Lower(TeamD) == "team d"
  {
  }

  lemma LowerVs()
    ensures Lower(" vs ") == " vs "
  {
  }

  lemma LowerTeamCD()
    ensures Lower(TeamC + " vs " + TeamD) == "team c" + " vs " + "team d"
  {
    LowerThree(TeamC, " vs ", TeamD);
    LowerTeamC();
    LowerVs();
    LowerTeamD();
  }

  /** The only 'a' that could end an occurrence of "team a" in "team c vs
      team d" sits at index 12, and the six characters ending there start
      with 'v', not 't'. */
  lemma TeamANotInTeamCD(s: string, t: string)
    requires s == "team c" + " vs " + "team d" && t == "team a"
    ensures !Includes(s, t)
  {
    IncludesAt(s, t);
    forall i | 0 <= i <= |s| - |t|
      ensures !OccursAt(s, t, i)
    {
      assert s[i..i + 6][0] == s[i];
      assert s[i..i + 6][5] == s[i + 5];
    }
  }

  /** "team a" occurs nowhere in "team c vs team d". */
  lemma TeamCDHasNoTeamA()
    ensures !IncludesIgnoringCase(TeamC + " vs " + TeamD, TeamA)
  {
    LowerTeamCD();
    LowerTeamA();
    TeamANotInTeamCD(Lower(TeamC + " vs " + TeamD), Lower(TeamA));
  }

  /** The documented search: "Team A" keeps "Team A vs Team B" and hides "Team C vs Team D". */
  lemma SearchScenario(ab: Match, cd: Match, term: string)
    requires ab.team1 == TeamA && ab.team2 == TeamB
    requires cd.team1 == TeamC && cd.team2 == TeamD
    requires term == TeamA
    ensures FilteredMatches(List([ab, cd]), term) == [ab]
  {
    SearchByFirstTeamKeeps([ab, cd], ab);
    TeamCDHasNoTeamA();
    assert MatchText(cd) == TeamC + " vs " + TeamD;
    var keep := MatchesTerm(MatchText, term);
    assert keep(ab) && !keep(cd);
    assert Filter([cd], keep) == [] by {
      assert [cd][1..] == [];
    }
    assert [ab, cd][1..] == [cd];
  }
}
