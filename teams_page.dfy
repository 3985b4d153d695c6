/** The public Teams page: a table of team statistics with a computed win
    percentage, a search box over team names, and a chart of the same teams. */
module Teams {
  import opened Seqs
  import opened Text
  import opened Search

  datatype Team = Team(
    teamId: int, teamName: string,
    matchesPlayed: int, matchesWon: int, matchesLost: int, matchesDrawn: int, matchesAbandoned: int,
    points: int, nrr: real)

  /** `calculateMatchesWonPercentage` before `toFixed(2)`: 0 unless at least
      one match was played, otherwise the share of matches won, in percent. */
  function WinPercentage(matchesWon: int, matchesPlayed: int): (p: real)
    ensures matchesPlayed <= 0 ==> p == 0.0
    ensures matchesPlayed > 0 ==> p * matchesPlayed as real == matchesWon as real * 100.0
  {
    if matchesPlayed > 0 then (matchesWon as real / matchesPlayed as real) * 100.0 else 0.0
  }

  /** A team that won no more matches than it played, and no fewer than none,
      has a win percentage between 0 and 100; 100 exactly when it won them all. */
  lemma WinPercentageBounds(matchesWon: int, matchesPlayed: int)
    requires 0 <= matchesWon <= matchesPlayed
    ensures 0.0 <= WinPercentage(matchesWon, matchesPlayed) <= 100.0
    ensures matchesPlayed > 0 ==> (WinPercentage(matchesWon, matchesPlayed) == 100.0 <==> matchesWon == matchesPlayed)
  {
    if matchesPlayed > 0 {
      var p := WinPercentage(matchesWon, matchesPlayed);
      var n := matchesPlayed as real;
      assert p * n == matchesWon as real * 100.0;
      if p == 100.0 {
        assert 100.0 * n == matchesWon as real * 100.0;
      }
    }
  }

  function TeamName(t: Team): string
  {
    t.teamName
  }

  /** `filteredTeams`: the teams whose name contains the search term, ignoring case, in order. */
  function FilteredTeams(teams: seq<Team>, searchTerm: string): (r: seq<Team>)
    ensures forall t :: t in r <==> t in teams && IncludesIgnoringCase(t.teamName, searchTerm)
    ensures IsSubsequence(r, teams)
    ensures forall t :: multiset(r)[t] == if IncludesIgnoringCase(t.teamName, searchTerm) then multiset(teams)[t] else 0
  {
    SearchFilter(teams, TeamName, searchTerm)
  }

  /** An empty search box shows every team. */
  lemma EmptySearchShowsAllTeams(teams: seq<Team>)
    ensures FilteredTeams(teams, "") == teams
  {
    EmptyTermKeepsAll(teams, TeamName);
  }

  datatype TeamRow = TeamRow(team: Team, winPercentage: real)

  /** The table body: the single "No teams found" row, or one row per team. */
  datatype TableBody = NoTeamsFound | Rows(rows: seq<TeamRow>)

  datatype TeamsView = TeamsView(table: TableBody, chart: seq<Team>)

  /** The page for a team list and a search term: table and chart. */
  function View(teams: seq<Team>, searchTerm: string): (v: TeamsView)
    ensures v.chart == FilteredTeams(teams, searchTerm)
    ensures v.table.NoTeamsFound? <==> v.chart == []
    ensures v.table.Rows? ==> |v.table.rows| == |v.chart|
    ensures v.table.Rows? ==> forall i :: 0 <= i < |v.chart| ==>
              v.table.rows[i].team == v.chart[i]
              && v.table.rows[i].winPercentage == WinPercentage(v.chart[i].matchesWon, v.chart[i].matchesPlayed)
  {
    var shown := FilteredTeams(teams, searchTerm);
    var table :=
      if |shown| > 0 then
        Rows(seq(|shown|, i requires 0 <= i < |shown| =>
               TeamRow(shown[i], WinPercentage(shown[i].matchesWon, shown[i].matchesPlayed))))
      else NoTeamsFound;
    TeamsView(table, shown)
  }

  /** Every team in the table is in the chart and the other way round: both
      show exactly the teams the search keeps. */
  lemma TableMatchesChart(teams: seq<Team>, searchTerm: string, t: Team)
    ensures var v := View(teams, searchTerm);
            (v.table.Rows? && exists i :: 0 <= i < |v.table.rows| && v.table.rows[i].team == t)
            <==> (t in teams && IncludesIgnoringCase(t.teamName, searchTerm))
  {
    var v := View(teams, searchTerm);
    if t in teams && IncludesIgnoringCase(t.teamName, searchTerm) {
      assert t in v.chart;
      var i :| 0 <= i < |v.chart| && v.chart[i] == t;
      assert v.table.rows[i].team == t;
    }
  }
}
