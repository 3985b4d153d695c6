/** The public Tournaments page: one accordion panel per tournament, at most
    one of them open, and a View Matches button that loads the matches of the
    selected tournament into the open panel. */
module TournamentAccordion {
  import opened Common

  /** A tournament as listed. The panel's match table is keyed on `id`, the
      match fetch on `tid`. */
  datatype Tournament = Tournament(id: Option<int>, tid: Option<int>, tournamentName: string, status: string)

  datatype Match = Match(team1: string, team2: string, matchDate: string, status: string, stadium: string, matchType: string)

  class TournamentsPage {
    var expanded: Option<nat>
    var selectedTournament: Option<Tournament>
    var showMatches: bool
    var tournaments: seq<Tournament>
    var matches: seq<Match>
    var loading: bool

    constructor ()
      ensures expanded.None? && selectedTournament.None? && !showMatches
      ensures tournaments == [] && matches == [] && !loading
    {
      expanded := None;
      selectedTournament := None;
      showMatches := false;
      tournaments := [];
      matches := [];
      loading := false;
    }

    /** Panel `panel` is open. */
    predicate PanelExpanded(panel: nat)
      reads this
    {
      expanded == Some(panel)
    }

    /** The match table shows under a tournament's panel only while matches
        are shown and the selection has that tournament's `id`. */
    predicate ShowsMatchesUnder(t: Tournament)
      reads this
    {
      showMatches && selectedTournament.Some? && selectedTournament.value.id == t.id
    }

    /** The fetched tournaments, None for a failed request. */
    method ReceiveTournaments(reply: Option<seq<Tournament>>)
      modifies this
      ensures tournaments == if reply.Some? then reply.value else old(tournaments)
      ensures expanded == old(expanded) && selectedTournament == old(selectedTournament)
      ensures showMatches == old(showMatches) && matches == old(matches) && loading == old(loading)
    {
      if reply.Some? {
        tournaments := reply.value;
      }
    }

    /** `handleChange(panel, tournament)` called with `isExpanded`. Opening a
        panel selects its tournament, hides and clears the matches; closing it
        clears the selection and leaves the matches alone. */
    method HandleChange(panel: nat, t: Tournament, isExpanded: bool)
      modifies this
      ensures expanded == if isExpanded then Some(panel) else None
      ensures isExpanded ==> selectedTournament == Some(t) && !showMatches && matches == []
      ensures !isExpanded ==> selectedTournament.None? && showMatches == old(showMatches) && matches == old(matches)
      ensures tournaments == old(tournaments) && loading == old(loading)
      ensures forall u :: !ShowsMatchesUnder(u)
    {
      if isExpanded {
        expanded := Some(panel);
        selectedTournament := Some(t);
        showMatches := false;
        matches := [];
      } else {
        expanded := None;
        selectedTournament := None;
      }
    }

    /** `handleViewMatches` up to its request: only a selected tournament with
        a truthy `tid` starts a fetch, and only then does loading begin. */
    method BeginViewMatches() returns (request: Option<int>)
      modifies this
      ensures request.Some? <==> selectedTournament.Some? && TruthyId(selectedTournament.value.tid)
      ensures request.Some? ==> request == selectedTournament.value.tid && loading
      ensures request.None? ==> loading == old(loading)
      ensures expanded == old(expanded) && selectedTournament == old(selectedTournament)
      ensures showMatches == old(showMatches) && tournaments == old(tournaments) && matches == old(matches)
    {
      if selectedTournament.Some? && TruthyId(selectedTournament.value.tid) {
        loading := true;
        request := selectedTournament.value.tid;
      } else {
        request := None;
      }
    }

    /** The reply to the matches fetch. A resolved request shows its matches
        (none for an empty body); a failed one leaves them; loading ends either way. */
    method FinishViewMatches(reply: Response<seq<Match>>)
      modifies this
      ensures !loading
      ensures !reply.Failed? ==> matches == BodyOr(reply, []) && showMatches
      ensures reply.Failed? ==> matches == old(matches) && showMatches == old(showMatches)
      ensures expanded == old(expanded) && selectedTournament == old(selectedTournament)
      ensures tournaments == old(tournaments)
    {
      if !reply.Failed? {
        matches := BodyOr(reply, []);
        showMatches := true;
      }
      loading := false;
    }
  }

  /** At most one panel is open at a time. This follows from the state
      itself: `expanded` is a single optional index, not a set of panels. */
  lemma AtMostOnePanel(page: TournamentsPage, i: nat, j: nat)
    requires page.PanelExpanded(i) && page.PanelExpanded(j)
    ensures i == j
  {
  }

  /** Opening a panel and viewing its matches shows them under every
      tournament that shares the opened one's `id`, and nowhere else. */
  method OpenAndView(page: TournamentsPage, panel: nat, t: Tournament, reply: Response<seq<Match>>)
    requires TruthyId(t.tid) && !reply.Failed?
    modifies page
    ensures page.PanelExpanded(panel)
    ensures page.matches == BodyOr(reply, []) && !page.loading
    ensures forall u :: page.ShowsMatchesUnder(u) <==> u.id == t.id
  {
    page.HandleChange(panel, t, true);
    var request := page.BeginViewMatches();
    assert request == t.tid;
    page.FinishViewMatches(reply);
  }
}
