/** The coach's Manage Team page: create a team, pick one of the coach's
    teams, and add players from a searchable picker under a roster limit. */
module ManageTeams {
  import opened Common
  import opened Seqs
  import opened Text
  import opened Search

  datatype Player = Player(pid: int, name: string, overseas: bool, playerRole: string)

  /** A roster entry of the selected team, as `addPlayerTeam` receives it and
      `playerTeams/team` returns it. */
  datatype TeamPlayer = TeamPlayer(
    pid: int, teamId: int, overseas: bool, playerRole: string,
    runsScored: int, balls: int, wickets: int, overs: int, runsGiven: int)

  datatype Team = Team(teamId: int, teamName: string, coachId: Option<int>)

  /** A team holds at most this many players. */
  const MaxPlayers := 15

  /** What `handleAddPlayer` does: one of the three alerts, or the request it sends. */
  datatype AddOutcome = NoTeamSelected | TeamFull | AlreadyInTeam | Sent(request: seq<TeamPlayer>)

  function AddPlayerOutcome(selectedTeam: Option<Team>, selectedPlayers: seq<TeamPlayer>, player: Player): (o: AddOutcome)
    ensures o.NoTeamSelected? <==> selectedTeam.None?
    ensures o.TeamFull? <==> selectedTeam.Some? && |selectedPlayers| >= MaxPlayers
    ensures o.AlreadyInTeam? <==>
              (selectedTeam.Some? && |selectedPlayers| < MaxPlayers && exists p :: p in selectedPlayers && p.pid == player.pid)
    ensures o.Sent? ==>
              (|o.request| == 1
               && o.request[0].pid == player.pid && o.request[0].teamId == selectedTeam.value.teamId
               && o.request[0].overseas == player.overseas && o.request[0].playerRole == player.playerRole
               && o.request[0].runsScored == 0 && o.request[0].balls == 0 && o.request[0].wickets == 0
               && o.request[0].overs == 0 && o.request[0].runsGiven == 0)
  {
    if selectedTeam.None? then NoTeamSelected
    else if |selectedPlayers| >= MaxPlayers then TeamFull
    else match Find(selectedPlayers, (p: TeamPlayer) => p.pid == player.pid)
      case Some(_) => AlreadyInTeam
      case None =>
        Sent([TeamPlayer(player.pid, selectedTeam.value.teamId, player.overseas, player.playerRole, 0, 0, 0, 0, 0)])
  }

  /** A request is sent only for a selected team below the limit and a player
      not on its roster, and then for exactly that player. */
  lemma AddSentOnlyWhenAdmissible(selectedTeam: Option<Team>, selectedPlayers: seq<TeamPlayer>, player: Player)
    ensures AddPlayerOutcome(selectedTeam, selectedPlayers, player).Sent? <==>
              (selectedTeam.Some? && |selectedPlayers| < MaxPlayers
               && forall p :: p in selectedPlayers ==> p.pid != player.pid)
  {
  }

  /** `teams.filter(team => team.coachId === coachId)`. */
  function CoachTeams(teams: seq<Team>, coachId: Option<int>): (r: seq<Team>)
    ensures forall t :: t in r <==> t in teams && t.coachId == coachId
    ensures IsSubsequence(r, teams)
    ensures forall t :: multiset(r)[t] == if t.coachId == coachId then multiset(teams)[t] else 0
  {
    Filter(teams, (t: Team) => t.coachId == coachId)
  }

  function PlayerName(p: Player): string
  {
    p.name
  }

  /** `filteredPlayers` in the picker: the players whose name contains the term, ignoring case. */
  function FilteredPlayers(allPlayers: seq<Player>, searchTerm: string): (r: seq<Player>)
    ensures forall p :: p in r <==> p in allPlayers && IncludesIgnoringCase(p.name, searchTerm)
    ensures IsSubsequence(r, allPlayers)
    ensures forall p :: multiset(r)[p] == if IncludesIgnoringCase(p.name, searchTerm) then multiset(allPlayers)[p] else 0
  {
    SearchFilter(allPlayers, PlayerName, searchTerm)
  }

  /** `t => t.teamId === parseInt(value)`; a value that does not parse (NaN) equals no id. */
  function HasTeamId(parsed: Option<int>): Team -> bool
  {
    (t: Team) => parsed.Some? && t.teamId == parsed.value
  }

  /** The request `handleSaveTeam` sends. */
  datatype NewTeam = NewTeam(teamName: string, coachId: Option<int>)

  /** The alert `handleSaveTeam` raises. */
  datatype SaveAlert = EnterTeamName | TeamCreated | NameTaken | SaveFailed

  class ManageTeam {
    const coachId: Option<int>
    var teamName: string
    var selectedPlayers: seq<TeamPlayer>
    var allPlayers: seq<Player>
    var searchTerm: string
    var teams: seq<Team>
    var selectedTeam: Option<Team>

    constructor (coachId: Option<int>)
      ensures this.coachId == coachId
      ensures teamName == "" && selectedPlayers == [] && allPlayers == [] && searchTerm == ""
      ensures teams == [] && selectedTeam.None?
    {
      this.coachId := coachId;
      teamName := "";
      selectedPlayers := [];
      allPlayers := [];
      searchTerm := "";
      teams := [];
      selectedTeam := None;
    }

    /** `fetchPlayers`: the body, or [] when it is empty or the request failed. */
    method ReceivePlayers(reply: Response<seq<Player>>)
      modifies this
      ensures allPlayers == BodyOr(reply, [])
      ensures teamName == old(teamName) && selectedPlayers == old(selectedPlayers) && searchTerm == old(searchTerm)
      ensures teams == old(teams) && selectedTeam == old(selectedTeam)
    {
      allPlayers := BodyOr(reply, []);
    }

    /** `fetchTeams`: the coach's teams from the body. An empty body makes the
        filter throw, which is caught like a failed request: both give []. */
    method ReceiveTeams(reply: Response<seq<Team>>)
      modifies this
      ensures teams == if reply.Body? then CoachTeams(reply.data, coachId) else []
      ensures teamName == old(teamName) && selectedPlayers == old(selectedPlayers) && searchTerm == old(searchTerm)
      ensures allPlayers == old(allPlayers) && selectedTeam == old(selectedTeam)
    {
      teams := if reply.Body? then CoachTeams(reply.data, coachId) else [];
    }

    /** `fetchTeamPlayers`: the roster of the selected team. */
    method ReceiveTeamPlayers(reply: Response<seq<TeamPlayer>>)
      modifies this
      ensures selectedPlayers == BodyOr(reply, [])
      ensures teamName == old(teamName) && allPlayers == old(allPlayers) && searchTerm == old(searchTerm)
      ensures teams == old(teams) && selectedTeam == old(selectedTeam)
    {
      selectedPlayers := BodyOr(reply, []);
    }

    method ChangeTeamName(name: string)
      modifies this
      ensures teamName == name
      ensures selectedPlayers == old(selectedPlayers) && allPlayers == old(allPlayers) && searchTerm == old(searchTerm)
      ensures teams == old(teams) && selectedTeam == old(selectedTeam)
    {
      teamName := name;
    }

    method ChangeSearch(term: string)
      modifies this
      ensures searchTerm == term
      ensures teamName == old(teamName) && selectedPlayers == old(selectedPlayers) && allPlayers == old(allPlayers)
      ensures teams == old(teams) && selectedTeam == old(selectedTeam)
    {
      searchTerm := term;
    }

    /** `handleSaveTeam`, with `reply` the answer to the create request. An
        empty name sends nothing; a body (the created team) clears the name
        and refetches the team list. */
    method SaveTeam(reply: Response<Team>) returns (request: Option<NewTeam>, alert: SaveAlert, refetchTeams: bool)
      modifies this
      ensures old(teamName) == "" ==> request.None? && alert == EnterTeamName && teamName == old(teamName)
      ensures old(teamName) != "" ==> request == Some(NewTeam(old(teamName), coachId))
      ensures old(teamName) != "" ==>
                (alert == (match reply case Body(_) => TeamCreated case Empty => NameTaken case Failed => SaveFailed))
      ensures teamName == if old(teamName) != "" && reply.Body? then "" else old(teamName)
      ensures refetchTeams <==> request.Some? && reply.Body?
      ensures selectedPlayers == old(selectedPlayers) && allPlayers == old(allPlayers) && searchTerm == old(searchTerm)
      ensures teams == old(teams) && selectedTeam == old(selectedTeam)
    {
      if teamName == "" {
        return None, EnterTeamName, false;
      }
      request := Some(NewTeam(teamName, coachId));
      refetchTeams := reply.Body?;
      match reply
      case Body(_) =>
        alert := TeamCreated;
        teamName := "";
      case Empty =>
        alert := NameTaken;
      case Failed =>
        alert := SaveFailed;
    }

    /** `handleAddPlayer`, with `ok` telling whether the add request succeeded:
        changes nothing itself. A successful add refetches the selected team's
        roster; a failed one raises the failure alert. */
    method AddPlayer(player: Player, ok: bool) returns (o: AddOutcome, refetch: Option<int>, failed: bool)
      ensures o == AddPlayerOutcome(selectedTeam, selectedPlayers, player)
      ensures o.Sent? ==> player.pid !in (set p | p in selectedPlayers :: p.pid)
      ensures refetch.Some? <==> o.Sent? && ok
      ensures refetch.Some? ==> selectedTeam.Some? && refetch.value == selectedTeam.value.teamId
      ensures failed <==> o.Sent? && !ok
    {
      o := AddPlayerOutcome(selectedTeam, selectedPlayers, player);
      refetch := if o.Sent? && ok then Some(selectedTeam.value.teamId) else None;
      failed := o.Sent? && !ok;
    }

    /** `handleRemovePlayer`, with `ok` telling whether the delete succeeded:
        the delete names the player's pid, and the roster of the selected team
        is refetched afterwards. Without a selected team the refetch throws,
        which raises the same failure alert as a failed delete. */
    method RemovePlayer(player: Player, ok: bool) returns (request: int, refetch: Option<int>, failed: bool)
      ensures request == player.pid
      ensures refetch.Some? <==> ok && selectedTeam.Some?
      ensures refetch.Some? ==> refetch.value == selectedTeam.value.teamId
      ensures failed <==> refetch.None?
    {
      request := player.pid;
      if ok && selectedTeam.Some? {
        refetch := Some(selectedTeam.value.teamId);
      } else {
        refetch := None;
      }
      failed := refetch.None?;
    }

    /** `handleTeamSelect` with the parsed option value: the first coach team
        with that id, or none; the roster is fetched only for a found team. */
    method TeamSelect(parsed: Option<int>) returns (fetch: Option<int>)
      modifies this
      ensures selectedTeam == Find(teams, HasTeamId(parsed))
      ensures selectedTeam.Some? ==> selectedTeam.value in teams && Some(selectedTeam.value.teamId) == parsed
      ensures selectedTeam.None? ==> forall t :: t in teams ==> Some(t.teamId) != parsed
      ensures fetch == if selectedTeam.Some? then Some(selectedTeam.value.teamId) else None
      ensures teamName == old(teamName) && selectedPlayers == old(selectedPlayers) && allPlayers == old(allPlayers)
      ensures searchTerm == old(searchTerm) && teams == old(teams)
    {
      selectedTeam := Find(teams, HasTeamId(parsed));
      fetch := if selectedTeam.Some? then Some(selectedTeam.value.teamId) else None;
    }

    /** The players the picker lists. */
    function PickerPlayers(): (r: seq<Player>)
      reads this
      ensures forall p :: p in r <==> p in allPlayers && IncludesIgnoringCase(p.name, searchTerm)
      ensures IsSubsequence(r, allPlayers)
    {
      FilteredPlayers(allPlayers, searchTerm)
    }
  }
}
