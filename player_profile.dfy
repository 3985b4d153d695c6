/** The public Player Profiles page: a card per player, narrowed by a search box. */
module PlayerProfiles {
  import opened Seqs
  import opened Text
  import opened Search

  datatype Player = Player(playerId: int, name: string, playerRole: string)

  function PlayerName(p: Player): string
  {
    p.name
  }

  /** `filteredPlayers`: the players whose name contains the query, ignoring
      case, as a subsequence of the fetched list. */
  function FilteredPlayers(players: seq<Player>, searchQuery: string): (r: seq<Player>)
    ensures forall p :: p in r <==> p in players && IncludesIgnoringCase(p.name, searchQuery)
    ensures IsSubsequence(r, players)
    ensures forall p :: multiset(r)[p] == if IncludesIgnoringCase(p.name, searchQuery) then multiset(players)[p] else 0
    ensures |r| <= |players|
  {
    SearchFilter(players, PlayerName, searchQuery)
  }

  /** An empty query shows every player. */
  lemma EmptyQueryShowsAll(players: seq<Player>)
    ensures FilteredPlayers(players, "") == players
  {
    EmptyTermKeepsAll(players, PlayerName);
  }

  /** The grid: "No players found." or the cards of the kept players. */
  datatype ProfileGrid = NoPlayersFound | Cards(players: seq<Player>)

  function Grid(players: seq<Player>, searchQuery: string): (g: ProfileGrid)
    ensures g.NoPlayersFound? <==> forall p :: p in players ==> !IncludesIgnoringCase(p.name, searchQuery)
    ensures g.Cards? ==> g.players == FilteredPlayers(players, searchQuery) && g.players != []
  {
    var shown := FilteredPlayers(players, searchQuery);
    if |shown| > 0 then
      assert shown[0] in shown;
      Cards(shown)
    else
      assert forall p :: p in players ==> p !in shown;
      NoPlayersFound
  }

  /** With an empty query the message appears only when there are no players at all. */
  lemma EmptyQueryMessageOnlyWhenNoPlayers(players: seq<Player>)
    ensures Grid(players, "").NoPlayersFound? <==> players == []
  {
    EmptyQueryShowsAll(players);
  }
}
