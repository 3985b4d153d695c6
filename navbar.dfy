/** The public site's navigation bar: one link per page caption, whose path is
    derived from the caption, and a mobile menu opened from an anchor element. */
module Navbar {
  import opened Common
  import opened Text

  const Matches := "MATCHES"
  const Teams := "TEAMS"
  const PlayerProfile := "Player Profile"
  const Tournaments := "Tournaments"

  /** The page labels, in menu order. */
  const Pages: seq<string> := [Matches, Teams, PlayerProfile, Tournaments]

  /** The paths the public router declares for the list pages, in declaration
      order (the live-match route takes a parameter and has no caption). */
  const PublicRoutes: seq<string> := ["/tournaments", "/matches", "/teams", "/playerprofile"]

  /** A caption's link: "/" and the lower-cased caption with its first space
      removed; any further space stays. */
  function PagePath(caption: string): (path: string)
    ensures |path| >= 1 && path[0] == '/'
  {
    "/" + RemoveFirst(Lower(caption), ' ')
  }

  /** Lowering keeps every space and makes none. */
  lemma {:induction false} LowerKeepsSpaces(s: string)
    ensures multiset(Lower(s))[' '] == multiset(s)[' ']
  {
    if s != [] {
      LowerKeepsSpaces(s[1..]);
      assert s == [s[0]] + s[1..];
      assert Lower(s) == [LowerChar(s[0])] + Lower(s[1..]);
      assert LowerChar(s[0]) == ' ' <==> s[0] == ' ';
    }
  }

  /** A caption with several spaces keeps all but the first in its path. */
  lemma OnlyFirstSpaceRemoved(caption: string)
    requires ' ' in caption
    ensures multiset(PagePath(caption))[' '] == multiset(caption)[' '] - 1
  {
    LowerKeepsSpaces(caption);
    var r := RemoveFirst(Lower(caption), ' ');
    assert ' ' in multiset(Lower(caption));
    assert PagePath(caption) == "/" + r;
    assert multiset(PagePath(caption)) == multiset{'/'} + multiset(r);
  }

  /** The first c in "a c b", where a has no c, is the one after a. */
  lemma {:induction false} IndexOfAfter(a: string, b: string, c: char)
    requires c !in a
    ensures c in a + [c] + b
    ensures IndexOf(a + [c] + b, c) == |a|
  {
    assert (a + [c] + b)[|a|] == c;
    if a != [] {
      assert (a + [c] + b)[1..] == a[1..] + [c] + b;
      IndexOfAfter(a[1..], b, c);
    }
  }

  /** Removing the first c from "a c b", where a has no c, gives "ab". */
  lemma RemoveFirstAfter(a: string, b: string, c: char)
    requires c !in a
    ensures RemoveFirst(a + [c] + b, c) == a + b
  {
    IndexOfAfter(a, b, c);
    var s := a + [c] + b;
    assert s[..|a|] == a;
    assert s[|a| + 1..] == b;
  }

  /** A caption that lowers to text without a space links to "/" and that text. */
  lemma NoSpacePath(caption: string, lowered: string)
    requires Lower(caption) == lowered && ' ' !in lowered
    ensures PagePath(caption) == "/" + lowered
  {
  }

  /** A caption that lowers to "a b", where a has no space, links to "/ab". */
  lemma SpacedPath(caption: string, a: string, b: string)
    requires Lower(caption) == a + [' '] + b && ' ' !in a
    ensures PagePath(caption) == "/" + a + b
  {
    RemoveFirstAfter(a, b, ' ');
  }

  lemma LowerMatches()
    ensures Lower(Matches) == "matches"
  {
  }

  lemma LowerTeams()
    ensures Lower(Teams) == "teams"
  {
  }

  const Player := "Player"
  const Profile := "Profile"

  lemma PlayerProfileSplit()
    ensures PlayerProfile == Player + [' '] + Profile
  {
  }

  lemma LowerPlayer()
    ensures Lower(Player) == "player"
  {
  }

  lemma LowerProfile()
    ensures Lower(Profile) == "profile"
  {
  }

  lemma LowerSpace()
    ensures Lower([' ']) == [' ']
  {
  }

  lemma NoSpaceInPlayer()
    ensures ' ' !in "player"
  {
  }

  lemma LowerPlayerProfile()
    ensures Lower(PlayerProfile) == "player" + [' '] + "profile"
  {
    PlayerProfileSplit();
    LowerThree(Player, [' '], Profile);
    LowerPlayer();
    LowerProfile();
    LowerSpace();
  }

  lemma LowerTour()
    ensures Lower("Tour") == "tour"
  {
  }

  lemma LowerNaments()
    ensures Lower("naments") == "naments"
  {
  }

  lemma TournamentsSplit()
    ensures Tournaments == "Tour" + "naments"
  {
  }

  lemma TournamentsJoin()
    ensures "tour" + "naments" == "tournaments"
  {
  }

  lemma LowerTournaments()
    ensures Lower(Tournaments) == "tournaments"
  {
    TournamentsSplit();
    LowerConcat("Tour", "naments");
    LowerTour();
    LowerNaments();
    TournamentsJoin();
  }

  lemma SlashMatches()
    ensures "/" + "matches" == PublicRoutes[1]
  {
  }

  lemma SlashTeams()
    ensures "/" + "teams" == PublicRoutes[2]
  {
  }

  lemma SlashPlayerProfile()
    ensures "/" + "player" + "profile" == PublicRoutes[3]
  {
  }

  lemma SlashTournaments()
    ensures "/" + "tournaments" == PublicRoutes[0]
  {
  }

  lemma MatchesPath(caption: string)
    requires caption == Matches
    ensures PagePath(caption) == PublicRoutes[1]
  {
    LowerMatches();
    NoSpacePath(caption, "matches");
    SlashMatches();
  }

  lemma TeamsPath(caption: string)
    requires caption == Teams
    ensures PagePath(caption) == PublicRoutes[2]
  {
    LowerTeams();
    NoSpacePath(caption, "teams");
    SlashTeams();
  }

  lemma PlayerProfilePath(caption: string)
    requires caption == PlayerProfile
    ensures PagePath(caption) == PublicRoutes[3]
  {
    LowerPlayerProfile();
    NoSpaceInPlayer();
    SpacedPath(caption, "player", "profile");
    SlashPlayerProfile();
  }

  lemma NoSpaceInTournaments()
    ensures ' ' !in "tournaments"
  {
  }

  lemma TournamentsPathFrom(caption: string, lowered: string)
    requires Lower(caption) == lowered && lowered == "tournaments"
    ensures PagePath(caption) == "/" + "tournaments"
  {
    NoSpaceInTournaments();
    NoSpacePath(caption, lowered);
  }

  lemma TournamentsPath(caption: string)
    requires caption == Tournaments
    ensures PagePath(caption) == PublicRoutes[0]
  {
    LowerTournaments();
    TournamentsPathFrom(caption, Lower(caption));
    SlashTournaments();
  }

  /** Every caption links to a list route the router declares. */
  lemma PathsAreDeclaredRoutes(i: nat)
    requires i < |Pages|
    ensures PagePath(Pages[i]) in PublicRoutes
  {
    if i == 0 {
      MatchesPath(Pages[i]);
    } else if i == 1 {
      TeamsPath(Pages[i]);
    } else if i == 2 {
      PlayerProfilePath(Pages[i]);
    } else {
      TournamentsPath(Pages[i]);
    }
  }

  /** The navigation bar: `anchorElNav`, the element the mobile menu hangs
      from, or null. Elements are named by an id. */
  class NavigationBar {
    var anchor: Option<int>

    constructor ()
      ensures anchor.None? && !MenuOpen()
    {
      anchor := None;
    }

    /** The mobile menu is open exactly when it has an anchor. */
    predicate MenuOpen()
      reads this
    {
      anchor.Some?
    }

    /** `handleOpenNavMenu`: the clicked button becomes the anchor. */
    method OpenNavMenu(target: int)
      modifies this
      ensures anchor == Some(target) && MenuOpen()
    {
      anchor := Some(target);
    }

    /** `handleCloseNavMenu`, also run by every menu item and page button. */
    method CloseNavMenu()
      modifies this
      ensures anchor.None? && !MenuOpen()
    {
      anchor := None;
    }
  }
}
