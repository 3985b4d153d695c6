# CRICBEAR dashboards in Dafny

This project models the rules inside CRICBEAR's two React dashboards. The
public viewer covers the live match, the match, team and player lists, the
tournaments accordion and the navigation bar. The admin/coach console covers
tournaments, matches, users, teams, registration and players, behind a role
guard.

Every HTTP reply is a parameter. `Response<T>` (module `Common`) tells apart:

- a failed request;
- a resolved request whose body is falsy;
- a resolved request with a body.

Each handler is a method on a class whose fields are the component's state.
A handler that sends a request returns that request, and its postcondition
states the new state in full. Pure derivations are functions (filters, the over strip, the
scorecard, the route table, the page paths). Lemmas state what the pages
promise across calls.

The modules are:

- `Common`: Option, Response, and JavaScript's `|| 0`, `|| 1` and `!id`.
- `Seqs`: filter, find, remove-at, map-where.
- `Text`: ASCII `toLowerCase`, `includes`, single-occurrence `replace`, `split(c)[0]`.
- `Search`: the shared case-insensitive search box.
- One module for each component: `LiveMatch`, `Matches`, `Teams`, `PlayerProfiles`, `Navbar`, `TournamentAccordion`, `AdminRoutes`, `TournamentManagement`, `ManageMatch`, `ManageUsers`, `ManageTeams`, `RegisterTournament` and `CreatePlayer`.

The live-match poll does not replace the three feeds atomically. It stores the ball-by-ball feed as soon
as it arrives (`LiveMatchPage.jsx:76`), before the two score feeds are
fetched. So a poll whose score fetch fails leaves a new ball feed next to
old score lines.
`LiveMatch.AfterPoll` and `LiveMatch.PollOutcomes` state this.

## Model

| member | source | states |
|---|---|---|
| LiveMatch.BallDisplay | dashboardforpublicuser/src/Components/LiveMatchPage.jsx:102-106 | A wicket shows W even with an extra. Otherwise a non-empty extra shows its first character. Otherwise the ball shows its runs, with absent runs as 0. Each case holds exactly when its condition does. |
| LiveMatch.DisplayOver | dashboardforpublicuser/src/Components/LiveMatchPage.jsx:131-132 | A sixth ball shows as the next over with ball 0. The count of balls bowled, 6·over+ball, is that of the feed. Ball 6 is never displayed, and any other ball number is shown as is. |
| LiveMatch.InsertDescending | dashboardforpublicuser/src/Components/LiveMatchPage.jsx:138-139 | Adding an over number keeps the list strictly descending and adds exactly that number. |
| LiveMatch.DistinctOversDescending | dashboardforpublicuser/src/Components/LiveMatchPage.jsx:138-139 | The strip's over list is strictly descending and holds exactly the over numbers of the feed, each once. |
| LiveMatch.DescendingUnique | dashboardforpublicuser/src/Components/LiveMatchPage.jsx:138-139 | Two strictly descending lists with the same members are equal, so the strip order depends only on which overs occur. |
| LiveMatch.BallsOfOver | dashboardforpublicuser/src/Components/LiveMatchPage.jsx:141 | An over's balls are exactly the feed's balls with that over number, in feed order. A kept entry appears as often as in the input. |
| LiveMatch.SlotFor | dashboardforpublicuser/src/Components/LiveMatchPage.jsx:146-151 | A slot is a dash exactly when no ball of the over has that number. Otherwise it shows the first such ball. |
| LiveMatch.ColumnSlots | dashboardforpublicuser/src/Components/LiveMatchPage.jsx:146-151 | A column has five slots. Slot k is a dash exactly when no ball of the over has number 6, 4, 3, 2 or 1 respectively. |
| LiveMatch.OverStrip | dashboardforpublicuser/src/Components/LiveMatchPage.jsx:138-151 | One column per distinct over, in strictly descending over order. Each column is headed over+1, and its five slots are `ColumnSlots` of exactly that over's balls: the first ball numbered 6, 4, 3, 2, 1 in turn, or a dash. |
| LiveMatch.StripColumns | dashboardforpublicuser/src/Components/LiveMatchPage.jsx:138-151 | Column headings strictly decrease. Over o is on the strip, headed o+1, exactly when it occurs in the feed. Every column has five slots. |
| LiveMatch.FirstBallWins | dashboardforpublicuser/src/Components/LiveMatchPage.jsx:147 | When balls share a number, the first one in feed order is the one shown. |
| LiveMatch.BallOutsideSlotsInvisible | dashboardforpublicuser/src/Components/LiveMatchPage.jsx:146-151 | A ball whose number is not among 6,4,3,2,1 never changes its over's column. |
| LiveMatch.FifthBallNeverShown | dashboardforpublicuser/src/Components/LiveMatchPage.jsx:146-151 | Appending a ball numbered 5 to an over already on the strip leaves the whole strip unchanged. |
| LiveMatch.BatsmanFigures | dashboardforpublicuser/src/Components/LiveMatchPage.jsx:113-125 | A batsman's runs and balls come from the first batting entry with that name. A missing list, entry or field reads as 0. |
| LiveMatch.ScoreView | dashboardforpublicuser/src/Components/LiveMatchPage.jsx:108-134 | No view exactly when the innings, its ball list or its balls are missing. Otherwise the view is built from the last ball: batsmen, score total/wickets with absent values 0, the over as `DisplayOver` shows it (a sixth ball rolls over to the next over), the bowler, and the strip of all balls. |
| LiveMatch.BattingRowOf | dashboardforpublicuser/src/Components/LiveMatchPage.jsx:183-195 | Balls default to 1 when absent or 0, and the default is what the row shows. The strike rate times balls is runs times 100. Other fields default to 0. |
| LiveMatch.BowlingRowOf | dashboardforpublicuser/src/Components/LiveMatchPage.jsx:217-228 | Overs default to 1 when absent or 0. The economy times overs is the runs given. |
| LiveMatch.BattingRows | dashboardforpublicuser/src/Components/LiveMatchPage.jsx:163-198 | One row per batting entry, in order. No rows when the innings list is missing. |
| LiveMatch.BowlingRows | dashboardforpublicuser/src/Components/LiveMatchPage.jsx:164-231 | One row per bowling entry, in order. No rows when the innings list is missing. |
| LiveMatch.ScorecardDenominators | dashboardforpublicuser/src/Components/LiveMatchPage.jsx:185-218 | No scorecard row divides by zero. |
| LiveMatch.PollOutcomes | dashboardforpublicuser/src/Components/LiveMatchPage.jsx:73-85 | A failed ball fetch changes nothing. A successful one always replaces the ball feed. When all three fetches succeed, all three feeds become exactly what was fetched. The batting or bowling feed changes only in that case. |
| LiveMatch.AfterPoll | dashboardforpublicuser/src/Components/LiveMatchPage.jsx:73-85 | The feeds after one poll. It has no contract of its own; `PollOutcomes` and `PollIdempotent` state what it does. |
| LiveMatch.PollIdempotent | dashboardforpublicuser/src/Components/LiveMatchPage.jsx:73-88 | Re-polling the same replies changes nothing more, so no ball or line accumulates. |
| LiveMatch.LiveMatchPage.constructor | dashboardforpublicuser/src/Components/LiveMatchPage.jsx:62-69 | The page starts with two empty innings, no score feeds, and both tabs at 0. |
| LiveMatch.LiveMatchPage.Poll | dashboardforpublicuser/src/Components/LiveMatchPage.jsx:73-85 | The held feeds become the poll outcome above, and the tabs stay. |
| LiveMatch.LiveMatchPage.ChangeMainTab | dashboardforpublicuser/src/Components/LiveMatchPage.jsx:94-96 | Only the main tab changes. |
| LiveMatch.LiveMatchPage.ChangeScorecardTab | dashboardforpublicuser/src/Components/LiveMatchPage.jsx:98-100 | Only the scorecard tab changes. |
| LiveMatch.LiveMatchPage.ScoreTab | dashboardforpublicuser/src/Components/LiveMatchPage.jsx:251-254 | Each innings shows nothing exactly when it is missing or has no balls. Otherwise it is `ScoreView` of that innings read against its own batting feed, so the strip, both batsmen, the batting team, score, over and bowler all come from that innings. |
| LiveMatch.LiveMatchPage.Scorecard | dashboardforpublicuser/src/Components/LiveMatchPage.jsx:256-266 | Innings n shows `BattingRows` and `BowlingRows` of that innings's own lines: one row per entry, in order, with the figures those functions state. No row divides by zero. |
| LiveMatch.OneBallScenario | dashboardforpublicuser/src/App.test.js:136-172 | One ball of 1 run, total 1, gives "Player 1* 1 (1)", "Player 2 0 (0)", score 1/0, over 0.1, and a single column with only the ball-1 slot filled. |
| LiveMatch.StripOrderScenario | dashboardforpublicuser/src/Components/LiveMatchPage.jsx:138-145 | Balls in overs 0, 1 and 2 give the strip order 2, 1, 0. |
| Seqs.Filter | dashboardforadmincoach/src/components/ManageTeam.jsx:41 | `filter`: the kept elements are exactly those satisfying the condition, in order, each as often as in the input. Keeping everything returns the list unchanged. |
| Search.SearchFilter | dashboardforpublicuser/src/Components/TeamsPage.js:65-67 | The kept records are exactly those whose text contains the term, ignoring case, as a subsequence of the input. A kept entry appears as often as in the input. |
| Search.EmptyTermKeepsAll | dashboardforpublicuser/src/Components/TeamsPage.js:65-67 | An empty term keeps every record, in order. |
| Text.Lower | dashboardforpublicuser/src/Components/TeamsPage.js:66 | `toLowerCase`: the same length, with every character lowered (letters A to Z only). |
| Text.Includes | dashboardforpublicuser/src/Components/TeamsPage.js:66 | `includes`: the text starts with t or includes it further on. `IncludesAt` characterizes it. |
| Text.IncludesAt | dashboardforpublicuser/src/Components/TeamsPage.js:66 | `includes` holds exactly when t occurs as a contiguous block at some position. |
| Text.RemoveFirst | dashboardforpublicuser/src/Components/Navbar/Navbar.js:89 | `replace(c, '')`: only the first c is removed, and everything before and after it is kept. Without a c the text is unchanged. |
| Text.BeforeFirst | dashboardforadmincoach/src/components/ManageMatch.jsx:70 | `split(c)[0]`: a prefix of the text without c, ending just before the first c when there is one. |
| Matches.FilteredMatches | dashboardforpublicuser/src/Components/MatchesPage.jsx:88-95 | A non-array bucket gives nothing. Otherwise a match is kept exactly when "team1 vs team2" contains the term, ignoring case, in the original order. A kept entry appears as often as in the input. |
| Matches.EmptySearchShowsAll | dashboardforpublicuser/src/Components/MatchesPage.jsx:92-94 | An empty search shows the whole bucket. |
| Matches.SearchByFirstTeamKeeps | dashboardforpublicuser/src/Components/MatchesPage.jsx:92-94 | Searching a match's first team always keeps that match. |
| Matches.StatusOfTab | dashboardforpublicuser/src/Components/MatchesPage.jsx:62-63 | Tab 0, 1 or 2 fetches LIVE, UPCOMING or COMPLETED respectively (each iff). Any other tab fetches nothing. |
| Matches.TabIndex | dashboardforpublicuser/src/Components/MatchesPage.jsx:103 | Each status's table sits at the index of that status in the tab list. |
| Matches.FetchedBucketIsShown | dashboardforpublicuser/src/Components/MatchesPage.jsx:62-63 | A tab fetches a status exactly when that tab shows the status's table. |
| Matches.RowOf | dashboardforpublicuser/src/Components/MatchesPage.jsx:169-206 | A row shows "team1 vs team2". It opens the result dialog exactly when COMPLETED and has the Live button exactly when LIVE. |
| Matches.RowActionsExclusive | dashboardforpublicuser/src/Components/MatchesPage.jsx:173-206 | No row has both the result dialog and the Live button. |
| Matches.MatchesPage.constructor | dashboardforpublicuser/src/Components/MatchesPage.jsx:41-43 | The page starts on the LIVE tab with an empty search and three empty buckets. |
| Matches.MatchesPage.ChangeTab | dashboardforpublicuser/src/Components/MatchesPage.jsx:62-69 | The tab becomes the new value and the status to fetch is that tab's. |
| Matches.MatchesPage.ChangeSearch | dashboardforpublicuser/src/Components/MatchesPage.jsx:122 | Only the search term changes. |
| Matches.MatchesPage.ReceiveMatches | dashboardforpublicuser/src/Components/MatchesPage.jsx:50-56 | A resolved fetch overwrites only its own bucket, with an empty body becoming []. A failed fetch changes nothing. Every other bucket is unchanged. |
| Matches.MatchesPage.ShownRows | dashboardforpublicuser/src/Components/MatchesPage.jsx:169 | For a tab outside 0..2 no table shows. Otherwise there is one row per filtered match of that tab's bucket, in order. |
| Matches.TeamCDHasNoTeamA | dashboardforpublicuser/src/App.test.js:264-268 | "Team A" does not occur in "Team C vs Team D", ignoring case. |
| Matches.SearchScenario | dashboardforpublicuser/src/App.test.js:264-268 | Searching "Team A" keeps "Team A vs Team B" and hides "Team C vs Team D". |
| Teams.WinPercentage | dashboardforpublicuser/src/Components/TeamsPage.js:40-42 | The percentage is 0 unless a match was played. Otherwise percentage × played = won × 100. |
| Teams.WinPercentageBounds | dashboardforpublicuser/src/Components/TeamsPage.js:40-42 | With 0 ≤ won ≤ played the percentage lies in [0,100]. It is 100 exactly when every match was won. |
| Teams.FilteredTeams | dashboardforpublicuser/src/Components/TeamsPage.js:64-67 | A team is kept exactly when its name contains the term, ignoring case, in order. A kept entry appears as often as in the input. |
| Teams.EmptySearchShowsAllTeams | dashboardforpublicuser/src/Components/TeamsPage.js:64-67 | An empty search keeps every team. |
| Teams.View | dashboardforpublicuser/src/Components/TeamsPage.js:107-150 | The chart is the filtered list. The table is "No teams found" exactly when that list is empty; otherwise it has one row per charted team, in order, with its win percentage. |
| Teams.TableMatchesChart | dashboardforpublicuser/src/Components/TeamsPage.js:108-150 | A team appears in the table exactly when the search keeps it. |
| PlayerProfiles.FilteredPlayers | dashboardforpublicuser/src/Components/PlayerProfilePage.js:39-42 | A player is kept exactly when the name contains the query, ignoring case. The result is an in-order subsequence of the input. A kept entry appears as often as in the input. |
| PlayerProfiles.EmptyQueryShowsAll | dashboardforpublicuser/src/Components/PlayerProfilePage.js:40-42 | An empty query keeps every player. |
| PlayerProfiles.Grid | dashboardforpublicuser/src/Components/PlayerProfilePage.js:61-79 | "No players found." shows exactly when no player matches. Otherwise the non-empty filtered list is shown as cards. |
| PlayerProfiles.EmptyQueryMessageOnlyWhenNoPlayers | dashboardforpublicuser/src/Components/PlayerProfilePage.js:61-79 | With an empty query the message shows exactly when there are no players. |
| TournamentAccordion.TournamentsPage.constructor | dashboardforpublicuser/src/Components/Tournament.js:10-15 | No panel is open, nothing is selected, and nothing is loaded or loading. |
| TournamentAccordion.TournamentsPage.ReceiveTournaments | dashboardforpublicuser/src/Components/Tournament.js:18-30 | A fetched list replaces the tournaments, and a failure keeps them. Nothing else changes. |
| TournamentAccordion.TournamentsPage.HandleChange | dashboardforpublicuser/src/Components/Tournament.js:38-48 | Expanding opens that panel, selects the tournament, and hides and clears the matches. Collapsing closes every panel and clears the selection, leaving the matches and their visibility alone. Afterwards no match table shows. |
| TournamentAccordion.TournamentsPage.BeginViewMatches | dashboardforpublicuser/src/Components/Tournament.js:57-73 | A fetch starts, and loading begins, exactly when a tournament with a truthy tid is selected. The fetch is for that tid. |
| TournamentAccordion.TournamentsPage.FinishViewMatches | dashboardforpublicuser/src/Components/Tournament.js:60-70 | A resolved fetch shows the body's matches, or none for an empty body. A failure keeps the matches. Loading ends in both cases. |
| TournamentAccordion.AtMostOnePanel | dashboardforpublicuser/src/Components/Tournament.js:84 | At most one panel is expanded. |
| TournamentAccordion.TournamentsPage.ShowsMatchesUnder | dashboardforpublicuser/src/Components/Tournament.js:120 | The match table shows under a tournament exactly while matches are shown and the selection has that tournament's id. It is a predicate with no further contract; `OpenAndView` uses it. |
| TournamentAccordion.OpenAndView | dashboardforpublicuser/src/Components/Tournament.js:38-70 | Opening a panel and viewing its matches shows them under exactly the tournaments sharing the opened one's id. |
| Navbar.PagePath | dashboardforpublicuser/src/Components/Navbar/Navbar.js:89 | Every page link starts with "/". |
| Navbar.OnlyFirstSpaceRemoved | dashboardforpublicuser/src/Components/Navbar/Navbar.js:89 | A caption's path has exactly one space fewer than the caption, so any later space stays. |
| Navbar.NoSpacePath | dashboardforpublicuser/src/Components/Navbar/Navbar.js:123 | A caption without spaces links to "/" followed by its lower-cased text. |
| Navbar.SpacedPath | dashboardforpublicuser/src/Components/Navbar/Navbar.js:123 | A caption lowering to "a b", with no space in a, links to "/ab". |
| Navbar.MatchesPath | dashboardforpublicuser/src/Components/Navbar/Navbar.js:16-89 | MATCHES links to /matches. |
| Navbar.TeamsPath | dashboardforpublicuser/src/Components/Navbar/Navbar.js:16-89 | TEAMS links to /teams. |
| Navbar.PlayerProfilePath | dashboardforpublicuser/src/Components/Navbar/Navbar.js:16-89 | "Player Profile" links to /playerprofile. |
| Navbar.TournamentsPath | dashboardforpublicuser/src/Components/Navbar/Navbar.js:16-89 | Tournaments links to /tournaments. |
| Navbar.PathsAreDeclaredRoutes | dashboardforpublicuser/src/App.js:19-22 | Every menu caption links to one of the list routes the router declares. |
| Navbar.NavigationBar.constructor | dashboardforpublicuser/src/Components/Navbar/Navbar.js:22 | The menu starts closed, with no anchor. |
| Navbar.NavigationBar.OpenNavMenu | dashboardforpublicuser/src/Components/Navbar/Navbar.js:25-27 | The clicked element becomes the anchor, so the menu is open. |
| Navbar.NavigationBar.CloseNavMenu | dashboardforpublicuser/src/Components/Navbar/Navbar.js:30-32 | The anchor is cleared, so the menu is closed. |
| Navbar.NavigationBar.MenuOpen | dashboardforpublicuser/src/Components/Navbar/Navbar.js:81 | The menu is open exactly when it has an anchor. It is a predicate with no further contract. |
| AdminRoutes.ProtectedRoute | dashboardforadmincoach/src/App.jsx:15-21 | The child is rendered exactly when a user is stored with exactly the allowed role. Otherwise the route redirects to /login. |
| AdminRoutes.RenderRoute | dashboardforadmincoach/src/App.jsx:29-75 | A redirect route navigates, an open route renders its page, and a guarded route goes through the role guard. |
| AdminRoutes.Resolve | dashboardforadmincoach/src/App.jsx:29-75 | A path resolves to nothing exactly when no route declares it. |
| AdminRoutes.ResolveAt | dashboardforadmincoach/src/App.jsx:29-75 | A path is served by the first route declaring it. |
| AdminRoutes.RootRedirects | dashboardforadmincoach/src/App.jsx:31 | "/" redirects to /login whoever is stored. |
| AdminRoutes.SectionsGuarded | dashboardforadmincoach/src/App.jsx:33-74 | Every /admin route requires ADMIN and every /coach route requires COACH. Every guarded route lies in one of the two sections. |
| AdminRoutes.GuardedRouteResolves | dashboardforadmincoach/src/App.jsx:15-21 | A guarded route renders its page exactly for its role. With nothing stored it redirects to /login. |
| AdminRoutes.AdminDashboardScenario | dashboardforadmincoach/src/App.test.js:36-40 | A stored ADMIN opening /admin gets the admin dashboard. |
| AdminRoutes.CoachDashboardScenario | dashboardforadmincoach/src/App.test.js:42-46 | A stored COACH opening /coach gets the coach dashboard. |
| AdminRoutes.CoachKeptOutOfAdmin | dashboardforadmincoach/src/App.jsx:34-38 | A stored COACH opening /admin is redirected to /login. |
| TournamentManagement.WithField | dashboardforadmincoach/src/components/TournamentManagement.jsx:38-44 | Only the named form field takes the new value. |
| TournamentManagement.WithFieldReadBack | dashboardforadmincoach/src/components/TournamentManagement.jsx:38-44 | Reading back gives the written value for that field and the old value for any other. |
| TournamentManagement.BlankForm | dashboardforadmincoach/src/components/TournamentManagement.jsx:99-107 | The reset form has an empty name and dates, status UPCOMING, no tid, and the logged-in uid. |
| TournamentManagement.Started | dashboardforadmincoach/src/components/TournamentManagement.jsx:90-92 | Same length. Tournaments with the tid become LIVE with every other field kept. All others are unchanged. |
| TournamentManagement.StartIdempotent | dashboardforadmincoach/src/components/TournamentManagement.jsx:90-92 | Starting twice equals starting once. |
| TournamentManagement.StartedNotOffered | dashboardforadmincoach/src/components/TournamentManagement.jsx:178 | A started tournament no longer offers Start. |
| TournamentManagement.StartOffered | dashboardforadmincoach/src/components/TournamentManagement.jsx:178 | Start is offered exactly for an UPCOMING tournament created by the logged-in user. It is a predicate with no further contract. |
| TournamentManagement.TournamentPage.constructor | dashboardforadmincoach/src/components/TournamentManagement.jsx:13-22 | Empty list, nothing under edit, and a blank form with the uid. |
| TournamentManagement.TournamentPage.Load | dashboardforadmincoach/src/components/TournamentManagement.jsx:31-35 | A fetched list replaces the tournaments, and a failure keeps them. |
| TournamentManagement.TournamentPage.InputChange | dashboardforadmincoach/src/components/TournamentManagement.jsx:38-44 | The form becomes the form with that field written. The list and index are unchanged. |
| TournamentManagement.TournamentPage.Reset | dashboardforadmincoach/src/components/TournamentManagement.jsx:99-109 | Blank form, nothing under edit, list unchanged. |
| TournamentManagement.TournamentPage.CreateOrEdit | dashboardforadmincoach/src/components/TournamentManagement.jsx:47-67 | The request carries the form with the logged-in uid, and is an update exactly when an index is under edit. On success an update replaces only that index and a create appends, then the form resets. A failure changes nothing. |
| TournamentManagement.TournamentPage.Edit | dashboardforadmincoach/src/components/TournamentManagement.jsx:70-73 | The chosen tournament is copied into the form and its index recorded. |
| TournamentManagement.TournamentPage.Delete | dashboardforadmincoach/src/components/TournamentManagement.jsx:76-84 | The request names the tid at the index. On success exactly that element is removed, the rest keep their order, and the form resets. |
| TournamentManagement.TournamentPage.Start | dashboardforadmincoach/src/components/TournamentManagement.jsx:87-96 | The request carries the tid and the logged-in uid. On success the list becomes `Started`. Otherwise nothing changes. |
| TournamentManagement.EditRound | dashboardforadmincoach/src/components/TournamentManagement.jsx:49-56 | Edit then a successful update keeps the length, changes only the edited position, and clears the index. |
| ManageMatch.FormOf | dashboardforadmincoach/src/components/ManageMatch.jsx:65-75 | The form copies team1, team2, stadium and status and takes `type` as matchType. The date is the prefix before the first 'T' and contains no 'T'. |
| ManageMatch.DatePartOfDateTime | dashboardforadmincoach/src/components/ManageMatch.jsx:70 | "dateTtime" shows as date. |
| ManageMatch.DateWithoutTimeKept | dashboardforadmincoach/src/components/ManageMatch.jsx:70 | A date without 'T' is kept whole. |
| ManageMatch.WithField | dashboardforadmincoach/src/components/ManageMatch.jsx:79-85 | Only the named field of the editing record changes. |
| ManageMatch.StartedByMid | dashboardforadmincoach/src/components/ManageMatch.jsx:110-112 | Matches with the mid become LIVE with every other field kept. The others are unchanged, and the length is kept. |
| ManageMatch.StartedNotOffered | dashboardforadmincoach/src/components/ManageMatch.jsx:197-202 | A started match no longer offers START, and MANAGE is offered as before. |
| ManageMatch.OffersManage | dashboardforadmincoach/src/components/ManageMatch.jsx:197-199 | MANAGE is offered exactly for a match whose type is not NORMAL. It is a predicate with no further contract. |
| ManageMatch.OffersStart | dashboardforadmincoach/src/components/ManageMatch.jsx:200-202 | START is offered exactly for an UPCOMING match. It is a predicate with no further contract. |
| ManageMatch.ReplacedByMid | dashboardforadmincoach/src/components/ManageMatch.jsx:94-96 | Matches with the mid become the server's record. The others are unchanged, and the length is kept. |
| ManageMatch.ReplaceIdempotent | dashboardforadmincoach/src/components/ManageMatch.jsx:94-96 | Applying the same update twice equals applying it once. |
| ManageMatch.ManageMatchPage.constructor | dashboardforadmincoach/src/components/ManageMatch.jsx:8-21 | Nothing listed or selected, an empty form, the popup hidden, and the stored uid. |
| ManageMatch.ManageMatchPage.ReceiveTournaments | dashboardforadmincoach/src/components/ManageMatch.jsx:32-39 | A fetched list replaces the tournaments, and a failure keeps them. |
| ManageMatch.ManageMatchPage.SelectTournament | dashboardforadmincoach/src/components/ManageMatch.jsx:52-56 | The parsed id is selected and its matches are fetched. |
| ManageMatch.ManageMatchPage.ReceiveMatches | dashboardforadmincoach/src/components/ManageMatch.jsx:42-49 | A fetched list replaces the matches, and a failure keeps them. |
| ManageMatch.ManageMatchPage.Manage | dashboardforadmincoach/src/components/ManageMatch.jsx:65-76 | The match is selected, the form is `FormOf` the match, and the popup opens. |
| ManageMatch.ManageMatchPage.InputChange | dashboardforadmincoach/src/components/ManageMatch.jsx:79-85 | Only the named field of the form changes. |
| ManageMatch.ManageMatchPage.Submit | dashboardforadmincoach/src/components/ManageMatch.jsx:88-103 | With no selection nothing is sent. Otherwise the form is sent to the selected mid. A truthy body replaces the matches with that mid and closes the popup; anything else changes nothing. |
| ManageMatch.ManageMatchPage.Start | dashboardforadmincoach/src/components/ManageMatch.jsx:106-118 | Only the exact reply "Match started" marks the mid LIVE. Any other reply, or a failure, keeps the list. |
| ManageMatch.ManageMatchPage.ClosePopup | dashboardforadmincoach/src/components/ManageMatch.jsx:121-124 | The popup is hidden and the selection cleared. |
| ManageMatch.ManageMatchPage.ScheduleButtonsShown | dashboardforadmincoach/src/components/ManageMatch.jsx:185-190 | The schedule buttons show exactly for a truthy selected tournament id. It is a predicate with no further contract. |
| ManageMatch.ManageMatchPage.Schedule | dashboardforadmincoach/src/components/ManageMatch.jsx:127-161 | Without a truthy uid nothing is sent and the user-id alert shows. Otherwise the request carries the tournament and uid. The success alert and the refetch happen exactly for a truthy body, and the failure alert exactly for a failed request. |
| ManageUsers.FilteredUsers | dashboardforadmincoach/src/components/ManageUser.jsx:88-92 | A non-array list gives nothing. Otherwise a user is kept exactly when a present, non-empty first or last name contains the term, ignoring case, in order. A kept entry appears as often as in the input. |
| ManageUsers.EmptyTermKeepsNamedUsers | dashboardforadmincoach/src/components/ManageUser.jsx:89-92 | An empty term keeps exactly the users with a non-empty name. |
| ManageUsers.WithRole | dashboardforadmincoach/src/components/ManageUser.jsx:54-56 | Only the role of the selection changes. With no selection the result is a user with only a role. |
| ManageUsers.ScreenOf | dashboardforadmincoach/src/components/ManageUser.jsx:94-95 | Loading wins over the error, which wins over the list. The list shows the filtered users. |
| ManageUsers.ManageUser.constructor | dashboardforadmincoach/src/components/ManageUser.jsx:8-12 | The page starts loading, with no users, selection or error. |
| ManageUsers.ManageUser.BeginFetchUsers | dashboardforadmincoach/src/components/ManageUser.jsx:20-22 | Loading starts, and nothing else changes. |
| ManageUsers.ManageUser.FinishFetchUsers | dashboardforadmincoach/src/components/ManageUser.jsx:23-35 | A body replaces the list. An empty body empties it with the format error. A failure sets "Failed to fetch users". Loading ends in every case. |
| ManageUsers.ManageUser.ReceiveUserDetails | dashboardforadmincoach/src/components/ManageUser.jsx:44-51 | The fetched user becomes the selection, and an empty body clears it. A failure sets the details error and keeps the selection. |
| ManageUsers.ManageUser.RoleChange | dashboardforadmincoach/src/components/ManageUser.jsx:54-56 | The selection becomes `WithRole` of the old selection. |
| ManageUsers.ManageUser.SaveRole | dashboardforadmincoach/src/components/ManageUser.jsx:59-79 | With no selection nothing happens. Otherwise {role} is sent for the selected uid. Success clears the selection and refetches; failure sets the update error. |
| ManageUsers.ManageUser.Search | dashboardforadmincoach/src/components/ManageUser.jsx:84-86 | Only the search term changes. |
| ManageUsers.ManageUser.Screen | dashboardforadmincoach/src/components/ManageUser.jsx:94-95 | Loading shows exactly while loading. The error shows exactly when not loading and an error is set. Otherwise the list shows the filtered users and the selection. |
| ManageUsers.NoOMeansNoJohn | dashboardforadmincoach/src/App.test.js:187-199 | A name without the letter o never matches "John". |
| ManageUsers.SearchScenario | dashboardforadmincoach/src/App.test.js:187-199 | Searching "John" keeps John Doe and drops Jane Smith. |
| ManageUsers.RoleChangeAndSave | dashboardforadmincoach/src/App.test.js:201-213 | Changing the role and saving sends the new role for the selected uid and clears the selection. |
| ManageUsers.FetchErrorScenario | dashboardforadmincoach/src/App.test.js:229-235 | A failed fetch shows "Failed to fetch users" once loading has ended. |
| ManageTeams.AddPlayerOutcome | dashboardforadmincoach/src/components/ManageTeam.jsx:94-128 | Each check holds exactly when its condition does: no team, then 15 or more players, then duplicate pid. Otherwise a one-element request copies pid, overseas and role, takes the team's id, and zeroes the five counters. |
| ManageTeams.AddSentOnlyWhenAdmissible | dashboardforadmincoach/src/components/ManageTeam.jsx:94-128 | A request is sent exactly for a selected team below 15 players and a player not on its roster. |
| ManageTeams.CoachTeams | dashboardforadmincoach/src/components/ManageTeam.jsx:38-42 | Exactly the teams whose coachId is the user's, in order. A kept entry appears as often as in the input. |
| ManageTeams.FilteredPlayers | dashboardforadmincoach/src/components/ManageTeam.jsx:152-155 | Exactly the players whose name contains the term, ignoring case, in order. A kept entry appears as often as in the input. |
| ManageTeams.ManageTeam.constructor | dashboardforadmincoach/src/components/ManageTeam.jsx:8-17 | Empty name, lists and search, no selected team, and the stored coach id. |
| ManageTeams.ManageTeam.ReceivePlayers | dashboardforadmincoach/src/components/ManageTeam.jsx:26-35 | The players become the body, or [] for an empty body or a failure. |
| ManageTeams.ManageTeam.ReceiveTeams | dashboardforadmincoach/src/components/ManageTeam.jsx:38-48 | The teams become the coach's teams from the body, or [] for an empty body or a failure. |
| ManageTeams.ManageTeam.ReceiveTeamPlayers | dashboardforadmincoach/src/components/ManageTeam.jsx:51-60 | The roster becomes the body, or [] for an empty body or a failure. |
| ManageTeams.ManageTeam.ChangeTeamName | dashboardforadmincoach/src/components/ManageTeam.jsx:174 | Only the name changes. |
| ManageTeams.ManageTeam.ChangeSearch | dashboardforadmincoach/src/components/ManageTeam.jsx:208 | Only the search term changes. |
| ManageTeams.ManageTeam.SaveTeam | dashboardforadmincoach/src/components/ManageTeam.jsx:68-91 | An empty name sends nothing. Otherwise the name is sent with the coach id. The alert follows the reply. Only a body clears the name and refetches the team list. |
| ManageTeams.ManageTeam.AddPlayer | dashboardforadmincoach/src/components/ManageTeam.jsx:94-129 | The outcome is `AddPlayerOutcome` on the current state. A sent player's pid is not on the roster. A sent add that succeeds refetches the selected team's roster, and one that fails raises the failure alert. |
| ManageTeams.ManageTeam.RemovePlayer | dashboardforadmincoach/src/components/ManageTeam.jsx:132-140 | The delete names the pid. The roster is refetched exactly when the delete succeeded and a team is selected; otherwise the failure alert shows. |
| ManageTeams.ManageTeam.TeamSelect | dashboardforadmincoach/src/components/ManageTeam.jsx:143-150 | The first team with the parsed id is selected, or none. Its roster is fetched only when one is found. |
| ManageTeams.ManageTeam.PickerPlayers | dashboardforadmincoach/src/components/ManageTeam.jsx:152-155 | The picker lists exactly the players whose name contains the search term, ignoring case, in order. |
| RegisterTournament.ButtonLabel | dashboardforadmincoach/src/components/RegisterTournament.jsx:107 | The label is REGISTERED exactly for a registered tournament. |
| RegisterTournament.EnabledMeansEligible | dashboardforadmincoach/src/components/RegisterTournament.jsx:105-107 | An enabled button means upcoming, unregistered and a usable team id. |
| RegisterTournament.ButtonDisabled | dashboardforadmincoach/src/components/RegisterTournament.jsx:105 | The button is disabled exactly for a registered tournament, one that is not UPCOMING, or a falsy team id. `EnabledMeansEligible` states the consequence. |
| RegisterTournament.IsSuccessMessage | dashboardforadmincoach/src/components/RegisterTournament.jsx:90 | A message is styled as a success exactly when it contains "successfully". `MessagesClassified` classifies the page's messages. |
| RegisterTournament.CoachTeam | dashboardforadmincoach/src/components/RegisterTournament.jsx:34-40 | The team is the first one coached by the user. There is none exactly when the user coaches no team. |
| RegisterTournament.FewEssesNotSuccess | dashboardforadmincoach/src/components/RegisterTournament.jsx:90 | A message with fewer than three letters s cannot contain "successfully". |
| RegisterTournament.RegisteredIsSuccess | dashboardforadmincoach/src/components/RegisterTournament.jsx:67 | The registration message is styled as a success. |
| RegisterTournament.TournamentsFailedIsError | dashboardforadmincoach/src/components/RegisterTournament.jsx:27 | The tournament-fetch error is styled as an error. |
| RegisterTournament.NoTeamForCoachIsError | dashboardforadmincoach/src/components/RegisterTournament.jsx:39 | The no-team message is styled as an error. |
| RegisterTournament.TeamsFailedIsError | dashboardforadmincoach/src/components/RegisterTournament.jsx:43 | The team-fetch error is styled as an error. |
| RegisterTournament.NoTeamToRegisterIsError | dashboardforadmincoach/src/components/RegisterTournament.jsx:56 | The no-team-to-register message is styled as an error. |
| RegisterTournament.RegisterFailedIsError | dashboardforadmincoach/src/components/RegisterTournament.jsx:71 | The registration error is styled as an error. |
| RegisterTournament.MessagesClassified | dashboardforadmincoach/src/components/RegisterTournament.jsx:27-90 | The success message is styled as a success and all five error messages as errors. |
| RegisterTournament.RegisterMessage | dashboardforadmincoach/src/components/RegisterTournament.jsx:54-73 | The message is no-team without a usable id, registered on success, and the error otherwise. |
| RegisterTournament.RegisterMessageStyled | dashboardforadmincoach/src/components/RegisterTournament.jsx:54-90 | A registration attempt shows as a success exactly when a team id was usable and the request succeeded. |
| RegisterTournament.RegisterPage.constructor | dashboardforadmincoach/src/components/RegisterTournament.jsx:8-12 | No tournaments, no message, no team, and the stored coach id. |
| RegisterTournament.RegisterPage.ReceiveTournaments | dashboardforadmincoach/src/components/RegisterTournament.jsx:21-29 | A fetched list replaces the tournaments. A failure sets the fetch error. |
| RegisterTournament.RegisterPage.ReceiveTeams | dashboardforadmincoach/src/components/RegisterTournament.jsx:32-45 | The team id becomes the coach's first team's. With no such team the id stays and the no-team message is set. A failure or empty body sets the team-fetch error. |
| RegisterTournament.RegisterPage.Register | dashboardforadmincoach/src/components/RegisterTournament.jsx:54-73 | The request {tid, teamid} is sent exactly for a usable team id. The message is `RegisterMessage`. |
| CreatePlayer.Coerce | dashboardforadmincoach/src/components/CreatePlayer.jsx:27 | overseas stores true exactly for the text "true". Any other field stores its raw text. |
| CreatePlayer.AfterInput | dashboardforadmincoach/src/components/CreatePlayer.jsx:25-28 | The field's key gets the coerced value. Every other key is kept, and no key is removed. |
| CreatePlayer.RoleKeyCoexists | dashboardforadmincoach/src/components/CreatePlayer.jsx:78-82 | Choosing a role writes "playerRole" beside the untouched "player_roles". |
| CreatePlayer.InitialWellTyped | dashboardforadmincoach/src/components/CreatePlayer.jsx:9-13 | The initial record holds a flag for overseas and text elsewhere. |
| CreatePlayer.InputKeepsWellTyped | dashboardforadmincoach/src/components/CreatePlayer.jsx:22-29 | Every input keeps overseas a flag and every other key text. |
| CreatePlayer.CreatePlayerForm.constructor | dashboardforadmincoach/src/components/CreatePlayer.jsx:9-14 | The record is the initial one and the message empty. |
| CreatePlayer.CreatePlayerForm.InputChange | dashboardforadmincoach/src/components/CreatePlayer.jsx:22-29 | The record becomes `AfterInput`, and the message is kept. |
| CreatePlayer.CreatePlayerForm.Submit | dashboardforadmincoach/src/components/CreatePlayer.jsx:32-48 | The record is sent. Success restores the initial record, dropping "playerRole", and keeps any old error. Failure sets the error and keeps the record. |

## Left out

- HTTP: every axios call and `ApiService.js` are left out. Replies are parameters, and methods return the request they would send. Outcomes that depend on time, ordering or interleaving of replies are not modelled.
- The live-match polling timer (`setInterval` every 2.5 s) and its teardown are left out. Each poll is one call of `LiveMatch.LiveMatchPage.Poll`. The code has no cancellation guard, so nothing is said about replies arriving after teardown.
- `toFixed(2)`, `toLocaleDateString` and `toLocaleString` are left out. Strike rate, economy and win percentage are exact reals, and dates are kept as the server's text.
- `toLowerCase` is modelled for ASCII letters only. Other characters are unchanged.
- `localStorage`, the auth context and the login page are left out. The stored user's uid and role are inputs.
- The `alert` and `console` calls are result codes or left out. Styling, JSX layout, dialogs and the Recharts chart are left out, except for the rows and data they are given.
- Logout and `navigate` calls, and the Live button's and result dialog's fetches, are left out. Only the row actions are modelled.
- Menu anchors are elements, modelled as integer ids.
- `Tournament.js` compares `expanded` with the string `panel${index}`. It is modelled as the panel's index.
- Matches.MatchesPage.ChangeTab: for a tab outside 0..2 the code requests the status "undefined" and stores the reply under that key. The model drops that request and stores nothing.
- TournamentManagement.TournamentPage.Load: requires that no tournament is under edit, as on mount. A reload during an edit could leave the index past the list's end, which the model does not represent.
- Replies whose body the code uses without a check are modelled as Option (fetched list or failure). In the code, an empty body would store `undefined` and break the next render. This covers:
  - TournamentManagement.TournamentPage.Load and TournamentManagement.TournamentPage.CreateOrEdit;
  - ManageMatch.ManageMatchPage.ReceiveTournaments and ManageMatch.ManageMatchPage.ReceiveMatches;
  - RegisterTournament.RegisterPage.ReceiveTournaments;
  - TournamentAccordion.TournamentsPage.ReceiveTournaments.
- ManageMatch.ManageMatchPage.ReceiveTournaments keeps only the tournament ids, because the selector shows names but hands back ids.
- AdminRoutes.Resolve: path matching is exact and case-sensitive. The router also matches a path that differs only in letter case or in a trailing slash, such as "/Admin" or "/admin/", and the model resolves those to nothing. They reach the same guarded routes, so the role guard is unaffected.
- Navbar.PagePath: its own contract only says the path starts with "/". The exact path is stated by Navbar.NoSpacePath, Navbar.SpacedPath and Navbar.OnlyFirstSpaceRemoved.
- Teams: the player dialog (`handlePlayersClick`) and the team fetch are left out.
- AdminDashboard, CoachDashboard and Dashboard are static markup and are not part of this model. The public `App.js` serves only as the route list for the Navbar check.
