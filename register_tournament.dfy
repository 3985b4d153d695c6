/** The coach's Register Tournament page: the coach's first team is looked up
    once, and each upcoming tournament offers a Register button for it. */
module RegisterTournament {
  import opened Common
  import opened Seqs
  import opened Text

  datatype Team = Team(teamId: Option<int>, coachId: Option<int>)

  datatype Tournament = Tournament(tid: Option<int>, tournamentName: string, status: string, isRegistered: bool)

  const Upcoming := "UPCOMING"
  const RegisteredLabel := "REGISTERED"
  const RegisterLabel := "REGISTER"

  const TournamentsFailed := "Error fetching tournaments. Please try again."
  const NoTeamForCoach := "No team found for this coach."
  const TeamsFailed := "Error fetching teams. Please try again."
  const NoTeamToRegister := "No team available for registration."
  /** "Registered successfully to the tournament", kept in three parts around
      the word that styles it. */
  const Registered := "Registered " + SuccessWord + " to the tournament"
  const RegisterFailed := "An error occurred while registering. Please try again."

  /** The word whose presence styles a message as a success. */
  const SuccessWord := "successfully"

  /** The message is shown in the success style, otherwise in the error style. */
  predicate IsSuccessMessage(message: string)
  {
    Includes(message, SuccessWord)
  }

  /** The Register button is disabled for a registered tournament, one that is
      not upcoming, or when the coach has no usable team. */
  predicate ButtonDisabled(t: Tournament, teamId: Option<int>)
  {
    t.isRegistered || t.status != Upcoming || !TruthyId(teamId)
  }

  /** The button's label: REGISTERED exactly for a registered tournament. */
  function ButtonLabel(t: Tournament): (caption: string)
    ensures caption == RegisteredLabel <==> t.isRegistered
  {
    if t.isRegistered then RegisteredLabel else RegisterLabel
  }

  /** An enabled button belongs to an upcoming, unregistered tournament, and a
      team is at hand to register. */
  lemma EnabledMeansEligible(t: Tournament, teamId: Option<int>)
    requires !ButtonDisabled(t, teamId)
    ensures !t.isRegistered && t.status == Upcoming && teamId.Some? && teamId.value != 0
    ensures ButtonLabel(t) == RegisterLabel
  {
  }

  predicate CoachedBy(coachId: Option<int>, t: Team)
  {
    t.coachId == coachId
  }

  /** The team `fetchTeams` settles on: the first of the coach's teams. */
  function CoachTeam(teams: seq<Team>, coachId: Option<int>): (r: Option<Team>)
    ensures r.None? <==> forall t :: t in teams ==> t.coachId != coachId
    ensures r.Some? ==> r.value in teams && r.value.coachId == coachId
    ensures r.Some? ==> exists i :: 0 <= i < |teams| && teams[i] == r.value
                          && forall j :: 0 <= j < i ==> teams[j].coachId != coachId
  {
    Find(teams, t => CoachedBy(coachId, t))
  }

  lemma SuccessWordSplit()
    ensures SuccessWord == "s" + "ucce" + "s" + "s" + "fully"
  {
  }

  /** The count of 's' in pieces without one joined by 's'. */
  lemma ThreeEsses(a: string, b: string)
    requires 's' !in a && 's' !in b
    ensures multiset("s" + a + "s" + "s" + b)['s'] == 3
  {
    assert multiset("s" + a + "s" + "s" + b) == multiset{'s'} + multiset(a) + multiset{'s'} + multiset{'s'} + multiset(b);
  }

  lemma TwoEsses(a: string, b: string, c: string)
    requires 's' !in a && 's' !in b && 's' !in c
    ensures multiset(a + "s" + b + "s" + c)['s'] == 2
  {
    assert multiset(a + "s" + b + "s" + c) == multiset(a) + multiset{'s'} + multiset(b) + multiset{'s'} + multiset(c);
  }

  lemma OneEss(a: string, b: string)
    requires 's' !in a && 's' !in b
    ensures multiset(a + "s" + b)['s'] == 1
  {
    assert multiset(a + "s" + b) == multiset(a) + multiset{'s'} + multiset(b);
  }

  /** A message with fewer than three letters 's' cannot contain "successfully". */
  lemma FewEssesNotSuccess(message: string)
    requires multiset(message)['s'] < 3
    ensures !IsSuccessMessage(message)
  {
    SuccessWordSplit();
    ThreeEsses("ucce", "fully");
    if IsSuccessMessage(message) {
      IncludesMultiset(message, SuccessWord);
    }
  }

  /** A message built from pieces without 's' and two single 's' is an error message. */
  lemma TwoEssesNotSuccess(a: string, b: string, c: string)
    requires 's' !in a && 's' !in b && 's' !in c
    ensures !IsSuccessMessage(a + "s" + b + "s" + c)
  {
    TwoEsses(a, b, c);
    FewEssesNotSuccess(a + "s" + b + "s" + c);
  }

  lemma OneEssNotSuccess(a: string, b: string)
    requires 's' !in a && 's' !in b
    ensures !IsSuccessMessage(a + "s" + b)
  {
    OneEss(a, b);
    FewEssesNotSuccess(a + "s" + b);
  }

  lemma RegisteredIsSuccess()
    ensures IsSuccessMessage(Registered)
  {
    IncludesInfix("Registered ", SuccessWord, " to the tournament");
  }

  lemma TournamentsFailedIsError()
    ensures !IsSuccessMessage(TournamentsFailed)
  {
    assert TournamentsFailed == "Error fetching tournament" + "s" + ". Plea" + "s" + "e try again.";
    TwoEssesNotSuccess("Error fetching tournament", ". Plea", "e try again.");
  }

  lemma NoTeamForCoachIsError()
    ensures !IsSuccessMessage(NoTeamForCoach)
  {
    assert NoTeamForCoach == "No team found for thi" + "s" + " coach.";
    OneEssNotSuccess("No team found for thi", " coach.");
  }

  lemma TeamsFailedIsError()
    ensures !IsSuccessMessage(TeamsFailed)
  {
    assert TeamsFailed == "Error fetching team" + "s" + ". Plea" + "s" + "e try again.";
    TwoEssesNotSuccess("Error fetching team", ". Plea", "e try again.");
  }

  lemma NoTeamToRegisterIsError()
    ensures !IsSuccessMessage(NoTeamToRegister)
  {
    assert NoTeamToRegister == "No team available for regi" + "s" + "tration.";
    OneEssNotSuccess("No team available for regi", "tration.");
  }

  lemma RegisterFailedIsError()
    ensures !IsSuccessMessage(RegisterFailed)
  {
    assert RegisterFailed == "An error occurred while regi" + "s" + "tering. Plea" + "s" + "e try again.";
    TwoEssesNotSuccess("An error occurred while regi", "tering. Plea", "e try again.");
  }

  /** The success message is styled as a success and every error message as an error. */
  lemma MessagesClassified()
    ensures IsSuccessMessage(Registered)
    ensures !IsSuccessMessage(TournamentsFailed)
    ensures !IsSuccessMessage(NoTeamForCoach)
    ensures !IsSuccessMessage(TeamsFailed)
    ensures !IsSuccessMessage(NoTeamToRegister)
    ensures !IsSuccessMessage(RegisterFailed)
  {
    RegisteredIsSuccess();
    TournamentsFailedIsError();
    NoTeamForCoachIsError();
    TeamsFailedIsError();
    NoTeamToRegisterIsError();
    RegisterFailedIsError();
  }

  /** The message `handleRegister` leaves: no team, registered, or failed. */
  function RegisterMessage(teamId: Option<int>, ok: bool): (message: string)
    ensures !TruthyId(teamId) ==> message == NoTeamToRegister
    ensures TruthyId(teamId) && ok ==> message == Registered
    ensures TruthyId(teamId) && !ok ==> message == RegisterFailed
  {
    if !TruthyId(teamId) then NoTeamToRegister
    else if ok then Registered
    else RegisterFailed
  }

  /** A registration attempt is shown as a success exactly when a request was
      sent for a usable team and succeeded. */
  lemma RegisterMessageStyled(teamId: Option<int>, ok: bool)
    ensures IsSuccessMessage(RegisterMessage(teamId, ok)) <==> TruthyId(teamId) && ok
  {
    if !TruthyId(teamId) {
      NoTeamToRegisterIsError();
    } else if ok {
      RegisteredIsSuccess();
    } else {
      RegisterFailedIsError();
    }
  }

  /** The request `handleRegister` sends. */
  datatype Registration = Registration(tid: Option<int>, teamid: Option<int>)

  class RegisterPage {
    const coachId: Option<int>
    var tournaments: seq<Tournament>
    var registrationMessage: string
    var teamId: Option<int>

    constructor (coachId: Option<int>)
      ensures this.coachId == coachId && tournaments == [] && registrationMessage == "" && teamId.None?
    {
      this.coachId := coachId;
      tournaments := [];
      registrationMessage := "";
      teamId := None;
    }

    /** `fetchTournaments`, with None for a failed request. */
    method ReceiveTournaments(reply: Option<seq<Tournament>>)
      modifies this
      ensures reply.Some? ==> tournaments == reply.value && registrationMessage == old(registrationMessage)
      ensures reply.None? ==> tournaments == old(tournaments) && registrationMessage == TournamentsFailed
      ensures teamId == old(teamId)
    {
      if reply.Some? {
        tournaments := reply.value;
      } else {
        registrationMessage := TournamentsFailed;
      }
    }

    /** `fetchTeams`. An empty body makes the filter throw, which is caught
        like a failed request. Otherwise the coach's first team gives the
        team id; with no such team the id stays as it was. */
    method ReceiveTeams(reply: Response<seq<Team>>)
      modifies this
      ensures !reply.Body? ==> teamId == old(teamId) && registrationMessage == TeamsFailed
      ensures reply.Body? && CoachTeam(reply.data, coachId).Some? ==>
                teamId == CoachTeam(reply.data, coachId).value.teamId && registrationMessage == old(registrationMessage)
      ensures reply.Body? && CoachTeam(reply.data, coachId).None? ==>
                teamId == old(teamId) && registrationMessage == NoTeamForCoach
      ensures tournaments == old(tournaments)
    {
      if !reply.Body? {
        registrationMessage := TeamsFailed;
        return;
      }
      var team := CoachTeam(reply.data, coachId);
      if team.Some? {
        teamId := team.value.teamId;
      } else {
        registrationMessage := NoTeamForCoach;
      }
    }

    /** `handleRegister`, with `ok` telling whether the request succeeded.
        Without a usable team id nothing is sent. */
    method Register(t: Tournament, ok: bool) returns (request: Option<Registration>)
      modifies this
      ensures request == if TruthyId(old(teamId)) then Some(Registration(t.tid, old(teamId))) else None
      ensures registrationMessage == RegisterMessage(old(teamId), ok)
      ensures teamId == old(teamId) && tournaments == old(tournaments)
    {
      registrationMessage := RegisterMessage(teamId, ok);
      if !TruthyId(teamId) {
        return None;
      }
      request := Some(Registration(t.tid, teamId));
    }
  }
}
