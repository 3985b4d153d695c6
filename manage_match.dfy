/** The admin's Manage Match page: pick a tournament, list its matches, edit
    a match in a popup, start an upcoming match, and ask the server to
    schedule the semi-finals or the final. */
module ManageMatch {
  import opened Common
  import opened Seqs
  import opened Text

  /** A match as the server sends it; `matchType` is its `type` field. */
  datatype Match = Match(
    mid: int, team1: string, team2: string, matchDate: string, stadium: string,
    status: string, matchType: string)

  /** `editingMatch`, the record the popup edits and the update sends. */
  datatype MatchForm = MatchForm(
    team1: string, team2: string, matchDate: string, stadium: string, status: string, matchType: string)

  const EmptyForm := MatchForm("", "", "", "", "", "")
  const Normal := "NORMAL"
  const Upcoming := "UPCOMING"
  const LiveStatus := "LIVE"
  const MatchStarted := "Match started"

  /** The form `handleManage` fills: the match's fields, its `type` as
      `matchType`, and its date cut at the first 'T'. */
  function FormOf(m: Match): (f: MatchForm)
    ensures f.team1 == m.team1 && f.team2 == m.team2 && f.stadium == m.stadium && f.status == m.status
    ensures f.matchType == m.matchType
    ensures f.matchDate <= m.matchDate && 'T' !in f.matchDate
    ensures |f.matchDate| < |m.matchDate| ==> m.matchDate[|f.matchDate|] == 'T'
  {
    MatchForm(m.team1, m.team2, BeforeFirst(m.matchDate, 'T'), m.stadium, m.status, m.matchType)
  }

  /** An ISO date-time "date T time" shows as its date part alone. */
  lemma {:induction false} DatePartOfDateTime(date: string, time: string)
    requires 'T' !in date
    ensures BeforeFirst(date + "T" + time, 'T') == date
  {
    if date != [] {
      assert (date + "T" + time)[1..] == date[1..] + "T" + time;
      DatePartOfDateTime(date[1..], time);
    }
  }

  /** A date without a 'T' is kept whole. */
  lemma {:induction false} DateWithoutTimeKept(date: string)
    requires 'T' !in date
    ensures BeforeFirst(date, 'T') == date
  {
    if date != [] {
      DateWithoutTimeKept(date[1..]);
    }
  }

  /** The inputs of the popup, each named after the field it writes. */
  datatype FormField = Team1 | Team2 | MatchDate | Stadium | Status

  /** `{ ...editingMatch, [name]: value }`: only the named field changes. */
  function WithField(f: MatchForm, field: FormField, value: string): (r: MatchForm)
    ensures r.team1 == (if field == Team1 then value else f.team1)
    ensures r.team2 == (if field == Team2 then value else f.team2)
    ensures r.matchDate == (if field == MatchDate then value else f.matchDate)
    ensures r.stadium == (if field == Stadium then value else f.stadium)
    ensures r.status == (if field == Status then value else f.status)
    ensures r.matchType == f.matchType
  {
    match field
    case Team1 => f.(team1 := value)
    case Team2 => f.(team2 := value)
    case MatchDate => f.(matchDate := value)
    case Stadium => f.(stadium := value)
    case Status => f.(status := value)
  }

  /** MANAGE is offered for every match that is not a NORMAL (league) match. */
  predicate OffersManage(m: Match)
  {
    m.matchType != Normal
  }

  /** START is offered for an upcoming match. */
  predicate OffersStart(m: Match)
  {
    m.status == Upcoming
  }

  predicate HasMid(mid: int, m: Match)
  {
    m.mid == mid
  }

  function MarkLive(m: Match): Match
  {
    m.(status := LiveStatus)
  }

  /** The list after a match starts: the matches with that mid are LIVE, with
      their other fields as they were; the others are unchanged. */
  function StartedByMid(ms: seq<Match>, mid: int): (r: seq<Match>)
    ensures |r| == |ms|
    ensures forall i :: 0 <= i < |ms| && ms[i].mid == mid ==> r[i].status == LiveStatus && r[i] == ms[i].(status := r[i].status)
    ensures forall i :: 0 <= i < |ms| && ms[i].mid != mid ==> r[i] == ms[i]
  {
    MapWhere(ms, m => HasMid(mid, m), MarkLive)
  }

  /** A started match no longer offers START, and its MANAGE button is as it was. */
  lemma StartedNotOffered(ms: seq<Match>, mid: int)
    ensures forall i :: 0 <= i < |ms| && ms[i].mid == mid ==>
              !OffersStart(StartedByMid(ms, mid)[i]) && (OffersManage(StartedByMid(ms, mid)[i]) <==> OffersManage(ms[i]))
  {
    assert LiveStatus != Upcoming by {
      assert LiveStatus[0] != Upcoming[0];
    }
  }

  /** The list after an update: the matches with that mid become the server's record. */
  function ReplacedByMid(ms: seq<Match>, mid: int, updated: Match): (r: seq<Match>)
    ensures |r| == |ms|
    ensures forall i :: 0 <= i < |ms| && ms[i].mid == mid ==> r[i] == updated
    ensures forall i :: 0 <= i < |ms| && ms[i].mid != mid ==> r[i] == ms[i]
  {
    MapWhere(ms, m => HasMid(mid, m), _ => updated)
  }

  /** An update that keeps the mid can be applied twice with the same effect as once. */
  lemma ReplaceIdempotent(ms: seq<Match>, updated: Match)
    ensures ReplacedByMid(ReplacedByMid(ms, updated.mid, updated), updated.mid, updated)
            == ReplacedByMid(ms, updated.mid, updated)
  {
    var once := ReplacedByMid(ms, updated.mid, updated);
    var twice := ReplacedByMid(once, updated.mid, updated);
    assert forall i :: 0 <= i < |ms| ==> twice[i] == once[i];
  }

  /** The request `handleSubmit` sends: the form, to the selected match's mid. */
  datatype UpdateRequest = UpdateRequest(mid: int, form: MatchForm)

  datatype Round = SemiFinals | Final

  /** The request a schedule button sends, for the selected tournament and the user. */
  datatype ScheduleRequest = ScheduleRequest(round: Round, tid: Option<int>, uid: int)

  /** The alert a schedule button raises, if any. */
  datatype ScheduleAlert = UserIdNotFound | Scheduled | ScheduleFailed | NoAlert

  class ManageMatchPage {
    var uid: Option<int>
    var matches: seq<Match>
    var selectedMatch: Option<Match>
    var editingMatch: MatchForm
    var showPopup: bool
    var tournaments: seq<int>
    var selectedTournament: Option<int>

    /** The page mounts with nothing listed or selected; `uid` is the stored user's. */
    constructor (uid: Option<int>)
      ensures this.uid == uid && matches == [] && selectedMatch.None? && editingMatch == EmptyForm
      ensures !showPopup && tournaments == [] && selectedTournament.None?
    {
      this.uid := uid;
      matches := [];
      selectedMatch := None;
      editingMatch := EmptyForm;
      showPopup := false;
      tournaments := [];
      selectedTournament := None;
    }

    /** `fetchTournaments`: the ids of the fetched tournaments fill the
        selector; a failure keeps the old list. */
    method ReceiveTournaments(reply: Option<seq<int>>)
      modifies this
      ensures tournaments == if reply.Some? then reply.value else old(tournaments)
      ensures uid == old(uid) && matches == old(matches) && selectedMatch == old(selectedMatch)
      ensures editingMatch == old(editingMatch) && showPopup == old(showPopup) && selectedTournament == old(selectedTournament)
    {
      if reply.Some? {
        tournaments := reply.value;
      }
    }

    /** `handleTournamentChange`, with `parsed` the parsed option value (None
        for NaN). The matches of that tournament are fetched. */
    method SelectTournament(parsed: Option<int>) returns (fetch: Option<int>)
      modifies this
      ensures selectedTournament == parsed && fetch == parsed
      ensures uid == old(uid) && matches == old(matches) && selectedMatch == old(selectedMatch)
      ensures editingMatch == old(editingMatch) && showPopup == old(showPopup) && tournaments == old(tournaments)
    {
      selectedTournament := parsed;
      fetch := parsed;
    }

    /** The schedule buttons show only for a truthy tournament id. */
    predicate ScheduleButtonsShown()
      reads this
    {
      TruthyId(selectedTournament)
    }

    /** `fetchMatches`: the fetched list replaces the old one; a failure keeps it. */
    method ReceiveMatches(reply: Option<seq<Match>>)
      modifies this
      ensures matches == if reply.Some? then reply.value else old(matches)
      ensures uid == old(uid) && selectedMatch == old(selectedMatch) && editingMatch == old(editingMatch)
      ensures showPopup == old(showPopup) && tournaments == old(tournaments) && selectedTournament == old(selectedTournament)
    {
      if reply.Some? {
        matches := reply.value;
      }
    }

    /** `handleManage`: the popup opens on the chosen match. */
    method Manage(m: Match)
      modifies this
      ensures selectedMatch == Some(m) && editingMatch == FormOf(m) && showPopup
      ensures uid == old(uid) && matches == old(matches)
      ensures tournaments == old(tournaments) && selectedTournament == old(selectedTournament)
    {
      selectedMatch := Some(m);
      editingMatch := FormOf(m);
      showPopup := true;
    }

    /** `handleInputChange` in the popup. */
    method InputChange(field: FormField, value: string)
      modifies this
      ensures editingMatch == WithField(old(editingMatch), field, value)
      ensures uid == old(uid) && matches == old(matches) && selectedMatch == old(selectedMatch)
      ensures showPopup == old(showPopup) && tournaments == old(tournaments) && selectedTournament == old(selectedTournament)
    {
      editingMatch := WithField(editingMatch, field, value);
    }

    /** `handleSubmit`, with `reply` the answer to the update. Without a
        selected match the request URL cannot be built and nothing is sent.
        A body replaces the matches with the selected mid and closes the
        popup; the selection itself stays. */
    method Submit(reply: Response<Match>) returns (request: Option<UpdateRequest>)
      modifies this
      ensures old(selectedMatch).None? ==> request.None?
      ensures old(selectedMatch).Some? ==> request == Some(UpdateRequest(old(selectedMatch).value.mid, old(editingMatch)))
      ensures old(selectedMatch).Some? && reply.Body? ==>
                matches == ReplacedByMid(old(matches), old(selectedMatch).value.mid, reply.data) && !showPopup
      ensures old(selectedMatch).None? || !reply.Body? ==> matches == old(matches) && showPopup == old(showPopup)
      ensures uid == old(uid) && selectedMatch == old(selectedMatch) && editingMatch == old(editingMatch)
      ensures tournaments == old(tournaments) && selectedTournament == old(selectedTournament)
    {
      if selectedMatch.None? {
        return None;
      }
      request := Some(UpdateRequest(selectedMatch.value.mid, editingMatch));
      if reply.Body? {
        matches := ReplacedByMid(matches, selectedMatch.value.mid, reply.data);
        showPopup := false;
      }
    }

    /** `handleStart`, with `reply` the answer to the start request: only the
        exact answer "Match started" marks the match LIVE. */
    method Start(m: Match, reply: Response<string>) returns (request: int)
      modifies this
      ensures request == m.mid
      ensures matches == if reply == Body(MatchStarted) then StartedByMid(old(matches), m.mid) else old(matches)
      ensures uid == old(uid) && selectedMatch == old(selectedMatch) && editingMatch == old(editingMatch)
      ensures showPopup == old(showPopup) && tournaments == old(tournaments) && selectedTournament == old(selectedTournament)
    {
      request := m.mid;
      if reply == Body(MatchStarted) {
        matches := StartedByMid(matches, m.mid);
      }
    }

    /** `handleClosePopup`: the popup closes and the selection is cleared. */
    method ClosePopup()
      modifies this
      ensures !showPopup && selectedMatch.None?
      ensures uid == old(uid) && matches == old(matches) && editingMatch == old(editingMatch)
      ensures tournaments == old(tournaments) && selectedTournament == old(selectedTournament)
    {
      showPopup := false;
      selectedMatch := None;
    }

    /** `handleScheduleSemiFinals` and `handleScheduleFinal`, with `reply` the
        answer to the request. Without a truthy uid nothing is sent. A truthy
        body raises the success alert and refetches the tournament's matches. */
    method Schedule(round: Round, reply: Response<()>)
      returns (request: Option<ScheduleRequest>, alert: ScheduleAlert, refetch: Option<Option<int>>)
      ensures !TruthyId(uid) ==> request.None? && alert == UserIdNotFound && refetch.None?
      ensures TruthyId(uid) ==> request == Some(ScheduleRequest(round, selectedTournament, uid.value))
      ensures TruthyId(uid) ==> (alert == Scheduled <==> reply.Body?)
      ensures TruthyId(uid) ==> (alert == ScheduleFailed <==> reply.Failed?)
      ensures refetch.Some? <==> TruthyId(uid) && reply.Body?
      ensures refetch.Some? ==> refetch.value == selectedTournament
    {
      if !TruthyId(uid) {
        return None, UserIdNotFound, None;
      }
      request := Some(ScheduleRequest(round, selectedTournament, uid.value));
      match reply
      case Body(_) =>
        alert := Scheduled;
        refetch := Some(selectedTournament);
      case Empty =>
        alert := NoAlert;
        refetch := None;
      case Failed =>
        alert := ScheduleFailed;
        refetch := None;
    }
  }
}
