/** The admin's Tournament Management page: a form that creates a tournament
    or edits the one chosen from the list, and per-tournament Edit, Delete and
    Start buttons. */
module TournamentManagement {
  import opened Common
  import opened Seqs

  /** A tournament record; the form holds one too, with no `tid` until an
      existing tournament is copied into it. */
  datatype Tournament = Tournament(
    tid: Option<int>, tournamentName: string, startDate: string, endDate: string,
    status: string, uid: Option<int>)

  const Upcoming := "UPCOMING"
  const LiveStatus := "LIVE"

  /** The inputs of the form, each named after the field it writes. */
  datatype FormField = TournamentName | StartDate | EndDate | Status

  /** `{ ...form, [name]: value }`: only the named field changes. */
  function WithField(t: Tournament, f: FormField, value: string): (r: Tournament)
    ensures r.tid == t.tid && r.uid == t.uid
    ensures r.tournamentName == (if f == TournamentName then value else t.tournamentName)
    ensures r.startDate == (if f == StartDate then value else t.startDate)
    ensures r.endDate == (if f == EndDate then value else t.endDate)
    ensures r.status == (if f == Status then value else t.status)
  {
    match f
    case TournamentName => t.(tournamentName := value)
    case StartDate => t.(startDate := value)
    case EndDate => t.(endDate := value)
    case Status => t.(status := value)
  }

  /** The value a form input shows. */
  function FieldOf(t: Tournament, f: FormField): string
  {
    match f
    case TournamentName => t.tournamentName
    case StartDate => t.startDate
    case EndDate => t.endDate
    case Status => t.status
  }

  /** Reading back a field gives the value written to it, and any other field as it was. */
  lemma WithFieldReadBack(t: Tournament, f: FormField, g: FormField, value: string)
    ensures FieldOf(WithField(t, f, value), g) == if f == g then value else FieldOf(t, g)
  {
  }

  /** The form `resetNewTournament` restores: empty name and dates, status
      UPCOMING, no tid, and the logged-in uid. */
  function BlankForm(uid: Option<int>): (t: Tournament)
    ensures t.tid.None? && t.tournamentName == "" && t.startDate == "" && t.endDate == ""
    ensures t.status == Upcoming && t.uid == uid
  {
    Tournament(None, "", "", "", Upcoming, uid)
  }

  /** The Start button shows for an upcoming tournament created by the logged-in user. */
  predicate StartOffered(t: Tournament, uid: Option<int>)
  {
    t.status == Upcoming && t.uid == uid
  }

  predicate HasTid(tid: Option<int>, t: Tournament)
  {
    t.tid == tid
  }

  function MarkLive(t: Tournament): Tournament
  {
    t.(status := LiveStatus)
  }

  /** The list after a successful start of `tid`: every tournament with that
      tid is LIVE, with its other fields as they were; the others are unchanged. */
  function Started(ts: seq<Tournament>, tid: Option<int>): (r: seq<Tournament>)
    ensures |r| == |ts|
    ensures forall i :: 0 <= i < |ts| && ts[i].tid == tid ==>
              r[i].status == LiveStatus
              && r[i] == ts[i].(status := r[i].status)
    ensures forall i :: 0 <= i < |ts| && ts[i].tid != tid ==> r[i] == ts[i]
  {
    MapWhere(ts, t => HasTid(tid, t), MarkLive)
  }

  /** Starting twice is the same as starting once. */
  lemma StartIdempotent(ts: seq<Tournament>, tid: Option<int>)
    ensures Started(Started(ts, tid), tid) == Started(ts, tid)
  {
    var once := Started(ts, tid);
    var twice := Started(once, tid);
    assert forall i :: 0 <= i < |ts| ==> twice[i] == once[i];
  }

  /** Once started, a tournament no longer offers the Start button. */
  lemma StartedNotOffered(ts: seq<Tournament>, tid: Option<int>, uid: Option<int>)
    ensures forall i :: 0 <= i < |ts| && ts[i].tid == tid ==> !StartOffered(Started(ts, tid)[i], uid)
  {
    assert LiveStatus != Upcoming by {
      assert LiveStatus[0] != Upcoming[0];
    }
  }

  /** The request `handleCreateOrEdit` sends. */
  datatype Request = Update(data: Tournament) | Create(data: Tournament)

  /** The request `handleStart` sends: the tournament and the logged-in user. */
  datatype StartRequest = StartRequest(tid: Option<int>, uid: Option<int>)

  class TournamentPage {
    const uid: Option<int>
    var tournaments: seq<Tournament>
    var currentIndex: Option<nat>
    var form: Tournament

    /** An index under edit names a tournament of the list. */
    predicate Valid()
      reads this
    {
      currentIndex.Some? ==> currentIndex.value < |tournaments|
    }

    constructor (uid: Option<int>)
      ensures Valid()
      ensures this.uid == uid && tournaments == [] && currentIndex.None? && form == BlankForm(uid)
    {
      this.uid := uid;
      tournaments := [];
      currentIndex := None;
      form := BlankForm(uid);
    }

    /** The list fetched on mount, None when the request failed. */
    method Load(reply: Option<seq<Tournament>>)
      requires Valid() && currentIndex.None?
      modifies this
      ensures Valid()
      ensures tournaments == if reply.Some? then reply.value else old(tournaments)
      ensures currentIndex == old(currentIndex) && form == old(form)
    {
      if reply.Some? {
        tournaments := reply.value;
      }
    }

    /** `handleInputChange`. */
    method InputChange(f: FormField, value: string)
      requires Valid()
      modifies this
      ensures Valid()
      ensures form == WithField(old(form), f, value)
      ensures tournaments == old(tournaments) && currentIndex == old(currentIndex)
    {
      form := WithField(form, f, value);
    }

    /** `resetNewTournament`. */
    method Reset()
      modifies this
      ensures Valid()
      ensures form == BlankForm(uid) && currentIndex.None?
      ensures tournaments == old(tournaments)
    {
      form := BlankForm(uid);
      currentIndex := None;
    }

    /** `handleCreateOrEdit`, with `reply` the tournament the server returns,
        None when the request failed. The request carries the form with the
        logged-in uid; an edit replaces the tournament under edit, a create
        appends; either success resets the form, a failure changes nothing. */
    method CreateOrEdit(reply: Option<Tournament>) returns (request: Request)
      requires Valid()
      modifies this
      ensures Valid()
      ensures request.data == old(form).(uid := uid)
      ensures request.Update? <==> old(currentIndex).Some?
      ensures reply.None? ==> tournaments == old(tournaments) && currentIndex == old(currentIndex) && form == old(form)
      ensures reply.Some? && old(currentIndex).Some? ==>
                tournaments == old(tournaments)[old(currentIndex).value := reply.value]
      ensures reply.Some? && old(currentIndex).None? ==> tournaments == old(tournaments) + [reply.value]
      ensures reply.Some? ==> form == BlankForm(uid) && currentIndex.None?
    {
      var data := form.(uid := uid);
      if currentIndex.Some? {
        request := Update(data);
        if reply.Some? {
          tournaments := tournaments[currentIndex.value := reply.value];
          Reset();
        }
      } else {
        request := Create(data);
        if reply.Some? {
          tournaments := tournaments + [reply.value];
          Reset();
        }
      }
    }

    /** `handleEdit`: the chosen tournament is copied into the form and its index recorded. */
    method Edit(index: nat)
      requires Valid() && index < |tournaments|
      modifies this
      ensures Valid()
      ensures currentIndex == Some(index) && form == tournaments[index]
      ensures tournaments == old(tournaments)
    {
      currentIndex := Some(index);
      form := tournaments[index];
    }

    /** `handleDelete`, with `ok` telling whether the request succeeded; the
        request names the tid at that index. */
    method Delete(index: nat, ok: bool) returns (tid: Option<int>)
      requires Valid() && index < |tournaments|
      modifies this
      ensures Valid()
      ensures tid == old(tournaments)[index].tid
      ensures ok ==> tournaments == RemoveAt(old(tournaments), index) && form == BlankForm(uid) && currentIndex.None?
      ensures !ok ==> tournaments == old(tournaments) && form == old(form) && currentIndex == old(currentIndex)
    {
      tid := tournaments[index].tid;
      if ok {
        tournaments := RemoveAt(tournaments, index);
        Reset();
      }
    }

    /** `handleStart`, with `ok` telling whether the request succeeded. */
    method Start(tid: Option<int>, ok: bool) returns (request: StartRequest)
      requires Valid()
      modifies this
      ensures Valid()
      ensures request == StartRequest(tid, uid)
      ensures tournaments == if ok then Started(old(tournaments), tid) else old(tournaments)
      ensures form == old(form) && currentIndex == old(currentIndex)
    {
      request := StartRequest(tid, uid);
      if ok {
        tournaments := Started(tournaments, tid);
      }
    }
  }

  /** An edit round: Edit, then a successful update, leaves the list length
      alone and changes only the edited position. */
  method EditRound(page: TournamentPage, index: nat, updated: Tournament)
    requires page.Valid() && index < |page.tournaments|
    modifies page
    ensures page.Valid()
    ensures |page.tournaments| == |old(page.tournaments)|
    ensures page.tournaments[index] == updated
    ensures forall j :: 0 <= j < |page.tournaments| && j != index ==> page.tournaments[j] == old(page.tournaments)[j]
    ensures page.currentIndex.None?
  {
    page.Edit(index);
    var request := page.CreateOrEdit(Some(updated));
    assert request.Update?;
  }
}
