/** The admin's Manage User page: the user list with a name search, the
    manage modal with a role selector, and the loading and error screens. */
module ManageUsers {
  import opened Common
  import opened Seqs
  import opened Text

  datatype User = User(uid: Option<int>, firstName: Option<string>, lastName: Option<string>, role: Option<string>)

  /** What `users` holds: an array of users, or some other JSON value the server sent. */
  datatype UserList = Users(users: seq<User>) | NonArray

  const FetchFailed := "Failed to fetch users"
  const UnexpectedFormat := "Unexpected API response format"
  const DetailsFailed := "Failed to fetch user details"
  const UpdateFailed := "Failed to update user role"

  /** One name matches when it is present, non-empty and contains the term, ignoring case. */
  predicate NameMatches(name: Option<string>, searchTerm: string)
  {
    name.Some? && name.value != "" && IncludesIgnoringCase(name.value, searchTerm)
  }

  function UserMatches(searchTerm: string): User -> bool
  {
    (u: User) => NameMatches(u.firstName, searchTerm) || NameMatches(u.lastName, searchTerm)
  }

  /** `filteredUsers`: nothing unless `users` is an array; otherwise the users
      whose first or last name matches, in their original order. */
  function FilteredUsers(users: UserList, searchTerm: string): (r: seq<User>)
    ensures users.NonArray? ==> r == []
    ensures users.Users? ==> forall u :: u in r <==>
              u in users.users && (NameMatches(u.firstName, searchTerm) || NameMatches(u.lastName, searchTerm))
    ensures users.Users? ==> IsSubsequence(r, users.users)
    ensures users.Users? ==>
              forall u :: multiset(r)[u] == (if NameMatches(u.firstName, searchTerm) || NameMatches(u.lastName, searchTerm) then multiset(users.users)[u] else 0)
  {
    match users
    case NonArray => []
    case Users(us) => Filter(us, UserMatches(searchTerm))
  }

  /** With an empty term the list holds exactly the users with a non-empty first or last name. */
  lemma EmptyTermKeepsNamedUsers(us: seq<User>, u: User)
    ensures u in FilteredUsers(Users(us), "") <==>
              u in us && ((u.firstName.Some? && u.firstName.value != "") || (u.lastName.Some? && u.lastName.value != ""))
  {
    if u.firstName.Some? {
      assert Lower("") == "";
      assert Includes(Lower(u.firstName.value), "");
    }
    if u.lastName.Some? {
      assert Lower("") == "";
      assert Includes(Lower(u.lastName.value), "");
    }
  }

  /** `{ ...selectedUser, role }`: a user with only a role when none was selected. */
  function WithRole(selected: Option<User>, role: string): (u: User)
    ensures u.role == Some(role)
    ensures selected.Some? ==>
              (u.uid == selected.value.uid && u.firstName == selected.value.firstName
               && u.lastName == selected.value.lastName)
    ensures selected.None? ==> u.uid.None? && u.firstName.None? && u.lastName.None?
  {
    match selected
    case None => User(None, None, None, Some(role))
    case Some(s) => s.(role := Some(role))
  }

  /** The request `handleSaveRole` sends: the role, to the selected uid. */
  datatype RoleRequest = RoleRequest(uid: Option<int>, role: Option<string>)

  /** What the page renders. */
  datatype Screen = Loading | ErrorScreen(message: string) | ListScreen(users: seq<User>, modal: Option<User>)

  /** The loading screen wins over the error screen, which wins over the list. */
  function ScreenOf(isLoading: bool, error: Option<string>, users: UserList, searchTerm: string,
                    selectedUser: Option<User>): (s: Screen)
    ensures s.Loading? <==> isLoading
    ensures s.ErrorScreen? <==> !isLoading && error.Some?
    ensures s.ErrorScreen? ==> s.message == error.value
    ensures s.ListScreen? ==> s.users == FilteredUsers(users, searchTerm) && s.modal == selectedUser
  {
    if isLoading then Loading
    else if error.Some? then ErrorScreen(error.value)
    else ListScreen(FilteredUsers(users, searchTerm), selectedUser)
  }

  class ManageUser {
    var users: UserList
    var selectedUser: Option<User>
    var searchTerm: string
    var isLoading: bool
    var error: Option<string>

    /** The page mounts loading, with no users, no selection and no error. */
    constructor ()
      ensures users == Users([]) && selectedUser.None? && searchTerm == ""
      ensures isLoading && error.None?
    {
      users := Users([]);
      selectedUser := None;
      searchTerm := "";
      isLoading := true;
      error := None;
    }

    /** `fetchUsers` up to its request: the loading screen is on. */
    method BeginFetchUsers()
      modifies this
      ensures isLoading
      ensures users == old(users) && selectedUser == old(selectedUser) && searchTerm == old(searchTerm)
      ensures error == old(error)
    {
      isLoading := true;
    }

    /** The reply to `fetchUsers`. A body replaces the list and leaves any
        earlier error standing; an empty body empties the list with an error;
        a failure sets the fetch error. Loading ends in every case. */
    method FinishFetchUsers(reply: Response<UserList>)
      modifies this
      ensures !isLoading
      ensures reply.Body? ==> users == reply.data && error == old(error)
      ensures reply.Empty? ==> users == Users([]) && error == Some(UnexpectedFormat)
      ensures reply.Failed? ==> users == old(users) && error == Some(FetchFailed)
      ensures selectedUser == old(selectedUser) && searchTerm == old(searchTerm)
    {
      isLoading := false;
      match reply
      case Body(data) =>
        users := data;
      case Empty =>
        users := Users([]);
        error := Some(UnexpectedFormat);
      case Failed =>
        error := Some(FetchFailed);
    }

    /** `handleManageUser`: the fetched user becomes the selection. */
    method ReceiveUserDetails(reply: Response<User>)
      modifies this
      ensures reply.Failed? ==> selectedUser == old(selectedUser) && error == Some(DetailsFailed)
      ensures reply.Body? ==> selectedUser == Some(reply.data) && error == old(error)
      ensures reply.Empty? ==> selectedUser.None? && error == old(error)
      ensures users == old(users) && searchTerm == old(searchTerm) && isLoading == old(isLoading)
    {
      match reply
      case Failed =>
        error := Some(DetailsFailed);
      case Empty =>
        selectedUser := None;
      case Body(u) =>
        selectedUser := Some(u);
    }

    /** `handleRoleChange`: only the role of the selection changes. */
    method RoleChange(role: string)
      modifies this
      ensures selectedUser == Some(WithRole(old(selectedUser), role))
      ensures users == old(users) && searchTerm == old(searchTerm) && isLoading == old(isLoading)
      ensures error == old(error)
    {
      selectedUser := Some(WithRole(selectedUser, role));
    }

    /** `handleSaveRole`, with `ok` telling whether the request resolved.
        Without a selection nothing is sent and nothing changes. A resolved
        request clears the selection and starts the list fetch again; a
        failed one sets the update error. */
    method SaveRole(ok: bool) returns (request: Option<RoleRequest>)
      modifies this
      ensures old(selectedUser).None? ==> request.None? && selectedUser.None?
                                          && isLoading == old(isLoading) && error == old(error)
      ensures old(selectedUser).Some? ==> request == Some(RoleRequest(old(selectedUser).value.uid, old(selectedUser).value.role))
      ensures old(selectedUser).Some? && ok ==> selectedUser.None? && isLoading && error == old(error)
      ensures old(selectedUser).Some? && !ok ==> selectedUser == old(selectedUser) && isLoading == old(isLoading)
                                                 && error == Some(UpdateFailed)
      ensures users == old(users) && searchTerm == old(searchTerm)
    {
      if selectedUser.None? {
        return None;
      }
      request := Some(RoleRequest(selectedUser.value.uid, selectedUser.value.role));
      if ok {
        BeginFetchUsers();
        selectedUser := None;
      } else {
        error := Some(UpdateFailed);
      }
    }

    method Search(term: string)
      modifies this
      ensures searchTerm == term
      ensures users == old(users) && selectedUser == old(selectedUser) && isLoading == old(isLoading)
      ensures error == old(error)
    {
      searchTerm := term;
    }

    function Screen(): (s: Screen)
      reads this
      ensures s.Loading? <==> isLoading
      ensures s.ErrorScreen? <==> !isLoading && error.Some?
      ensures s.ListScreen? ==> s.users == FilteredUsers(users, searchTerm) && s.modal == selectedUser
    {
      ScreenOf(isLoading, error, users, searchTerm, selectedUser)
    }
  }

  // ---------------------------------------------------------------- scenarios

  const John := "John"
  const Doe := "Doe"
  const Jane := "Jane"
  const Smith := "Smith"

  /** A name without the letter o never contains "John", whatever the case. */
  lemma NoOMeansNoJohn(name: string)
    requires 'o' !in Lower(name)
    ensures !IncludesIgnoringCase(name, John)
  {
    assert Lower(John)[1] == 'o';
    if IncludesIgnoringCase(name, John) {
      IncludesMultiset(Lower(name), Lower(John));
    }
  }

  lemma LowerJane()
    ensures Lower(Jane) == "jane"
  {
  }

  lemma LowerSmith()
    ensures Lower(Smith) == "smith"
  {
  }

  /** Searching "John" keeps John Doe and drops Jane Smith. */
  lemma SearchScenario(john: User, jane: User, term: string)
    requires john.firstName == Some(John) && john.lastName == Some(Doe)
    requires jane.firstName == Some(Jane) && jane.lastName == Some(Smith)
    requires term == John
    ensures FilteredUsers(Users([john, jane]), term) == [john]
  {
    PrefixIncludedIgnoringCase(John, "");
    assert John + "" == John;
    LowerJane();
    LowerSmith();
    NoOMeansNoJohn(Jane);
    NoOMeansNoJohn(Smith);
    var keep := UserMatches(term);
    assert keep(john) && !keep(jane);
    assert Filter([jane], keep) == [] by {
      assert [jane][1..] == [];
    }
    assert [john, jane][1..] == [jane];
  }

  /** The documented role change: after choosing a role for the selected
      user, saving sends that role for that user's uid, and a resolved
      request clears the selection. */
  method RoleChangeAndSave(page: ManageUser, role: string) returns (request: Option<RoleRequest>)
    requires page.selectedUser.Some?
    modifies page
    ensures request == Some(RoleRequest(old(page.selectedUser).value.uid, Some(role)))
    ensures page.selectedUser.None? && page.isLoading
  {
    page.RoleChange(role);
    request := page.SaveRole(true);
  }

  /** A failed fetch on a fresh page shows "Error: Failed to fetch users". */
  lemma FetchErrorScenario(users: UserList, searchTerm: string, selectedUser: Option<User>)
    ensures ScreenOf(false, Some(FetchFailed), users, searchTerm, selectedUser) == ErrorScreen(FetchFailed)
    ensures ScreenOf(true, Some(FetchFailed), users, searchTerm, selectedUser) == Loading
  {
  }
}
