/** The user administration page: a paged table of the organisation's users,
    one dialog to create or edit a user and one to assign or remove teams. */
module ManageUsers {
  import opened Common

  /** A team as the page lists it. */
  datatype TeamRef = TeamRef(id: Id, name: string)

  /** A user row; `teams` may be absent. */
  datatype User = User(id: Id, name: string, email: string, teams: Option<seq<TeamRef>>)

  /** The answer of `getUsers`: always `{count, results}`. */
  datatype UsersPage = UsersPage(count: nat, results: seq<User>)

  /** `formData` of the user dialog. */
  datatype UserForm = UserForm(name: string, email: string, password: string)

  const EmptyUserForm := UserForm("", "", "")

  /** The body of `createUser`: the form, the organisation and the role. */
  datatype NewUserPayload = NewUserPayload(
    name: string, email: string, password: string, organization: Option<Id>, role: string)

  /** The body of `updateUser`: name and email, and the password only when
      one was typed. */
  datatype UserUpdate = UserUpdate(name: string, email: string, password: Option<string>)

  datatype UserRequest =
    | GetUsers(organization: Option<Id>, page: int)
    | GetTeams(org: Id)
    | CreateUser(payload: NewUserPayload)
    | UpdateUser(id: Id, update: UserUpdate)
    | DeleteUser(id: Id, organization: Option<Id>)
    | AssignTeam(user: Id, team: Id)
    | RemoveTeam(user: Id, team: Id)

  /** The create payload: every form field, plus the current organisation and
      the role `'MEMBER'`. */
  function NewUser(form: UserForm, organization: Option<Id>): (r: NewUserPayload)
    ensures r.name == form.name && r.email == form.email && r.password == form.password
    ensures r.organization == organization && r.role == "MEMBER"
  {
    NewUserPayload(form.name, form.email, form.password, organization, "MEMBER")
  }

  /** The update payload: the password goes along exactly when it is
      non-empty. */
  function UpdateOf(form: UserForm): (r: UserUpdate)
    ensures r.name == form.name && r.email == form.email
    ensures r.password.Some? <==> form.password != ""
    ensures r.password.Some? ==> r.password.value == form.password
  {
    UserUpdate(form.name, form.email, if form.password != "" then Some(form.password) else None)
  }

  /** The ids of a user's teams. */
  function TeamIds(teams: seq<TeamRef>): (r: seq<Id>)
    ensures |r| == |teams| && forall k :: 0 <= k < |r| ==> r[k] == teams[k].id
  {
    seq(|teams|, k requires 0 <= k < |teams| => teams[k].id)
  }

  /** `getAvailableTeams`: every team when no user is selected or the user
      has no team list; otherwise the teams the user is not in. */
  function AvailableTeams(all: seq<TeamRef>, selected: Option<User>): (r: seq<TeamRef>)
    ensures selected.None? || selected.value.teams.None? ==> r == all
    ensures selected.Some? && selected.value.teams.Some? ==>
      forall t :: t in r <==> t in all && !Contains(TeamIds(selected.value.teams.value), t.id)
  {
    if selected.None? || selected.value.teams.None? then all
    else
      FilterSpec(all, (t: TeamRef) => !Contains(TeamIds(selected.value.teams.value), t.id));
      Filter(all, (t: TeamRef) => !Contains(TeamIds(selected.value.teams.value), t.id))
  }

  /** No team offered for assignment is one the user already has. */
  lemma AvailableExcludesAssigned(all: seq<TeamRef>, user: User)
    requires user.teams.Some?
    ensures forall t :: t in user.teams.value ==> t !in AvailableTeams(all, Some(user))
  {
    var teams := user.teams.value;
    forall t | t in teams ensures t !in AvailableTeams(all, Some(user)) {
      var k :| 0 <= k < |teams| && teams[k] == t;
      assert TeamIds(teams)[k] == t.id;
    }
  }

  /** `results.find(u => u.id === id)`. */
  function FindUser(users: seq<User>, id: Id): Option<User> {
    Find(users, (u: User) => u.id == id)
  }

  /** The Previous button: `max(1, p - 1)`. */
  function PreviousPageOf(p: int): (r: int)
    ensures r >= 1
    ensures p > 1 ==> r == p - 1
    ensures p <= 1 ==> r == 1
  {
    if p - 1 > 1 then p - 1 else 1
  }

  /** The Next button: `min(totalPages, p + 1)`. */
  function NextPageOf(p: int, totalPages: nat): (r: int)
    ensures r <= totalPages
    ensures p < totalPages ==> r == p + 1
    ensures p >= totalPages ==> r == totalPages
  {
    if p + 1 < totalPages then p + 1 else totalPages
  }

  /** Both buttons keep a page in `[1, totalPages]` inside that range. */
  lemma PagerStaysInRange(p: int, totalPages: nat)
    requires 1 <= p <= totalPages
    ensures 1 <= PreviousPageOf(p) <= totalPages
    ensures 1 <= NextPageOf(p, totalPages) <= totalPages
    ensures PreviousPageOf(p) <= p <= NextPageOf(p, totalPages)
  {
  }

  class ManageUsersPage {
    var users: seq<User>
    var error: string
    var page: int
    var totalPages: nat
    /** The user dialog, and the user it edits (none when it creates). */
    var showForm: bool
    var editing: Option<User>
    var form: UserForm
    /** The teams dialog and its user. */
    var showTeams: bool
    var selectedUser: Option<User>
    var selectedTeamId: string
    var allTeams: seq<TeamRef>
    var organizationId: Option<Id>
    /** The requests sent so far, in order, and the alerts shown. */
    var sent: seq<UserRequest>
    var alerts: seq<string>

    ghost predicate Valid()
      reads this
    {
      page >= 1
    }

    constructor ()
      ensures Valid()
      ensures users == [] && error == "" && page == 1 && totalPages == 1
      ensures !showForm && editing.None? && form == EmptyUserForm
      ensures !showTeams && selectedUser.None? && selectedTeamId == "" && allTeams == []
      ensures organizationId.None? && sent == [] && alerts == []
    {
      users := [];
      error := "";
      page := 1;
      totalPages := 1;
      showForm := false;
      editing := None;
      form := EmptyUserForm;
      showTeams := false;
      selectedUser := None;
      selectedTeamId := "";
      allTeams := [];
      organizationId := None;
      sent := [];
      alerts := [];
    }

    /** The request `fetchUsers(organizationId)` sends: none without an
        organisation, otherwise the current page. */
    function UsersRequest(): (r: seq<UserRequest>)
      reads this
      ensures |r| <= 1
      ensures r == [] <==> !Known(organizationId)
      ensures r != [] ==> r[0] == GetUsers(organizationId, page)
    {
      if Known(organizationId) then [GetUsers(organizationId, page)] else []
    }

    /** The table `fetchUsers(organizationId)` leaves when it starts from the
        rows `users0`, `pages0` pages and the error `error0`: unchanged without
        an organisation; otherwise the answer's rows with `ceil(count / 10)`
        pages and no error, or the error message. */
    ghost predicate UsersTable(users0: seq<User>, pages0: nat, error0: string, reply: Reply<UsersPage>)
      reads this
    {
      if !Known(organizationId) then users == users0 && totalPages == pages0 && error == error0
      else match reply
        case Ok(data) => users == data.results && totalPages == Pages(data.count) && error == ""
        case Failed(_) => users == users0 && totalPages == pages0 && error == "Failed to load users."
    }

    /** `fetchUsers(orgId)`: nothing without an organisation; otherwise the
        current page is requested and the table, `ceil(count / 10)` pages and
        a cleared error follow, or an error message on failure. */
    method FetchUsers(org: Option<Id>, reply: Reply<UsersPage>)
      modifies this`users, this`totalPages, this`error, this`sent
      ensures !Known(org) ==> unchanged(this)
      ensures Known(org) ==> sent == old(sent) + [GetUsers(org, page)]
      ensures Known(org) && reply.Ok? ==>
        users == reply.value.results && totalPages == Pages(reply.value.count) && error == ""
      ensures Known(org) && reply.Failed? ==>
        users == old(users) && totalPages == old(totalPages) && error == "Failed to load users."
      ensures org == organizationId ==>
        sent == old(sent) + UsersRequest() && UsersTable(old(users), old(totalPages), old(error), reply)
    {
      if !Known(org) {
        return;
      }
      sent := sent + [GetUsers(org, page)];
      match reply {
        case Ok(data) =>
          users := data.results;
          totalPages := Pages(data.count);
          error := "";
        case Failed(_) =>
          error := "Failed to load users.";
      }
    }

    /** `fetchTeams(orgId)`: nothing without an organisation; otherwise the
        dialog's team list is the answer's rows; a failure is only logged. */
    method FetchTeams(org: Option<Id>, reply: Reply<ListResponse<TeamRef>>)
      modifies this`allTeams, this`sent
      ensures !Known(org) ==> unchanged(this)
      ensures Known(org) ==> sent == old(sent) + [GetTeams(org.value)]
      ensures Known(org) && reply.Ok? ==> allTeams == Rows(reply.value)
      ensures Known(org) && reply.Failed? ==> allTeams == old(allTeams)
    {
      if !Known(org) {
        return;
      }
      sent := sent + [GetTeams(org.value)];
      if reply.Ok? {
        allTeams := Rows(reply.value);
      }
    }

    /** The mount effect: the first organisation is taken, then its users and
        teams are fetched; no organisation is an error. */
    method Init(orgs: Reply<seq<Id>>, usersReply: Reply<UsersPage>, teamsReply: Reply<ListResponse<TeamRef>>)
      modifies this`organizationId, this`users, this`totalPages, this`error, this`allTeams, this`sent
      ensures orgs.Failed? || orgs.value == [] ==>
        error == "Failed to load organization." && organizationId == old(organizationId) && sent == old(sent)
        && users == old(users) && totalPages == old(totalPages) && allTeams == old(allTeams)
      ensures orgs.Ok? && orgs.value != [] ==> organizationId == Some(orgs.value[0])
      ensures orgs.Ok? && orgs.value != [] && orgs.value[0] != "" ==>
        sent == old(sent) + [GetUsers(organizationId, page), GetTeams(orgs.value[0])]
      ensures orgs.Ok? && orgs.value != [] ==> UsersTable(old(users), old(totalPages), old(error), usersReply)
      ensures orgs.Ok? && orgs.value != [] && orgs.value[0] != "" && teamsReply.Ok? ==>
        allTeams == Rows(teamsReply.value)
    {
      if orgs.Failed? || orgs.value == [] {
        error := "Failed to load organization.";
        return;
      }
      var orgId := Some(orgs.value[0]);
      organizationId := orgId;
      FetchUsers(orgId, usersReply);
      FetchTeams(orgId, teamsReply);
    }

    /** The New User button: an empty dialog in create mode. */
    method OpenCreateModal()
      modifies this`editing, this`form, this`showForm
      ensures editing.None? && form == EmptyUserForm && showForm
    {
      editing := None;
      form := EmptyUserForm;
      showForm := true;
    }

    /** `openEditModal(user)`: the dialog in edit mode, with the user's name
        and email and an empty password. */
    method OpenEditModal(user: User)
      modifies this`editing, this`form, this`showForm
      ensures editing == Some(user) && form == UserForm(user.name, user.email, "") && showForm
    {
      editing := Some(user);
      form := UserForm(user.name, user.email, "");
      showForm := true;
    }

    method ChangeForm(value: UserForm)
      modifies this`form
      ensures form == value
    {
      form := value;
    }

    /** `handleCreateUser`: the create payload is sent; success closes and
        resets the dialog and fetches the table again. */
    method CreateUserAction(reply: Reply<()>, usersReply: Reply<UsersPage>)
      modifies this`showForm, this`form, this`alerts, this`users, this`totalPages, this`error, this`sent
      ensures |sent| > |old(sent)| && sent[|old(sent)|] == CreateUser(NewUser(old(form), organizationId))
      ensures reply.Ok? ==> !showForm && form == EmptyUserForm && alerts == old(alerts)
      ensures reply.Ok? ==>
        sent == old(sent) + [CreateUser(NewUser(old(form), organizationId))] + UsersRequest()
        && UsersTable(old(users), old(totalPages), old(error), usersReply)
      ensures reply.Failed? ==>
        sent == old(sent) + [CreateUser(NewUser(old(form), organizationId))]
        && alerts == old(alerts) + ["Failed to create user: " + reply.message]
        && form == old(form) && showForm == old(showForm)
        && users == old(users) && totalPages == old(totalPages) && error == old(error)
    {
      sent := sent + [CreateUser(NewUser(form, organizationId))];
      match reply {
        case Ok(_) =>
          showForm := false;
          form := EmptyUserForm;
          FetchUsers(organizationId, usersReply);
        case Failed(message) =>
          alerts := alerts + ["Failed to create user: " + message];
      }
    }

    /** `handleUpdateUser`: the update of the edited user is sent; success
        leaves edit mode, closes and resets the dialog and fetches again. */
    method UpdateUserAction(reply: Reply<()>, usersReply: Reply<UsersPage>)
      requires editing.Some?
      modifies this`editing, this`showForm, this`form, this`alerts, this`users, this`totalPages, this`error, this`sent
      ensures |sent| > |old(sent)| && sent[|old(sent)|] == UpdateUser(old(editing).value.id, UpdateOf(old(form)))
      ensures reply.Ok? ==> editing.None? && !showForm && form == EmptyUserForm && alerts == old(alerts)
      ensures reply.Ok? ==>
        sent == old(sent) + [UpdateUser(old(editing).value.id, UpdateOf(old(form)))] + UsersRequest()
        && UsersTable(old(users), old(totalPages), old(error), usersReply)
      ensures reply.Failed? ==>
        sent == old(sent) + [UpdateUser(old(editing).value.id, UpdateOf(old(form)))]
        && alerts == old(alerts) + ["Failed to update user: " + reply.message]
        && editing == old(editing) && form == old(form) && showForm == old(showForm)
        && users == old(users) && totalPages == old(totalPages) && error == old(error)
    {
      sent := sent + [UpdateUser(editing.value.id, UpdateOf(form))];
      match reply {
        case Ok(_) =>
          editing := None;
          showForm := false;
          form := EmptyUserForm;
          FetchUsers(organizationId, usersReply);
        case Failed(message) =>
          alerts := alerts + ["Failed to update user: " + message];
      }
    }

    /** The dialog's submit: update in edit mode, create otherwise. */
    method SubmitUserForm(reply: Reply<()>, usersReply: Reply<UsersPage>)
      modifies this`editing, this`showForm, this`form, this`alerts, this`users, this`totalPages, this`error, this`sent
      ensures |sent| > |old(sent)|
      ensures old(editing).Some? ==> sent[|old(sent)|] == UpdateUser(old(editing).value.id, UpdateOf(old(form)))
      ensures old(editing).None? ==> sent[|old(sent)|] == CreateUser(NewUser(old(form), organizationId))
      ensures old(editing).Some? && reply.Ok? ==>
        editing.None? && !showForm && form == EmptyUserForm && alerts == old(alerts)
        && sent == old(sent) + [UpdateUser(old(editing).value.id, UpdateOf(old(form)))] + UsersRequest()
        && UsersTable(old(users), old(totalPages), old(error), usersReply)
      ensures old(editing).Some? && reply.Failed? ==>
        sent == old(sent) + [UpdateUser(old(editing).value.id, UpdateOf(old(form)))]
        && alerts == old(alerts) + ["Failed to update user: " + reply.message]
        && editing == old(editing) && form == old(form) && showForm == old(showForm)
        && users == old(users) && totalPages == old(totalPages) && error == old(error)
      ensures old(editing).None? ==> editing == old(editing)
      ensures old(editing).None? && reply.Ok? ==>
        !showForm && form == EmptyUserForm && alerts == old(alerts)
        && sent == old(sent) + [CreateUser(NewUser(old(form), organizationId))] + UsersRequest()
        && UsersTable(old(users), old(totalPages), old(error), usersReply)
      ensures old(editing).None? && reply.Failed? ==>
        sent == old(sent) + [CreateUser(NewUser(old(form), organizationId))]
        && alerts == old(alerts) + ["Failed to create user: " + reply.message]
        && form == old(form) && showForm == old(showForm)
        && users == old(users) && totalPages == old(totalPages) && error == old(error)
    {
      if editing.Some? {
        UpdateUserAction(reply, usersReply);
      } else {
        CreateUserAction(reply, usersReply);
      }
    }

    /** `handleDeleteUser(id)`: after the confirmation, `deleteUser(id,
        organizationId)`; success fetches the table again. */
    method DeleteUserAction(id: Id, confirmed: bool, reply: Reply<()>, usersReply: Reply<UsersPage>)
      modifies this`alerts, this`users, this`totalPages, this`error, this`sent
      ensures !confirmed ==> unchanged(this)
      ensures confirmed ==> |sent| > |old(sent)| && sent[|old(sent)|] == DeleteUser(id, organizationId)
      ensures confirmed && reply.Failed? ==>
        sent == old(sent) + [DeleteUser(id, organizationId)]
        && alerts == old(alerts) + ["Failed to delete user: " + reply.message]
        && users == old(users) && totalPages == old(totalPages) && error == old(error)
      ensures confirmed && reply.Ok? ==>
        alerts == old(alerts) && sent == old(sent) + [DeleteUser(id, organizationId)] + UsersRequest()
        && UsersTable(old(users), old(totalPages), old(error), usersReply)
    {
      if !confirmed {
        return;
      }
      sent := sent + [DeleteUser(id, organizationId)];
      match reply {
        case Ok(_) =>
          FetchUsers(organizationId, usersReply);
        case Failed(message) =>
          alerts := alerts + ["Failed to delete user: " + message];
      }
    }

    /** `openTeamsModal(user)`. */
    method OpenTeamsModal(user: User)
      modifies this`selectedUser, this`selectedTeamId, this`showTeams
      ensures selectedUser == Some(user) && selectedTeamId == "" && showTeams
    {
      selectedUser := Some(user);
      selectedTeamId := "";
      showTeams := true;
    }

    method SelectTeam(value: Id)
      modifies this`selectedTeamId
      ensures selectedTeamId == value
    {
      selectedTeamId := value;
    }

    /** The user shown in the dialog after a team change: the same user in a
        fresh page of the table, when present. */
    method Refresh(id: Id, refreshed: Reply<UsersPage>, prefix: string)
      modifies this`selectedUser, this`alerts, this`sent
      ensures sent == old(sent) + [GetUsers(organizationId, page)]
      ensures refreshed.Ok? && FindUser(refreshed.value.results, id).Some? ==>
        selectedUser == FindUser(refreshed.value.results, id)
      ensures refreshed.Ok? && FindUser(refreshed.value.results, id).None? ==> selectedUser == old(selectedUser)
      ensures refreshed.Ok? ==> alerts == old(alerts)
      ensures refreshed.Failed? ==> selectedUser == old(selectedUser) && alerts == old(alerts) + [prefix + refreshed.message]
    {
      sent := sent + [GetUsers(organizationId, page)];
      match refreshed {
        case Ok(data) =>
          var found := FindUser(data.results, id);
          if found.Some? {
            selectedUser := found;
          }
        case Failed(message) =>
          alerts := alerts + [prefix + message];
      }
    }

    /** `handleAssignTeam`: with no team chosen only an alert; otherwise the
        assignment is sent, the choice cleared, the table fetched, and the
        dialog's user replaced by its fresh row. */
    method AssignTeamAction(reply: Reply<()>, usersReply: Reply<UsersPage>, refreshed: Reply<UsersPage>)
      requires selectedUser.Some?
      modifies this`selectedTeamId, this`selectedUser, this`alerts, this`users, this`totalPages, this`error, this`sent
      ensures old(selectedTeamId) == "" ==>
        alerts == old(alerts) + ["Please select a team"] && sent == old(sent) && selectedUser == old(selectedUser)
      ensures old(selectedTeamId) != "" ==>
        |sent| > |old(sent)| && sent[|old(sent)|] == AssignTeam(old(selectedUser).value.id, old(selectedTeamId))
      ensures old(selectedTeamId) != "" && reply.Failed? ==>
        sent == old(sent) + [AssignTeam(old(selectedUser).value.id, old(selectedTeamId))]
        && alerts == old(alerts) + ["Failed to assign team: " + reply.message]
        && selectedTeamId == old(selectedTeamId) && selectedUser == old(selectedUser)
        && users == old(users) && totalPages == old(totalPages) && error == old(error)
      ensures old(selectedTeamId) != "" && reply.Ok? ==>
        selectedTeamId == ""
        && sent == old(sent) + [AssignTeam(old(selectedUser).value.id, old(selectedTeamId))] + UsersRequest()
                             + [GetUsers(organizationId, page)]
        && UsersTable(old(users), old(totalPages), old(error), usersReply)
      ensures old(selectedTeamId) != "" && reply.Ok? && refreshed.Ok? ==>
        alerts == old(alerts)
        && selectedUser == (var f := FindUser(refreshed.value.results, old(selectedUser).value.id);
                            if f.Some? then f else old(selectedUser))
      ensures old(selectedTeamId) != "" && reply.Ok? && refreshed.Failed? ==>
        alerts == old(alerts) + ["Failed to assign team: " + refreshed.message] && selectedUser == old(selectedUser)
    {
      if selectedTeamId == "" {
        alerts := alerts + ["Please select a team"];
        return;
      }
      var id := selectedUser.value.id;
      sent := sent + [AssignTeam(id, selectedTeamId)];
      match reply {
        case Ok(_) =>
          selectedTeamId := "";
          FetchUsers(organizationId, usersReply);
          Refresh(id, refreshed, "Failed to assign team: ");
        case Failed(message) =>
          alerts := alerts + ["Failed to assign team: " + message];
      }
    }

    /** `handleRemoveTeam(teamId)`: after the confirmation, the removal is
        sent, the table fetched and the dialog's user refreshed. */
    method RemoveTeamAction(teamId: Id, confirmed: bool, reply: Reply<()>,
                            usersReply: Reply<UsersPage>, refreshed: Reply<UsersPage>)
      requires selectedUser.Some?
      modifies this`selectedUser, this`alerts, this`users, this`totalPages, this`error, this`sent
      ensures !confirmed ==> unchanged(this)
      ensures confirmed ==> |sent| > |old(sent)| && sent[|old(sent)|] == RemoveTeam(old(selectedUser).value.id, teamId)
      ensures confirmed && reply.Failed? ==>
        sent == old(sent) + [RemoveTeam(old(selectedUser).value.id, teamId)]
        && alerts == old(alerts) + ["Failed to remove team: " + reply.message]
        && selectedUser == old(selectedUser)
        && users == old(users) && totalPages == old(totalPages) && error == old(error)
      ensures confirmed && reply.Ok? ==>
        sent == old(sent) + [RemoveTeam(old(selectedUser).value.id, teamId)] + UsersRequest()
                          + [GetUsers(organizationId, page)]
        && UsersTable(old(users), old(totalPages), old(error), usersReply)
      ensures confirmed && reply.Ok? && refreshed.Ok? ==>
        alerts == old(alerts)
        && selectedUser == (var f := FindUser(refreshed.value.results, old(selectedUser).value.id);
                            if f.Some? then f else old(selectedUser))
      ensures confirmed && reply.Ok? && refreshed.Failed? ==>
        alerts == old(alerts) + ["Failed to remove team: " + refreshed.message] && selectedUser == old(selectedUser)
    {
      if !confirmed {
        return;
      }
      var id := selectedUser.value.id;
      sent := sent + [RemoveTeam(id, teamId)];
      match reply {
        case Ok(_) =>
          FetchUsers(organizationId, usersReply);
          Refresh(id, refreshed, "Failed to remove team: ");
        case Failed(message) =>
          alerts := alerts + ["Failed to remove team: " + message];
      }
    }

    /** The Previous button, rendered only with more than one page and
        disabled on page 1; the page change fetches the table. */
    method PreviousPage(usersReply: Reply<UsersPage>)
      requires Valid() && totalPages > 1
      modifies this`page, this`users, this`totalPages, this`error, this`sent
      ensures Valid()
      ensures old(page) == 1 ==> unchanged(this)
      ensures old(page) != 1 ==> page == PreviousPageOf(old(page)) && page == old(page) - 1
      ensures old(page) != 1 ==>
        sent == old(sent) + UsersRequest() && UsersTable(old(users), old(totalPages), old(error), usersReply)
    {
      if page == 1 {
        return;
      }
      page := PreviousPageOf(page);
      FetchUsers(organizationId, usersReply);
    }

    /** The Next button, disabled on the last page; the page change fetches
        the table. */
    method NextPage(usersReply: Reply<UsersPage>)
      requires Valid() && totalPages > 1
      modifies this`page, this`users, this`totalPages, this`error, this`sent
      ensures Valid()
      ensures old(page) == old(totalPages) ==> unchanged(this)
      ensures old(page) != old(totalPages) ==> page == NextPageOf(old(page), old(totalPages))
      ensures old(page) < old(totalPages) ==> page == old(page) + 1
      ensures old(page) != old(totalPages) ==>
        sent == old(sent) + UsersRequest() && UsersTable(old(users), old(totalPages), old(error), usersReply)
    {
      if page == totalPages {
        return;
      }
      page := NextPageOf(page, totalPages);
      FetchUsers(organizationId, usersReply);
    }
  }
}
