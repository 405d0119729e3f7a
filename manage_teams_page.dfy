/** The team administration page: a paged table of the organisation's teams,
    create and edit dialogs, and a members dialog that adds organisation
    members to the team or removes them. */
module ManageTeams {
  import opened Common

  datatype Team = Team(id: Id, name: string, description: string)

  /** A row of `getTeamMembers`: the membership id, the user and the role. */
  datatype TeamMember = TeamMember(id: Id, user: Id, role: string)

  /** A row of `getOrganizationMembers`. */
  datatype OrgMember = OrgMember(id: Id, user: Id)

  datatype TeamRequest =
    | GetTeams(params: Params)
    | CreateTeam(organization: Id, name: string, description: string)
    | UpdateTeam(id: Id, name: string, description: string)
    | DeleteTeam(id: Id)
    | GetTeamMembers(team: Id)
    | GetOrganizationMembers(orgId: Option<Id>)
    | AddTeamMember(team: Id, user: Id, role: string)
    | RemoveTeamMember(team: Id, user: Id)

  /** The team list query: one page of ten teams of the organisation, by
      name. */
  function TeamQuery(organization: Id, page: int): (r: Params)
    ensures r.Keys == {"organization_id", "ordering", "page", "page_size"}
    ensures r["organization_id"] == Str(organization) && r["ordering"] == Str("name")
    ensures r["page"] == Num(page) && r["page_size"] == Num(PageSize)
  {
    map["organization_id" := Str(organization), "ordering" := Str("name"),
        "page" := Num(page), "page_size" := Num(PageSize)]
  }

  /** `teamMembers.some(tm => tm.user === user)`. */
  predicate InTeam(members: seq<TeamMember>, user: Id) {
    exists k :: 0 <= k < |members| && members[k].user == user
  }

  /** The add-member choices: the organisation members whose user is not
      already in the team, in order. */
  function Candidates(orgMembers: seq<OrgMember>, teamMembers: seq<TeamMember>): (r: seq<OrgMember>)
    ensures forall m :: m in r <==> m in orgMembers && !InTeam(teamMembers, m.user)
    ensures |r| <= |orgMembers|
    ensures (forall k :: 0 <= k < |orgMembers| ==> !InTeam(teamMembers, orgMembers[k].user)) ==> r == orgMembers
  {
    FilterSpec(orgMembers, (m: OrgMember) => !InTeam(teamMembers, m.user));
    Filter(orgMembers, (m: OrgMember) => !InTeam(teamMembers, m.user))
  }

  /** With nobody in the team every organisation member is offered; adding a
      member's user to the team takes that member off the list. */
  lemma CandidatesShrink(orgMembers: seq<OrgMember>, teamMembers: seq<TeamMember>, added: TeamMember)
    ensures Candidates(orgMembers, []) == orgMembers
    ensures forall m :: m in Candidates(orgMembers, teamMembers + [added]) <==>
      m in Candidates(orgMembers, teamMembers) && m.user != added.user
  {
    var extended := teamMembers + [added];
    forall user: Id ensures InTeam(extended, user) <==> InTeam(teamMembers, user) || added.user == user {
      if InTeam(extended, user) {
        var k :| 0 <= k < |extended| && extended[k].user == user;
        if k < |teamMembers| {
          assert teamMembers[k] == extended[k];
        }
      }
      if InTeam(teamMembers, user) {
        var k :| 0 <= k < |teamMembers| && teamMembers[k].user == user;
        assert extended[k] == teamMembers[k];
      }
      if added.user == user {
        assert extended[|teamMembers|] == added;
      }
    }
  }

  class ManageTeamsPage {
    var teams: seq<Team>
    var error: string
    var page: int
    var totalPages: nat
    var organizationId: Option<Id>
    var showCreate: bool
    var showEdit: bool
    var showMembers: bool
    var selectedTeam: Option<Team>
    var formName: string
    var formDescription: string
    var teamMembers: seq<TeamMember>
    var orgMembers: seq<OrgMember>
    var userToAdd: Id
    var roleToAdd: string
    /** The requests sent so far, in order, and the alerts shown. */
    var sent: seq<TeamRequest>
    var alerts: seq<string>

    ghost predicate Valid()
      reads this
    {
      page >= 1
    }

    constructor ()
      ensures Valid()
      ensures teams == [] && error == "" && page == 1 && totalPages == 1 && organizationId.None?
      ensures !showCreate && !showEdit && !showMembers && selectedTeam.None?
      ensures formName == "" && formDescription == "" && teamMembers == [] && orgMembers == []
      ensures userToAdd == "" && roleToAdd == "MEMBER" && sent == [] && alerts == []
    {
      teams := [];
      error := "";
      page := 1;
      totalPages := 1;
      organizationId := None;
      showCreate := false;
      showEdit := false;
      showMembers := false;
      selectedTeam := None;
      formName := "";
      formDescription := "";
      teamMembers := [];
      orgMembers := [];
      userToAdd := "";
      roleToAdd := "MEMBER";
      sent := [];
      alerts := [];
    }

    /** The request `fetchTeams` sends: none until an organisation is known,
        otherwise the current page of its teams. */
    function TeamsRequest(): (r: seq<TeamRequest>)
      reads this
      ensures |r| <= 1
      ensures r == [] <==> !Known(organizationId)
      ensures r != [] ==> r[0] == GetTeams(TeamQuery(organizationId.value, page))
    {
      if Known(organizationId) then [GetTeams(TeamQuery(organizationId.value, page))] else []
    }

    /** The table `fetchTeams` leaves when it starts from the rows `teams0`,
        `pages0` pages and the error `error0`: unchanged without an
        organisation; otherwise the answer's rows and page count, or the
        error message. */
    ghost predicate TeamsTable(teams0: seq<Team>, pages0: nat, error0: string, reply: Reply<ListResponse<Team>>)
      reads this
    {
      if !Known(organizationId) then teams == teams0 && totalPages == pages0 && error == error0
      else match reply
        case Ok(data) => teams == Rows(data) && totalPages == TotalPagesOf(data) && error == error0
        case Failed(_) => teams == teams0 && totalPages == pages0 && error == "Failed to load teams."
    }

    /** `fetchTeams`: nothing until an organisation is known; otherwise the
        current page is requested; a paginated answer gives `ceil(count / 10)`
        pages, a bare array one page; a failure sets the error. */
    method FetchTeams(reply: Reply<ListResponse<Team>>)
      modifies this`teams, this`totalPages, this`error, this`sent
      ensures !Known(organizationId) ==> unchanged(this)
      ensures Known(organizationId) ==> sent == old(sent) + [GetTeams(TeamQuery(organizationId.value, page))]
      ensures Known(organizationId) && reply.Ok? ==>
        teams == Rows(reply.value) && totalPages == TotalPagesOf(reply.value) && error == old(error)
      ensures Known(organizationId) && reply.Failed? ==>
        teams == old(teams) && totalPages == old(totalPages) && error == "Failed to load teams."
      ensures sent == old(sent) + TeamsRequest() && TeamsTable(old(teams), old(totalPages), old(error), reply)
    {
      if !Known(organizationId) {
        return;
      }
      sent := sent + [GetTeams(TeamQuery(organizationId.value, page))];
      match reply {
        case Ok(data) =>
          teams := Rows(data);
          totalPages := TotalPagesOf(data);
        case Failed(_) =>
          error := "Failed to load teams.";
      }
    }

    /** The mount effect: the first organisation of the user is taken, which
        triggers the first team fetch; a failed call sets the error. */
    method Init(orgs: Reply<seq<Id>>, teamsReply: Reply<ListResponse<Team>>)
      modifies this`organizationId, this`teams, this`totalPages, this`error, this`sent
      ensures orgs.Failed? ==> error == "Failed to load organization data." && organizationId == old(organizationId)
      ensures orgs.Failed? ==> sent == old(sent) && teams == old(teams) && totalPages == old(totalPages)
      ensures orgs.Ok? && orgs.value == [] ==> unchanged(this)
      ensures orgs.Ok? && orgs.value != [] ==> organizationId == Some(orgs.value[0])
      ensures orgs.Ok? && orgs.value != [] && orgs.value[0] != "" ==>
        sent == old(sent) + [GetTeams(TeamQuery(orgs.value[0], page))]
      ensures orgs.Ok? && orgs.value != [] ==>
        sent == old(sent) + TeamsRequest() && TeamsTable(old(teams), old(totalPages), old(error), teamsReply)
    {
      match orgs {
        case Failed(_) =>
          error := "Failed to load organization data.";
        case Ok(ids) =>
          if ids != [] {
            organizationId := Some(ids[0]);
            FetchTeams(teamsReply);
          }
      }
    }

    /** The Create Team button: an empty create dialog. */
    method OpenCreateModal()
      modifies this`formName, this`formDescription, this`showCreate
      ensures formName == "" && formDescription == "" && showCreate
    {
      formName := "";
      formDescription := "";
      showCreate := true;
    }

    /** `openEditModal(team)`: the team is selected and its name and
        description fill the edit dialog. */
    method OpenEditModal(team: Team)
      modifies this`selectedTeam, this`formName, this`formDescription, this`showEdit
      ensures selectedTeam == Some(team) && formName == team.name && formDescription == team.description && showEdit
    {
      selectedTeam := Some(team);
      formName := team.name;
      formDescription := team.description;
      showEdit := true;
    }

    method SetFormName(value: string)
      modifies this`formName
      ensures formName == value
    {
      formName := value;
    }

    method SetFormDescription(value: string)
      modifies this`formDescription
      ensures formDescription == value
    {
      formDescription := value;
    }

    /** `handleCreateTeam`: nothing for a blank name or without an
        organisation; otherwise the team is created, the dialog closed and
        cleared, and the table fetched again. */
    method CreateTeamAction(reply: Reply<()>, teamsReply: Reply<ListResponse<Team>>)
      modifies this`showCreate, this`formName, this`formDescription, this`alerts,
               this`teams, this`totalPages, this`error, this`sent
      ensures IsBlank(old(formName)) || !Known(organizationId) ==> unchanged(this)
      ensures !IsBlank(old(formName)) && Known(organizationId) ==>
        |sent| > |old(sent)| && sent[|old(sent)|] == CreateTeam(organizationId.value, old(formName), old(formDescription))
      ensures !IsBlank(old(formName)) && Known(organizationId) && reply.Ok? ==>
        !showCreate && formName == "" && formDescription == "" && alerts == old(alerts)
        && sent == old(sent) + [CreateTeam(organizationId.value, old(formName), old(formDescription)),
                                GetTeams(TeamQuery(organizationId.value, page))]
        && TeamsTable(old(teams), old(totalPages), old(error), teamsReply)
      ensures !IsBlank(old(formName)) && Known(organizationId) && reply.Failed? ==>
        alerts == old(alerts) + ["Failed to create team"] && formName == old(formName) && showCreate == old(showCreate)
        && sent == old(sent) + [CreateTeam(organizationId.value, old(formName), old(formDescription))]
        && teams == old(teams) && totalPages == old(totalPages) && error == old(error)
    {
      if IsBlank(formName) || !Known(organizationId) {
        return;
      }
      sent := sent + [CreateTeam(organizationId.value, formName, formDescription)];
      match reply {
        case Ok(_) =>
          showCreate := false;
          formName := "";
          formDescription := "";
          FetchTeams(teamsReply);
        case Failed(_) =>
          alerts := alerts + ["Failed to create team"];
      }
    }

    /** `handleUpdateTeam`: nothing without a selected team or with a blank
        name; otherwise the name and description are saved, the dialog closed,
        the selection dropped and the table fetched again. */
    method UpdateTeamAction(reply: Reply<()>, teamsReply: Reply<ListResponse<Team>>)
      modifies this`showEdit, this`selectedTeam, this`alerts, this`teams, this`totalPages, this`error, this`sent
      ensures old(selectedTeam).None? || IsBlank(formName) ==> unchanged(this)
      ensures old(selectedTeam).Some? && !IsBlank(formName) ==>
        |sent| > |old(sent)| && sent[|old(sent)|] == UpdateTeam(old(selectedTeam).value.id, formName, formDescription)
      ensures old(selectedTeam).Some? && !IsBlank(formName) && reply.Ok? ==>
        !showEdit && selectedTeam.None? && alerts == old(alerts)
        && sent == old(sent) + [UpdateTeam(old(selectedTeam).value.id, formName, formDescription)] + TeamsRequest()
        && TeamsTable(old(teams), old(totalPages), old(error), teamsReply)
      ensures old(selectedTeam).Some? && !IsBlank(formName) && reply.Failed? ==>
        alerts == old(alerts) + ["Failed to update team"] && selectedTeam == old(selectedTeam) && showEdit == old(showEdit)
        && sent == old(sent) + [UpdateTeam(old(selectedTeam).value.id, formName, formDescription)]
        && teams == old(teams) && totalPages == old(totalPages) && error == old(error)
    {
      if selectedTeam.None? || IsBlank(formName) {
        return;
      }
      sent := sent + [UpdateTeam(selectedTeam.value.id, formName, formDescription)];
      match reply {
        case Ok(_) =>
          showEdit := false;
          selectedTeam := None;
          FetchTeams(teamsReply);
        case Failed(_) =>
          alerts := alerts + ["Failed to update team"];
      }
    }

    /** `handleDeleteTeam(team)`: after the confirmation the team is deleted
        and the table fetched again. */
    method DeleteTeamAction(team: Team, confirmed: bool, reply: Reply<()>, teamsReply: Reply<ListResponse<Team>>)
      modifies this`alerts, this`teams, this`totalPages, this`error, this`sent
      ensures !confirmed ==> unchanged(this)
      ensures confirmed ==> |sent| > |old(sent)| && sent[|old(sent)|] == DeleteTeam(team.id)
      ensures confirmed && reply.Failed? ==>
        sent == old(sent) + [DeleteTeam(team.id)] && alerts == old(alerts) + ["Failed to delete team"]
        && teams == old(teams) && totalPages == old(totalPages) && error == old(error)
      ensures confirmed && reply.Ok? ==>
        alerts == old(alerts) && sent == old(sent) + [DeleteTeam(team.id)] + TeamsRequest()
        && TeamsTable(old(teams), old(totalPages), old(error), teamsReply)
    {
      if !confirmed {
        return;
      }
      sent := sent + [DeleteTeam(team.id)];
      match reply {
        case Ok(_) =>
          FetchTeams(teamsReply);
        case Failed(_) =>
          alerts := alerts + ["Failed to delete team"];
      }
    }

    /** `openMembersModal(team)`: the team is selected, the dialog shown, and
        the team's members and the organisation's members are loaded, in that
        order. */
    method OpenMembersModal(team: Team, members: Reply<seq<TeamMember>>, others: Reply<seq<OrgMember>>)
      modifies this`selectedTeam, this`showMembers, this`teamMembers, this`orgMembers, this`alerts, this`sent
      ensures selectedTeam == Some(team) && showMembers
      ensures sent == old(sent) + [GetTeamMembers(team.id), GetOrganizationMembers(organizationId)]
      ensures members.Ok? ==> teamMembers == members.value && alerts == old(alerts)
      ensures members.Failed? ==> teamMembers == old(teamMembers) && alerts == old(alerts) + ["Failed to load team members"]
      ensures others.Ok? ==> orgMembers == others.value
      ensures others.Failed? ==> orgMembers == old(orgMembers)
    {
      selectedTeam := Some(team);
      showMembers := true;
      sent := sent + [GetTeamMembers(team.id)];
      match members {
        case Ok(rows) => teamMembers := rows;
        case Failed(_) => alerts := alerts + ["Failed to load team members"];
      }
      sent := sent + [GetOrganizationMembers(organizationId)];
      if others.Ok? {
        orgMembers := others.value;
      }
    }

    /** The users the add-member control offers. */
    function AddMemberCandidates(): (r: seq<OrgMember>)
      reads this
      ensures forall m :: m in r <==> m in orgMembers && !InTeam(teamMembers, m.user)
    {
      Candidates(orgMembers, teamMembers)
    }

    method SelectUserToAdd(user: Id)
      modifies this`userToAdd
      ensures userToAdd == user
    {
      userToAdd := user;
    }

    method SelectRole(role: string)
      modifies this`roleToAdd
      ensures roleToAdd == role
    {
      roleToAdd := role;
    }

    /** `handleAddMember`: nothing without a selected team and user; otherwise
        the member is added with the chosen role, the team's members are
        reloaded and the choice cleared; a failure of either call shows its
        message (or a fallback). */
    method AddMemberAction(reply: Reply<()>, members: Reply<seq<TeamMember>>)
      modifies this`teamMembers, this`userToAdd, this`alerts, this`sent
      ensures selectedTeam.None? || old(userToAdd) == "" ==> unchanged(this)
      ensures selectedTeam.Some? && old(userToAdd) != "" ==>
        |sent| > |old(sent)| && sent[|old(sent)|] == AddTeamMember(selectedTeam.value.id, old(userToAdd), roleToAdd)
      ensures selectedTeam.Some? && old(userToAdd) != "" && reply.Failed? ==>
        sent == old(sent) + [AddTeamMember(selectedTeam.value.id, old(userToAdd), roleToAdd)]
        && alerts == old(alerts) + [ErrorText(reply.message, "Failed to add member")] && userToAdd == old(userToAdd)
      ensures selectedTeam.Some? && old(userToAdd) != "" && reply.Ok? ==>
        sent == old(sent) + [AddTeamMember(selectedTeam.value.id, old(userToAdd), roleToAdd),
                             GetTeamMembers(selectedTeam.value.id)]
      ensures selectedTeam.Some? && old(userToAdd) != "" && reply.Ok? && members.Ok? ==>
        teamMembers == members.value && userToAdd == "" && alerts == old(alerts)
      ensures selectedTeam.Some? && old(userToAdd) != "" && reply.Ok? && members.Failed? ==>
        teamMembers == old(teamMembers) && userToAdd == old(userToAdd)
        && alerts == old(alerts) + [ErrorText(members.message, "Failed to add member")]
    {
      if selectedTeam.None? || userToAdd == "" {
        return;
      }
      sent := sent + [AddTeamMember(selectedTeam.value.id, userToAdd, roleToAdd)];
      if reply.Failed? {
        alerts := alerts + [ErrorText(reply.message, "Failed to add member")];
        return;
      }
      sent := sent + [GetTeamMembers(selectedTeam.value.id)];
      match members {
        case Ok(rows) =>
          teamMembers := rows;
          userToAdd := "";
        case Failed(message) =>
          alerts := alerts + [ErrorText(message, "Failed to add member")];
      }
    }

    /** `handleRemoveMember(userId)`: after the confirmation the user leaves
        the selected team and the team's members are reloaded. */
    method RemoveMemberAction(user: Id, confirmed: bool, reply: Reply<()>, members: Reply<seq<TeamMember>>)
      requires selectedTeam.Some?
      modifies this`teamMembers, this`alerts, this`sent
      ensures !confirmed ==> unchanged(this)
      ensures confirmed ==> |sent| > |old(sent)| && sent[|old(sent)|] == RemoveTeamMember(selectedTeam.value.id, user)
      ensures confirmed && reply.Ok? ==>
        sent == old(sent) + [RemoveTeamMember(selectedTeam.value.id, user), GetTeamMembers(selectedTeam.value.id)]
      ensures confirmed && reply.Ok? && members.Ok? ==> teamMembers == members.value && alerts == old(alerts)
      ensures confirmed && (reply.Failed? || members.Failed?) ==>
        teamMembers == old(teamMembers) && alerts == old(alerts) + ["Failed to remove member"]
    {
      if !confirmed {
        return;
      }
      sent := sent + [RemoveTeamMember(selectedTeam.value.id, user)];
      if reply.Failed? {
        alerts := alerts + ["Failed to remove member"];
        return;
      }
      sent := sent + [GetTeamMembers(selectedTeam.value.id)];
      match members {
        case Ok(rows) =>
          teamMembers := rows;
        case Failed(_) =>
          alerts := alerts + ["Failed to remove member"];
      }
    }

    /** Previous, rendered with more than one page and disabled on page 1:
        one page back, which fetches it. */
    method PreviousPage(teamsReply: Reply<ListResponse<Team>>)
      requires Valid() && totalPages > 1
      modifies this`page, this`teams, this`totalPages, this`error, this`sent
      ensures Valid()
      ensures old(page) == 1 ==> unchanged(this)
      ensures old(page) != 1 ==> page == old(page) - 1
      ensures old(page) != 1 && Known(organizationId) ==> sent == old(sent) + [GetTeams(TeamQuery(organizationId.value, page))]
      ensures old(page) != 1 ==>
        sent == old(sent) + TeamsRequest() && TeamsTable(old(teams), old(totalPages), old(error), teamsReply)
    {
      if page == 1 {
        return;
      }
      page := page - 1;
      FetchTeams(teamsReply);
    }

    /** Next, disabled on the last page: one page on, which fetches it. */
    method NextPage(teamsReply: Reply<ListResponse<Team>>)
      requires Valid() && totalPages > 1
      modifies this`page, this`teams, this`totalPages, this`error, this`sent
      ensures Valid()
      ensures old(page) == old(totalPages) ==> unchanged(this)
      ensures old(page) != old(totalPages) ==> page == old(page) + 1
      ensures old(page) != old(totalPages) && Known(organizationId) ==>
        sent == old(sent) + [GetTeams(TeamQuery(organizationId.value, page))]
      ensures old(page) != old(totalPages) ==>
        sent == old(sent) + TeamsRequest() && TeamsTable(old(teams), old(totalPages), old(error), teamsReply)
    {
      if page == totalPages {
        return;
      }
      page := page + 1;
      FetchTeams(teamsReply);
    }
  }
}
