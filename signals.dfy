/** The two `post_save` receivers: a new organisation gets a default team
    named after it, and a new organisation member joins that team. */
module Signals {
  import opened Common
  import opened Models

  /** A team of `org` that carries the organisation's name. */
  predicate IsDefaultTeamOf(t: TeamRow, org: OrganizationRow) {
    t.organization == org.id && t.name == org.name
  }

  /** The `.first()` of the teams of `org` named after it; table order
      stands for the query's order. */
  function DefaultTeam(teams: seq<TeamRow>, org: OrganizationRow): (r: Option<TeamRow>)
    ensures r.None? <==> forall k :: 0 <= k < |teams| ==> !IsDefaultTeamOf(teams[k], org)
    ensures r.Some? ==> r.value in teams && IsDefaultTeamOf(r.value, org)
  {
    Find(teams, (t: TeamRow) => IsDefaultTeamOf(t, org))
  }

  /** The team `create_default_team` saves for a new organisation. */
  function DefaultTeamRow(id: Id, org: OrganizationRow): (r: TeamRow)
    ensures IsDefaultTeamOf(r, org) && r.id == id
    ensures r.description == "Default team for " + org.name
  {
    TeamRow(id, org.id, org.name, "Default team for " + org.name)
  }

  /** The teams of one organisation. */
  function TeamsOf(teams: seq<TeamRow>, org: Id): (r: seq<TeamRow>)
    ensures forall t :: t in r <==> t in teams && t.organization == org
    ensures forall t :: multiset(r)[t] == if t.organization == org then multiset(teams)[t] else 0
  {
    FilterSpec(teams, (t: TeamRow) => t.organization == org);
    Filter(teams, (t: TeamRow) => t.organization == org)
  }

  /** When no team belongs to a new organisation yet, adding its default
      team leaves it with exactly that one team, which is its default team. */
  lemma {:induction false} FirstTeamIsDefault(teams: seq<TeamRow>, org: OrganizationRow, id: Id)
    requires forall k :: 0 <= k < |teams| ==> teams[k].organization != org.id
    ensures TeamsOf(teams + [DefaultTeamRow(id, org)], org.id) == [DefaultTeamRow(id, org)]
    ensures DefaultTeam(teams + [DefaultTeamRow(id, org)], org) == Some(DefaultTeamRow(id, org))
  {
    var p := (t: TeamRow) => t.organization == org.id;
    var all := teams + [DefaultTeamRow(id, org)];
    NoneKept(teams, p);
    FilterAppend(teams, [DefaultTeamRow(id, org)], p);
    assert forall k :: 0 <= k < |teams| ==> !IsDefaultTeamOf(all[k], org);
    FindAfterNone(teams, DefaultTeamRow(id, org), (t: TeamRow) => IsDefaultTeamOf(t, org));
  }

  /** `create_default_team`: on creation only, the organisation's default
      team is added. */
  method CreateDefaultTeam(db: Database, org: OrganizationRow, created: bool, teamId: Id)
    requires db.Valid() && org.id in OrganizationIds(db.organizations) && (created ==> teamId !in TeamIds(db.teams))
    modifies db`teams
    ensures db.Valid()
    ensures created ==> db.teams == old(db.teams) + [DefaultTeamRow(teamId, org)]
    ensures !created ==> db.teams == old(db.teams)
  {
    if created {
      var t := DefaultTeamRow(teamId, org);
      assert TeamIds(db.teams + [t]) == TeamIds(db.teams) + [teamId];
      DistinctAppend(TeamIds(db.teams), teamId);
      db.teams := db.teams + [t];
    }
  }

  /** An organisation with a new id keeps the ids distinct, and every id
      that was there is still there. */
  lemma OrganizationAppend(orgs: seq<OrganizationRow>, org: OrganizationRow)
    requires Distinct(OrganizationIds(orgs)) && org.id !in OrganizationIds(orgs)
    ensures Distinct(OrganizationIds(orgs + [org]))
    ensures OrganizationIds(orgs + [org]) == OrganizationIds(orgs) + [org.id]
  {
    assert OrganizationIds(orgs + [org]) == OrganizationIds(orgs) + [org.id];
    DistinctAppend(OrganizationIds(orgs), org.id);
  }

  /** Teams only point at stored organisations, so none points at a new id. */
  lemma NoTeamsYet(teams: seq<TeamRow>, orgs: seq<OrganizationRow>, id: Id)
    requires forall k :: 0 <= k < |teams| ==> teams[k].organization in OrganizationIds(orgs)
    requires id !in OrganizationIds(orgs)
    ensures forall k :: 0 <= k < |teams| ==> teams[k].organization != id
  {
  }

  /** `Organization.objects.create`: the row is saved and the receiver
      runs with `created` set, so the organisation has exactly one team, its
      default team. */
  method CreateOrganization(db: Database, id: Id, name: string, description: string, teamId: Id)
    returns (org: OrganizationRow)
    requires db.Valid() && id !in OrganizationIds(db.organizations) && teamId !in TeamIds(db.teams)
    modifies db`organizations, db`teams
    ensures db.Valid()
    ensures org == OrganizationRow(id, name, description)
    ensures db.organizations == old(db.organizations) + [org]
    ensures db.teams == old(db.teams) + [DefaultTeamRow(teamId, org)]
    ensures TeamsOf(db.teams, id) == [DefaultTeamRow(teamId, org)]
    ensures DefaultTeam(db.teams, org) == Some(DefaultTeamRow(teamId, org))
  {
    org := OrganizationRow(id, name, description);
    OrganizationAppend(db.organizations, org);
    NoTeamsYet(db.teams, db.organizations, id);
    db.organizations := db.organizations + [org];
    FirstTeamIsDefault(db.teams, org, teamId);
    CreateDefaultTeam(db, org, true, teamId);
  }

  /** A later save of an existing organisation (with `created` false): its
      row takes the new name and description and no team is created. */
  method SaveOrganization(db: Database, k: nat, name: string, description: string)
    requires db.Valid() && k < |db.organizations|
    modifies db`organizations, db`teams
    ensures db.Valid()
    ensures db.organizations == old(db.organizations)[k := OrganizationRow(old(db.organizations)[k].id, name, description)]
    ensures db.teams == old(db.teams)
  {
    var org := OrganizationRow(db.organizations[k].id, name, description);
    assert OrganizationIds(db.organizations[k := org]) == OrganizationIds(db.organizations);
    db.organizations := db.organizations[k := org];
    CreateDefaultTeam(db, org, false, "");
  }

  /** The membership rows after `add_member_to_default_team`: one more for
      the member when the member is new, the organisation has a default
      team and the user is not in it yet; the same rows otherwise. */
  function AfterJoinDefault(rows: seq<TeamMemberRow>, teams: seq<TeamRow>, org: OrganizationRow,
                            member: OrgMemberRow, created: bool): (r: seq<TeamMemberRow>)
    ensures !created || DefaultTeam(teams, org).None? ==> r == rows
    ensures created && DefaultTeam(teams, org).Some? ==>
      InTeam(r, DefaultTeam(teams, org).value.id, member.user)
    ensures created && DefaultTeam(teams, org).Some? && !InTeam(rows, DefaultTeam(teams, org).value.id, member.user) ==>
      r == rows + [TeamMemberRow(DefaultTeam(teams, org).value.id, member.user, member.role)]
    ensures created && DefaultTeam(teams, org).Some? && InTeam(rows, DefaultTeam(teams, org).value.id, member.user) ==>
      r == rows
    ensures UniqueTeamMemberships(rows) ==> UniqueTeamMemberships(r)
  {
    if !created then rows
    else match DefaultTeam(teams, org)
      case None => rows
      case Some(t) =>
        if InTeam(rows, t.id, member.user) then rows
        else
          var added := TeamMemberRow(t.id, member.user, member.role);
          assert (rows + [added])[|rows|] == added;
          rows + [added]
  }

  /** `add_member_to_default_team`, firing for the saved membership
      `member` of the organisation `org`. */
  method AddMemberToDefaultTeam(db: Database, org: OrganizationRow, member: OrgMemberRow, created: bool)
    requires org in db.organizations && member.organization == org.id
    modifies db`teamMembers
    ensures db.teamMembers == AfterJoinDefault(old(db.teamMembers), db.teams, org, member, created)
  {
    if created {
      var team := DefaultTeam(db.teams, org);
      if team.Some? && !InTeam(db.teamMembers, team.value.id, member.user) {
        db.teamMembers := db.teamMembers + [TeamMemberRow(team.value.id, member.user, member.role)];
      }
    }
  }

  /** `OrganizationMember.objects.create`: the membership is saved and the
      receiver runs with `created` set. */
  method CreateOrgMember(db: Database, org: OrganizationRow, user: Id, role: string)
    returns (member: OrgMemberRow)
    requires db.Valid() && org in db.organizations
    modifies db`orgMembers, db`teamMembers
    ensures db.Valid()
    ensures member == OrgMemberRow(org.id, user, role)
    ensures db.orgMembers == old(db.orgMembers) + [member]
    ensures db.teamMembers == AfterJoinDefault(old(db.teamMembers), db.teams, org, member, true)
  {
    member := OrgMemberRow(org.id, user, role);
    assert org.id in OrganizationIds(db.organizations);
    db.orgMembers := db.orgMembers + [member];
    AddMemberToDefaultTeam(db, org, member, true);
  }
}
