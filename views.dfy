/** The REST views: login and registration, adding organisation members,
    adding and removing team members, the team and prompt querysets and the
    prompt serializer choice. */
module Views {
  import opened Common
  import opened Models
  import opened Signals

  /** A response body: an `error`, a `status`, a `status` with the
      serialised user, or the `detail` of a lookup that found nothing. */
  datatype Body = ErrorBody(error: string) | StatusBody(status: string) | UserBody(status: string, user: UserRow)
                | Detail(detail: string) | ServerError

  datatype Response = Response(code: nat, body: Body)

  const NotFound := Response(404, Detail("Not found."))

  /** `AuthViewSet.login`. `authenticate` stands for Django's backend: the
      user those credentials belong to, if any. */
  function Login(email: Option<string>, password: Option<string>, authenticate: (string, string) -> Option<UserRow>): (r: Response)
    ensures !Known(email) || !Known(password) ==>
      r == Response(400, ErrorBody("Please provide both email and password"))
    ensures Known(email) && Known(password) && authenticate(email.value, password.value).None? ==>
      r == Response(401, ErrorBody("Invalid credentials"))
    ensures Known(email) && Known(password) && authenticate(email.value, password.value).Some? ==>
      r == Response(200, UserBody("success", authenticate(email.value, password.value).value))
    ensures r.code == 200 <==> Known(email) && Known(password) && authenticate(email.value, password.value).Some?
  {
    if !Known(email) || !Known(password) then Response(400, ErrorBody("Please provide both email and password"))
    else match authenticate(email.value, password.value)
      case Some(user) => Response(200, UserBody("success", user))
      case None => Response(401, ErrorBody("Invalid credentials"))
  }

  /** The `register` check as the view writes it: some user has exactly the
      address given. */
  predicate EmailTakenAsWritten(users: seq<UserRow>, email: Option<string>) {
    email.Some? && email.value in Emails(users)
  }

  /** The check the view evidently intends: some user already has the
      address that `create_user` would store. */
  predicate EmailTaken(users: seq<UserRow>, email: Option<string>) {
    Known(email) && NormalizeEmail(email.value) in Emails(users)
  }

  /** With `a@b` registered, registering `a@B` passes the check as written,
      although `create_user` would store `a@b` again and fail on the unique
      address. */
  lemma RegisterCheckMissesDomainCase()
    ensures var users := [UserRow("u1", "a@b", "A", None, false, false, true)];
      !EmailTakenAsWritten(users, Some("a@B")) && EmailTaken(users, Some("a@B"))
  {
    var users := [UserRow("u1", "a@b", "A", None, false, false, true)];
    assert Emails(users) == ["a@b"];
    assert "a@B"[2] != "a@b"[2];
    UpperDomainNormalizes();
  }

  /** `a@B` is stored as `a@b`. */
  lemma UpperDomainNormalizes()
    ensures NormalizeEmail("a@B") == "a@b"
  {
    var local, domain := "a", "B";
    assert local + "@" + domain == "a@B";
    NormalizeJoined(local, domain);
    LowerB();
  }

  lemma LowerB()
    ensures Lower("B") == "b"
  {
    assert Lower("B")[0] == LowerChar('B') == 'b';
  }

  /** Whenever the intended check passes, the address `create_user` stores
      is new, so the only failures left are a missing address or name. */
  lemma EmailTakenIsExact(users: seq<UserRow>, email: Option<string>)
    requires Known(email)
    ensures !EmailTaken(users, email) <==> NormalizeEmail(email.value) !in Emails(users)
    ensures EmailTaken(users, email) ==> exists k :: 0 <= k < |users| && users[k].email == NormalizeEmail(email.value)
  {
    if EmailTaken(users, email) {
      var e := NormalizeEmail(email.value);
      var k :| 0 <= k < |Emails(users)| && Emails(users)[k] == e;
      assert users[k].email == e;
    }
  }

  /** The response to a `create_user` outcome. */
  function Registered(saved: Saved<UserRow>): (r: Response)
    ensures saved.Created? <==> r.code == 201
    ensures saved.Created? ==> r.body == UserBody("created", saved.row)
    ensures !saved.Created? ==> r == Response(500, ServerError)
  {
    if saved.Created? then Response(201, UserBody("created", saved.row)) else Response(500, ServerError)
  }

  /** `register` as the view writes it: a taken address is caught only when
      it is given exactly as stored; every other clash reaches the unique
      constraint. */
  method RegisterAsWritten(db: Database, id: Id, name: Option<string>, email: Option<string>, password: Option<string>)
    returns (r: Response)
    requires db.Valid() && id !in UserIds(db.users)
    modifies db`users
    ensures db.Valid()
    ensures EmailTakenAsWritten(old(db.users), email) ==>
      r == Response(400, ErrorBody("Email already exists")) && db.users == old(db.users)
    ensures !EmailTakenAsWritten(old(db.users), email) && EmailTaken(old(db.users), email) ==>
      r == Response(500, ServerError) && db.users == old(db.users)
    ensures !EmailTakenAsWritten(old(db.users), email) && !EmailTaken(old(db.users), email)
            && (!Known(email) || name.None?) ==>
      r == Response(500, ServerError) && db.users == old(db.users)
    ensures !EmailTakenAsWritten(old(db.users), email) && !EmailTaken(old(db.users), email)
            && Known(email) && name.Some? ==>
      var row := NewUserRow(id, email.value, password, ExtraFields(name, Unset, Unset, Unset));
      r == Response(201, UserBody("created", row)) && db.users == old(db.users) + [row]
  {
    if EmailTakenAsWritten(db.users, email) {
      return Response(400, ErrorBody("Email already exists"));
    }
    var saved := db.CreateUser(id, email, password, ExtraFields(name, Unset, Unset, Unset));
    r := Registered(saved);
  }

  /** `register` with the check on the stored form of the address: a taken
      address is always a 400 and never reaches the database. */
  method Register(db: Database, id: Id, name: Option<string>, email: Option<string>, password: Option<string>)
    returns (r: Response)
    requires db.Valid() && id !in UserIds(db.users)
    modifies db`users
    ensures db.Valid()
    ensures EmailTaken(old(db.users), email) ==>
      r == Response(400, ErrorBody("Email already exists")) && db.users == old(db.users)
    ensures !EmailTaken(old(db.users), email) && (!Known(email) || name.None?) ==>
      r == Response(500, ServerError) && db.users == old(db.users)
    ensures !EmailTaken(old(db.users), email) && Known(email) && name.Some? ==>
      var row := NewUserRow(id, email.value, password, ExtraFields(name, Unset, Unset, Unset));
      r == Response(201, UserBody("created", row)) && db.users == old(db.users) + [row]
  {
    if EmailTaken(db.users, email) {
      return Response(400, ErrorBody("Email already exists"));
    }
    var saved := db.CreateUser(id, email, password, ExtraFields(name, Unset, Unset, Unset));
    r := Registered(saved);
  }

  /** The `role` of a request body: left out, sent as JSON null, or given. */
  datatype RoleField = Absent | Null | Given(role: string)

  /** `request.data.get('role', 'MEMBER')`: the default applies only to a
      role that is left out; a null role reaches the model as no value,
      which the NOT NULL role columns refuse. */
  function RoleOr(field: RoleField): (r: Option<string>)
    ensures r.None? <==> field.Null?
    ensures field.Absent? ==> r == Some("MEMBER")
    ensures field.Given? ==> r == Some(field.role)
  {
    match field
    case Absent => Some("MEMBER")
    case Null => None
    case Given(role) => Some(role)
  }

  /** `User.objects.get(email=...)`: the address is compared exactly as
      given. */
  function UserByEmail(users: seq<UserRow>, email: Option<string>): (r: Option<UserRow>)
    ensures r.None? <==> email.None? || forall k :: 0 <= k < |users| ==> users[k].email != email.value
    ensures r.Some? ==> r.value in users && email.Some? && r.value.email == email.value
  {
    if email.None? then None else Find(users, (u: UserRow) => u.email == email.value)
  }

  /** `User.objects.get(id=...)`. */
  function UserById(users: seq<UserRow>, id: Option<Id>): (r: Option<UserRow>)
    ensures r.None? <==> id.None? || forall k :: 0 <= k < |users| ==> users[k].id != id.value
    ensures r.Some? ==> r.value in users && id.Some? && r.value.id == id.value
  {
    if id.None? then None else Find(users, (u: UserRow) => u.id == id.value)
  }

  /** The lookup of `get_object()` on the organisations. */
  function OrganizationById(orgs: seq<OrganizationRow>, id: Id): (r: Option<OrganizationRow>)
    ensures r.None? <==> forall k :: 0 <= k < |orgs| ==> orgs[k].id != id
    ensures r.Some? ==> r.value in orgs && r.value.id == id
  {
    Find(orgs, (o: OrganizationRow) => o.id == id)
  }

  /** The lookup of `get_object()` on the teams. */
  function TeamById(teams: seq<TeamRow>, id: Id): (r: Option<TeamRow>)
    ensures r.None? <==> forall k :: 0 <= k < |teams| ==> teams[k].id != id
    ensures r.Some? ==> r.value in teams && r.value.id == id
  {
    Find(teams, (t: TeamRow) => t.id == id)
  }

  /** `OrganizationViewSet.add_member`: the user is looked up by the exact
      address; a user who is not a member yet is added with the given role
      (MEMBER by default), which also adds them to the default team; a null
      role fails the NOT NULL column and nothing is stored. */
  method OrgAddMember(db: Database, orgId: Id, email: Option<string>, role: RoleField)
    returns (r: Response)
    requires db.Valid()
    modifies db`orgMembers, db`teamMembers
    ensures db.Valid()
    ensures OrganizationById(db.organizations, orgId).None? ==>
      r == NotFound && db.orgMembers == old(db.orgMembers) && db.teamMembers == old(db.teamMembers)
    ensures OrganizationById(db.organizations, orgId).Some? && UserByEmail(db.users, email).None? ==>
      r == Response(404, ErrorBody("User not found"))
      && db.orgMembers == old(db.orgMembers) && db.teamMembers == old(db.teamMembers)
    ensures OrganizationById(db.organizations, orgId).Some? && UserByEmail(db.users, email).Some?
            && InOrganization(old(db.orgMembers), orgId, UserByEmail(db.users, email).value.id) ==>
      r == Response(400, ErrorBody("User is already a member"))
      && db.orgMembers == old(db.orgMembers) && db.teamMembers == old(db.teamMembers)
    ensures OrganizationById(db.organizations, orgId).Some? && UserByEmail(db.users, email).Some?
            && !InOrganization(old(db.orgMembers), orgId, UserByEmail(db.users, email).value.id)
            && role.Null? ==>
      r == Response(500, ServerError)
      && db.orgMembers == old(db.orgMembers) && db.teamMembers == old(db.teamMembers)
    ensures OrganizationById(db.organizations, orgId).Some? && UserByEmail(db.users, email).Some?
            && !InOrganization(old(db.orgMembers), orgId, UserByEmail(db.users, email).value.id)
            && !role.Null? ==>
      var member := OrgMemberRow(orgId, UserByEmail(db.users, email).value.id, RoleOr(role).value);
      r == Response(200, StatusBody("member added"))
      && db.orgMembers == old(db.orgMembers) + [member]
      && db.teamMembers == AfterJoinDefault(old(db.teamMembers), db.teams, OrganizationById(db.organizations, orgId).value, member, true)
  {
    var org := OrganizationById(db.organizations, orgId);
    if org.None? {
      return NotFound;
    }
    var user := UserByEmail(db.users, email);
    if user.None? {
      return Response(404, ErrorBody("User not found"));
    }
    if InOrganization(db.orgMembers, orgId, user.value.id) {
      return Response(400, ErrorBody("User is already a member"));
    }
    var stored := RoleOr(role);
    if stored.None? {
      return Response(500, ServerError);
    }
    var _ := CreateOrgMember(db, org.value, user.value.id, stored.value);
    r := Response(200, StatusBody("member added"));
  }

  /** `TeamViewSet.add_member`: the checks in order are the team, the user,
      an existing team membership and the organisation membership; only
      then is one membership row added, unless a null role fails the NOT
      NULL column. */
  method TeamAddMember(db: Database, teamId: Id, userId: Option<Id>, role: RoleField)
    returns (r: Response)
    modifies db`teamMembers
    ensures TeamById(db.teams, teamId).None? ==> r == NotFound && db.teamMembers == old(db.teamMembers)
    ensures TeamById(db.teams, teamId).Some? && UserById(db.users, userId).None? ==>
      r == Response(404, ErrorBody("User not found")) && db.teamMembers == old(db.teamMembers)
    ensures TeamById(db.teams, teamId).Some? && UserById(db.users, userId).Some?
            && InTeam(old(db.teamMembers), teamId, userId.value) ==>
      r == Response(400, ErrorBody("User is already in the team")) && db.teamMembers == old(db.teamMembers)
    ensures TeamById(db.teams, teamId).Some? && UserById(db.users, userId).Some?
            && !InTeam(old(db.teamMembers), teamId, userId.value)
            && !InOrganization(db.orgMembers, TeamById(db.teams, teamId).value.organization, userId.value) ==>
      r == Response(400, ErrorBody("User is not a member of the organization")) && db.teamMembers == old(db.teamMembers)
    ensures TeamById(db.teams, teamId).Some? && UserById(db.users, userId).Some?
            && !InTeam(old(db.teamMembers), teamId, userId.value)
            && InOrganization(db.orgMembers, TeamById(db.teams, teamId).value.organization, userId.value)
            && role.Null? ==>
      r == Response(500, ServerError) && db.teamMembers == old(db.teamMembers)
    ensures TeamById(db.teams, teamId).Some? && UserById(db.users, userId).Some?
            && !InTeam(old(db.teamMembers), teamId, userId.value)
            && InOrganization(db.orgMembers, TeamById(db.teams, teamId).value.organization, userId.value)
            && !role.Null? ==>
      r == Response(200, StatusBody("member added"))
      && db.teamMembers == old(db.teamMembers) + [TeamMemberRow(teamId, userId.value, RoleOr(role).value)]
    ensures r.code == 200 <==> db.teamMembers != old(db.teamMembers)
    ensures UniqueTeamMemberships(old(db.teamMembers)) ==> UniqueTeamMemberships(db.teamMembers)
  {
    var team := TeamById(db.teams, teamId);
    if team.None? {
      return NotFound;
    }
    var user := UserById(db.users, userId);
    if user.None? {
      return Response(404, ErrorBody("User not found"));
    }
    if InTeam(db.teamMembers, teamId, user.value.id) {
      return Response(400, ErrorBody("User is already in the team"));
    }
    if !InOrganization(db.orgMembers, team.value.organization, user.value.id) {
      return Response(400, ErrorBody("User is not a member of the organization"));
    }
    var stored := RoleOr(role);
    if stored.None? {
      return Response(500, ServerError);
    }
    var added := TeamMemberRow(teamId, user.value.id, stored.value);
    assert (db.teamMembers + [added])[|db.teamMembers|] == added;
    db.teamMembers := db.teamMembers + [added];
    r := Response(200, StatusBody("member added"));
  }

  /** A membership row of `user` in `team`. */
  predicate IsMembership(row: TeamMemberRow, team: Id, user: Option<Id>) {
    user.Some? && row.team == team && row.user == user.value
  }

  /** The rows that `TeamMember.objects.get(team=..., user_id=...)` matches. */
  function Memberships(rows: seq<TeamMemberRow>, team: Id, user: Option<Id>): (r: seq<TeamMemberRow>)
    ensures forall x :: x in r <==> x in rows && IsMembership(x, team, user)
    ensures forall x :: multiset(r)[x] == if IsMembership(x, team, user) then multiset(rows)[x] else 0
  {
    FilterSpec(rows, (row: TeamMemberRow) => IsMembership(row, team, user));
    Filter(rows, (row: TeamMemberRow) => IsMembership(row, team, user))
  }

  /** The membership rows without those of `user` in `team`. */
  function WithoutMembership(rows: seq<TeamMemberRow>, team: Id, user: Option<Id>): (r: seq<TeamMemberRow>)
    ensures forall x :: x in r <==> x in rows && !IsMembership(x, team, user)
    ensures forall x :: multiset(r)[x] == if IsMembership(x, team, user) then 0 else multiset(rows)[x]
  {
    FilterSpec(rows, (row: TeamMemberRow) => !IsMembership(row, team, user));
    Filter(rows, (row: TeamMemberRow) => !IsMembership(row, team, user))
  }

  /** Removing the matched membership takes away exactly one row: the
      rows kept and the matched row make up the old rows. */
  lemma RemovingOneMatch(rows: seq<TeamMemberRow>, team: Id, user: Option<Id>)
    requires |Memberships(rows, team, user)| == 1
    ensures multiset(WithoutMembership(rows, team, user)) + multiset(Memberships(rows, team, user)) == multiset(rows)
    ensures |WithoutMembership(rows, team, user)| + 1 == |rows|
  {
    var kept, matched := WithoutMembership(rows, team, user), Memberships(rows, team, user);
    assert multiset(kept) + multiset(matched) == multiset(rows) by {
      forall x ensures (multiset(kept) + multiset(matched))[x] == multiset(rows)[x] {
      }
    }
    assert |multiset(kept) + multiset(matched)| == |multiset(rows)|;
  }

  /** `TeamViewSet.remove_member`: the one matching membership is deleted;
      no match is a 404, and more than one match makes `get` raise. */
  method TeamRemoveMember(db: Database, teamId: Id, userId: Option<Id>) returns (r: Response)
    modifies db`teamMembers
    ensures TeamById(db.teams, teamId).None? ==> r == NotFound && db.teamMembers == old(db.teamMembers)
    ensures TeamById(db.teams, teamId).Some? && Memberships(old(db.teamMembers), teamId, userId) == [] ==>
      r == Response(404, ErrorBody("Member not found in team")) && db.teamMembers == old(db.teamMembers)
    ensures TeamById(db.teams, teamId).Some? && |Memberships(old(db.teamMembers), teamId, userId)| == 1 ==>
      r == Response(200, StatusBody("member removed"))
      && db.teamMembers == WithoutMembership(old(db.teamMembers), teamId, userId)
      && |db.teamMembers| + 1 == |old(db.teamMembers)|
      && multiset(db.teamMembers) + multiset(Memberships(old(db.teamMembers), teamId, userId)) == multiset(old(db.teamMembers))
    ensures TeamById(db.teams, teamId).Some? && |Memberships(old(db.teamMembers), teamId, userId)| > 1 ==>
      r == Response(500, ServerError) && db.teamMembers == old(db.teamMembers)
  {
    var team := TeamById(db.teams, teamId);
    if team.None? {
      return NotFound;
    }
    var matches := Memberships(db.teamMembers, teamId, userId);
    if |matches| == 0 {
      return Response(404, ErrorBody("Member not found in team"));
    }
    if |matches| > 1 {
      return Response(500, ServerError);
    }
    RemovingOneMatch(db.teamMembers, teamId, userId);
    db.teamMembers := WithoutMembership(db.teamMembers, teamId, userId);
    r := Response(200, StatusBody("member removed"));
  }

  /** `TeamViewSet.get_queryset`: the teams of the organisation when an
      `organization_id` is given, all teams otherwise. */
  function TeamQueryset(teams: seq<TeamRow>, orgId: Option<Id>): (r: seq<TeamRow>)
    ensures !Known(orgId) ==> r == teams
    ensures Known(orgId) ==> forall t :: t in r <==> t in teams && t.organization == orgId.value
    ensures Known(orgId) ==> forall t :: multiset(r)[t] == if t.organization == orgId.value then multiset(teams)[t] else 0
  {
    if Known(orgId) then TeamsOf(teams, orgId.value) else teams
  }

  /** The number of rows sharing `prompt` with `team`. */
  function ShareCount(links: seq<TeamPromptRow>, prompt: Id, team: Id): (r: nat)
    ensures r <= |links|
    ensures r == 0 <==> forall k :: 0 <= k < |links| ==> links[k] != TeamPromptRow(prompt, team)
  {
    var m := Filter(links, (l: TeamPromptRow) => l == TeamPromptRow(prompt, team));
    FilterSpec(links, (l: TeamPromptRow) => l == TeamPromptRow(prompt, team));
    assert m != [] ==> m[0] in m;
    assert forall k :: 0 <= k < |links| && links[k] == TeamPromptRow(prompt, team) ==> links[k] in m;
    |m|
  }

  /** `filter(shared_teams__team_id=...)`: a join, so each prompt comes once
      for every row that shares it with the team. */
  function SharedWith(prompts: seq<PromptRow>, links: seq<TeamPromptRow>, team: Id): (r: seq<PromptRow>)
    ensures forall p :: p in r ==> p in prompts
    decreases |prompts|
  {
    if prompts == [] then []
    else Repeat(prompts[0], ShareCount(links, prompts[0].id, team)) + SharedWith(prompts[1..], links, team)
  }

  /** The join lists each prompt as often as it occurs times the number of
      rows sharing it with the team. */
  lemma {:induction false} SharedWithCount(prompts: seq<PromptRow>, links: seq<TeamPromptRow>, team: Id, p: PromptRow)
    ensures multiset(SharedWith(prompts, links, team))[p] == multiset(prompts)[p] * ShareCount(links, p.id, team)
    decreases |prompts|
  {
    if prompts != [] {
      var k := ShareCount(links, p.id, team);
      var c := multiset(prompts[1..])[p];
      var tail := multiset(SharedWith(prompts[1..], links, team))[p];
      var whole := multiset(SharedWith(prompts, links, team))[p];
      SharedWithCount(prompts[1..], links, team, p);
      assert tail == c * k;
      FirstAndRest(prompts, p);
      SharedWithFirst(prompts, links, team, p);
      if p == prompts[0] {
        assert whole == k + tail;
        OneMore(c, k);
        assert multiset(prompts)[p] == c + 1;
      } else {
        assert whole == tail;
        assert multiset(prompts)[p] == c;
      }
    }
  }

  /** One step of the join: the copies of the first prompt, then the rest. */
  lemma SharedWithFirst(prompts: seq<PromptRow>, links: seq<TeamPromptRow>, team: Id, p: PromptRow)
    requires prompts != []
    ensures multiset(SharedWith(prompts, links, team))[p] ==
      (if p == prompts[0] then ShareCount(links, p.id, team) else 0) + multiset(SharedWith(prompts[1..], links, team))[p]
  {
    RepeatCount(prompts[0], ShareCount(links, prompts[0].id, team));
  }

  /** The count of a value in a sequence: its first element, then the rest. */
  lemma FirstAndRest<T>(s: seq<T>, x: T)
    requires s != []
    ensures multiset(s)[x] == (if x == s[0] then 1 else 0) + multiset(s[1..])[x]
  {
    assert s == [s[0]] + s[1..];
  }

  lemma OneMore(c: nat, k: nat)
    ensures (c + 1) * k == k + c * k
  {
  }

  /** `n` copies of `x`. */
  function Repeat<T>(x: T, n: nat): (r: seq<T>)
    ensures |r| == n && forall k :: 0 <= k < n ==> r[k] == x
  {
    seq(n, _ => x)
  }

  lemma {:induction false} RepeatCount<T>(x: T, n: nat)
    ensures forall y :: multiset(Repeat(x, n))[y] == if y == x then n else 0
  {
    if n > 0 {
      RepeatCount(x, n - 1);
      assert Repeat(x, n) == Repeat(x, n - 1) + [x];
    } else {
      assert Repeat(x, 0) == [];
    }
  }

  /** How often the organisation filter keeps `p`. */
  function OrgWeight(prompts: seq<PromptRow>, orgId: Option<Id>, p: PromptRow): nat {
    if Known(orgId) && p.organization != orgId.value then 0 else multiset(prompts)[p]
  }

  /** How often the team join repeats `p`. */
  function TeamWeight(links: seq<TeamPromptRow>, teamId: Option<Id>, p: PromptRow): nat {
    if Known(teamId) then ShareCount(links, p.id, teamId.value) else 1
  }

  /** The prompts of organisation `org`, each as often as it is stored. */
  function OfOrganization(prompts: seq<PromptRow>, org: Id): (r: seq<PromptRow>)
    ensures forall p :: multiset(r)[p] == if p.organization == org then multiset(prompts)[p] else 0
    ensures forall p :: p in r <==> p in prompts && p.organization == org
  {
    FilterSpec(prompts, (p: PromptRow) => p.organization == org);
    Filter(prompts, (p: PromptRow) => p.organization == org)
  }

  /** `PromptViewSet.get_queryset`: the prompts of the organisation when an
      `organization_id` is given, then the join with the team's share rows
      when a `team_id` is given. */
  function PromptQueryset(prompts: seq<PromptRow>, links: seq<TeamPromptRow>, orgId: Option<Id>, teamId: Option<Id>): (r: seq<PromptRow>)
    ensures forall p :: p in r ==> p in prompts && (Known(orgId) ==> p.organization == orgId.value)
  {
    var ofOrg := if Known(orgId) then OfOrganization(prompts, orgId.value) else prompts;
    if Known(teamId) then SharedWith(ofOrg, links, teamId.value) else ofOrg
  }

  /** Each prompt is listed as often as the organisation filter keeps it
      times the number of rows sharing it with the team. */
  lemma QuerysetCount(prompts: seq<PromptRow>, links: seq<TeamPromptRow>, orgId: Option<Id>, teamId: Option<Id>, p: PromptRow)
    ensures multiset(PromptQueryset(prompts, links, orgId, teamId))[p] == OrgWeight(prompts, orgId, p) * TeamWeight(links, teamId, p)
  {
    var ofOrg := if Known(orgId) then OfOrganization(prompts, orgId.value) else prompts;
    var w := OrgWeight(prompts, orgId, p);
    var listed := multiset(PromptQueryset(prompts, links, orgId, teamId))[p];
    assert multiset(ofOrg)[p] == w;
    if Known(teamId) {
      SharedWithCount(ofOrg, links, teamId.value, p);
      assert listed == w * ShareCount(links, p.id, teamId.value);
    } else {
      assert listed == w;
      TimesOne(w);
    }
  }

  lemma TimesOne(w: nat)
    ensures w * 1 == w && 1 * w == w && w * 0 == 0
  {
  }

  /** When no prompt and no share row is stored twice, a prompt of the
      organisation shared with the team is listed exactly once, and one not
      shared with it is not listed. */
  lemma ListedOnceWhenDistinct(prompts: seq<PromptRow>, links: seq<TeamPromptRow>, orgId: Option<Id>, team: Id, p: PromptRow)
    requires Distinct(prompts) && Distinct(links)
    requires p in prompts && (Known(orgId) ==> p.organization == orgId.value) && team != ""
    ensures multiset(PromptQueryset(prompts, links, orgId, Some(team)))[p] == if TeamPromptRow(p.id, team) in links then 1 else 0
  {
    QuerysetCount(prompts, links, orgId, Some(team), p);
    DistinctCountsOne(prompts, p);
    assert OrgWeight(prompts, orgId, p) == 1;
    TimesOne(ShareCount(links, p.id, team));
    var link := TeamPromptRow(p.id, team);
    var matching := Filter(links, (l: TeamPromptRow) => l == link);
    FilterSpec(links, (l: TeamPromptRow) => l == link);
    if link in links {
      DistinctCountsOne(links, link);
      assert multiset(matching)[link] == 1;
      OnlyOneValue(matching, link);
      assert ShareCount(links, p.id, team) == |matching| == 1;
    } else {
      assert ShareCount(links, p.id, team) == 0;
    }
  }

  /** A value that occurs in a distinct sequence occurs once. */
  lemma {:induction false} DistinctCountsOne<T>(s: seq<T>, x: T)
    requires Distinct(s) && x in s
    ensures multiset(s)[x] == 1
    decreases |s|
  {
    assert s == [s[0]] + s[1..];
    if s[0] == x {
      assert x !in s[1..];
    } else {
      DistinctCountsOne(s[1..], x);
    }
  }

  /** A sequence whose every element is `x` holds `x` as many times as it
      is long. */
  lemma {:induction false} OnlyOneValue<T>(s: seq<T>, x: T)
    requires forall y :: y in s ==> y == x
    ensures |s| == multiset(s)[x]
    decreases |s|
  {
    if s != [] {
      assert s[0] in s;
      assert s == [s[0]] + s[1..];
      assert forall y :: y in s[1..] ==> y in s;
      OnlyOneValue(s[1..], x);
      FirstAndRest(s, x);
    }
  }

  /** The serializer classes of `PromptViewSet`. */
  datatype SerializerClass = CreatePromptSerializer | PromptSerializer

  /** `get_serializer_class`: the relation-writing serializer for `create`
      only. */
  function SerializerFor(action: string): (r: SerializerClass)
    ensures r == CreatePromptSerializer <==> action == "create"
  {
    if action == "create" then CreatePromptSerializer else PromptSerializer
  }
}
