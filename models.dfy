/** The Django models the backend works on. Each table is a sequence of rows
    in one `Database` object, which also carries the user manager's
    `create_user` and `create_superuser`. Row ids are UUIDs that the caller
    supplies fresh. */
module Models {
  import opened Common

  datatype UserRow = UserRow(
    id: Id, email: string, name: string, password: Option<string>,
    isStaff: bool, isSuperuser: bool, isActive: bool)
  datatype OrganizationRow = OrganizationRow(id: Id, name: string, description: string)
  datatype OrgMemberRow = OrgMemberRow(organization: Id, user: Id, role: string)
  datatype TeamRow = TeamRow(id: Id, organization: Id, name: string, description: string)
  datatype TeamMemberRow = TeamMemberRow(team: Id, user: Id, role: string)
  datatype PromptRow = PromptRow(
    id: Id, organization: Id, createdBy: Option<Id>, name: string, description: string,
    prompt: string, model: string, visibility: string)
  datatype PromptCategoryRow = PromptCategoryRow(prompt: Id, category: Id)
  datatype TeamPromptRow = TeamPromptRow(prompt: Id, team: Id)

  /** The choices of `Prompt.visibility` and its default. */
  const VisibilityChoices: seq<string> := [PRIVATE, TEAM]
  const DefaultVisibility: string := PRIVATE

  /** The visibility a new prompt is stored with: the default when none is
      given, the given one when it is a choice, and none (a validation error)
      otherwise. */
  function StoredVisibility(given: Option<string>): (r: Option<string>)
    ensures given.None? ==> r == Some(PRIVATE)
    ensures given.Some? ==> (r.Some? <==> given.value == PRIVATE || given.value == TEAM)
    ensures r.Some? ==> r.value in VisibilityChoices
  {
    if given.None? then Some(DefaultVisibility)
    else if given.value in VisibilityChoices then given
    else None
  }

  /** A keyword argument of the manager calls that may be left out. */
  datatype Flag = Unset | Given(value: bool)

  /** `**extra_fields` of `create_user` and `create_superuser`. `name` is
      `None` for an explicit `name=None`, which the NOT NULL column rejects;
      the one caller in the views always passes a name, so leaving the
      argument out (which Django would save as `""`) is not distinguished. */
  datatype ExtraFields = ExtraFields(name: Option<string>, isStaff: Flag, isSuperuser: Flag, isActive: Flag)

  function FlagOr(f: Flag, otherwise: bool): (r: bool)
    ensures f.Given? ==> r == f.value
    ensures f.Unset? ==> r == otherwise
  {
    if f.Given? then f.value else otherwise
  }

  /** `extra_fields.setdefault(key, True)`. */
  function SetDefault(f: Flag): (r: Flag)
    ensures r.Given? && (f.Given? ==> r == f) && (f.Unset? ==> r == Given(true))
  {
    if f.Unset? then Given(true) else f
  }

  /** What saving a row does: the row, a `ValueError` the manager raises, or a
      database constraint that fails. */
  datatype Saved<T> = Created(row: T) | ValueError(message: string) | IntegrityError

  /** The ASCII part of Python's `str.lower()`. */
  function LowerChar(c: char): (r: char)
    ensures 'A' <= c <= 'Z' ==> r as int == c as int + 32
    ensures !('A' <= c <= 'Z') ==> r == c
    ensures !('A' <= r <= 'Z')
  {
    if 'A' <= c <= 'Z' then (c as int + 32) as char else c
  }

  function Lower(s: string): (r: string)
    ensures |r| == |s| && forall k :: 0 <= k < |s| ==> r[k] == LowerChar(s[k])
  {
    seq(|s|, k requires 0 <= k < |s| => LowerChar(s[k]))
  }

  /** Lower-casing twice is lower-casing once; it keeps every `'@'` and
      every other non-letter where it was. */
  lemma LowerFacts(s: string)
    ensures Lower(Lower(s)) == Lower(s)
    ensures forall k :: 0 <= k < |s| ==> (Lower(s)[k] == '@' <==> s[k] == '@')
    ensures forall k :: 0 <= k < |s| ==> (IsPyWhitespace(Lower(s)[k]) <==> IsPyWhitespace(s[k]))
  {
  }

  /** The position that `rsplit('@', 1)` splits at: the last `'@'`. */
  function LastAt(s: string): (r: Option<nat>)
    ensures r.None? <==> forall k :: 0 <= k < |s| ==> s[k] != '@'
    ensures r.Some? ==> r.value < |s| && s[r.value] == '@' && forall k :: r.value < k < |s| ==> s[k] != '@'
  {
    if s == [] then None
    else if s[|s| - 1] == '@' then Some(|s| - 1)
    else LastAt(s[..|s| - 1])
  }

  /** The last `'@'` is the only one with none after it. */
  lemma LastAtIs(s: string, i: nat)
    requires i < |s| && s[i] == '@' && forall k :: i < k < |s| ==> s[k] != '@'
    ensures LastAt(s) == Some(i)
  {
  }

  /** The address rebuilt around its `'@'` at `i`: the local part as it
      was and the domain lower-cased. */
  function LowerDomain(t: string, i: nat): (r: string)
    requires i < |t| && t[i] == '@'
    ensures |r| == |t| && r[i] == '@'
    ensures forall k :: 0 <= k < i ==> r[k] == t[k]
    ensures forall k :: i < k < |t| ==> r[k] == LowerChar(t[k])
  {
    t[..i] + "@" + Lower(t[i + 1..])
  }

  /** `BaseUserManager.normalize_email`: the address with its surrounding
      whitespace stripped and the part after the last `'@'` lower-cased; an
      address with no `'@'` is left exactly as it was. */
  function NormalizeEmail(email: string): (r: string)
    ensures LastAt(Trim(email, IsPyWhitespace)).None? ==> r == email
    ensures LastAt(Trim(email, IsPyWhitespace)).Some? ==>
      r == LowerDomain(Trim(email, IsPyWhitespace), LastAt(Trim(email, IsPyWhitespace)).value)
  {
    var t := Trim(email, IsPyWhitespace);
    match LastAt(t)
    case None => email
    case Some(i) => LowerDomain(t, i)
  }

  /** A string whose ends are not whitespace is its own trim. */
  lemma TrimmedIsFixed(s: string)
    requires s != [] && !IsPyWhitespace(s[0]) && !IsPyWhitespace(s[|s| - 1])
    ensures Trim(s, IsPyWhitespace) == s
  {
  }

  /** A stripped address whose last `'@'` is at `i` normalises to its
      lower-cased-domain form. */
  lemma NormalizeAt(s: string, i: nat)
    requires i < |s| && s[i] == '@' && forall k :: i < k < |s| ==> s[k] != '@'
    requires !IsPyWhitespace(s[0]) && !IsPyWhitespace(s[|s| - 1])
    ensures NormalizeEmail(s) == LowerDomain(s, i)
  {
    TrimmedIsFixed(s);
    LastAtIs(s, i);
  }

  /** Lowering the domain of an address whose domain is already lower case
      changes nothing. */
  lemma LowerDomainTwice(t: string, i: nat)
    requires i < |t| && t[i] == '@'
    ensures LowerDomain(LowerDomain(t, i), i) == LowerDomain(t, i)
  {
    var r := LowerDomain(t, i);
    var rr := LowerDomain(r, i);
    assert forall k :: 0 <= k < |r| ==> rr[k] == r[k] by {
      forall k | 0 <= k < |r| ensures rr[k] == r[k] {
        if i < k { assert r[k] == LowerChar(t[k]); }
      }
    }
  }

  /** Lowering the domain keeps the ends free of whitespace and keeps the
      `'@'` at `i` the last one. */
  lemma LowerDomainShape(t: string, i: nat)
    requires i < |t| && t[i] == '@' && forall k :: i < k < |t| ==> t[k] != '@'
    requires !IsPyWhitespace(t[0]) && !IsPyWhitespace(t[|t| - 1])
    ensures var r := LowerDomain(t, i);
      !IsPyWhitespace(r[0]) && !IsPyWhitespace(r[|r| - 1]) && forall k :: i < k < |r| ==> r[k] != '@'
  {
    var r := LowerDomain(t, i);
    if i > 0 { assert r[0] == t[0]; }
    if i + 1 < |t| { assert r[|r| - 1] == LowerChar(t[|t| - 1]); }
    forall k | i < k < |r| ensures r[k] != '@' {
      assert r[k] == LowerChar(t[k]);
    }
  }

  /** Normalising a normalised address changes nothing. */
  lemma NormalizeIdempotent(email: string)
    ensures NormalizeEmail(NormalizeEmail(email)) == NormalizeEmail(email)
  {
    var t := Trim(email, IsPyWhitespace);
    if LastAt(t).Some? {
      var i := LastAt(t).value;
      LowerDomainShape(t, i);
      NormalizeAt(LowerDomain(t, i), i);
      LowerDomainTwice(t, i);
    }
  }

  /** The joined address keeps the local part's first character, the
      domain's last character and has no `'@'` after the joining one. */
  lemma JoinedShape(local: string, domain: string)
    requires forall k :: 0 <= k < |domain| ==> domain[k] != '@'
    ensures var a := local + "@" + domain;
      a[|local|] == '@' && a[..|local|] == local && a[|local| + 1..] == domain
      && (local != [] ==> a[0] == local[0]) && (domain != [] ==> a[|a| - 1] == domain[|domain| - 1])
      && forall k :: |local| < k < |a| ==> a[k] != '@'
  {
    var a := local + "@" + domain;
    forall k | |local| < k < |a| ensures a[k] != '@' {
      assert a[k] == domain[k - |local| - 1];
    }
  }

  /** A stripped address with one `'@'` between its local part and its
      domain normalises to the local part, `'@'` and the lower-cased domain. */
  lemma NormalizeJoined(local: string, domain: string)
    requires local != [] && !IsPyWhitespace(local[0])
    requires domain != [] && !IsPyWhitespace(domain[|domain| - 1])
    requires forall k :: 0 <= k < |domain| ==> domain[k] != '@'
    ensures NormalizeEmail(local + "@" + domain) == local + "@" + Lower(domain)
  {
    JoinedShape(local, domain);
    NormalizeAt(local + "@" + domain, |local|);
  }

  /** Two addresses that differ only in the case of their domain normalise
      to the same address. */
  lemma DomainCaseIgnored(local: string, domain: string)
    requires local != [] && !IsPyWhitespace(local[0])
    requires domain != [] && !IsPyWhitespace(domain[|domain| - 1])
    requires forall k :: 0 <= k < |domain| ==> domain[k] != '@'
    ensures NormalizeEmail(local + "@" + domain) == NormalizeEmail(local + "@" + Lower(domain))
  {
    LowerFacts(domain);
    NormalizeJoined(local, domain);
    NormalizeJoined(local, Lower(domain));
  }

  /* The key columns of the tables, one function per table and column:
     `Valid` states uniqueness on each, and naming the column keeps the
     uniqueness facts of the tables apart. */

  function UserIds(users: seq<UserRow>): (r: seq<Id>)
    ensures |r| == |users| && forall k :: 0 <= k < |r| ==> r[k] == users[k].id
  {
    seq(|users|, k requires 0 <= k < |users| => users[k].id)
  }

  function Emails(users: seq<UserRow>): (r: seq<string>)
    ensures |r| == |users| && forall k :: 0 <= k < |r| ==> r[k] == users[k].email
  {
    seq(|users|, k requires 0 <= k < |users| => users[k].email)
  }

  function OrganizationIds(orgs: seq<OrganizationRow>): (r: seq<Id>)
    ensures |r| == |orgs| && forall k :: 0 <= k < |r| ==> r[k] == orgs[k].id
  {
    seq(|orgs|, k requires 0 <= k < |orgs| => orgs[k].id)
  }

  function TeamIds(teams: seq<TeamRow>): (r: seq<Id>)
    ensures |r| == |teams| && forall k :: 0 <= k < |r| ==> r[k] == teams[k].id
  {
    seq(|teams|, k requires 0 <= k < |teams| => teams[k].id)
  }

  function PromptIds(prompts: seq<PromptRow>): (r: seq<Id>)
    ensures |r| == |prompts| && forall k :: 0 <= k < |r| ==> r[k] == prompts[k].id
  {
    seq(|prompts|, k requires 0 <= k < |prompts| => prompts[k].id)
  }

  /** No value occurs twice: a primary key or a unique column. */
  predicate Distinct<T(==)>(s: seq<T>) {
    forall i, j :: 0 <= i < j < |s| ==> s[i] != s[j]
  }

  /** Appending a value that is not there keeps a column distinct. */
  lemma DistinctAppend<T>(s: seq<T>, x: T)
    requires Distinct(s) && x !in s
    ensures Distinct(s + [x])
  {
  }

  /** A user row with a new id and a new address keeps both columns
      distinct. */
  lemma UserKeysAppend(users: seq<UserRow>, row: UserRow)
    requires Distinct(UserIds(users)) && Distinct(Emails(users))
    requires row.id !in UserIds(users) && row.email !in Emails(users)
    ensures Distinct(UserIds(users + [row])) && Distinct(Emails(users + [row]))
    ensures row.id in UserIds(users + [row]) && row.email in Emails(users + [row])
  {
    assert UserIds(users + [row]) == UserIds(users) + [row.id];
    assert Emails(users + [row]) == Emails(users) + [row.email];
    DistinctAppend(UserIds(users), row.id);
    DistinctAppend(Emails(users), row.email);
  }

  /** The team has a membership row for the user. */
  predicate InTeam(rows: seq<TeamMemberRow>, team: Id, user: Id) {
    exists k :: 0 <= k < |rows| && rows[k].team == team && rows[k].user == user
  }

  /** The organisation has a membership row for the user. */
  predicate InOrganization(rows: seq<OrgMemberRow>, org: Id, user: Id) {
    exists k :: 0 <= k < |rows| && rows[k].organization == org && rows[k].user == user
  }

  /** No (team, user) pair has two membership rows. */
  predicate UniqueTeamMemberships(rows: seq<TeamMemberRow>) {
    forall i, j :: 0 <= i < j < |rows| ==> !(rows[i].team == rows[j].team && rows[i].user == rows[j].user)
  }

  /** The row that `create_user` saves: the normalised address, and the
      model's defaults (not staff, not superuser, active) for flags left
      out. */
  function NewUserRow(id: Id, email: string, password: Option<string>, extra: ExtraFields): (r: UserRow)
    requires extra.name.Some?
    ensures r.id == id && r.email == NormalizeEmail(email) && r.password == password && r.name == extra.name.value
    ensures r.isStaff == FlagOr(extra.isStaff, false) && r.isSuperuser == FlagOr(extra.isSuperuser, false)
    ensures r.isActive == FlagOr(extra.isActive, true)
  {
    UserRow(id, NormalizeEmail(email), extra.name.value, password,
            FlagOr(extra.isStaff, false), FlagOr(extra.isSuperuser, false), FlagOr(extra.isActive, true))
  }

  class Database {
    var users: seq<UserRow>
    var organizations: seq<OrganizationRow>
    var orgMembers: seq<OrgMemberRow>
    var teams: seq<TeamRow>
    var teamMembers: seq<TeamMemberRow>
    var prompts: seq<PromptRow>
    var promptCategories: seq<PromptCategoryRow>
    var teamPrompts: seq<TeamPromptRow>

    /** Primary keys are unique, `User.email` is unique, and every team and
        organisation membership points at an organisation that exists. */
    ghost predicate Valid()
      reads this
    {
      Distinct(UserIds(users)) && Distinct(Emails(users))
      && Distinct(OrganizationIds(organizations)) && Distinct(TeamIds(teams)) && Distinct(PromptIds(prompts))
      && (forall k :: 0 <= k < |teams| ==> teams[k].organization in OrganizationIds(organizations))
      && (forall k :: 0 <= k < |orgMembers| ==> orgMembers[k].organization in OrganizationIds(organizations))
    }

    constructor ()
      ensures Valid()
      ensures users == [] && organizations == [] && orgMembers == [] && teams == [] && teamMembers == []
      ensures prompts == [] && promptCategories == [] && teamPrompts == []
    {
      users := [];
      organizations := [];
      orgMembers := [];
      teams := [];
      teamMembers := [];
      prompts := [];
      promptCategories := [];
      teamPrompts := [];
    }

    /** `create_user`: an empty address raises; otherwise the normalised
        address is saved with the password and the other fields, unless the
        unique address or the required name makes the save fail. */
    method CreateUser(id: Id, email: Option<string>, password: Option<string>, extra: ExtraFields)
      returns (r: Saved<UserRow>)
      requires Valid() && id !in UserIds(users)
      modifies this`users
      ensures Valid()
      ensures !Known(email) ==> r == ValueError("The Email must be set") && users == old(users)
      ensures Known(email) && (extra.name.None? || NormalizeEmail(email.value) in Emails(old(users))) ==>
        r == IntegrityError && users == old(users)
      ensures Known(email) && extra.name.Some? && NormalizeEmail(email.value) !in Emails(old(users)) ==>
        r == Created(NewUserRow(id, email.value, password, extra)) && users == old(users) + [r.row]
      ensures r.Created? ==> r.row.email in Emails(users) && r.row.id in UserIds(users)
    {
      if !Known(email) {
        return ValueError("The Email must be set");
      }
      var normalized := NormalizeEmail(email.value);
      if extra.name.None? || normalized in Emails(users) {
        return IntegrityError;
      }
      var row := NewUserRow(id, email.value, password, extra);
      UserKeysAppend(users, row);
      users := users + [row];
      r := Created(row);
    }

    /** `create_superuser`: the staff, superuser and active flags default to
        true; a staff or superuser flag given as false raises; otherwise it
        is `create_user` with those flags. */
    method CreateSuperuser(id: Id, email: Option<string>, password: Option<string>, extra: ExtraFields)
      returns (r: Saved<UserRow>)
      requires Valid() && id !in UserIds(users)
      modifies this`users
      ensures Valid()
      ensures extra.isStaff == Given(false) ==>
        r == ValueError("Superuser must have is_staff=True.") && users == old(users)
      ensures extra.isStaff != Given(false) && extra.isSuperuser == Given(false) ==>
        r == ValueError("Superuser must have is_superuser=True.") && users == old(users)
      ensures r.Created? ==>
        r.row.isStaff && r.row.isSuperuser && r.row.isActive == FlagOr(extra.isActive, true)
        && users == old(users) + [r.row] && Known(email) && r.row.email == NormalizeEmail(email.value)
      ensures !r.Created? ==> users == old(users)
      ensures extra.isStaff != Given(false) && extra.isSuperuser != Given(false) && !Known(email) ==>
        r == ValueError("The Email must be set")
      ensures extra.isStaff != Given(false) && extra.isSuperuser != Given(false) && Known(email)
              && (extra.name.None? || NormalizeEmail(email.value) in Emails(old(users))) ==>
        r == IntegrityError
      ensures extra.isStaff != Given(false) && extra.isSuperuser != Given(false) && Known(email)
              && extra.name.Some? && NormalizeEmail(email.value) !in Emails(old(users)) ==>
        r == Created(NewUserRow(id, email.value, password, ExtraFields(extra.name, Given(true), Given(true), SetDefault(extra.isActive))))
    {
      var fields := ExtraFields(extra.name, SetDefault(extra.isStaff), SetDefault(extra.isSuperuser), SetDefault(extra.isActive));
      if fields.isStaff != Given(true) {
        return ValueError("Superuser must have is_staff=True.");
      }
      if fields.isSuperuser != Given(true) {
        return ValueError("Superuser must have is_superuser=True.");
      }
      r := CreateUser(id, email, password, fields);
    }
  }
}
