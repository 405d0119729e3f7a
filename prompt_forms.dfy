/** The form of the new-prompt and edit-prompt pages: field updates, the
    ordered submit checks, the request bodies, the mapping of a prompt record
    into the form, the save-location rule and the decision of the inline
    "new category" control. */
module PromptForms {
  import opened Common

  /** `formData` of the prompt pages. The new-prompt form has no description,
      and neither form has a folder until one is chosen or loaded. */
  datatype PromptForm = PromptForm(
    name: string, description: Option<string>, prompt: string, model: string, visibility: string,
    categoryIds: seq<Id>, teamIds: seq<Id>, folder: Option<string>)

  const DefaultModel := "gpt-3.5-turbo"

  /** The initial form of the new-prompt page. */
  const NewPromptForm := PromptForm("", None, "", DefaultModel, PRIVATE, [], [], None)

  /** The initial form of the edit-prompt page, before the prompt loads. */
  const EditPromptForm := PromptForm("", Some(""), "", DefaultModel, PRIVATE, [], [], None)

  /** The `name` attribute of the input that fired `handleChange`. */
  datatype PromptField = NameField | DescriptionField | ContentField | ModelField | VisibilityField | FolderField

  /** `{...prev, [name]: value}`: the named field takes the value and every
      other field keeps its own. */
  function WithField(form: PromptForm, field: PromptField, value: string): (r: PromptForm)
    ensures r.name == (if field == NameField then value else form.name)
    ensures r.description == (if field == DescriptionField then Some(value) else form.description)
    ensures r.prompt == (if field == ContentField then value else form.prompt)
    ensures r.model == (if field == ModelField then value else form.model)
    ensures r.visibility == (if field == VisibilityField then value else form.visibility)
    ensures r.folder == (if field == FolderField then Some(value) else form.folder)
    ensures r.categoryIds == form.categoryIds && r.teamIds == form.teamIds
  {
    match field
    case NameField => form.(name := value)
    case DescriptionField => form.(description := Some(value))
    case ContentField => form.(prompt := value)
    case ModelField => form.(model := value)
    case VisibilityField => form.(visibility := value)
    case FolderField => form.(folder := Some(value))
  }

  /** The submit checks of the prompt pages. */
  datatype PromptProblem = NameRequired | ContentRequired | OrganizationMissing | TeamsRequired

  function PromptMessage(p: PromptProblem): (r: string)
    ensures r != ""
  {
    match p
    case NameRequired => "Prompt Name is required"
    case ContentRequired => "Prompt Content is required"
    case OrganizationMissing => "Organization context is missing. Cannot save."
    case TeamsRequired => "Please select at least one team for Team visibility"
  }

  /** TEAM visibility with no team chosen. */
  predicate LacksTeams(form: PromptForm) {
    form.visibility == TEAM && form.teamIds == []
  }

  /** The new-prompt checks, in order: name, content, organisation, teams. */
  function ValidateNewPrompt(form: PromptForm, organization: Option<Id>): (r: Option<PromptProblem>)
    ensures r == Some(NameRequired) <==> IsBlank(form.name)
    ensures r == Some(ContentRequired) <==> !IsBlank(form.name) && IsBlank(form.prompt)
    ensures r == Some(OrganizationMissing) <==>
      !IsBlank(form.name) && !IsBlank(form.prompt) && !Known(organization)
    ensures r == Some(TeamsRequired) <==>
      !IsBlank(form.name) && !IsBlank(form.prompt) && Known(organization) && LacksTeams(form)
    ensures r.None? <==> !IsBlank(form.name) && !IsBlank(form.prompt) && Known(organization) && !LacksTeams(form)
  {
    if IsBlank(form.name) then Some(NameRequired)
    else if IsBlank(form.prompt) then Some(ContentRequired)
    else if !Known(organization) then Some(OrganizationMissing)
    else if LacksTeams(form) then Some(TeamsRequired)
    else None
  }

  /** The edit-prompt checks, in order: name, content, teams. */
  function ValidateEditedPrompt(form: PromptForm): (r: Option<PromptProblem>)
    ensures r == Some(NameRequired) <==> IsBlank(form.name)
    ensures r == Some(ContentRequired) <==> !IsBlank(form.name) && IsBlank(form.prompt)
    ensures r == Some(TeamsRequired) <==> !IsBlank(form.name) && !IsBlank(form.prompt) && LacksTeams(form)
    ensures r != Some(OrganizationMissing)
    ensures r.None? <==> !IsBlank(form.name) && !IsBlank(form.prompt) && !LacksTeams(form)
  {
    if IsBlank(form.name) then Some(NameRequired)
    else if IsBlank(form.prompt) then Some(ContentRequired)
    else if LacksTeams(form) then Some(TeamsRequired)
    else None
  }

  /** A prompt the edit checks accept passes the new-prompt checks as well,
      once an organisation is known, and the reverse. */
  lemma ChecksAgree(form: PromptForm, organization: Option<Id>)
    requires Known(organization)
    ensures ValidateNewPrompt(form, organization) == ValidateEditedPrompt(form)
  {
  }

  /** The form as sent: `team_ids` is emptied for PRIVATE only; TEAM and
      PUBLIC keep the chosen teams. */
  function Sent(form: PromptForm): (r: PromptForm)
    ensures form.visibility == PRIVATE ==> r.teamIds == []
    ensures form.visibility != PRIVATE ==> r.teamIds == form.teamIds
    ensures r.(teamIds := form.teamIds) == form
  {
    if form.visibility == PRIVATE then form.(teamIds := []) else form
  }

  /** The body of `createPrompt`: the form plus the current organisation. */
  datatype NewPromptPayload = NewPromptPayload(fields: PromptForm, organization: Id)

  /** The category row the pages keep, and the one `createCategory` returns. */
  datatype Category = Category(id: Id, name: string)

  /** The body of `createCategory`. */
  datatype CategoryRequest = CategoryRequest(name: string, organization: Id, description: string)

  /** The requests the prompt pages send. */
  datatype PromptRequest =
    | CreatePrompt(payload: NewPromptPayload)
    | UpdatePrompt(id: Id, fields: PromptForm)
    | RevertPrompt(id: Id, historyId: Id)
    | CreateCategory(request: CategoryRequest)

  /** What `handleCreateCategory` does before any request. */
  datatype CategoryDecision = Skip | Reject(message: string) | Send(request: CategoryRequest)

  /** A blank name does nothing; an unknown organisation is an error;
      otherwise the category is requested under the organisation. */
  function DecideCategory(newName: string, organization: Option<Id>): (r: CategoryDecision)
    ensures r.Skip? <==> IsBlank(newName)
    ensures r.Reject? <==> !IsBlank(newName) && !Known(organization)
    ensures r.Reject? ==> r.message == "Cannot create category: Organization ID missing"
    ensures r.Send? ==> Known(organization)
    ensures r.Send? ==> r.request == CategoryRequest(newName, organization.value, "Created via frontend")
  {
    if IsBlank(newName) then Skip
    else if !Known(organization) then Reject("Cannot create category: Organization ID missing")
    else Send(CategoryRequest(newName, organization.value, "Created via frontend"))
  }

  /** What the prompt pages read from their three initial requests: the
      categories and the ids of the user's organisations. */
  datatype InitialData = InitialData(categories: seq<Category>, organizations: seq<Id>)

  const NoOrganization := "No organization found. Please contact an admin."
  const InitialLoadFailed := "Failed to load initial data. Please ensure the backend is running."

  /** A link row `{category: id}` of a prompt record. */
  datatype CategoryLink = CategoryLink(category: Id)

  /** The fields of a prompt record (from `getPrompt` or `revertPrompt`) that
      the edit page reads. */
  datatype PromptData = PromptData(
    name: Option<string>, description: Option<string>, prompt: Option<string>, model: Option<string>,
    visibility: Option<string>, categories: Option<seq<CategoryLink>>, sharedTeams: Option<seq<TeamShare>>,
    folder: Option<Id>)

  function CategoryIdsOf(links: Option<seq<CategoryLink>>): (r: seq<Id>)
    ensures links.None? ==> r == []
    ensures links.Some? ==> |r| == |links.value|
    ensures links.Some? ==> forall k :: 0 <= k < |r| ==> r[k] == links.value[k].category
  {
    if links.None? then [] else seq(|links.value|, k requires 0 <= k < |links.value| => links.value[k].category)
  }

  /** The prompt→form mapping of `fetchPrompt` and `handleRevert`: text
      fields get their defaults, link rows become ids, and the folder becomes
      its id or `''`. */
  function FormFromPrompt(data: PromptData): (r: PromptForm)
    ensures r.name == OrDefault(data.name, "") && r.prompt == OrDefault(data.prompt, "")
    ensures r.description == Some(OrDefault(data.description, ""))
    ensures r.model == OrDefault(data.model, DefaultModel) && r.visibility == OrDefault(data.visibility, PRIVATE)
    ensures r.categoryIds == CategoryIdsOf(data.categories) && r.teamIds == TeamIdsOf(data.sharedTeams)
    ensures r.folder == Some(OrDefault(data.folder, ""))
    ensures r.model != "" && r.visibility != ""
  {
    PromptForm(
      OrDefault(data.name, ""), Some(OrDefault(data.description, "")), OrDefault(data.prompt, ""),
      OrDefault(data.model, DefaultModel), OrDefault(data.visibility, PRIVATE),
      CategoryIdsOf(data.categories), TeamIdsOf(data.sharedTeams), Some(OrDefault(data.folder, "")))
  }

  /** `formData.folder` is truthy. */
  predicate HasFolder(folder: Option<string>) {
    folder.Some? && folder.value != ""
  }

  /** The save-location effect: with a folder set and some folder list
      loaded, PUBLIC exactly when the folder is one of the public folders and
      PRIVATE otherwise; in every other case the current choice stays. */
  function SaveLocation(folder: Option<string>, privateFolders: seq<FolderRow>, publicFolders: seq<FolderRow>,
                        current: string): (r: string)
    ensures !HasFolder(folder) || (privateFolders == [] && publicFolders == []) ==> r == current
    ensures HasFolder(folder) && (privateFolders != [] || publicFolders != []) ==>
      (r == PUBLIC <==> exists k :: 0 <= k < |publicFolders| && publicFolders[k].id == folder.value)
    ensures HasFolder(folder) && (privateFolders != [] || publicFolders != []) ==> r == PUBLIC || r == PRIVATE
  {
    if HasFolder(folder) && (|privateFolders| > 0 || |publicFolders| > 0) then
      if exists k :: 0 <= k < |publicFolders| && publicFolders[k].id == folder.value then PUBLIC else PRIVATE
    else current
  }
}
