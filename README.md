# Prompt box: a Dafny model of the console pages and the prompt backend

Prompt box is a multi-tenant library of LLM prompts and prompt workflows.
Users belong to organisations, organisations have teams, and a prompt is
private or shared with teams. This project models two halves of it.

**The React console.** Each page that keeps state is a `class`. Its fields
are the page's `useState` variables. Each handler is a `method` whose
`modifies` clause names the fields it sets. Every awaited API call is a
`Reply<T>` parameter: either the decoded answer (`Ok`) or the thrown error
with its message (`Failed`). The request itself is appended to a `sent` log,
so a contract can say which request a handler sends.

The pure logic shared by the pages is kept in functions with lemmas:
- the step list of a workflow (add, remove, move, rename, renumber, sort);
- the form checks and the request payloads;
- the mapping from a loaded prompt or workflow, or a history snapshot, into the form;
- the query parameters of each list request;
- the pager.

**The Django backend.**
- `Models.Database` is the database: one `seq` of rows per table.
  - `CreateUser` and `CreateSuperuser` model the custom user manager, including e-mail normalisation.
- `Signals` models the two `post_save` receivers: the default team of a new organisation, and a new organisation member joining it.
- `Views` models the endpoints with their exact status codes and messages:
  - login and register;
  - adding a member to an organisation;
  - adding a member to and removing one from a team;
  - the team and prompt querysets;
  - the choice of serializer.
- `Serializers.Create` models `CreatePromptSerializer.create`.

Ids are strings, since the backend's UUIDs reach the pages as strings. Table
order stands for a queryset's order, so `.first()` is the first matching row
in table order.

Modules:
- `Common`: shared values and helpers.
- `WorkflowSteps`, `WorkflowForms`, `History`, `PromptForms`: shared page logic.
- `CreateWorkflow`, `ViewWorkflow`, `CreatePrompt`, `ViewPrompt`, `PublicFolder`, `MyFolder`, `WorkflowList`, `ManageUsers`, `ManageTeams`: one per page.
- `Models`, `Signals`, `Views`, `Serializers`: the backend.

Where the code and the written design disagree, the model follows the code.
- **Team ids on save.** The design says team ids are cleared whenever visibility is not TEAM. The prompt pages clear them only for PRIVATE (`PromptForms.Sent`). The workflow pages clear them for anything but TEAM (`WorkflowForms.BuildWorkflowPayload`).
- **PUBLIC prompts.** The backend's `Prompt.visibility` accepts only PRIVATE and TEAM. The console also sends and queries PUBLIC. `Models.StoredVisibility` rejects PUBLIC, as field validation would.
- **Teams of a new organisation.** `test_create_team` expects an organisation to hold one team after one is created. The default-team receiver has already added a second, and `Signals.CreateOrganization` states that the default team exists from the start.
- **Renaming an organisation.** After a rename, `Signals.DefaultTeam` no longer finds the organisation's default team, because the lookup is by name. A member added later then joins no team, as `Signals.AfterJoinDefault` states.
- **Loaded steps.** Steps loaded from the server are sorted by `order` but not renumbered. `WorkflowForms.LoadKeepsNumberedRows` shows that rows already numbered `0..n-1` load unchanged.
- **E-mail normalisation.** `BaseUserManager.normalize_email` is not part of the repository. It is modelled from Django's definition: strip the address, split it at its last `@`, and lower-case the domain. An address without `@` is returned as is. Lower-casing covers ASCII only.

## Model

| member | source | states |
|---|---|---|
| Common.TeamIdsOf | frontend/src/components/pages/ViewWorkflowPage.js:69 | the team ids of the `shared_teams` links, in order; none when the field is missing |
| Common.ErrorText | frontend/src/components/pages/CreateWorkflowPage.js:113 | the shown error is the thrown message when it has one, else the page's fallback |
| Common.OrDefault | frontend/src/components/pages/ViewWorkflowPage.js:70-73 | a missing or empty text field takes the default; any other value is kept |
| Common.Pages | frontend/src/components/pages/MyFolderPage.js:53 | the least number of pages of ten that hold `count` rows; zero rows give zero pages |
| Common.Rows | frontend/src/components/pages/CreateWorkflowPage.js:42 | the rows of a list answer, whether it is paginated or a bare array |
| Common.TotalPagesOf | frontend/src/components/pages/ViewWorkflowPage.js:98-104 | a paginated answer gives the ceiling of count/10; a bare array gives one page |
| Common.Trim | frontend/src/components/pages/CreateWorkflowPage.js:94 | the result is empty exactly when every character is whitespace, and otherwise starts and ends with a non-space |
| Common.BlankIsTrimmedEmpty | frontend/src/components/pages/CreatePromptPage.js:130-131 | a field counts as blank exactly when trimming empties it |
| Common.FilterSpec | frontend/src/components/pages/CreateWorkflowPage.js:119-121 | keeps exactly the matching elements, each as often as it occurred, and keeps everything when all match |
| Common.Find | frontend/src/components/pages/CreateWorkflowPage.js:64 | the first matching element, and nothing exactly when no element matches |
| Common.FilterAppend | frontend/src/components/pages/ManageUsersPage.js:196-200 | filtering distributes over concatenation |
| WorkflowSteps.Contents | frontend/src/components/pages/CreateWorkflowPage.js:63-90 | the step rows without their position numbers, one per row |
| WorkflowSteps.Renumber | frontend/src/components/pages/CreateWorkflowPage.js:74 | every row's order becomes its position, and each row keeps its prompt and name |
| WorkflowSteps.AddStep | frontend/src/components/pages/CreateWorkflowPage.js:63-69 | a prompt already in the list changes nothing; otherwise one row is appended with order equal to the old length, the prompt's id and name as `prompt`/`prompt_name`, and an empty label; the list stays well-formed |
| WorkflowSteps.RemoveStep | frontend/src/components/pages/CreateWorkflowPage.js:71-76 | the row at the index is dropped and the rest keep their relative order and are renumbered; an index that is out of range drops nothing |
| WorkflowSteps.Swapped | frontend/src/components/pages/CreateWorkflowPage.js:82 | exactly the two rows change places |
| WorkflowSteps.MoveStep | frontend/src/components/pages/CreateWorkflowPage.js:78-86 | a move off either end is ignored; otherwise the row changes places with its neighbour and the list is renumbered |
| WorkflowSteps.UpdateStepName | frontend/src/components/pages/CreateWorkflowPage.js:88-90 | only the label of the one row changes; well-formedness is kept |
| WorkflowSteps.MovePreserves | frontend/src/components/pages/CreateWorkflowPage.js:78-86 | a move keeps the step contents as a multiset and keeps a well-formed list well-formed |
| WorkflowSteps.SwapContents | frontend/src/components/pages/CreateWorkflowPage.js:82 | a swap keeps the contents as a multiset |
| WorkflowSteps.ApplyPreserves | frontend/src/components/pages/CreateWorkflowPage.js:63-90 | each of the four edits keeps the list numbered by position and free of repeated prompts |
| WorkflowSteps.ReplayPreserves | frontend/src/components/pages/CreateWorkflowPage.js:63-90 | any sequence of edits from a well-formed list ends well-formed |
| WorkflowSteps.FromEmpty | frontend/src/components/pages/CreateWorkflowPage.js:15 | every list built by edits from the empty list of a new workflow is well-formed |
| WorkflowSteps.Insert | frontend/src/components/pages/ViewWorkflowPage.js:82 | inserting into a sorted list gives a sorted list with one more element |
| WorkflowSteps.SortByOrder | frontend/src/components/pages/ViewWorkflowPage.js:82 | the sort returns a permutation of the rows, ascending by order |
| WorkflowSteps.SortKeepsSorted | frontend/src/components/pages/ViewWorkflowPage.js:82 | a list that is already sorted comes back unchanged |
| WorkflowSteps.InsertWithOrder | frontend/src/components/pages/ViewWorkflowPage.js:82 | an inserted row goes in front of the rows with its order, and other orders' rows are unchanged |
| WorkflowSteps.SortIsStable | frontend/src/components/pages/ViewWorkflowPage.js:82 | the sort is stable: the rows of each order keep their relative order |
| WorkflowSteps.Available | frontend/src/components/pages/CreateWorkflowPage.js:119-121 | the picker offers exactly the fetched prompts that are not yet a step |
| WorkflowForms.WorkflowMessage | frontend/src/components/pages/CreateWorkflowPage.js:94-99 | every failed check has a message |
| WorkflowForms.ValidateWorkflow | frontend/src/components/pages/CreateWorkflowPage.js:94-99 | the first failing check, in page order (name, steps, teams under TEAM); none exactly when all pass |
| WorkflowForms.BuildWorkflowPayload | frontend/src/components/pages/CreateWorkflowPage.js:104-108 | the form's fields; team ids only under TEAM; one `{prompt, order, name}` per step, in order |
| WorkflowForms.WithField | frontend/src/components/pages/CreateWorkflowPage.js:52-56 | only the named field takes the value |
| WorkflowForms.PayloadOfWellFormed | frontend/src/components/pages/CreateWorkflowPage.js:104-108 | the steps of a payload built from a well-formed list are numbered 0..n-1 and have distinct prompts |
| WorkflowForms.FormFromWorkflow | frontend/src/components/pages/ViewWorkflowPage.js:69-75 | missing text becomes empty, a missing visibility becomes PRIVATE, and the team ids are those of the links |
| WorkflowForms.LoadedRows | frontend/src/components/pages/ViewWorkflowPage.js:76-81 | one row per loaded step, in server order, with the name and label falling back as the page does |
| WorkflowForms.StepsFromWorkflow | frontend/src/components/pages/ViewWorkflowPage.js:76-82 | the loaded rows as a permutation, sorted by order |
| WorkflowForms.LoadKeepsNumberedRows | frontend/src/components/pages/ViewWorkflowPage.js:76-82 | rows the server keeps numbered by position load in server order |
| WorkflowForms.FormFromSnapshot | frontend/src/components/pages/ViewWorkflowPage.js:185-202 | a snapshot's missing fields become empty, PRIVATE or no teams |
| WorkflowForms.DisplayName | frontend/src/components/pages/ViewWorkflowPage.js:185-202 | a restored step shows the name of the first loaded prompt with its id, or the id when no loaded prompt has it |
| WorkflowForms.RestoredRows | frontend/src/components/pages/ViewWorkflowPage.js:185-202 | each snapshot step keeps its order, or takes its position when it has none |
| WorkflowForms.StepsFromSnapshot | frontend/src/components/pages/ViewWorkflowPage.js:185-202 | the restored rows as a permutation, sorted by order |
| WorkflowForms.SnapshotOfWellFormed | frontend/src/components/pages/ViewWorkflowPage.js:185-202 | a snapshot saved from a well-formed list is restored in the same order and is well-formed |
| History.ToggleExpanded | frontend/src/components/pages/ViewWorkflowPage.js:472 | the clicked row becomes the expanded one unless it already was, in which case none is |
| History.ToggleTwice | frontend/src/components/pages/ViewPromptPage.js:746 | two clicks on the same row undo each other; a click on another row moves the expansion there |
| History.HistoryPanel.constructor | frontend/src/components/pages/ViewWorkflowPage.js:94-114 | an empty, closed panel on page 1 |
| History.HistoryPanel.Fetch | frontend/src/components/pages/ViewWorkflowPage.js:94-110 | one request for the page; a success replaces the rows and the page count; a failure keeps them (`Shows`) |
| History.HistoryPanel.ToggleOpen | frontend/src/components/pages/ViewWorkflowPage.js:112-114 | the panel opens or closes; only opening fetches the current page |
| History.HistoryPanel.ClickEntry | frontend/src/components/pages/ViewWorkflowPage.js:472 | at most one row is expanded, namely the clicked one |
| History.HistoryPanel.PreviousPage | frontend/src/components/pages/ViewWorkflowPage.js:557-561 | disabled on page 1; otherwise one page back, which is fetched, and the panel `Shows` the answer |
| History.HistoryPanel.NextPage | frontend/src/components/pages/ViewWorkflowPage.js:557-561 | disabled on the last page; otherwise one page on, never past the last page, which is fetched, and the panel `Shows` the answer |
| CreateWorkflow.CreateWorkflowPage.constructor | frontend/src/components/pages/CreateWorkflowPage.js:9-19 | an empty form with PRIVATE visibility and no steps |
| CreateWorkflow.CreateWorkflowPage.LoadPrompts | frontend/src/components/pages/CreateWorkflowPage.js:36-50 | the picker's prompts are the answer's rows; a failure keeps them |
| CreateWorkflow.CreateWorkflowPage.Change | frontend/src/components/pages/CreateWorkflowPage.js:52-56 | the named field takes the value and the error clears |
| CreateWorkflow.CreateWorkflowPage.ChangeTeams | frontend/src/components/pages/CreateWorkflowPage.js:58-61 | the team selection is replaced |
| CreateWorkflow.CreateWorkflowPage.FilteredPrompts | frontend/src/components/pages/CreateWorkflowPage.js:119-121 | exactly the fetched prompts that are not yet a step |
| CreateWorkflow.CreateWorkflowPage.AddStep | frontend/src/components/pages/CreateWorkflowPage.js:63-69 | the step list becomes the shared add-step result and stays well-formed |
| CreateWorkflow.CreateWorkflowPage.RemoveStep | frontend/src/components/pages/CreateWorkflowPage.js:71-76 | the step list becomes the shared remove-step result and stays well-formed |
| CreateWorkflow.CreateWorkflowPage.MoveStep | frontend/src/components/pages/CreateWorkflowPage.js:78-86 | the step list becomes the moved list and stays well-formed |
| CreateWorkflow.CreateWorkflowPage.UpdateStepName | frontend/src/components/pages/CreateWorkflowPage.js:88-90 | only the one label changes |
| CreateWorkflow.CreateWorkflowPage.Submit | frontend/src/components/pages/CreateWorkflowPage.js:92-117 | a failed check shows its message and sends nothing; otherwise the payload is sent; success opens the new workflow; failure shows the error |
| ViewWorkflow.ViewWorkflowPage.constructor | frontend/src/components/pages/ViewWorkflowPage.js:9-31 | an empty form for the given workflow, with a closed history panel |
| ViewWorkflow.ViewWorkflowPage.Load | frontend/src/components/pages/ViewWorkflowPage.js:65-91 | the form and the sorted steps come from the loaded workflow; a failure shows the load error |
| ViewWorkflow.ViewWorkflowPage.LoadPrompts | frontend/src/components/pages/ViewWorkflowPage.js:47-61 | the picker's prompts are the answer's rows; a failure keeps them |
| ViewWorkflow.ViewWorkflowPage.Change | frontend/src/components/pages/ViewWorkflowPage.js:116-120 | the named field takes the value and the error clears |
| ViewWorkflow.ViewWorkflowPage.ChangeTeams | frontend/src/components/pages/ViewWorkflowPage.js:122-125 | the team selection is replaced |
| ViewWorkflow.ViewWorkflowPage.FilteredPrompts | frontend/src/components/pages/ViewWorkflowPage.js:211 | exactly the fetched prompts that are not yet a step |
| ViewWorkflow.ViewWorkflowPage.AddStep | frontend/src/components/pages/ViewWorkflowPage.js:127-133 | the shared add-step result; a well-formed list stays well-formed |
| ViewWorkflow.ViewWorkflowPage.RemoveStep | frontend/src/components/pages/ViewWorkflowPage.js:135-140 | the shared remove-step result; a well-formed list stays well-formed |
| ViewWorkflow.ViewWorkflowPage.MoveStep | frontend/src/components/pages/ViewWorkflowPage.js:142-150 | the moved list; a well-formed list stays well-formed |
| ViewWorkflow.ViewWorkflowPage.UpdateStepName | frontend/src/components/pages/ViewWorkflowPage.js:152-154 | only the one label changes |
| ViewWorkflow.ViewWorkflowPage.Submit | frontend/src/components/pages/ViewWorkflowPage.js:156-183 | a failed check sends nothing; otherwise the update is sent; success shows the message and, only while the history panel is open, refetches the history page, which the panel `Shows`; otherwise the history rows are kept |
| ViewWorkflow.ViewWorkflowPage.ConfirmRevert | frontend/src/components/pages/ViewWorkflowPage.js:534-540 | a declined confirmation changes nothing; a confirmed one writes the snapshot into the form and steps and sends nothing |
| PromptForms.WithField | frontend/src/components/pages/CreatePromptPage.js:65-73 | only the named field takes the value |
| PromptForms.PromptMessage | frontend/src/components/pages/CreatePromptPage.js:130-149 | every failed check has a message |
| PromptForms.ValidateNewPrompt | frontend/src/components/pages/CreatePromptPage.js:130-149 | the first failing check in page order (name, content, organisation, teams under TEAM); none exactly when all pass |
| PromptForms.ValidateEditedPrompt | frontend/src/components/pages/ViewPromptPage.js:223-237 | the first failing check in page order (name, content, teams under TEAM); the organisation is never checked |
| PromptForms.ChecksAgree | frontend/src/components/pages/ViewPromptPage.js:223-237 | with an organisation known, the two pages' checks give the same verdict |
| PromptForms.Sent | frontend/src/components/pages/CreatePromptPage.js:152-160 | team ids are emptied for PRIVATE only, and every other field is sent as it is |
| PromptForms.DecideCategory | frontend/src/components/pages/CreatePromptPage.js:93-120 | a blank name does nothing; no organisation gives the error; otherwise the `createCategory` body |
| PromptForms.CategoryIdsOf | frontend/src/components/pages/ViewPromptPage.js:97-113 | the category ids of the links, in order |
| PromptForms.FormFromPrompt | frontend/src/components/pages/ViewPromptPage.js:97-113 | missing text becomes empty; model and visibility fall back to their defaults; category and team ids come from the links |
| PromptForms.SaveLocation | frontend/src/components/pages/ViewPromptPage.js:134-139 | with a folder and a loaded folder list, PUBLIC when the folder is public and PRIVATE otherwise; the location is kept when there is no folder or no list |
| CreatePrompt.CreatePromptPage.constructor | frontend/src/components/pages/CreatePromptPage.js:9-30 | the new-prompt form with defaults and nothing sent |
| CreatePrompt.CreatePromptPage.LoadInitialData | frontend/src/components/pages/CreatePromptPage.js:36-63 | the categories are set and the first organisation is selected; with no organisation, or after a failure, the page shows the matching error |
| CreatePrompt.CreatePromptPage.Change | frontend/src/components/pages/CreatePromptPage.js:65-73 | the named field takes the value and the error clears |
| CreatePrompt.CreatePromptPage.ChangeCategories | frontend/src/components/pages/CreatePromptPage.js:75-82 | the category selection is replaced |
| CreatePrompt.CreatePromptPage.ChangeTeams | frontend/src/components/pages/CreatePromptPage.js:84-91 | the team selection is replaced |
| CreatePrompt.CreatePromptPage.SetNewCategoryName | frontend/src/components/pages/CreatePromptPage.js:281 | the new category's name is the typed value |
| CreatePrompt.CreatePromptPage.CreateCategory | frontend/src/components/pages/CreatePromptPage.js:93-120 | follows the category decision; a created category is appended and selected |
| CreatePrompt.CreatePromptPage.Submit | frontend/src/components/pages/CreatePromptPage.js:122-179 | a failed check sends nothing; otherwise the form (team ids emptied for PRIVATE) is sent with the organisation; success leaves the page; failure shows the error |
| ViewPrompt.ViewPromptPage.constructor | frontend/src/components/pages/ViewPromptPage.js:9-40 | the edit form with defaults, PRIVATE location and a closed history panel |
| ViewPrompt.ViewPromptPage.LoadInitialData | frontend/src/components/pages/ViewPromptPage.js:68-88 | the categories are set and the first organisation is selected, or the page shows the matching error |
| ViewPrompt.ViewPromptPage.Load | frontend/src/components/pages/ViewPromptPage.js:92-131 | the form is the loaded prompt's; a prompt in a folder sets the location to PRIVATE until the folders are read |
| ViewPrompt.ViewPromptPage.LoadFolders | frontend/src/components/pages/ViewPromptPage.js:46-62 | the private and public folder rows, or none after a failure |
| ViewPrompt.ViewPromptPage.CorrectSaveLocation | frontend/src/components/pages/ViewPromptPage.js:134-139 | the location becomes the derived save location |
| ViewPrompt.ViewPromptPage.Change | frontend/src/components/pages/ViewPromptPage.js:166-173 | the named field takes the value and the error clears |
| ViewPrompt.ViewPromptPage.ChangeCategories | frontend/src/components/pages/ViewPromptPage.js:175-181 | the category selection is replaced |
| ViewPrompt.ViewPromptPage.ChangeTeams | frontend/src/components/pages/ViewPromptPage.js:183-189 | the team selection is replaced |
| ViewPrompt.ViewPromptPage.SetNewCategoryName | frontend/src/components/pages/ViewPromptPage.js:434 | the new category's name is the typed value |
| ViewPrompt.ViewPromptPage.CreateCategory | frontend/src/components/pages/ViewPromptPage.js:191-215 | follows the category decision; a created category is appended and selected |
| ViewPrompt.ViewPromptPage.Submit | frontend/src/components/pages/ViewPromptPage.js:217-259 | a failed check sends nothing; otherwise the update with team ids emptied for PRIVATE; success shows the message and, while the panel is open, refetches the history, which the panel `Shows`; otherwise the history rows are kept |
| ViewPrompt.ViewPromptPage.Revert | frontend/src/components/pages/ViewPromptPage.js:261-294 | a declined confirmation changes nothing; otherwise the revert is sent; success loads the returned prompt into the form and refetches the history, which the panel `Shows`; a failure keeps the history rows |
| PublicFolder.FolderQuery | frontend/src/components/pages/PublicFolderPage.js:47-54 | the public subfolders of the current folder; at the root the parent is empty and `root_only` is set |
| PublicFolder.PromptQuery | frontend/src/components/pages/PublicFolderPage.js:59-66 | one page of ten public prompts by name in the current folder, or in `root` at the root |
| PublicFolder.CombinedItems | frontend/src/components/pages/PublicFolderPage.js:83-88 | every folder, then every prompt, each tagged with its kind and in fetched order |
| PublicFolder.MoveDestination | frontend/src/components/pages/PublicFolderPage.js:142-165 | the `root` option means no parent; any other option is that folder |
| PublicFolder.DestinationFolders | frontend/src/components/pages/PublicFolderPage.js:417 | every folder except the one being moved |
| PublicFolder.Truncated | frontend/src/components/pages/PublicFolderPage.js:188-198 | the trail up to and including the clicked crumb |
| PublicFolder.PublicFolderPage.constructor | frontend/src/components/pages/PublicFolderPage.js:9-24 | at the root with an empty trail on page 1 |
| PublicFolder.PublicFolderPage.LoadOrganization | frontend/src/components/pages/PublicFolderPage.js:26-39 | the first organisation becomes current |
| PublicFolder.PublicFolderPage.FetchData | frontend/src/components/pages/PublicFolderPage.js:41-96 | nothing without an organisation; otherwise the folder query, then (if it answers) the prompt query are sent, and the listing and page count become the combination of the answers, or the error is set and the listing kept (`Refetched`) |
| PublicFolder.PublicFolderPage.FolderClick | frontend/src/components/pages/PublicFolderPage.js:182-186 | the folder becomes current, is pushed on the trail, and the page returns to 1 |
| PublicFolder.PublicFolderPage.BreadcrumbClick | frontend/src/components/pages/PublicFolderPage.js:188-198 | the trail is truncated at the crumb, `-1` meaning the root, and the current folder follows it |
| PublicFolder.PublicFolderPage.SetNewFolderName | frontend/src/components/pages/PublicFolderPage.js:384 | the new folder's name is the typed value |
| PublicFolder.PublicFolderPage.CreateFolderAction | frontend/src/components/pages/PublicFolderPage.js:102-118 | a blank name or no organisation does nothing; otherwise a public folder under the current one is requested; success clears and closes the dialog and leaves the state `Refetched` states after the create request; a failure alerts and changes nothing else |
| PublicFolder.PublicFolderPage.OpenMoveModal | frontend/src/components/pages/PublicFolderPage.js:135-140 | the item is selected, the destination resets, and all folders are fetched |
| PublicFolder.PublicFolderPage.SelectTarget | frontend/src/components/pages/PublicFolderPage.js:411 | the chosen destination is recorded |
| PublicFolder.PublicFolderPage.Destinations | frontend/src/components/pages/PublicFolderPage.js:417 | every loaded folder except the moving item |
| PublicFolder.PublicFolderPage.Move | frontend/src/components/pages/PublicFolderPage.js:142-165 | nothing without an item; a folder moved into itself is alerted with no request; otherwise the folder's parent or the prompt's folder is requested; success closes the dialog and leaves the `Refetched` listing after that request; a failure alerts and keeps the listing |
| PublicFolder.PublicFolderPage.Delete | frontend/src/components/pages/PublicFolderPage.js:167-180 | nothing unless confirmed; otherwise the folder or prompt delete is sent; success leaves the `Refetched` listing after it; a failure alerts and keeps the listing |
| PublicFolder.PublicFolderPage.PreviousPage | frontend/src/components/pages/PublicFolderPage.js:346-352 | disabled on page 1; otherwise one page back, and the listing is fetched as `Refetched` states |
| PublicFolder.PublicFolderPage.NextPage | frontend/src/components/pages/PublicFolderPage.js:346-362 | disabled on the last page; otherwise one page on, and the listing is fetched as `Refetched` states |
| MyFolder.MyFolderQuery | frontend/src/components/pages/MyFolderPage.js:40-47 | the user's own private prompts by name, one page of ten |
| MyFolder.MyFolderPage.constructor | frontend/src/components/pages/MyFolderPage.js:9-14 | no prompts, page 1, no organisation |
| MyFolder.MyFolderPage.FetchData | frontend/src/components/pages/MyFolderPage.js:34-70 | nothing without an organisation; otherwise the query is sent (`PromptsRequest`); a paginated answer gives its rows and page count, a bare list its rows, a failure the error (`Fetched`, `Refetched`) |
| MyFolder.MyFolderPage.Init | frontend/src/components/pages/MyFolderPage.js:16-32 | the first organisation becomes current, and its first page is requested and shown as `Refetched` states |
| MyFolder.MyFolderPage.ChangePage | frontend/src/components/pages/MyFolderPage.js:72-76 | a page outside 1..total is refused; an accepted new page is requested and shown as `Refetched` states |
| MyFolder.MyFolderPage.PreviousPage | frontend/src/components/pages/MyFolderPage.js:169-185 | disabled on page 1; otherwise one page back, which is requested and shown as `Refetched` states |
| MyFolder.MyFolderPage.NextPage | frontend/src/components/pages/MyFolderPage.js:169-185 | disabled on the last page; otherwise one page on, never past the last, which is requested and shown as `Refetched` states |
| WorkflowList.WorkflowQuery | frontend/src/components/pages/WorkflowsPage.js:19-20 | the page and its size, plus `search` exactly when a term is given |
| WorkflowList.WorkflowsPage.constructor | frontend/src/components/pages/WorkflowsPage.js:9-14 | no rows, page 1, no search |
| WorkflowList.WorkflowsPage.FetchWorkflows | frontend/src/components/pages/WorkflowsPage.js:16-35 | the query is sent; a success gives the rows and the page count; a failure shows the error and keeps the rows (`Fetched`) |
| WorkflowList.WorkflowsPage.SetSearch | frontend/src/components/pages/WorkflowsPage.js:108 | the search term is the typed value |
| WorkflowList.WorkflowsPage.Search | frontend/src/components/pages/WorkflowsPage.js:42-46 | back to page 1, and only page 1 with the term is requested; the list is the `Fetched` answer, and when the page changes the effect's answer after it |
| WorkflowList.WorkflowsPage.Delete | frontend/src/components/pages/WorkflowsPage.js:48-57 | nothing unless confirmed; a success refetches the current page and shows the `Fetched` answer; a failure shows the error and keeps the rows |
| WorkflowList.WorkflowsPage.PreviousPage | frontend/src/components/pages/WorkflowsPage.js:180 | disabled on page 1; otherwise one page back, which is fetched and shown as `Fetched` states |
| WorkflowList.WorkflowsPage.NextPage | frontend/src/components/pages/WorkflowsPage.js:182 | disabled on the last page; otherwise one page on, which is fetched and shown as `Fetched` states |
| ManageUsers.NewUser | frontend/src/components/pages/ManageUsersPage.js:93-97 | the form's fields, the organisation, and the role MEMBER |
| ManageUsers.UpdateOf | frontend/src/components/pages/ManageUsersPage.js:112-115 | name and e-mail always; the password only when one was typed |
| ManageUsers.TeamIds | frontend/src/components/pages/ManageUsersPage.js:197-198 | the ids of the user's teams, in order |
| ManageUsers.AvailableTeams | frontend/src/components/pages/ManageUsersPage.js:196-200 | all teams except those the user is already in |
| ManageUsers.AvailableExcludesAssigned | frontend/src/components/pages/ManageUsersPage.js:196-200 | no team the user already has is offered |
| ManageUsers.PreviousPageOf | frontend/src/components/pages/ManageUsersPage.js:304 | one page back, never below 1 |
| ManageUsers.NextPageOf | frontend/src/components/pages/ManageUsersPage.js:314 | one page on, never past the last page |
| ManageUsers.PagerStaysInRange | frontend/src/components/pages/ManageUsersPage.js:299-319 | from a page in range, both buttons lead to a page in range on the right side |
| ManageUsers.ManageUsersPage.constructor | frontend/src/components/pages/ManageUsersPage.js:7-20 | no users, closed dialogs, empty form |
| ManageUsers.ManageUsersPage.FetchUsers | frontend/src/components/pages/ManageUsersPage.js:39-58 | nothing without an organisation; otherwise the page is requested; success sets its rows, `ceil(count/10)` pages and clears the error; a failure sets the error (`UsersRequest`, `UsersTable`) |
| ManageUsers.ManageUsersPage.FetchTeams | frontend/src/components/pages/ManageUsersPage.js:60-70 | nothing without an organisation; otherwise the organisation's teams are requested and kept |
| ManageUsers.ManageUsersPage.Init | frontend/src/components/pages/ManageUsersPage.js:72-87 | the first organisation becomes current; its users are requested and set as `UsersTable` states, and its teams are fetched; a failed organisation load keeps the table |
| ManageUsers.ManageUsersPage.OpenCreateModal | frontend/src/components/pages/ManageUsersPage.js:211-218 | an empty form in create mode |
| ManageUsers.ManageUsersPage.OpenEditModal | frontend/src/components/pages/ManageUsersPage.js:141-146 | the form holds the user's name and e-mail and an empty password |
| ManageUsers.ManageUsersPage.ChangeForm | frontend/src/components/pages/ManageUsersPage.js:356-378 | the form takes the typed values |
| ManageUsers.ManageUsersPage.CreateUserAction | frontend/src/components/pages/ManageUsersPage.js:89-106 | the new-user body is sent; success closes and clears the form, sends the `fetchUsers` request and sets the table as `UsersTable` states; failure alerts and keeps the table |
| ManageUsers.ManageUsersPage.UpdateUserAction | frontend/src/components/pages/ManageUsersPage.js:108-126 | the update body is sent for the edited user; success leaves edit mode, closes the form and refetches the table as `UsersTable` states; failure alerts and keeps the table |
| ManageUsers.ManageUsersPage.SubmitUserForm | frontend/src/components/pages/ManageUsersPage.js:89-126 | the dialog's submit runs the update handler in edit mode and the create handler otherwise, with its whole outcome: on success the dialog closes, the form is cleared, edit mode ends and the table is refetched as `UsersTable` states; on failure the alert is shown and the dialog and table are kept |
| ManageUsers.ManageUsersPage.DeleteUserAction | frontend/src/components/pages/ManageUsersPage.js:128-139 | nothing unless confirmed; otherwise `deleteUser(id, organizationId)` is sent; success sends the `fetchUsers` request and sets the table as `UsersTable` states; a failure alerts and keeps the table |
| ManageUsers.ManageUsersPage.OpenTeamsModal | frontend/src/components/pages/ManageUsersPage.js:148-153 | the user is selected with no team chosen |
| ManageUsers.ManageUsersPage.SelectTeam | frontend/src/components/pages/ManageUsersPage.js:427 | the chosen team is recorded |
| ManageUsers.ManageUsersPage.Refresh | frontend/src/components/pages/ManageUsersPage.js:165-169 | the user list is refetched and the selected user is replaced by the fresh row when one is found |
| ManageUsers.ManageUsersPage.AssignTeamAction | frontend/src/components/pages/ManageUsersPage.js:155-176 | no team chosen alerts and sends nothing; otherwise the assignment is sent; success clears the choice, refetches the table (`UsersTable`), then requests the page again and replaces the dialog's user by its fresh row, or alerts if that request fails |
| ManageUsers.ManageUsersPage.RemoveTeamAction | frontend/src/components/pages/ManageUsersPage.js:178-194 | nothing unless confirmed; otherwise the removal is sent; success refetches the table (`UsersTable`), then requests the page again and replaces the dialog's user by its fresh row, or alerts if that request fails |
| ManageUsers.ManageUsersPage.PreviousPage | frontend/src/components/pages/ManageUsersPage.js:299-308 | disabled on page 1; otherwise one page back, which is requested (`UsersRequest`) and set as `UsersTable` states |
| ManageUsers.ManageUsersPage.NextPage | frontend/src/components/pages/ManageUsersPage.js:309-318 | disabled on the last page; otherwise one page on, which is requested (`UsersRequest`) and set as `UsersTable` states |
| ManageTeams.TeamQuery | frontend/src/components/pages/ManageTeamsPage.js:51-56 | the organisation's teams by name, one page of ten |
| ManageTeams.Candidates | frontend/src/components/pages/ManageTeamsPage.js:401-402 | the organisation members who are not yet in the team |
| ManageTeams.CandidatesShrink | frontend/src/components/pages/ManageTeamsPage.js:401-402 | everyone is a candidate for an empty team, and adding a member removes exactly that user from the candidates |
| ManageTeams.ManageTeamsPage.constructor | frontend/src/components/pages/ManageTeamsPage.js:7-28 | no teams, closed dialogs, role MEMBER |
| ManageTeams.ManageTeamsPage.FetchTeams | frontend/src/components/pages/ManageTeamsPage.js:46-73 | nothing without an organisation; otherwise the team query is sent; success sets its rows and page count; a failure sets the error (`TeamsRequest`, `TeamsTable`) |
| ManageTeams.ManageTeamsPage.Init | frontend/src/components/pages/ManageTeamsPage.js:30-44 | the first organisation becomes current, and its teams are requested (`TeamsRequest`) and set as `TeamsTable` states; a failed organisation load sends nothing more and keeps the table |
| ManageTeams.ManageTeamsPage.OpenCreateModal | frontend/src/components/pages/ManageTeamsPage.js:200-206 | an empty form in the create dialog |
| ManageTeams.ManageTeamsPage.OpenEditModal | frontend/src/components/pages/ManageTeamsPage.js:176-181 | the form holds the team's name and description |
| ManageTeams.ManageTeamsPage.SetFormName | frontend/src/components/pages/ManageTeamsPage.js:324 | the name field takes the typed value |
| ManageTeams.ManageTeamsPage.SetFormDescription | frontend/src/components/pages/ManageTeamsPage.js:333 | the description field takes the typed value |
| ManageTeams.ManageTeamsPage.CreateTeamAction | frontend/src/components/pages/ManageTeamsPage.js:81-97 | a blank name or no organisation does nothing; otherwise the team is created; success closes and clears the dialog and refetches the table as `TeamsTable` states; a failure alerts and keeps the table |
| ManageTeams.ManageTeamsPage.UpdateTeamAction | frontend/src/components/pages/ManageTeamsPage.js:99-113 | no team or a blank name does nothing; otherwise the update is sent; success closes the dialog, drops the selection and refetches the table as `TeamsTable` states; a failure alerts and keeps the table |
| ManageTeams.ManageTeamsPage.DeleteTeamAction | frontend/src/components/pages/ManageTeamsPage.js:115-124 | nothing unless confirmed; otherwise the delete is sent; success refetches the table as `TeamsTable` states; a failure alerts and keeps the table |
| ManageTeams.ManageTeamsPage.OpenMembersModal | frontend/src/components/pages/ManageTeamsPage.js:128-147 | the team's members and the organisation's members are fetched |
| ManageTeams.ManageTeamsPage.AddMemberCandidates | frontend/src/components/pages/ManageTeamsPage.js:401-402 | exactly the organisation members who are not in the team |
| ManageTeams.ManageTeamsPage.SelectUserToAdd | frontend/src/components/pages/ManageTeamsPage.js:397 | the chosen user is recorded |
| ManageTeams.ManageTeamsPage.SelectRole | frontend/src/components/pages/ManageTeamsPage.js:409 | the chosen role is recorded |
| ManageTeams.ManageTeamsPage.AddMemberAction | frontend/src/components/pages/ManageTeamsPage.js:149-161 | no team or no user does nothing; otherwise the add is sent, and success refetches the members and clears the choice |
| ManageTeams.ManageTeamsPage.RemoveMemberAction | frontend/src/components/pages/ManageTeamsPage.js:163-174 | nothing unless confirmed; otherwise the removal is sent and the members refetched |
| ManageTeams.ManageTeamsPage.PreviousPage | frontend/src/components/pages/ManageTeamsPage.js:286-301 | disabled on page 1; otherwise one page back, which is requested (`TeamsRequest`) and set as `TeamsTable` states |
| ManageTeams.ManageTeamsPage.NextPage | frontend/src/components/pages/ManageTeamsPage.js:286-301 | disabled on the last page; otherwise one page on, which is requested (`TeamsRequest`) and set as `TeamsTable` states |
| Models.StoredVisibility | backend/promptbox/models.py:124-128 | a missing visibility is PRIVATE; PRIVATE and TEAM are kept; anything else, PUBLIC included, is rejected |
| Models.SetDefault | backend/promptbox/models.py:39-41 | an unset flag takes the default; a given flag is kept |
| Models.Lower | backend/promptbox/models.py:29 | same length, with every ASCII capital lowered and every other character kept |
| Models.LowerFacts | backend/promptbox/models.py:29 | lowering is idempotent and keeps `@` |
| Models.LastAt | backend/promptbox/models.py:29 | the position of the last `@`, or none when there is no `@` |
| Models.NormalizeEmail | backend/promptbox/models.py:29 | the stripped address with its domain lower-cased; an address without `@` is left unchanged |
| Models.NormalizeIdempotent | backend/promptbox/models.py:29 | normalising twice is normalising once |
| Models.NormalizeJoined | backend/promptbox/models.py:29 | a trimmed local part joined by `@` to a domain without `@` keeps its local part and lowers its domain |
| Models.DomainCaseIgnored | backend/promptbox/models.py:29 | two addresses that differ only in the case of the domain normalise alike |
| Models.NewUserRow | backend/promptbox/models.py:29-32 | the stored row has the normalised e-mail, the name, and is an active user who is neither staff nor superuser unless told otherwise |
| Models.Database.CreateUser | backend/promptbox/models.py:23-33 | an empty e-mail raises the message; no name, or a normalised e-mail already stored, violates a constraint and saves nothing; otherwise exactly one row is appended |
| Models.Database.CreateSuperuser | backend/promptbox/models.py:35-47 | unset flags default to true; a staff or superuser flag given as false raises its message; otherwise the `create_user` outcome with both flags true: a missing e-mail raises, a null name or a taken normalised e-mail fails the save, and otherwise exactly the new row is appended; every failure leaves the users unchanged |
| Signals.DefaultTeam | backend/promptbox/signals.py:19-22 | the first team of the organisation with its name, and none exactly when there is none |
| Signals.DefaultTeamRow | backend/promptbox/signals.py:8-12 | a team of the organisation with its name and the description `Default team for <name>` |
| Signals.FirstTeamIsDefault | backend/promptbox/signals.py:6-12 | a new organisation then has exactly one team, and it is the default team |
| Signals.CreateDefaultTeam | backend/promptbox/signals.py:5-12 | on creation the default team is appended; on a later save the teams are unchanged |
| Signals.CreateOrganization | backend/promptbox/signals.py:5-12 | the organisation is stored, its only team is its default team, and the default-team lookup finds it |
| Signals.SaveOrganization | backend/promptbox/signals.py:7 | a save of an existing organisation updates its row and creates no team |
| Signals.AfterJoinDefault | backend/promptbox/signals.py:14-31 | a new member joins the default team with the org role unless already in it; no default team or no creation changes nothing; unique memberships stay unique |
| Signals.AddMemberToDefaultTeam | backend/promptbox/signals.py:14-31 | the membership rows become those of the default-team join |
| Signals.CreateOrgMember | backend/promptbox/views.py:83 | the membership is stored and the receiver puts the user in the default team |
| Views.Login | backend/promptbox/views.py:26-41 | a missing e-mail or password is 400; failed authentication is 401; otherwise 200 with the user |
| Views.RegisterCheckMissesDomainCase | backend/promptbox/views.py:55-58 | an existing `a@b` lets `a@B` through the check, although both normalise to the same stored address |
| Views.EmailTakenIsExact | backend/promptbox/views.py:55-56 | the corrected check holds exactly when create_user would hit the unique e-mail |
| Views.Registered | backend/promptbox/views.py:58-61 | a created user is 201 with the user; a failed save is 500 |
| Views.RegisterAsWritten | backend/promptbox/views.py:48-61 | a raw e-mail already stored is 400; a taken normalised e-mail that passes that check is 500 with nothing stored; otherwise, as in `Register`, a missing e-mail or name is 500 and a complete request stores the new user and answers 201 |
| Views.Register | backend/promptbox/views.py:48-61 | a taken (normalised) e-mail is 400; otherwise the user is created and the answer is 201, or 500 when the save fails |
| Views.RoleOr | backend/promptbox/views.py:73 | a missing role is MEMBER, a given role is kept, and a null role has no value |
| Views.UserByEmail | backend/promptbox/views.py:75-78 | the user whose stored e-mail equals the given one, or none |
| Views.UserById | backend/promptbox/views.py:121-124 | the user with this id, or none |
| Views.OrganizationById | backend/promptbox/views.py:71 | the organisation with this id, or none |
| Views.TeamById | backend/promptbox/views.py:117 | the team with this id, or none |
| Views.OrgAddMember | backend/promptbox/views.py:69-84 | unknown organisation 404; unknown user 404; existing member 400; a null role 500 with nothing stored; otherwise the member is stored, joins the default team, and the answer is 200 |
| Views.TeamAddMember | backend/promptbox/views.py:114-134 | unknown team 404; unknown user 404; already in the team 400; not in the organisation 400; a null role 500; otherwise one row with the role is appended; the rows change exactly on 200 |
| Views.Memberships | backend/promptbox/views.py:143 | the team's rows for this user |
| Views.WithoutMembership | backend/promptbox/views.py:143-144 | every row except the team's rows for this user |
| Views.RemovingOneMatch | backend/promptbox/views.py:142-145 | with exactly one match, removing it takes exactly that one row out of the multiset |
| Views.TeamRemoveMember | backend/promptbox/views.py:136-147 | unknown team 404; no match 404; one match is deleted with 200; several matches are a 500 that deletes nothing |
| Views.TeamQueryset | backend/promptbox/views.py:100-104 | with an organisation id, exactly that organisation's teams; otherwise all teams |
| Views.ShareCount | backend/promptbox/views.py:172 | the number of access rows linking the prompt to the team; zero exactly when none does |
| Views.SharedWith | backend/promptbox/views.py:170-172 | the join with the team's access rows lists only prompts that exist |
| Views.SharedWithCount | backend/promptbox/views.py:170-172 | the join lists each prompt once per access row to the team |
| Views.PromptQueryset | backend/promptbox/views.py:161-179 | the organisation filter, then the team join |
| Views.QuerysetCount | backend/promptbox/views.py:164-172 | each prompt is listed once per matching access row, and only when it is in the organisation asked for |
| Views.ListedOnceWhenDistinct | backend/promptbox/views.py:170-172 | without duplicate access rows, every prompt shared with the team is listed exactly once |
| Views.SerializerFor | backend/promptbox/views.py:156-159 | the create serializer exactly for the create action |
| Serializers.PopIds | backend/promptbox/serializers.py:88-89 | a missing id list is empty |
| Serializers.PromptOf | backend/promptbox/serializers.py:91 | the stored prompt carries the validated fields, the creating user, an empty description when none is given, and a valid visibility |
| Serializers.CategoryLinks | backend/promptbox/serializers.py:93-94 | one classification row per category id, in order |
| Serializers.TeamLinks | backend/promptbox/serializers.py:96-97 | one access row per team id, in order |
| Serializers.LinksMatchIds | backend/promptbox/serializers.py:93-97 | the link rows point at the new prompt and carry exactly the given ids, each as often as given |
| Serializers.Create | backend/promptbox/serializers.py:87-99 | the prompt is appended, then one category row and one team row per given id, and no other table changes |

## Left out

- Rendering, CSS, `console.log`, loading and "creating" flags, and navigation timers are not modelled. Neither are the dashboard, login, sales, welcome and sidebar components or `App.js`.
- Effect scheduling is not modelled. Each effect is a method the caller runs after the state change that triggers it. Two requests that complete out of order are not modelled.
- The save-location radio buttons of the edit-prompt page set the chosen folder, which `Change(FolderField, …)` models, and a `saveLocationType` highlight, which is not modelled. The `getTeams` results of the create pages only set a field and are not modelled.
- ManageUsers.ManageUsersPage.PreviousPage, ManageUsers.ManageUsersPage.NextPage: the mount effect depends on `fetchUsers`, which is rebuilt when the page changes, so a page change also reloads the organisations, the users and the teams. The model states only the user request of the page effect. Likewise, the organisation that `Init` sets triggers the page effect, which sends a second user request that `Init` does not state.
- HTTP transport, cookies, CSRF and sessions are left out. Also left out: Django's `login()`, `logout` and password hashing. `set_password` is modelled as storing the given password.
- `authenticate` is a function parameter of `Views.Login`. The password check belongs to Django and is not part of this model.
- The `members` list endpoints, `CategoryViewSet`, `UserViewSet`, `logout`, and the default create, update and delete actions of the model viewsets are not part of this model.
- The search filter of the prompt list (`SearchFilter` over name, description, prompt text and category names) is not modelled. `Views.PromptQueryset` states the organisation filter and the team join only.
- UUID parsing of ids is not modelled. A malformed id gives a 404 or a validation error in Django, and here it is just an unknown id.
- Foreign keys are not checked. A category or team id in `Serializers.Create` that names no row would raise an integrity error. The model stores it.
- Row ids, timestamps and `is_active` flags of memberships and link rows are left out. So are `Team.parent` and the organisation's trial fields.
- Queryset order is modelled as table order. `.first()` and `TeamMember.objects.get` read the first matching row or count matches in that order.
- `test_manage_users.py` exercises user-management endpoints that the views shown do not define. These endpoints are not modelled.
- Views.SharedWith: its own contract states only that the join lists existing prompts. The multiplicity of the join is stated in Views.SharedWithCount.
- Models.Database.CreateUser: an omitted `name` and an explicit `name=None` are the same `None` here, and both are rejected; Django would save an omitted name as `""`. The register view always passes `name`.
- Models.Lower: lower-cases ASCII letters only, while Python's `str.lower()` also lowers other Unicode letters.
- Serializers.Create: requires that the visibility has passed the field's choice validation, which DRF performs before `create` is called.

## Findings

| source | as written | input that shows it | evidently intended | confidence | as-written member | corrected member |
|---|---|---|---|---|---|---|
| backend/promptbox/views.py:55-58 | the register check looks for the raw e-mail, but `create_user` stores the normalised e-mail | a stored user `a@b`, and a register request with e-mail `a@B`: the check passes, the unique e-mail constraint fails, and the answer is 500 | check the normalised e-mail, and answer 400 "Email already exists" | medium, not executed | Views.RegisterAsWritten, Views.RegisterCheckMissesDomainCase | Views.Register |
