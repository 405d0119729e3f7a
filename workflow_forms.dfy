/** The form of the create-workflow and edit-workflow pages: the ordered
    validation on submit, the request body sent to the server, the mapping of
    a loaded workflow into the form, and the local restore of a history
    snapshot. */
module WorkflowForms {
  import opened Common
  import opened WorkflowSteps

  /** `formData` of both workflow pages. */
  datatype WorkflowForm = WorkflowForm(name: string, description: string, visibility: string, teamIds: seq<Id>)

  /** The initial form: empty text, PRIVATE, no teams. */
  const EmptyForm := WorkflowForm("", "", PRIVATE, [])

  /** The three submit checks of the workflow pages. */
  datatype WorkflowProblem = NameRequired | StepsRequired | TeamsRequired

  /** The message each failed check shows. */
  function WorkflowMessage(p: WorkflowProblem): (r: string)
    ensures r != ""
  {
    match p
    case NameRequired => "Workflow name is required"
    case StepsRequired => "Add at least one step"
    case TeamsRequired => "Select at least one team for Team visibility"
  }

  /** The submit checks, in the order the pages run them: the first failing
      one is reported and nothing is sent; `None` lets the submit on. */
  function ValidateWorkflow(form: WorkflowForm, steps: seq<Step>): (r: Option<WorkflowProblem>)
    ensures r == Some(NameRequired) <==> IsBlank(form.name)
    ensures r == Some(StepsRequired) <==> !IsBlank(form.name) && steps == []
    ensures r == Some(TeamsRequired) <==>
      !IsBlank(form.name) && steps != [] && form.visibility == TEAM && form.teamIds == []
    ensures r.None? <==>
      !IsBlank(form.name) && steps != [] && !(form.visibility == TEAM && form.teamIds == [])
  {
    if IsBlank(form.name) then Some(NameRequired)
    else if steps == [] then Some(StepsRequired)
    else if form.visibility == TEAM && form.teamIds == [] then Some(TeamsRequired)
    else None
  }

  /** A step as the server receives it: `{prompt, order, name}`. */
  datatype PayloadStep = PayloadStep(prompt: Id, order: int, name: string)

  /** The body of `createWorkflow` / `updateWorkflow`. */
  datatype WorkflowPayload = WorkflowPayload(
    name: string, description: string, visibility: string, teamIds: seq<Id>, steps: seq<PayloadStep>)

  /** `{...formData, steps: steps.map(...)}` with `team_ids` emptied unless
      the visibility is TEAM. */
  function BuildWorkflowPayload(form: WorkflowForm, steps: seq<Step>): (r: WorkflowPayload)
    ensures r.name == form.name && r.description == form.description && r.visibility == form.visibility
    ensures form.visibility == TEAM ==> r.teamIds == form.teamIds
    ensures form.visibility != TEAM ==> r.teamIds == []
    ensures |r.steps| == |steps|
    ensures forall k :: 0 <= k < |steps| ==>
      r.steps[k] == PayloadStep(steps[k].prompt, steps[k].order, steps[k].name)
  {
    WorkflowPayload(
      form.name, form.description, form.visibility,
      if form.visibility != TEAM then [] else form.teamIds,
      seq(|steps|, k requires 0 <= k < |steps| => PayloadStep(steps[k].prompt, steps[k].order, steps[k].name)))
  }

  /** The requests the workflow pages send. */
  datatype WorkflowRequest =
    | CreateWorkflow(payload: WorkflowPayload)
    | UpdateWorkflow(id: Id, payload: WorkflowPayload)

  /** Which text field of the form an input event names. */
  datatype WorkflowField = NameField | DescriptionField | VisibilityField

  /** `{...prev, [name]: value}`: only the named field takes the value. */
  function WithField(form: WorkflowForm, field: WorkflowField, value: string): (r: WorkflowForm)
    ensures r.teamIds == form.teamIds
    ensures r.name == (if field == NameField then value else form.name)
    ensures r.description == (if field == DescriptionField then value else form.description)
    ensures r.visibility == (if field == VisibilityField then value else form.visibility)
  {
    match field
    case NameField => form.(name := value)
    case DescriptionField => form.(description := value)
    case VisibilityField => form.(visibility := value)
  }

  /** The steps of a payload built from a well-formed list are numbered
      `0..n-1` in list order and run pairwise distinct prompts. */
  lemma PayloadOfWellFormed(form: WorkflowForm, steps: seq<Step>)
    requires WellFormed(steps)
    ensures var p := BuildWorkflowPayload(form, steps).steps;
      (forall k :: 0 <= k < |p| ==> p[k].order == k)
      && (forall i, j :: 0 <= i < j < |p| ==> p[i].prompt != p[j].prompt)
  {
  }

  /** A step row as `getWorkflow` returns it; `prompt_name` and `name` may be
      missing. */
  datatype LoadedStep = LoadedStep(prompt: Id, promptName: Option<string>, order: int, name: Option<string>)

  /** The fields of `getWorkflow`'s answer that the edit page reads. */
  datatype WorkflowData = WorkflowData(
    name: Option<string>, description: Option<string>, visibility: Option<string>,
    sharedTeams: Option<seq<TeamShare>>, steps: Option<seq<LoadedStep>>)

  /** The form filled from a loaded workflow: missing or empty text becomes
      `''`, a missing visibility PRIVATE, and the shared teams their ids. */
  function FormFromWorkflow(data: WorkflowData): (r: WorkflowForm)
    ensures r.name == OrDefault(data.name, "") && r.description == OrDefault(data.description, "")
    ensures r.visibility == OrDefault(data.visibility, PRIVATE)
    ensures r.visibility != ""
    ensures r.teamIds == TeamIdsOf(data.sharedTeams)
  {
    WorkflowForm(OrDefault(data.name, ""), OrDefault(data.description, ""),
                 OrDefault(data.visibility, PRIVATE), TeamIdsOf(data.sharedTeams))
  }

  function StepOfLoaded(s: LoadedStep): Step {
    Step(s.prompt, OrDefault(s.promptName, ""), s.order, OrDefault(s.name, ""))
  }

  /** The loaded rows, in the order the server sent them, before sorting. */
  function LoadedRows(data: WorkflowData): (r: seq<Step>)
    ensures data.steps.None? ==> r == []
    ensures data.steps.Some? ==> |r| == |data.steps.value|
    ensures data.steps.Some? ==> forall k :: 0 <= k < |r| ==> r[k] == StepOfLoaded(data.steps.value[k])
  {
    var rows := if data.steps.None? then [] else data.steps.value;
    seq(|rows|, k requires 0 <= k < |rows| => StepOfLoaded(rows[k]))
  }

  /** The step list the edit page shows after loading: the server's rows, each
      keeping its server order (they are not renumbered), sorted ascending by
      that order. */
  function StepsFromWorkflow(data: WorkflowData): (r: seq<Step>)
    ensures SortedByOrder(r)
    ensures multiset(r) == multiset(LoadedRows(data))
    ensures |r| == |LoadedRows(data)|
  {
    SortByOrder(LoadedRows(data))
  }

  /** Rows that the server keeps numbered `0..n-1` load in the same order. */
  lemma LoadKeepsNumberedRows(data: WorkflowData)
    requires OrdersArePositions(LoadedRows(data))
    ensures StepsFromWorkflow(data) == LoadedRows(data)
  {
    SortKeepsSorted(LoadedRows(data));
  }

  /** A step of a history snapshot; `order` and `name` may be missing. */
  datatype SnapshotStep = SnapshotStep(prompt: Id, order: Option<int>, name: Option<string>)

  /** A workflow history snapshot; every field may be missing. */
  datatype Snapshot = Snapshot(
    name: Option<string>, description: Option<string>, visibility: Option<string>,
    teamIds: Option<seq<Id>>, steps: Option<seq<SnapshotStep>>)

  /** The form `applySnapshot` writes: `''` for missing text, PRIVATE for a
      missing visibility, no teams for missing team ids. */
  function FormFromSnapshot(snap: Snapshot): (r: WorkflowForm)
    ensures r.name == OrDefault(snap.name, "") && r.description == OrDefault(snap.description, "")
    ensures r.visibility == OrDefault(snap.visibility, PRIVATE)
    ensures snap.teamIds.Some? ==> r.teamIds == snap.teamIds.value
    ensures snap.teamIds.None? ==> r.teamIds == []
  {
    WorkflowForm(OrDefault(snap.name, ""), OrDefault(snap.description, ""),
                 OrDefault(snap.visibility, PRIVATE), if snap.teamIds.Some? then snap.teamIds.value else [])
  }

  /** The display name of a restored step: the loaded prompt's name when the
      prompt is among the loaded prompts, else the raw prompt id. */
  function DisplayName(prompts: seq<PromptRef>, id: Id): (r: string)
    ensures (forall k :: 0 <= k < |prompts| ==> prompts[k].id != id) ==> r == id
    ensures (exists k :: 0 <= k < |prompts| && prompts[k].id == id) ==>
      exists k :: 0 <= k < |prompts| && prompts[k].id == id && r == prompts[k].name
                  && forall m :: 0 <= m < k ==> prompts[m].id != id
  {
    match FindPrompt(prompts, id)
    case Some(p) =>
      var k :| IsFirst(prompts, (q: PromptRef) => q.id == id, k) && prompts[k] == p;
      p.name
    case None => id
  }

  /** The restored rows before sorting: row `k` keeps its snapshot order, or
      takes `k` when the snapshot has none. */
  function RestoredRows(snap: Snapshot, prompts: seq<PromptRef>): (r: seq<Step>)
    ensures snap.steps.None? ==> r == []
    ensures snap.steps.Some? ==> |r| == |snap.steps.value|
    ensures snap.steps.Some? ==> forall k :: 0 <= k < |r| ==>
        var s := snap.steps.value[k];
        r[k].prompt == s.prompt && r[k].promptName == DisplayName(prompts, s.prompt)
        && r[k].order == (if s.order.Some? then s.order.value else k)
        && r[k].name == OrDefault(s.name, "")
  {
    var rows := if snap.steps.None? then [] else snap.steps.value;
    seq(|rows|, k requires 0 <= k < |rows| =>
      Step(rows[k].prompt, DisplayName(prompts, rows[k].prompt),
           if rows[k].order.Some? then rows[k].order.value else k, OrDefault(rows[k].name, "")))
  }

  /** The steps `applySnapshot` writes: the restored rows sorted ascending by
      order. */
  function StepsFromSnapshot(snap: Snapshot, prompts: seq<PromptRef>): (r: seq<Step>)
    ensures SortedByOrder(r)
    ensures multiset(r) == multiset(RestoredRows(snap, prompts))
  {
    SortByOrder(RestoredRows(snap, prompts))
  }

  /** A snapshot saved from a well-formed list (each step's order missing or
      equal to its position, prompts distinct) restores a well-formed list in
      the saved order. */
  lemma {:induction false} SnapshotOfWellFormed(snap: Snapshot, prompts: seq<PromptRef>)
    requires snap.steps.Some?
    requires forall k :: 0 <= k < |snap.steps.value| ==>
      snap.steps.value[k].order.None? || snap.steps.value[k].order == Some(k)
    requires forall i, j :: 0 <= i < j < |snap.steps.value| ==>
      snap.steps.value[i].prompt != snap.steps.value[j].prompt
    ensures StepsFromSnapshot(snap, prompts) == RestoredRows(snap, prompts)
    ensures WellFormed(StepsFromSnapshot(snap, prompts))
  {
    var rows := RestoredRows(snap, prompts);
    assert OrdersArePositions(rows);
    SortKeepsSorted(rows);
  }
}
