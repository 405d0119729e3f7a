/** The new-workflow page: a form, a step list built from a prompt picker, and
    a submit that validates, sends `createWorkflow` and opens the new
    workflow. */
module CreateWorkflow {
  import opened Common
  import opened WorkflowSteps
  import opened WorkflowForms

  class CreateWorkflowPage {
    var form: WorkflowForm
    var steps: seq<Step>
    /** The prompts offered by the picker, as last fetched. */
    var allPrompts: seq<PromptRef>
    var error: string
    /** The route the page navigated to, once it has. */
    var navigatedTo: Option<string>
    /** The create requests sent so far, in order. */
    var sent: seq<WorkflowRequest>

    /** The step list of a new workflow is never out of shape. */
    ghost predicate Valid()
      reads this
    {
      WellFormed(steps)
    }

    constructor ()
      ensures Valid()
      ensures form == EmptyForm && steps == [] && allPrompts == [] && error == ""
      ensures navigatedTo.None? && sent == []
    {
      form := EmptyForm;
      steps := [];
      allPrompts := [];
      error := "";
      navigatedTo := None;
      sent := [];
    }

    /** `fetchPrompts`: the picker's list is the answer's rows; a failure is
        only logged. */
    method LoadPrompts(reply: Reply<ListResponse<PromptRef>>)
      modifies this`allPrompts
      ensures reply.Ok? ==> allPrompts == Rows(reply.value)
      ensures reply.Failed? ==> allPrompts == old(allPrompts)
    {
      if reply.Ok? {
        allPrompts := Rows(reply.value);
      }
    }

    /** `handleChange`: the named field takes the value and any error goes. */
    method Change(field: WorkflowField, value: string)
      modifies this`form, this`error
      ensures form == WithField(old(form), field, value) && error == ""
    {
      form := WithField(form, field, value);
      error := "";
    }

    /** `handleTeamChange`: the selected options become the team ids. */
    method ChangeTeams(selected: seq<Id>)
      modifies this`form
      ensures form == old(form).(teamIds := selected)
    {
      form := form.(teamIds := selected);
    }

    /** The prompts the picker lists: those not yet a step. */
    function FilteredPrompts(): (r: seq<PromptRef>)
      reads this
      ensures forall p :: p in r <==> p in allPrompts && !HasPrompt(steps, p.id)
    {
      Available(allPrompts, steps)
    }

    method AddStep(p: PromptRef)
      requires Valid()
      modifies this`steps
      ensures Valid() && steps == WorkflowSteps.AddStep(old(steps), p)
    {
      steps := WorkflowSteps.AddStep(steps, p);
    }

    method RemoveStep(index: int)
      requires Valid()
      modifies this`steps
      ensures Valid() && steps == WorkflowSteps.RemoveStep(old(steps), index)
    {
      steps := WorkflowSteps.RemoveStep(steps, index);
    }

    /** The up (`-1`) or down (`1`) arrow of row `index`. */
    method MoveStep(index: nat, direction: int)
      requires Valid() && index < |steps|
      modifies this`steps
      ensures Valid() && steps == Moved(old(steps), index, direction)
    {
      MovePreserves(steps, index, direction);
      steps := WorkflowSteps.MoveStep(steps, index, direction);
    }

    method UpdateStepName(index: int, value: string)
      requires Valid()
      modifies this`steps
      ensures Valid() && steps == WorkflowSteps.UpdateStepName(old(steps), index, value)
    {
      steps := WorkflowSteps.UpdateStepName(steps, index, value);
    }

    /** `handleSubmit`: a failed check sets its message and sends nothing;
        otherwise the payload is sent and the page opens the created workflow,
        or shows the error's message (or a fallback). */
    method Submit(reply: Reply<Id>)
      requires Valid()
      modifies this`error, this`sent, this`navigatedTo
      ensures Valid()
      ensures ValidateWorkflow(form, steps).Some? ==>
        error == WorkflowMessage(ValidateWorkflow(form, steps).value) && sent == old(sent) && navigatedTo == old(navigatedTo)
      ensures ValidateWorkflow(form, steps).None? ==>
        sent == old(sent) + [CreateWorkflow(BuildWorkflowPayload(form, steps))]
      ensures ValidateWorkflow(form, steps).None? && reply.Ok? ==>
        error == "" && navigatedTo == Some("/dashboard/workflows/" + reply.value)
      ensures ValidateWorkflow(form, steps).None? && reply.Failed? ==>
        error == ErrorText(reply.message, "Failed to create workflow") && navigatedTo == old(navigatedTo)
    {
      var v := ValidateWorkflow(form, steps);
      if v.Some? {
        error := WorkflowMessage(v.value);
        return;
      }
      error := "";
      sent := sent + [CreateWorkflow(BuildWorkflowPayload(form, steps))];
      match reply {
        case Ok(created) =>
          navigatedTo := Some("/dashboard/workflows/" + created);
        case Failed(message) =>
          error := ErrorText(message, "Failed to create workflow");
      }
    }
  }
}
