/** The edit-workflow page: it loads a workflow into the same form and step
    list as the new-workflow page, saves it with `updateWorkflow`, and has a
    change-history panel whose revert only restores a snapshot locally, to be
    saved by the user. */
module ViewWorkflow {
  import opened Common
  import opened WorkflowSteps
  import opened WorkflowForms
  import opened History

  const SnapshotLoaded := "Snapshot loaded. Click Save Changes to apply the revert."
  const WorkflowUpdated := "Workflow updated successfully!"

  class ViewWorkflowPage {
    /** The workflow id of the route. */
    const workflowId: Id
    var form: WorkflowForm
    var steps: seq<Step>
    var allPrompts: seq<PromptRef>
    var error: string
    var success: string
    const history: HistoryPanel<Snapshot>
    /** The update requests sent so far, in order. */
    var sent: seq<WorkflowRequest>

    ghost predicate Valid()
      reads this, history
    {
      history.Valid()
    }

    constructor (id: Id)
      ensures Valid() && fresh(history)
      ensures workflowId == id && form == EmptyForm && steps == [] && allPrompts == []
      ensures error == "" && success == "" && sent == []
      ensures history.entries == [] && history.page == 1 && !history.isOpen && history.expanded.None?
    {
      workflowId := id;
      form := EmptyForm;
      steps := [];
      allPrompts := [];
      error := "";
      success := "";
      history := new HistoryPanel();
      sent := [];
    }

    /** `fetchWorkflow`: the form and the sorted steps of the answer, or an
        error message. The loaded steps keep the server's orders. */
    method Load(reply: Reply<WorkflowData>)
      modifies this`form, this`steps, this`error
      ensures reply.Ok? ==>
        form == FormFromWorkflow(reply.value) && steps == StepsFromWorkflow(reply.value) && error == old(error)
      ensures reply.Failed? ==> form == old(form) && steps == old(steps) && error == "Failed to load workflow."
    {
      match reply {
        case Ok(data) =>
          form := FormFromWorkflow(data);
          steps := StepsFromWorkflow(data);
        case Failed(_) =>
          error := "Failed to load workflow.";
      }
    }

    method LoadPrompts(reply: Reply<ListResponse<PromptRef>>)
      modifies this`allPrompts
      ensures reply.Ok? ==> allPrompts == Rows(reply.value)
      ensures reply.Failed? ==> allPrompts == old(allPrompts)
    {
      if reply.Ok? {
        allPrompts := Rows(reply.value);
      }
    }

    method Change(field: WorkflowField, value: string)
      modifies this`form, this`error
      ensures form == WithField(old(form), field, value) && error == ""
    {
      form := WithField(form, field, value);
      error := "";
    }

    method ChangeTeams(selected: seq<Id>)
      modifies this`form
      ensures form == old(form).(teamIds := selected)
    {
      form := form.(teamIds := selected);
    }

    function FilteredPrompts(): (r: seq<PromptRef>)
      reads this
      ensures forall p :: p in r <==> p in allPrompts && !HasPrompt(steps, p.id)
    {
      Available(allPrompts, steps)
    }

    method AddStep(p: PromptRef)
      modifies this`steps
      ensures steps == WorkflowSteps.AddStep(old(steps), p)
      ensures WellFormed(old(steps)) ==> WellFormed(steps)
    {
      steps := WorkflowSteps.AddStep(steps, p);
    }

    method RemoveStep(index: int)
      modifies this`steps
      ensures steps == WorkflowSteps.RemoveStep(old(steps), index)
      ensures WellFormed(old(steps)) ==> WellFormed(steps)
    {
      steps := WorkflowSteps.RemoveStep(steps, index);
    }

    method MoveStep(index: nat, direction: int)
      requires index < |steps|
      modifies this`steps
      ensures steps == Moved(old(steps), index, direction)
      ensures WellFormed(old(steps)) ==> WellFormed(steps)
    {
      MovePreserves(steps, index, direction);
      steps := WorkflowSteps.MoveStep(steps, index, direction);
    }

    method UpdateStepName(index: int, value: string)
      modifies this`steps
      ensures steps == WorkflowSteps.UpdateStepName(old(steps), index, value)
      ensures WellFormed(old(steps)) ==> WellFormed(steps)
    {
      steps := WorkflowSteps.UpdateStepName(steps, index, value);
    }

    /** `handleSubmit`: a failed check sets its message (an earlier success
        message stays) and sends nothing; otherwise both messages are cleared,
        the update is sent, and on success the open history panel refetches
        its page. */
    method Submit(reply: Reply<()>, historyReply: Reply<ListResponse<Entry<Snapshot>>>)
      requires Valid()
      modifies this`error, this`success, this`sent, history`entries, history`totalPages, history`requested
      ensures Valid()
      ensures ValidateWorkflow(form, steps).Some? ==>
        error == WorkflowMessage(ValidateWorkflow(form, steps).value)
        && success == old(success) && sent == old(sent) && history.requested == old(history.requested)
        && history.entries == old(history.entries) && history.totalPages == old(history.totalPages)
      ensures ValidateWorkflow(form, steps).None? ==>
        sent == old(sent) + [UpdateWorkflow(workflowId, BuildWorkflowPayload(form, steps))]
      ensures ValidateWorkflow(form, steps).None? && reply.Ok? ==>
        error == "" && success == WorkflowUpdated
        && history.requested == old(history.requested) + (if history.isOpen then [history.page] else [])
        && (history.isOpen ==> history.Shows(old(history.entries), old(history.totalPages), historyReply))
        && (!history.isOpen ==> history.entries == old(history.entries) && history.totalPages == old(history.totalPages))
      ensures ValidateWorkflow(form, steps).None? && reply.Failed? ==>
        error == ErrorText(reply.message, "Failed to update workflow") && success == ""
        && history.requested == old(history.requested) && history.entries == old(history.entries) && history.totalPages == old(history.totalPages)
    {
      var v := ValidateWorkflow(form, steps);
      if v.Some? {
        error := WorkflowMessage(v.value);
        return;
      }
      error := "";
      success := "";
      sent := sent + [UpdateWorkflow(workflowId, BuildWorkflowPayload(form, steps))];
      match reply {
        case Ok(_) =>
          success := WorkflowUpdated;
          if history.isOpen {
            history.Fetch(history.page, historyReply);
          }
        case Failed(message) =>
          error := ErrorText(message, "Failed to update workflow");
      }
    }

    /** The revert button of an expanded entry, after the confirmation
        dialog: the snapshot is written into the form and the step list, the
        entry collapses and a success message asks the user to save. No
        request is sent. */
    method ConfirmRevert(entry: Entry<Snapshot>, confirmed: bool)
      modifies this`form, this`steps, this`success, history`expanded
      ensures !confirmed ==>
        form == old(form) && steps == old(steps) && success == old(success)
        && history.expanded == old(history.expanded)
      ensures confirmed ==>
        form == FormFromSnapshot(entry.snapshot)
        && steps == StepsFromSnapshot(entry.snapshot, allPrompts)
        && history.expanded.None? && success == SnapshotLoaded
      ensures sent == old(sent) && history.requested == old(history.requested)
    {
      if confirmed {
        form := FormFromSnapshot(entry.snapshot);
        steps := StepsFromSnapshot(entry.snapshot, allPrompts);
        history.expanded := None;
        success := SnapshotLoaded;
      }
    }
  }
}
