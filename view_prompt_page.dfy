/** The edit-prompt page: it loads a prompt into the form, saves it with
    `updatePrompt`, tracks whether its folder is a public or a private one,
    and has a change-history panel whose revert is done by the server: the
    form is then overwritten with the prompt the server returns. */
module ViewPrompt {
  import opened Common
  import opened PromptForms
  import opened History

  const PromptUpdated := "Prompt updated successfully!"
  const PromptReverted := "Prompt reverted successfully!"

  class ViewPromptPage {
    /** The prompt id of the route. */
    const promptId: Id
    var form: PromptForm
    var categories: seq<Category>
    var organizationId: Option<Id>
    var newCategoryName: string
    var isCreatingCategory: bool
    var error: string
    var success: string
    /** `saveLocationType`: PRIVATE or PUBLIC. */
    var saveLocation: string
    var privateFolders: seq<FolderRow>
    var publicFolders: seq<FolderRow>
    const history: HistoryPanel<PromptData>
    /** The requests sent so far, in order. */
    var sent: seq<PromptRequest>

    ghost predicate Valid()
      reads this, history
    {
      history.Valid()
    }

    constructor (id: Id)
      ensures Valid() && fresh(history)
      ensures promptId == id && form == EditPromptForm && categories == [] && organizationId.None?
      ensures newCategoryName == "" && !isCreatingCategory && error == "" && success == ""
      ensures saveLocation == PRIVATE && privateFolders == [] && publicFolders == [] && sent == []
      ensures history.entries == [] && history.page == 1 && !history.isOpen && history.expanded.None?
    {
      promptId := id;
      form := EditPromptForm;
      categories := [];
      organizationId := None;
      newCategoryName := "";
      isCreatingCategory := false;
      error := "";
      success := "";
      saveLocation := PRIVATE;
      privateFolders := [];
      publicFolders := [];
      history := new HistoryPanel();
      sent := [];
    }

    /** `fetchInitialData`, as on the new-prompt page. */
    method LoadInitialData(reply: Reply<InitialData>)
      modifies this`categories, this`organizationId, this`error
      ensures reply.Ok? ==> categories == reply.value.categories
      ensures reply.Ok? && reply.value.organizations != [] ==>
        organizationId == Some(reply.value.organizations[0]) && error == old(error)
      ensures reply.Ok? && reply.value.organizations == [] ==>
        organizationId == old(organizationId) && error == NoOrganization
      ensures reply.Failed? ==>
        categories == old(categories) && organizationId == old(organizationId) && error == InitialLoadFailed
    {
      match reply {
        case Ok(data) =>
          categories := data.categories;
          if data.organizations != [] {
            organizationId := Some(data.organizations[0]);
          } else {
            error := NoOrganization;
          }
        case Failed(_) =>
          error := InitialLoadFailed;
      }
    }

    /** `fetchPrompt`: the form is the mapped prompt; a prompt in a folder
        provisionally counts as saved privately until the folders are known. */
    method Load(reply: Reply<PromptData>)
      modifies this`form, this`saveLocation, this`error
      ensures reply.Ok? ==> form == FormFromPrompt(reply.value) && error == old(error)
      ensures reply.Ok? && Known(reply.value.folder) ==> saveLocation == PRIVATE
      ensures reply.Ok? && !Known(reply.value.folder) ==> saveLocation == old(saveLocation)
      ensures reply.Failed? ==>
        form == old(form) && saveLocation == old(saveLocation) && error == "Failed to load prompt details."
    {
      match reply {
        case Ok(data) =>
          form := FormFromPrompt(data);
          if Known(data.folder) {
            saveLocation := PRIVATE;
          }
        case Failed(_) =>
          error := "Failed to load prompt details.";
      }
    }

    /** `fetchAllFolders`: the private and the public folder lists, both
        emptied when either request fails. */
    method LoadFolders(reply: Reply<(ListResponse<FolderRow>, ListResponse<FolderRow>)>)
      modifies this`privateFolders, this`publicFolders
      ensures reply.Ok? ==> privateFolders == Rows(reply.value.0) && publicFolders == Rows(reply.value.1)
      ensures reply.Failed? ==> privateFolders == [] && publicFolders == []
    {
      match reply {
        case Ok((mine, shared)) =>
          privateFolders := Rows(mine);
          publicFolders := Rows(shared);
        case Failed(_) =>
          privateFolders := [];
          publicFolders := [];
      }
    }

    /** The effect that runs whenever the folder or the folder lists change. */
    method CorrectSaveLocation()
      modifies this`saveLocation
      ensures saveLocation == SaveLocation(form.folder, privateFolders, publicFolders, old(saveLocation))
    {
      saveLocation := SaveLocation(form.folder, privateFolders, publicFolders, saveLocation);
    }

    method Change(field: PromptField, value: string)
      modifies this`form, this`error
      ensures form == WithField(old(form), field, value) && error == ""
    {
      form := WithField(form, field, value);
      error := "";
    }

    method ChangeCategories(selected: seq<Id>)
      modifies this`form
      ensures form == old(form).(categoryIds := selected)
    {
      form := form.(categoryIds := selected);
    }

    method ChangeTeams(selected: seq<Id>)
      modifies this`form
      ensures form == old(form).(teamIds := selected)
    {
      form := form.(teamIds := selected);
    }

    method SetNewCategoryName(value: string)
      modifies this`newCategoryName
      ensures newCategoryName == value
    {
      newCategoryName := value;
    }

    /** `handleCreateCategory`, as on the new-prompt page. */
    method CreateCategory(reply: Reply<Category>)
      modifies this`categories, this`form, this`newCategoryName, this`isCreatingCategory, this`error, this`sent
      ensures var d := DecideCategory(old(newCategoryName), organizationId);
        && (d.Skip? ==> unchanged(this))
        && (d.Reject? ==> error == d.message && sent == old(sent) && categories == old(categories) && form == old(form))
        && (d.Send? ==> sent == old(sent) + [PromptRequest.CreateCategory(d.request)])
        && (d.Send? && reply.Ok? ==>
              categories == old(categories) + [reply.value]
              && form == old(form).(categoryIds := old(form.categoryIds) + [reply.value.id])
              && newCategoryName == "" && !isCreatingCategory && error == old(error))
        && (d.Send? && reply.Failed? ==>
              error == "Failed to create category" && categories == old(categories) && form == old(form)
              && newCategoryName == old(newCategoryName))
    {
      var d := DecideCategory(newCategoryName, organizationId);
      match d {
        case Skip =>
        case Reject(message) =>
          error := message;
        case Send(request) =>
          sent := sent + [PromptRequest.CreateCategory(request)];
          match reply {
            case Ok(category) =>
              categories := categories + [category];
              form := form.(categoryIds := form.categoryIds + [category.id]);
              newCategoryName := "";
              isCreatingCategory := false;
            case Failed(_) =>
              error := "Failed to create category";
          }
      }
    }

    /** `handleSubmit`: both messages are cleared; the first failed check
        sets its message and nothing is sent; otherwise the form (teams
        emptied for PRIVATE only) is sent, and on success the open history
        panel refetches its page. */
    method Submit(reply: Reply<()>, historyReply: Reply<ListResponse<Entry<PromptData>>>)
      requires Valid()
      modifies this`error, this`success, this`sent, history`entries, history`totalPages, history`requested
      ensures Valid()
      ensures ValidateEditedPrompt(form).Some? ==>
        error == PromptMessage(ValidateEditedPrompt(form).value)
        && success == "" && sent == old(sent) && history.requested == old(history.requested)
        && history.entries == old(history.entries) && history.totalPages == old(history.totalPages)
      ensures ValidateEditedPrompt(form).None? ==> sent == old(sent) + [UpdatePrompt(promptId, Sent(form))]
      ensures ValidateEditedPrompt(form).None? && reply.Ok? ==>
        error == "" && success == PromptUpdated
        && history.requested == old(history.requested) + (if history.isOpen then [history.page] else [])
        && (history.isOpen ==> history.Shows(old(history.entries), old(history.totalPages), historyReply))
        && (!history.isOpen ==> history.entries == old(history.entries) && history.totalPages == old(history.totalPages))
      ensures ValidateEditedPrompt(form).None? && reply.Failed? ==>
        error == ErrorText(reply.message, "Failed to update prompt") && success == ""
        && history.requested == old(history.requested) && history.entries == old(history.entries) && history.totalPages == old(history.totalPages)
    {
      error := "";
      success := "";
      var v := ValidateEditedPrompt(form);
      if v.Some? {
        error := PromptMessage(v.value);
        return;
      }
      sent := sent + [UpdatePrompt(promptId, Sent(form))];
      match reply {
        case Ok(_) =>
          success := PromptUpdated;
          if history.isOpen {
            history.Fetch(history.page, historyReply);
          }
        case Failed(message) =>
          error := ErrorText(message, "Failed to update prompt");
      }
    }

    /** `handleRevert(historyId)`: after the confirmation dialog, one revert
        request; the server's prompt then overwrites the form through the
        same mapping as loading, the expanded entry collapses, and the
        current history page is fetched again. */
    method Revert(historyId: Id, confirmed: bool, reply: Reply<PromptData>,
                  historyReply: Reply<ListResponse<Entry<PromptData>>>)
      requires Valid()
      modifies this`form, this`error, this`success, this`sent
      modifies history`expanded, history`entries, history`totalPages, history`requested
      ensures Valid()
      ensures !confirmed ==>
        form == old(form) && sent == old(sent) && history.requested == old(history.requested)
        && history.entries == old(history.entries) && history.totalPages == old(history.totalPages) && history.expanded == old(history.expanded) && error == old(error) && success == old(success)
      ensures confirmed ==> sent == old(sent) + [RevertPrompt(promptId, historyId)]
      ensures confirmed && reply.Ok? ==>
        form == FormFromPrompt(reply.value) && success == PromptReverted && error == old(error)
        && history.expanded.None? && history.requested == old(history.requested) + [history.page]
        && history.Shows(old(history.entries), old(history.totalPages), historyReply)
      ensures confirmed && reply.Failed? ==>
        form == old(form) && error == ErrorText(reply.message, "Failed to revert prompt")
        && success == old(success) && history.expanded == old(history.expanded)
        && history.requested == old(history.requested) && history.entries == old(history.entries) && history.totalPages == old(history.totalPages)
    {
      if !confirmed {
        return;
      }
      sent := sent + [RevertPrompt(promptId, historyId)];
      match reply {
        case Ok(data) =>
          form := FormFromPrompt(data);
          success := PromptReverted;
          history.expanded := None;
          history.Fetch(history.page, historyReply);
        case Failed(message) =>
          error := ErrorText(message, "Failed to revert prompt");
      }
    }
  }
}
