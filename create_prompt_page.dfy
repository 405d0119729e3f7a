/** The new-prompt page: a form with an inline "new category" control and a
    submit that validates, sends `createPrompt` under the current
    organisation and then heads back to the dashboard. */
module CreatePrompt {
  import opened Common
  import opened PromptForms

  const PromptCreated := "Prompt created successfully!"

  class CreatePromptPage {
    var form: PromptForm
    var categories: seq<Category>
    /** The first organisation of the user, once known. */
    var organizationId: Option<Id>
    var newCategoryName: string
    var isCreatingCategory: bool
    var error: string
    var success: string
    /** The route the page has scheduled to navigate to. */
    var leavingTo: Option<string>
    /** The requests sent so far, in order. */
    var sent: seq<PromptRequest>

    constructor ()
      ensures form == NewPromptForm && categories == [] && organizationId.None?
      ensures newCategoryName == "" && !isCreatingCategory && error == "" && success == ""
      ensures leavingTo.None? && sent == []
    {
      form := NewPromptForm;
      categories := [];
      organizationId := None;
      newCategoryName := "";
      isCreatingCategory := false;
      error := "";
      success := "";
      leavingTo := None;
      sent := [];
    }

    /** `fetchInitialData`: the categories, and the first organisation as the
        current one, or an error when there is none or the requests fail. */
    method LoadInitialData(reply: Reply<InitialData>)
      modifies this`categories, this`organizationId, this`error
      ensures reply.Ok? ==> categories == reply.value.categories
      ensures reply.Ok? && reply.value.organizations != [] ==>
        organizationId == Some(reply.value.organizations[0]) && error == old(error)
      ensures reply.Ok? && reply.value.organizations == [] ==>
        organizationId == old(organizationId) && error == NoOrganization
      ensures reply.Failed? ==>
        categories == old(categories) && organizationId == old(organizationId) && error == InitialLoadFailed
    {
      match reply {
        case Ok(data) =>
          categories := data.categories;
          if data.organizations != [] {
            organizationId := Some(data.organizations[0]);
          } else {
            error := NoOrganization;
          }
        case Failed(_) =>
          error := InitialLoadFailed;
      }
    }

    /** `handleChange`: exactly the named field changes, and any error is
        cleared. */
    method Change(field: PromptField, value: string)
      modifies this`form, this`error
      ensures form == WithField(old(form), field, value) && error == ""
    {
      form := WithField(form, field, value);
      error := "";
    }

    method ChangeCategories(selected: seq<Id>)
      modifies this`form
      ensures form == old(form).(categoryIds := selected)
    {
      form := form.(categoryIds := selected);
    }

    method ChangeTeams(selected: seq<Id>)
      modifies this`form
      ensures form == old(form).(teamIds := selected)
    {
      form := form.(teamIds := selected);
    }

    method SetNewCategoryName(value: string)
      modifies this`newCategoryName
      ensures newCategoryName == value
    {
      newCategoryName := value;
    }

    /** `handleCreateCategory`: nothing for a blank name, an error without an
        organisation; otherwise one request, and on success the category is
        appended, selected, and the inline control is reset. */
    method CreateCategory(reply: Reply<Category>)
      modifies this`categories, this`form, this`newCategoryName, this`isCreatingCategory, this`error, this`sent
      ensures var d := DecideCategory(old(newCategoryName), organizationId);
        && (d.Skip? ==> unchanged(this))
        && (d.Reject? ==> error == d.message && sent == old(sent) && categories == old(categories) && form == old(form))
        && (d.Send? ==> sent == old(sent) + [PromptRequest.CreateCategory(d.request)])
        && (d.Send? && reply.Ok? ==>
              categories == old(categories) + [reply.value]
              && form == old(form).(categoryIds := old(form.categoryIds) + [reply.value.id])
              && newCategoryName == "" && !isCreatingCategory && error == old(error))
        && (d.Send? && reply.Failed? ==>
              error == "Failed to create category" && categories == old(categories) && form == old(form)
              && newCategoryName == old(newCategoryName))
    {
      var d := DecideCategory(newCategoryName, organizationId);
      match d {
        case Skip =>
        case Reject(message) =>
          error := message;
        case Send(request) =>
          sent := sent + [PromptRequest.CreateCategory(request)];
          match reply {
            case Ok(category) =>
              categories := categories + [category];
              form := form.(categoryIds := form.categoryIds + [category.id]);
              newCategoryName := "";
              isCreatingCategory := false;
            case Failed(_) =>
              error := "Failed to create category";
          }
      }
    }

    /** `handleSubmit`: both messages are cleared; the first failed check
        sets its message and nothing is sent; otherwise the form (teams
        emptied for PRIVATE) is sent with the organisation, and on success the
        page shows a message and schedules the way back to the dashboard. */
    method Submit(reply: Reply<()>)
      modifies this`error, this`success, this`sent, this`leavingTo
      ensures ValidateNewPrompt(form, organizationId).Some? ==>
        error == PromptMessage(ValidateNewPrompt(form, organizationId).value)
        && success == "" && sent == old(sent) && leavingTo == old(leavingTo)
      ensures ValidateNewPrompt(form, organizationId).None? ==>
        Known(organizationId)
        && sent == old(sent) + [CreatePrompt(NewPromptPayload(Sent(form), organizationId.value))]
      ensures ValidateNewPrompt(form, organizationId).None? && reply.Ok? ==>
        error == "" && success == PromptCreated && leavingTo == Some("/dashboard")
      ensures ValidateNewPrompt(form, organizationId).None? && reply.Failed? ==>
        error == ErrorText(reply.message, "Failed to create prompt") && success == "" && leavingTo == old(leavingTo)
    {
      error := "";
      success := "";
      var v := ValidateNewPrompt(form, organizationId);
      if v.Some? {
        error := PromptMessage(v.value);
        return;
      }
      sent := sent + [CreatePrompt(NewPromptPayload(Sent(form), organizationId.value))];
      match reply {
        case Ok(_) =>
          success := PromptCreated;
          leavingTo := Some("/dashboard");
        case Failed(message) =>
          error := ErrorText(message, "Failed to create prompt");
      }
    }
  }
}
