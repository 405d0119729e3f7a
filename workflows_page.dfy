/** The workflow list page: one page of ten workflows, an optional search
    term, a pager and a delete action. */
module WorkflowList {
  import opened Common

  /** A workflow row as the list shows it. */
  datatype WorkflowRow = WorkflowRow(id: Id, name: string, visibility: string)

  datatype WorkflowListRequest = GetWorkflows(params: Params) | DeleteWorkflow(id: Id)

  /** The list query: the page and its size, and `search` only for a
      non-empty term. */
  function WorkflowQuery(page: int, term: string): (r: Params)
    ensures "search" in r <==> term != ""
    ensures "search" in r ==> r["search"] == Str(term)
    ensures r.Keys - {"search"} == {"page", "page_size"}
    ensures r["page"] == Num(page) && r["page_size"] == Num(PageSize)
  {
    var params := map["page" := Num(page), "page_size" := Num(PageSize)];
    if term != "" then params["search" := Str(term)] else params
  }

  /** What the list shows: its rows, its page count and its error. */
  datatype Listing = Listing(rows: seq<WorkflowRow>, pages: nat, error: string)

  /** The listing after one list answer: a paginated answer gives its rows
      and `ceil(count / 10)` pages, a bare array its rows and one page, and
      a failure keeps the rows and pages and sets the error. */
  function Fetched(before: Listing, reply: Reply<ListResponse<WorkflowRow>>): Listing {
    match reply
    case Ok(data) => Listing(Rows(data), TotalPagesOf(data), before.error)
    case Failed(_) => before.(error := "Failed to load workflows.")
  }

  class WorkflowsPage {
    var workflows: seq<WorkflowRow>
    var error: string
    var page: int
    var totalPages: nat
    var search: string
    /** The requests sent so far, in order. */
    var sent: seq<WorkflowListRequest>

    ghost predicate Valid()
      reads this
    {
      page >= 1
    }

    function Shown(): Listing
      reads this
    {
      Listing(workflows, totalPages, error)
    }

    constructor ()
      ensures Valid()
      ensures workflows == [] && error == "" && page == 1 && totalPages == 1 && search == "" && sent == []
    {
      workflows := [];
      error := "";
      page := 1;
      totalPages := 1;
      search := "";
      sent := [];
    }

    /** `fetchWorkflows(p, term)`: a paginated answer gives its rows and
        `ceil(count / 10)` pages, a bare array its rows and one page; a
        failure sets the error. */
    method FetchWorkflows(p: int, term: string, reply: Reply<ListResponse<WorkflowRow>>)
      modifies this`workflows, this`totalPages, this`error, this`sent
      ensures sent == old(sent) + [GetWorkflows(WorkflowQuery(p, term))]
      ensures reply.Ok? ==> workflows == Rows(reply.value) && totalPages == TotalPagesOf(reply.value) && error == old(error)
      ensures reply.Failed? ==>
        workflows == old(workflows) && totalPages == old(totalPages) && error == "Failed to load workflows."
      ensures Shown() == Fetched(old(Shown()), reply)
    {
      sent := sent + [GetWorkflows(WorkflowQuery(p, term))];
      match reply {
        case Ok(data) =>
          workflows := Rows(data);
          totalPages := TotalPagesOf(data);
        case Failed(_) =>
          error := "Failed to load workflows.";
      }
    }

    method SetSearch(value: string)
      modifies this`search
      ensures search == value
    {
      search := value;
    }

    /** `handleSearch`: back to page 1 and page 1 is fetched with the term;
        when the page was another one, the page effect fetches page 1 once
        more. The replies are applied in the order the requests were sent. */
    method Search(reply: Reply<ListResponse<WorkflowRow>>, effectReply: Reply<ListResponse<WorkflowRow>>)
      requires Valid()
      modifies this`page, this`workflows, this`totalPages, this`error, this`sent
      ensures Valid() && page == 1
      ensures sent == old(sent) + [GetWorkflows(WorkflowQuery(1, search))]
                     + (if old(page) != 1 then [GetWorkflows(WorkflowQuery(1, search))] else [])
      ensures forall k :: |old(sent)| <= k < |sent| ==> sent[k] == GetWorkflows(WorkflowQuery(1, search))
      ensures old(page) == 1 ==> Shown() == Fetched(old(Shown()), reply)
      ensures old(page) != 1 ==> Shown() == Fetched(Fetched(old(Shown()), reply), effectReply)
    {
      var pageChanged := page != 1;
      page := 1;
      FetchWorkflows(1, search, reply);
      if pageChanged {
        FetchWorkflows(page, search, effectReply);
      }
    }

    /** `handleDelete(id)`: after the confirmation the workflow is deleted and
        the current page fetched again; a failure sets the error. */
    method Delete(id: Id, confirmed: bool, reply: Reply<()>, listReply: Reply<ListResponse<WorkflowRow>>)
      modifies this`workflows, this`totalPages, this`error, this`sent
      ensures !confirmed ==> unchanged(this)
      ensures confirmed && reply.Failed? ==>
        sent == old(sent) + [DeleteWorkflow(id)] && error == "Failed to delete workflow."
        && workflows == old(workflows) && totalPages == old(totalPages)
      ensures confirmed && reply.Ok? ==>
        sent == old(sent) + [DeleteWorkflow(id), GetWorkflows(WorkflowQuery(page, search))]
        && Shown() == Fetched(old(Shown()), listReply)
    {
      if !confirmed {
        return;
      }
      sent := sent + [DeleteWorkflow(id)];
      match reply {
        case Ok(_) =>
          FetchWorkflows(page, search, listReply);
        case Failed(_) =>
          error := "Failed to delete workflow.";
      }
    }

    /** Previous, shown with more than one page and disabled on page 1: the
        page effect fetches the page before. */
    method PreviousPage(reply: Reply<ListResponse<WorkflowRow>>)
      requires Valid() && totalPages > 1
      modifies this`page, this`workflows, this`totalPages, this`error, this`sent
      ensures Valid()
      ensures old(page) == 1 ==> unchanged(this)
      ensures old(page) != 1 ==> page == old(page) - 1 && sent == old(sent) + [GetWorkflows(WorkflowQuery(page, search))]
      ensures old(page) != 1 ==> Shown() == Fetched(old(Shown()), reply)
    {
      if page == 1 {
        return;
      }
      page := page - 1;
      FetchWorkflows(page, search, reply);
    }

    /** Next, disabled on the last page: the page effect fetches the page
        after. */
    method NextPage(reply: Reply<ListResponse<WorkflowRow>>)
      requires Valid() && totalPages > 1
      modifies this`page, this`workflows, this`totalPages, this`error, this`sent
      ensures Valid()
      ensures old(page) == old(totalPages) ==> unchanged(this)
      ensures old(page) != old(totalPages) ==>
        page == old(page) + 1 && sent == old(sent) + [GetWorkflows(WorkflowQuery(page, search))]
      ensures old(page) != old(totalPages) ==> Shown() == Fetched(old(Shown()), reply)
    {
      if page == totalPages {
        return;
      }
      page := page + 1;
      FetchWorkflows(page, search, reply);
    }
  }
}
