/** The private-folder page: one page of ten of the user's own private
    prompts, by name, with a guarded pager. */
module MyFolder {
  import opened Common

  datatype MyFolderRequest = GetPrompts(params: Params)

  /** The prompt query: always private prompts created by the user, by name,
      ten to a page. */
  function MyFolderQuery(organization: Id, page: int): (r: Params)
    ensures r.Keys == {"organization_id", "visibility", "created_by", "ordering", "page", "page_size"}
    ensures r["visibility"] == Str(PRIVATE) && r["created_by"] == Str("me") && r["ordering"] == Str("name")
    ensures r["organization_id"] == Str(organization) && r["page"] == Num(page) && r["page_size"] == Num(PageSize)
  {
    map["organization_id" := Str(organization), "visibility" := Str(PRIVATE), "created_by" := Str("me"),
        "ordering" := Str("name"), "page" := Num(page), "page_size" := Num(PageSize)]
  }

  /** `handlePageChange(n)` accepts `n` exactly when it is a page. */
  predicate AcceptsPage(n: int, totalPages: nat) {
    1 <= n <= totalPages
  }

  /** What the page shows: its prompts, its page count and its error. */
  datatype Listing = Listing(rows: seq<PromptRef>, pages: nat, error: string)

  /** The listing after one answer: a paginated answer gives its rows and
      `ceil(count / 10)` pages, a bare array its rows with the page count
      kept, and a failure keeps both and sets the error. */
  function Fetched(before: Listing, reply: Reply<ListResponse<PromptRef>>): Listing {
    match reply
    case Ok(Paginated(count, results)) => Listing(results, Pages(count), before.error)
    case Ok(Bare(items)) => before.(rows := items)
    case Failed(_) => before.(error := "Failed to load prompts.")
  }

  class MyFolderPage {
    var prompts: seq<PromptRef>
    var error: string
    var page: int
    var totalPages: nat
    var organizationId: Option<Id>
    /** The requests sent so far, in order. */
    var sent: seq<MyFolderRequest>

    ghost predicate Valid()
      reads this
    {
      page >= 1
    }

    function Shown(): Listing
      reads this
    {
      Listing(prompts, totalPages, error)
    }

    /** The request the fetch effect sends: none until an organisation is
        known, otherwise the current page. */
    function PromptsRequest(): (r: seq<MyFolderRequest>)
      reads this
      ensures r == [] <==> !Known(organizationId)
      ensures r != [] ==> r == [GetPrompts(MyFolderQuery(organizationId.value, page))]
    {
      if Known(organizationId) then [GetPrompts(MyFolderQuery(organizationId.value, page))] else []
    }

    /** The state the fetch effect leaves from the listing `before`. */
    ghost predicate Refetched(before: Listing, reply: Reply<ListResponse<PromptRef>>)
      reads this
    {
      Shown() == if Known(organizationId) then Fetched(before, reply) else before
    }

    constructor ()
      ensures Valid()
      ensures prompts == [] && error == "" && page == 1 && totalPages == 1 && organizationId.None? && sent == []
    {
      prompts := [];
      error := "";
      page := 1;
      totalPages := 1;
      organizationId := None;
      sent := [];
    }

    /** The fetch effect: it runs only once an organisation is known; a
        paginated answer gives its rows and `ceil(count / 10)` pages, a bare
        array its rows with the page count left as it was. */
    method FetchData(reply: Reply<ListResponse<PromptRef>>)
      modifies this`prompts, this`totalPages, this`error, this`sent
      ensures !Known(organizationId) ==> unchanged(this)
      ensures Known(organizationId) ==> sent == old(sent) + [GetPrompts(MyFolderQuery(organizationId.value, page))]
      ensures Known(organizationId) && reply.Ok? ==> prompts == Rows(reply.value) && error == old(error)
      ensures Known(organizationId) && reply.Ok? && reply.value.Paginated? ==> totalPages == Pages(reply.value.count)
      ensures Known(organizationId) && reply.Ok? && reply.value.Bare? ==> totalPages == old(totalPages)
      ensures Known(organizationId) && reply.Failed? ==>
        prompts == old(prompts) && totalPages == old(totalPages) && error == "Failed to load prompts."
      ensures sent == old(sent) + PromptsRequest() && Refetched(old(Shown()), reply)
    {
      if !Known(organizationId) {
        return;
      }
      sent := sent + [GetPrompts(MyFolderQuery(organizationId.value, page))];
      match reply {
        case Ok(Paginated(count, results)) =>
          prompts := results;
          totalPages := Pages(count);
        case Ok(Bare(items)) =>
          prompts := items;
        case Failed(_) =>
          error := "Failed to load prompts.";
      }
    }

    /** The mount effect: the first organisation becomes current, which runs
        the fetch; a failure is only logged. */
    method Init(orgs: Reply<seq<Id>>, reply: Reply<ListResponse<PromptRef>>)
      modifies this`organizationId, this`prompts, this`totalPages, this`error, this`sent
      ensures orgs.Failed? || orgs.value == [] ==> unchanged(this)
      ensures orgs.Ok? && orgs.value != [] ==> organizationId == Some(orgs.value[0])
      ensures orgs.Ok? && orgs.value != [] && orgs.value[0] != "" ==>
        sent == old(sent) + [GetPrompts(MyFolderQuery(orgs.value[0], page))]
      ensures orgs.Ok? && orgs.value != [] ==> sent == old(sent) + PromptsRequest() && Refetched(old(Shown()), reply)
    {
      if orgs.Ok? && orgs.value != [] {
        organizationId := Some(orgs.value[0]);
        FetchData(reply);
      }
    }

    /** `handlePageChange(n)`: a page outside `[1, totalPages]` changes
        nothing; otherwise it becomes current, and the effect fetches it when
        it differs from the current one. */
    method ChangePage(n: int, reply: Reply<ListResponse<PromptRef>>)
      requires Valid()
      modifies this`page, this`prompts, this`totalPages, this`error, this`sent
      ensures Valid()
      ensures !AcceptsPage(n, old(totalPages)) || n == old(page) ==> unchanged(this)
      ensures AcceptsPage(n, old(totalPages)) ==> page == n && 1 <= page <= old(totalPages)
      ensures AcceptsPage(n, old(totalPages)) && n != old(page) && Known(organizationId) ==>
        sent == old(sent) + [GetPrompts(MyFolderQuery(organizationId.value, n))]
      ensures AcceptsPage(n, old(totalPages)) && n != old(page) ==>
        sent == old(sent) + PromptsRequest() && Refetched(old(Shown()), reply)
    {
      if !AcceptsPage(n, totalPages) || n == page {
        return;
      }
      page := n;
      FetchData(reply);
    }

    /** The pager buttons, shown with more than one page: Previous is
        disabled on page 1 and Next on the last page, and both go through
        `handlePageChange`. */
    method PreviousPage(reply: Reply<ListResponse<PromptRef>>)
      requires Valid() && totalPages > 1
      modifies this`page, this`prompts, this`totalPages, this`error, this`sent
      ensures Valid()
      ensures old(page) == 1 || old(page) - 1 > old(totalPages) ==> unchanged(this)
      ensures old(page) != 1 && old(page) - 1 <= old(totalPages) ==>
        page == old(page) - 1 && sent == old(sent) + PromptsRequest() && Refetched(old(Shown()), reply)
    {
      if page == 1 {
        return;
      }
      ChangePage(page - 1, reply);
    }

    method NextPage(reply: Reply<ListResponse<PromptRef>>)
      requires Valid() && totalPages > 1
      modifies this`page, this`prompts, this`totalPages, this`error, this`sent
      ensures Valid()
      ensures old(page) >= old(totalPages) ==> unchanged(this)
      ensures old(page) < old(totalPages) ==>
        page == old(page) + 1 && page <= old(totalPages)
        && sent == old(sent) + PromptsRequest() && Refetched(old(Shown()), reply)
    {
      if page == totalPages {
        return;
      }
      ChangePage(page + 1, reply);
    }
  }
}
