/** The public-folder browser: a current folder with its breadcrumb trail,
    a listing of that folder's subfolders followed by one page of its
    prompts, and the create-folder, move and delete actions. */
module PublicFolder {
  import opened Common

  /** A listed row, tagged with its kind as the page tags it. */
  datatype Item = FolderItem(folder: FolderRow) | PromptItem(prompt: PromptRef)

  function ItemId(item: Item): Id {
    match item
    case FolderItem(f) => f.id
    case PromptItem(p) => p.id
  }

  /** The requests the page sends. The two listing requests name the
      folder they list; `QueryOf` gives their query parameters. */
  datatype FolderPageRequest =
    | GetFolders(organization: Id, folder: Option<Id>)
    | GetPrompts(organization: Id, folder: Option<Id>, page: int)
    | GetAllFolders(organization: Id)
    | CreateFolder(name: string, organization: Id, kind: string, parent: Option<Id>)
    | MoveFolder(id: Id, parent: Option<Id>)
    | MovePrompt(id: Id, folder: Option<Id>)
    | DeleteFolder(id: Id)
    | DeletePrompt(id: Id)

  /** The request that moves an item: a folder's parent or a prompt's
      folder becomes the destination. */
  function MoveRequest(item: Item, destination: Option<Id>): FolderPageRequest {
    match item
    case FolderItem(f) => MoveFolder(f.id, destination)
    case PromptItem(p) => MovePrompt(p.id, destination)
  }

  /** The request that deletes an item, by its kind. */
  function DeleteRequest(item: Item): FolderPageRequest {
    match item
    case FolderItem(f) => DeleteFolder(f.id)
    case PromptItem(p) => DeletePrompt(p.id)
  }

  /** The subfolder query: at the root `parent_id` is empty and `root_only`
      is added; inside a folder `parent_id` is that folder. */
  function FolderQuery(organization: Id, current: Option<Id>): (r: Params)
    ensures "root_only" in r <==> !Known(current)
    ensures "root_only" in r ==> r["root_only"] == Str("true")
    ensures r.Keys == {"organization_id", "type", "parent_id"} + (if Known(current) then {} else {"root_only"})
    ensures r["organization_id"] == Str(organization) && r["type"] == Str(PUBLIC)
    ensures r["parent_id"] == Str(if Known(current) then current.value else "")
  {
    var params := map[
      "organization_id" := Str(organization),
      "type" := Str(PUBLIC),
      "parent_id" := Str(if Known(current) then current.value else "")];
    if !Known(current) then params["root_only" := Str("true")] else params
  }

  /** The prompt query: one page of ten public prompts by name, of the
      current folder, or of the `'root'` sentinel at the root. */
  function PromptQuery(organization: Id, current: Option<Id>, page: int): (r: Params)
    ensures r.Keys == {"organization_id", "visibility", "folder_id", "ordering", "page", "page_size"}
    ensures r["folder_id"] == Str(if Known(current) then current.value else "root")
    ensures r["organization_id"] == Str(organization) && r["visibility"] == Str(PUBLIC)
    ensures r["ordering"] == Str("name") && r["page"] == Num(page) && r["page_size"] == Num(PageSize)
  {
    map[
      "organization_id" := Str(organization),
      "visibility" := Str(PUBLIC),
      "folder_id" := Str(if Known(current) then current.value else "root"),
      "ordering" := Str("name"),
      "page" := Num(page),
      "page_size" := Num(PageSize)]
  }

  /** The query parameters of a listing request. */
  function QueryOf(req: FolderPageRequest): Option<Params> {
    match req
    case GetFolders(organization, folder) => Some(FolderQuery(organization, folder))
    case GetPrompts(organization, folder, page) => Some(PromptQuery(organization, folder, page))
    case _ => None
  }

  /** The listing: every folder, tagged, then every prompt, tagged, each in
      the order returned. */
  function CombinedItems(folders: seq<FolderRow>, prompts: seq<PromptRef>): (r: seq<Item>)
    ensures |r| == |folders| + |prompts|
    ensures forall k :: 0 <= k < |folders| ==> r[k] == FolderItem(folders[k])
    ensures forall k :: 0 <= k < |prompts| ==> r[|folders| + k] == PromptItem(prompts[k])
  {
    seq(|folders|, k requires 0 <= k < |folders| => FolderItem(folders[k]))
      + seq(|prompts|, k requires 0 <= k < |prompts| => PromptItem(prompts[k]))
  }

  /** The chosen destination: the `'root'` option means no parent. */
  function MoveDestination(target: string): (r: Option<Id>)
    ensures r.None? <==> target == "root"
    ensures r.Some? ==> r.value == target
  {
    if target == "root" then None else Some(target)
  }

  /** The destination list of the move dialog: every folder except the item
      being moved. */
  function DestinationFolders(all: seq<FolderRow>, moving: Option<Item>): (r: seq<FolderRow>)
    ensures forall f :: f in r <==> f in all && !(moving.Some? && f.id == ItemId(moving.value))
    ensures moving.None? ==> r == all
  {
    FilterSpec(all, (f: FolderRow) => !(moving.Some? && f.id == ItemId(moving.value)));
    Filter(all, (f: FolderRow) => !(moving.Some? && f.id == ItemId(moving.value)))
  }

  /** The breadcrumb trail that a click on crumb `index` leaves: `-1` is
      the root. */
  function Truncated(crumbs: seq<FolderRow>, index: int): (r: seq<FolderRow>)
    requires -1 <= index < |crumbs|
    ensures |r| == index + 1 && r == crumbs[..index + 1]
  {
    crumbs[..index + 1]
  }

  class PublicFolderPage {
    var organizationId: Option<Id>
    /** `currentFolderId`: `None` is the root. */
    var currentFolder: Option<Id>
    var crumbs: seq<FolderRow>
    var page: int
    var totalPages: nat
    var items: seq<Item>
    var error: string
    var newFolderName: string
    var showCreateFolder: bool
    /** `itemToMove`, `targetFolderId`, `allFolders`, `showMoveModal`. */
    var moving: Option<Item>
    var target: string
    var allFolders: seq<FolderRow>
    var showMove: bool
    /** The requests sent so far, in order, and the alerts shown. */
    var sent: seq<FolderPageRequest>
    var alerts: seq<string>

    /** The navigator's invariant: the root exactly when the trail is empty,
        otherwise the last crumb is the current folder. */
    ghost predicate Valid()
      reads this
    {
      (currentFolder.None? <==> crumbs == [])
      && (crumbs != [] ==> currentFolder == Some(crumbs[|crumbs| - 1].id))
      && page >= 1
    }

    constructor ()
      ensures Valid()
      ensures organizationId.None? && currentFolder.None? && crumbs == [] && page == 1 && totalPages == 1
      ensures items == [] && error == "" && newFolderName == "" && !showCreateFolder
      ensures moving.None? && target == "" && allFolders == [] && !showMove && sent == [] && alerts == []
    {
      organizationId := None;
      currentFolder := None;
      crumbs := [];
      page := 1;
      totalPages := 1;
      items := [];
      error := "";
      newFolderName := "";
      showCreateFolder := false;
      moving := None;
      target := "";
      allFolders := [];
      showMove := false;
      sent := [];
      alerts := [];
    }

    /** `init`: the first organisation of the user becomes the current one. */
    method LoadOrganization(reply: Reply<seq<Id>>)
      modifies this`organizationId
      ensures reply.Ok? && reply.value != [] ==> organizationId == Some(reply.value[0])
      ensures reply.Failed? || reply.value == [] ==> organizationId == old(organizationId)
    {
      if reply.Ok? && reply.value != [] {
        organizationId := Some(reply.value[0]);
      }
    }

    /** The state `fetchData` leaves when it starts from the request log
        `sent0`, the listing `items0`, `pages0` pages and the error `error0`:
        unchanged without an organisation; otherwise the subfolder request,
        then (when it answers) the prompt request, and either the combined
        listing with its page count or the error message. */
    ghost predicate Refetched(sent0: seq<FolderPageRequest>, items0: seq<Item>, pages0: nat, error0: string,
                              folders: Reply<seq<FolderRow>>, prompts: Reply<ListResponse<PromptRef>>)
      reads this
    {
      if !Known(organizationId) then
        sent == sent0 && items == items0 && totalPages == pages0 && error == error0
      else if folders.Failed? then
        sent == sent0 + [GetFolders(organizationId.value, currentFolder)]
        && items == items0 && totalPages == pages0 && error == "Failed to load public folder."
      else
        sent == sent0 + [GetFolders(organizationId.value, currentFolder),
                         GetPrompts(organizationId.value, currentFolder, page)]
        && match prompts
           case Failed(_) =>
             items == items0 && totalPages == pages0 && error == "Failed to load public folder."
           case Ok(resp) =>
             items == CombinedItems(folders.value, Rows(resp)) && totalPages == TotalPagesOf(resp) && error == error0
    }

    /** `fetchData`: nothing without an organisation; otherwise the
        subfolders are requested, then the prompts, and the listing and the
        page count replace the old ones; a failure sets the error instead. */
    method FetchData(folders: Reply<seq<FolderRow>>, prompts: Reply<ListResponse<PromptRef>>)
      modifies this`sent, this`error, this`totalPages, this`items
      ensures !Known(organizationId) ==> unchanged(this)
      ensures Known(organizationId) && folders.Failed? ==>
        sent == old(sent) + [GetFolders(organizationId.value, currentFolder)]
        && error == "Failed to load public folder." && items == old(items) && totalPages == old(totalPages)
      ensures Known(organizationId) && folders.Ok? ==>
        sent == old(sent) + [GetFolders(organizationId.value, currentFolder),
                             GetPrompts(organizationId.value, currentFolder, page)]
      ensures Known(organizationId) && folders.Ok? && prompts.Failed? ==>
        error == "Failed to load public folder." && items == old(items) && totalPages == old(totalPages)
      ensures Known(organizationId) && folders.Ok? && prompts.Ok? ==>
        items == CombinedItems(folders.value, Rows(prompts.value))
        && totalPages == TotalPagesOf(prompts.value) && error == old(error)
      ensures Refetched(old(sent), old(items), old(totalPages), old(error), folders, prompts)
    {
      if !Known(organizationId) {
        return;
      }
      sent := sent + [GetFolders(organizationId.value, currentFolder)];
      if folders.Failed? {
        error := "Failed to load public folder.";
        return;
      }
      sent := sent + [GetPrompts(organizationId.value, currentFolder, page)];
      match prompts {
        case Failed(_) =>
          error := "Failed to load public folder.";
        case Ok(resp) =>
          totalPages := TotalPagesOf(resp);
          items := CombinedItems(folders.value, Rows(resp));
      }
    }

    /** `handleFolderClick`: enter the folder, push it on the trail, back to
        page 1. */
    method FolderClick(folder: FolderRow)
      requires Valid()
      modifies this`currentFolder, this`crumbs, this`page
      ensures Valid()
      ensures currentFolder == Some(folder.id) && crumbs == old(crumbs) + [folder] && page == 1
    {
      currentFolder := Some(folder.id);
      crumbs := crumbs + [folder];
      page := 1;
    }

    /** `handleBreadcrumbClick(index)`: `-1` goes to the root and empties the
        trail; crumb `index` keeps the first `index + 1` crumbs and enters the
        last of them. Either way the page goes back to 1. The trail renders
        only existing crumbs, so `index` is one of them or `-1`. */
    method BreadcrumbClick(index: int)
      requires Valid() && -1 <= index < |crumbs|
      modifies this`currentFolder, this`crumbs, this`page
      ensures Valid()
      ensures crumbs == Truncated(old(crumbs), index) && page == 1
      ensures index == -1 ==> currentFolder.None? && crumbs == []
      ensures index >= 0 ==> currentFolder == Some(old(crumbs)[index].id)
    {
      if index == -1 {
        currentFolder := None;
        crumbs := [];
      } else {
        var kept := Truncated(crumbs, index);
        currentFolder := Some(kept[|kept| - 1].id);
        crumbs := kept;
      }
      page := 1;
    }

    method SetNewFolderName(value: string)
      modifies this`newFolderName
      ensures newFolderName == value
    {
      newFolderName := value;
    }

    /** `handleCreateFolder`: nothing for a blank name or without an
        organisation; otherwise a public folder is created under the current
        folder (no parent at the root), then the dialog closes and the
        listing is fetched again. */
    method CreateFolderAction(reply: Reply<()>, folders: Reply<seq<FolderRow>>, prompts: Reply<ListResponse<PromptRef>>)
      modifies this`newFolderName, this`showCreateFolder, this`alerts, this`sent, this`error, this`totalPages, this`items
      ensures IsBlank(old(newFolderName)) || !Known(organizationId) ==> unchanged(this)
      ensures !IsBlank(old(newFolderName)) && Known(organizationId) ==>
        |sent| > |old(sent)|
        && sent[|old(sent)|] == CreateFolder(old(newFolderName), organizationId.value, PUBLIC, currentFolder)
      ensures !IsBlank(old(newFolderName)) && Known(organizationId) && reply.Ok? ==>
        newFolderName == "" && !showCreateFolder && alerts == old(alerts)
        && Refetched(old(sent) + [CreateFolder(old(newFolderName), organizationId.value, PUBLIC, currentFolder)],
                     old(items), old(totalPages), old(error), folders, prompts)
      ensures !IsBlank(old(newFolderName)) && Known(organizationId) && reply.Failed? ==>
        sent == old(sent) + [CreateFolder(old(newFolderName), organizationId.value, PUBLIC, currentFolder)]
        && alerts == old(alerts) + ["Failed to create folder"]
        && newFolderName == old(newFolderName) && showCreateFolder == old(showCreateFolder)
        && items == old(items) && totalPages == old(totalPages) && error == old(error)
    {
      if IsBlank(newFolderName) || !Known(organizationId) {
        return;
      }
      sent := sent + [CreateFolder(newFolderName, organizationId.value, PUBLIC, currentFolder)];
      match reply {
        case Ok(_) =>
          newFolderName := "";
          showCreateFolder := false;
          FetchData(folders, prompts);
        case Failed(_) =>
          alerts := alerts + ["Failed to create folder"];
      }
    }

    /** `openMoveModal(item)`: the item is selected, the destination reset,
        every public folder of the organisation requested for the dialog,
        and the dialog shown. */
    method OpenMoveModal(item: Item, reply: Reply<seq<FolderRow>>)
      modifies this`moving, this`target, this`allFolders, this`showMove, this`sent
      ensures moving == Some(item) && target == "" && showMove
      ensures !Known(organizationId) ==> sent == old(sent) && allFolders == old(allFolders)
      ensures Known(organizationId) ==> sent == old(sent) + [GetAllFolders(organizationId.value)]
      ensures Known(organizationId) && reply.Ok? ==> allFolders == reply.value
      ensures Known(organizationId) && reply.Failed? ==> allFolders == old(allFolders)
    {
      moving := Some(item);
      target := "";
      if Known(organizationId) {
        sent := sent + [GetAllFolders(organizationId.value)];
        if reply.Ok? {
          allFolders := reply.value;
        }
      }
      showMove := true;
    }

    method SelectTarget(value: string)
      modifies this`target
      ensures target == value
    {
      target := value;
    }

    /** The folders the dialog offers as destinations. */
    function Destinations(): (r: seq<FolderRow>)
      reads this
      ensures forall f :: f in r <==> f in allFolders && !(moving.Some? && f.id == ItemId(moving.value))
    {
      DestinationFolders(allFolders, moving)
    }

    /** `handleMove`: nothing without a selected item; a folder may not
        become its own parent (an alert, no request); otherwise the folder's
        parent or the prompt's folder is set to the destination (`'root'`
        meaning none), the dialog closes and the listing is fetched again.
        The Move button is disabled while no destination is chosen. */
    method Move(reply: Reply<()>, folders: Reply<seq<FolderRow>>, prompts: Reply<ListResponse<PromptRef>>)
      requires target != ""
      modifies this`moving, this`showMove, this`alerts, this`sent, this`error, this`totalPages, this`items
      ensures old(moving).None? ==> unchanged(this)
      ensures old(moving).Some? && old(moving).value.FolderItem?
              && MoveDestination(target) == Some(ItemId(old(moving).value)) ==>
        alerts == old(alerts) + ["Cannot move a folder into itself."] && sent == old(sent)
        && moving == old(moving) && showMove == old(showMove)
      ensures old(moving).Some? && old(moving).value.FolderItem?
              && MoveDestination(target) != Some(ItemId(old(moving).value)) ==>
        |sent| > |old(sent)| && sent[|old(sent)|] == MoveFolder(ItemId(old(moving).value), MoveDestination(target))
      ensures old(moving).Some? && old(moving).value.PromptItem? ==>
        |sent| > |old(sent)| && sent[|old(sent)|] == MovePrompt(ItemId(old(moving).value), MoveDestination(target))
      ensures old(moving).Some? && |sent| > |old(sent)| && reply.Ok? ==>
        moving.None? && !showMove && alerts == old(alerts)
        && Refetched(old(sent) + [MoveRequest(old(moving).value, MoveDestination(target))],
                     old(items), old(totalPages), old(error), folders, prompts)
      ensures old(moving).Some? && |sent| > |old(sent)| && reply.Failed? ==>
        sent == old(sent) + [MoveRequest(old(moving).value, MoveDestination(target))]
        && alerts == old(alerts) + ["Move failed"]
        && moving == old(moving) && showMove == old(showMove)
        && items == old(items) && totalPages == old(totalPages) && error == old(error)
    {
      if moving.None? {
        return;
      }
      var item := moving.value;
      var destination := MoveDestination(target);
      if item.FolderItem? {
        if destination == Some(item.folder.id) {
          alerts := alerts + ["Cannot move a folder into itself."];
          return;
        }
        sent := sent + [MoveFolder(item.folder.id, destination)];
      } else {
        sent := sent + [MovePrompt(item.prompt.id, destination)];
      }
      match reply {
        case Ok(_) =>
          showMove := false;
          moving := None;
          FetchData(folders, prompts);
        case Failed(_) =>
          alerts := alerts + ["Move failed"];
      }
    }

    /** `handleDelete(item)`: after the confirmation dialog, the folder or
        prompt is deleted and the listing fetched again. */
    method Delete(item: Item, confirmed: bool, reply: Reply<()>,
                  folders: Reply<seq<FolderRow>>, prompts: Reply<ListResponse<PromptRef>>)
      modifies this`alerts, this`sent, this`error, this`totalPages, this`items
      ensures !confirmed ==> unchanged(this)
      ensures confirmed ==>
        |sent| > |old(sent)|
        && sent[|old(sent)|] == DeleteRequest(item)
      ensures confirmed && reply.Failed? ==>
        sent == old(sent) + [DeleteRequest(item)] && alerts == old(alerts) + ["Delete failed"]
        && items == old(items) && totalPages == old(totalPages) && error == old(error)
      ensures confirmed && reply.Ok? ==>
        alerts == old(alerts)
        && Refetched(old(sent) + [DeleteRequest(item)], old(items), old(totalPages), old(error), folders, prompts)
    {
      if !confirmed {
        return;
      }
      sent := sent + [DeleteRequest(item)];
      match reply {
        case Ok(_) =>
          FetchData(folders, prompts);
        case Failed(_) =>
          alerts := alerts + ["Delete failed"];
      }
    }

    /** The Previous button, shown only with more than one page: disabled on
        page 1; otherwise one page back, and the listing is fetched for it. */
    method PreviousPage(folders: Reply<seq<FolderRow>>, prompts: Reply<ListResponse<PromptRef>>)
      requires Valid() && totalPages > 1
      modifies this`page, this`sent, this`error, this`totalPages, this`items
      ensures Valid()
      ensures old(page) == 1 ==> unchanged(this)
      ensures old(page) != 1 ==>
        page == old(page) - 1
        && Refetched(old(sent), old(items), old(totalPages), old(error), folders, prompts)
    {
      if page == 1 {
        return;
      }
      page := page - 1;
      FetchData(folders, prompts);
    }

    /** The Next button, shown only with more than one page: disabled on the
        last page; otherwise one page on, and the listing is fetched for it. */
    method NextPage(folders: Reply<seq<FolderRow>>, prompts: Reply<ListResponse<PromptRef>>)
      requires Valid() && totalPages > 1
      modifies this`page, this`sent, this`error, this`totalPages, this`items
      ensures Valid()
      ensures old(page) == old(totalPages) ==> unchanged(this)
      ensures old(page) != old(totalPages) ==>
        page == old(page) + 1
        && Refetched(old(sent), old(items), old(totalPages), old(error), folders, prompts)
    {
      if page == totalPages {
        return;
      }
      page := page + 1;
      FetchData(folders, prompts);
    }
  }
}
