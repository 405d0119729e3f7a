/** The change-history panel that the edit-prompt and edit-workflow pages both
    carry: a collapsible list of history entries fetched ten to a page, a
    pager, and at most one entry expanded to show its snapshot. */
module History {
  import opened Common

  /** One history row; `snapshot` is the saved state of the prompt or workflow. */
  datatype Entry<S> = Entry(id: Id, snapshot: S)

  /** The row click: the clicked entry becomes the expanded one, unless it
      already was, in which case none is. */
  function ToggleExpanded(current: Option<Id>, clicked: Id): (r: Option<Id>)
    ensures r == Some(clicked) <==> current != Some(clicked)
    ensures r.None? <==> current == Some(clicked)
  {
    if current == Some(clicked) then None else Some(clicked)
  }

  /** Two clicks on the same row from a collapsed panel, or from that row
      expanded, change nothing; a click on another row moves the expansion. */
  lemma ToggleTwice(current: Option<Id>, clicked: Id, other: Id)
    requires current.None? || current == Some(clicked)
    requires other != clicked
    ensures ToggleExpanded(ToggleExpanded(current, clicked), clicked) == current
    ensures ToggleExpanded(Some(clicked), other) == Some(other)
  {
  }

  /** The pager buttons are rendered only while the panel is open, has rows
      and has more than one page. */
  predicate PagerShown(isOpen: bool, rows: nat, totalPages: nat) {
    isOpen && rows > 0 && totalPages > 1
  }

  class HistoryPanel<S> {
    /** `history`, `historyPage`, `historyTotalPages`, `isHistoryOpen`,
        `expandedHistoryId` of the page. */
    var entries: seq<Entry<S>>
    var page: int
    var totalPages: nat
    var isOpen: bool
    var expanded: Option<Id>
    /** The page numbers of the history requests sent so far, in order. */
    var requested: seq<int>

    ghost predicate Valid()
      reads this
    {
      page >= 1
    }

    constructor ()
      ensures Valid()
      ensures entries == [] && page == 1 && totalPages == 1 && !isOpen && expanded.None? && requested == []
    {
      entries := [];
      page := 1;
      totalPages := 1;
      isOpen := false;
      expanded := None;
      requested := [];
    }

    /** The rows and page count a history answer leaves, starting from the
        rows `entries0` and `pages0` pages: a paginated answer gives its rows
        and `ceil(count / 10)` pages, a bare array its rows and one page, and
        a failed request keeps both. */
    ghost predicate Shows(entries0: seq<Entry<S>>, pages0: nat, reply: Reply<ListResponse<Entry<S>>>)
      reads this
    {
      match reply
      case Ok(resp) => entries == Rows(resp) && totalPages == TotalPagesOf(resp)
      case Failed(_) => entries == entries0 && totalPages == pages0
    }

    /** `fetchHistory(p)`: one request for page `p` of ten; a paginated answer
        gives its rows and `ceil(count / 10)` pages, a bare array its rows and
        one page; a failed request leaves the panel as it was. */
    method Fetch(p: int, reply: Reply<ListResponse<Entry<S>>>)
      modifies this`entries, this`totalPages, this`requested
      ensures requested == old(requested) + [p]
      ensures reply.Failed? ==> entries == old(entries) && totalPages == old(totalPages)
      ensures reply.Ok? ==> entries == Rows(reply.value) && totalPages == TotalPagesOf(reply.value)
      ensures Shows(old(entries), old(totalPages), reply)
    {
      requested := requested + [p];
      match reply {
        case Ok(resp) =>
          entries := Rows(resp);
          totalPages := TotalPagesOf(resp);
        case Failed(_) =>
      }
    }

    /** The panel header: opening or closing the panel; opening it fetches the
        current page. */
    method ToggleOpen(reply: Reply<ListResponse<Entry<S>>>)
      requires Valid()
      modifies this`isOpen, this`entries, this`totalPages, this`requested
      ensures Valid()
      ensures isOpen == !old(isOpen)
      ensures !isOpen ==> requested == old(requested) && entries == old(entries) && totalPages == old(totalPages)
      ensures isOpen ==> requested == old(requested) + [page]
      ensures isOpen && reply.Ok? ==> entries == Rows(reply.value) && totalPages == TotalPagesOf(reply.value)
      ensures isOpen && reply.Failed? ==> entries == old(entries) && totalPages == old(totalPages)
    {
      isOpen := !isOpen;
      if isOpen {
        Fetch(page, reply);
      }
    }

    /** A click on row `id`: at most one row is expanded afterwards. */
    method ClickEntry(id: Id)
      modifies this`expanded
      ensures expanded == ToggleExpanded(old(expanded), id)
      ensures expanded.Some? ==> expanded.value == id
    {
      expanded := ToggleExpanded(expanded, id);
    }

    /** Previous: disabled on page 1; otherwise the page goes down by one and
        the open panel fetches it. */
    method PreviousPage(reply: Reply<ListResponse<Entry<S>>>)
      requires Valid() && PagerShown(isOpen, |entries|, totalPages)
      modifies this`page, this`entries, this`totalPages, this`requested
      ensures Valid()
      ensures old(page) == 1 ==>
        page == 1 && requested == old(requested) && entries == old(entries) && totalPages == old(totalPages)
      ensures old(page) != 1 ==> page == old(page) - 1 && requested == old(requested) + [page]
      ensures old(page) != 1 ==> Shows(old(entries), old(totalPages), reply)
    {
      if page != 1 {
        page := page - 1;
        Fetch(page, reply);
      }
    }

    /** Next: disabled on the last page; otherwise the page goes up by one and
        the open panel fetches it. */
    method NextPage(reply: Reply<ListResponse<Entry<S>>>)
      requires Valid() && PagerShown(isOpen, |entries|, totalPages)
      modifies this`page, this`entries, this`totalPages, this`requested
      ensures Valid()
      ensures old(page) == old(totalPages) ==>
        page == old(page) && requested == old(requested) && entries == old(entries) && totalPages == old(totalPages)
      ensures old(page) != old(totalPages) ==> page == old(page) + 1 && requested == old(requested) + [page]
      ensures old(page) < old(totalPages) ==> page <= old(totalPages)
      ensures old(page) != old(totalPages) ==> Shows(old(entries), old(totalPages), reply)
    {
      if page != totalPages {
        page := page + 1;
        Fetch(page, reply);
      }
    }
  }
}
