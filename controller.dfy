/** The list-state controller of the contacts page: the component state the
    handlers update in place. Fetches are not run here; a fetch's outcome is handed
    to `ApplyListResponse` / `ApplyStatsResponse`, and every start of a fetch of the
    list and the stats is counted in `refreshes`: the direct calls of the retry
    button and the deletes, and the runs of the fetch effect, which fires on mount
    and whenever the page, the page size, the search text or the filters change.
    Every such start sets `loading` and clears the banner; while `loading` holds
    the page renders only a skeleton, so no click handler can run until a list
    response settles. Confirmation dialogs and the success of API calls are
    parameters of the handlers. */
module Controller {
  import opened Json
  import opened Wrappers
  import opened Query
  import opened Normalize
  import opened Paging
  import opened Selection

  /** The error banner's text when a failed list fetch has no message. */
  const LoadFailed := "فشل تحميل جهات الاتصال"

  /** The alert's text when a failed single delete has no message. */
  const DeleteFailed := "فشل حذف جهة الاتصال"

  /** The alert's text when a failed bulk delete has no message. */
  const BulkDeleteFailed := "فشل حذف جهات الاتصال"

  /** The alert's text when a failed export has no message. */
  const ExportFailed := "فشل تصدير جهات الاتصال"

  /** `err.message || fallback`. */
  function MessageOr(message: string, fallback: string): (r: string)
    ensures message != "" ==> r == message
    ensures message == "" ==> r == fallback
  {
    if message != "" then message else fallback
  }

  /** The fetch-effect runs that follow a change of the search text, the filters or
      the page size made on page `page`: one run at once, still on the old page, and,
      when the reset effect then moves the page to 1, a second run for page 1. */
  function RunsAfterReset(page: int): (n: nat)
    ensures 1 <= n <= 2
    ensures n == 2 <==> page != 1
  {
    if page != 1 then 2 else 1
  }

  class ContactsPage {
    var contacts: seq<Contact>
    var stats: Stats
    var selectedContacts: seq<Value>
    var selectAll: bool
    var loading: bool
    var error: Option<string>
    var searchQuery: string
    var filters: Filters
    var currentPage: int
    var rowsPerPage: int
    var totalCount: int
    var activeDropdown: Option<Value>
    /** How many list-and-stats refreshes have been started. */
    var refreshes: nat

    /** The page is at least 1, the page size is one the buttons offer, and the
        filters are at their defaults: only "Clear All" ever writes them. */
    ghost predicate Valid()
      reads this
    {
      currentPage >= 1 && rowsPerPage in PageSizes && filters == DefaultFilters
    }

    /** The initial state of the component. */
    constructor ()
      ensures Valid()
      ensures contacts == [] && stats == ZeroStats && selectedContacts == [] && !selectAll
      ensures loading && error == None && searchQuery == "" && filters == DefaultFilters
      ensures currentPage == 1 && rowsPerPage == 50 && totalCount == 0
      ensures activeDropdown == None && refreshes == 1
    {
      contacts := [];
      stats := ZeroStats;
      selectedContacts := [];
      selectAll := false;
      loading := true;
      error := None;
      searchQuery := "";
      filters := DefaultFilters;
      currentPage := 1;
      rowsPerPage := 50;
      totalCount := 0;
      activeDropdown := None;
      // the fetch effect runs once on mount; the page-reset effect sets the page
      // to the 1 it already is, so nothing more happens
      refreshes := 1;
    }

    /** The number of pages of the current result: just enough pages of
        `rowsPerPage` rows to hold `totalCount`, and none when there is nothing. */
    function PageCount(): (n: int)
      reads this
      requires Valid()
      ensures totalCount <= n * rowsPerPage && (n - 1) * rowsPerPage < totalCount
      ensures n >= 1 <==> totalCount >= 1
    {
      TotalPagesBounds(totalCount, rowsPerPage);
      TotalPages(totalCount, rowsPerPage)
    }

    /** `n` list-and-stats refreshes start: each `fetchContacts` run sets the
        loading flag and clears the banner before it sends its request. */
    method StartRefreshes(n: nat)
      modifies this`refreshes, this`loading, this`error
      ensures refreshes == old(refreshes) + n
      ensures loading == (old(loading) || n > 0)
      ensures error == if n > 0 then None else old(error)
    {
      if n > 0 {
        refreshes := refreshes + n;
        loading := true;
        error := None;
      }
    }

    /** `fetchContacts`' request parameters, from the current state. Since the
        filters are always at their defaults, only the page, the limit and possibly
        the search text are ever sent. */
    method FetchParams() returns (params: Params)
      requires Valid()
      ensures IsListQuery(params, Text.Trim(searchQuery), filters, currentPage, rowsPerPage)
      ensures params.Keys <= {Page, Limit, Search}
    {
      params := ListRequestParams(searchQuery, filters, currentPage, rowsPerPage);
      DefaultFiltersSendNoFilter(params, searchQuery, currentPage, rowsPerPage);
    }

    /** `handleExport`: the export request, and the alert shown when it fails. */
    method Export(succeeded: bool, message: string) returns (request: Params, alert: Option<string>)
      requires !loading
      ensures request == ExportQuery(filters)
      ensures request.Keys == {Source, Temperature}
      ensures alert == if succeeded then None else Some(MessageOr(message, ExportFailed))
    {
      request := ExportQuery(filters);
      alert := if succeeded then None else Some(MessageOr(message, ExportFailed));
    }

    /** The state effects of `fetchContacts` once its request has settled: the
        loading flag drops; on a response that normalises, the contacts and the
        total are replaced and the banner (cleared when the fetch started) is left
        alone; on a thrown error (`outcome` is `Err` with its message, or the
        response cannot be normalised) the banner shows the message and the
        contacts and total stay. */
    method ApplyListResponse(outcome: Result<Value>)
      requires Valid()
      requires outcome.Ok? && NormalizeList(outcome.value).Ok? ==> NormalizeList(outcome.value).value.total.Num?
      modifies this`contacts, this`totalCount, this`error, this`loading
      ensures Valid()
      ensures !loading
      ensures outcome.Ok? && NormalizeList(outcome.value).Ok? ==>
        var l := NormalizeList(outcome.value).value;
        contacts == l.contacts && totalCount == l.total.n && error == old(error)
      ensures outcome.Err? ==>
        contacts == old(contacts) && totalCount == old(totalCount) && error == Some(MessageOr(outcome.error, LoadFailed))
      ensures outcome.Ok? && NormalizeList(outcome.value).Err? ==>
        contacts == old(contacts) && totalCount == old(totalCount)
        && error == Some(MessageOr(NormalizeList(outcome.value).error, LoadFailed))
    {
      loading := false;
      match outcome
      case Err(message) =>
        error := Some(MessageOr(message, LoadFailed));
      case Ok(response) =>
        match NormalizeList(response)
        case Err(message) =>
          error := Some(MessageOr(message, LoadFailed));
        case Ok(listing) =>
          contacts := listing.contacts;
          totalCount := listing.total.n;
    }

    /** The state effects of `fetchStats`: the counters are replaced when the
        response normalises; a failure is only logged. */
    method ApplyStatsResponse(outcome: Result<Value>)
      modifies this`stats
      ensures outcome.Ok? && NormalizeStats(outcome.value).Ok? ==> stats == NormalizeStats(outcome.value).value
      ensures !(outcome.Ok? && NormalizeStats(outcome.value).Ok?) ==> stats == old(stats)
    {
      if outcome.Ok? {
        var s := NormalizeStats(outcome.value);
        if s.Ok? {
          stats := s.value;
        }
      }
    }

    /** The error banner's retry button, shown only while the banner is: refresh the
        list and the stats. */
    method Retry()
      requires !loading && error.Some?
      modifies this`refreshes, this`loading, this`error
      ensures refreshes == old(refreshes) + 1
      ensures loading && error == None
    {
      StartRefreshes(1);
    }

    /** `handleSelectContact`: deselect `id` (every occurrence) if it is selected,
        otherwise append it. */
    method SelectContact(id: Value)
      requires !loading
      modifies this`selectedContacts
      ensures selectedContacts == Toggled(old(selectedContacts), id)
      ensures id in selectedContacts <==> id !in old(selectedContacts)
      ensures forall x :: x != id ==> (x in selectedContacts <==> x in old(selectedContacts))
      ensures NoDup(old(selectedContacts)) ==> NoDup(selectedContacts)
    {
      if id in selectedContacts {
        selectedContacts := RemoveAll(selectedContacts, id);
      } else {
        selectedContacts := selectedContacts + [id];
      }
      ToggledMembership(old(selectedContacts), id);
      if NoDup(old(selectedContacts)) {
        ToggleKeepsNoDup(old(selectedContacts), id);
      }
    }

    /** `handleSelectAll`: select exactly the loaded page's ids when "all" was not
        selected, select nothing when it was, and flip the flag. */
    method SelectAll()
      requires !loading
      modifies this`selectedContacts, this`selectAll
      ensures selectAll == !old(selectAll)
      ensures old(selectAll) ==> selectedContacts == []
      ensures !old(selectAll) ==> selectedContacts == Ids(contacts)
      ensures !old(selectAll) ==> forall x :: x in selectedContacts <==> exists i :: 0 <= i < |contacts| && contacts[i].id == x
    {
      if selectAll {
        selectedContacts := [];
      } else {
        selectedContacts := Ids(contacts);
        forall x ensures x in selectedContacts <==> exists i :: 0 <= i < |contacts| && contacts[i].id == x {
          IdsAreLoaded(contacts, x);
        }
      }
      selectAll := !selectAll;
    }

    /** The bulk bar's Cancel button, shown while something is selected. */
    method CancelSelection()
      requires !loading && |selectedContacts| > 0
      modifies this`selectedContacts, this`selectAll
      ensures selectedContacts == [] && !selectAll
    {
      selectedContacts := [];
      selectAll := false;
    }

    /** A row's menu button: close the menu if it is open for this row, otherwise
        open it for this row (closing any other). */
    method ToggleDropdown(id: Value)
      requires !loading
      modifies this`activeDropdown
      ensures activeDropdown == ToggledDropdown(old(activeDropdown), id)
      ensures activeDropdown == None <==> old(activeDropdown) == Some(id)
    {
      activeDropdown := ToggledDropdown(activeDropdown, id);
    }

    /** `handleDeleteContact`: nothing happens unless confirmed; a successful delete
        closes the menu and refreshes; a failed one only alerts. The selection is
        left as it is either way. */
    method DeleteContact(id: Value, confirmed: bool, succeeded: bool, message: string) returns (alert: Option<string>)
      requires !loading
      modifies this`activeDropdown, this`refreshes, this`loading, this`error
      ensures confirmed && succeeded ==>
        activeDropdown == None && refreshes == old(refreshes) + 1 && loading && error == None
      ensures !(confirmed && succeeded) ==>
        activeDropdown == old(activeDropdown) && refreshes == old(refreshes) && !loading && error == old(error)
      ensures alert == if confirmed && !succeeded then Some(MessageOr(message, DeleteFailed)) else None
    {
      alert := None;
      if !confirmed {
        return;
      }
      if succeeded {
        activeDropdown := None;
        StartRefreshes(1);
      } else {
        alert := Some(MessageOr(message, DeleteFailed));
      }
    }

    /** `handleBulkDelete`, reachable only from the bulk bar, which is shown while
        something is selected: nothing happens unless confirmed; the request carries
        the whole selection; on success the selection is emptied, "all" cleared and
        the page refreshed; on failure only an alert is shown. */
    method BulkDelete(confirmed: bool, succeeded: bool, message: string) returns (request: Option<seq<Value>>, alert: Option<string>)
      requires !loading && |selectedContacts| > 0
      modifies this`selectedContacts, this`selectAll, this`refreshes, this`loading, this`error
      ensures request == if confirmed then Some(old(selectedContacts)) else None
      ensures confirmed && succeeded ==>
        selectedContacts == [] && !selectAll && refreshes == old(refreshes) + 1 && loading && error == None
      ensures !(confirmed && succeeded) ==>
        selectedContacts == old(selectedContacts) && selectAll == old(selectAll) && refreshes == old(refreshes)
        && !loading && error == old(error)
      ensures alert == if confirmed && !succeeded then Some(MessageOr(message, BulkDeleteFailed)) else None
    {
      request, alert := None, None;
      if !confirmed {
        return;
      }
      request := Some(selectedContacts);
      if succeeded {
        selectedContacts := [];
        selectAll := false;
        StartRefreshes(1);
      } else {
        alert := Some(MessageOr(message, BulkDeleteFailed));
      }
    }

    /** The Previous button: `Math.max(1, p - 1)`. A page that changes makes the
        fetch effect run; on page 1 the page stays and nothing is fetched. */
    method PreviousPage()
      requires Valid() && !loading
      modifies this`currentPage, this`refreshes, this`loading, this`error
      ensures Valid()
      ensures currentPage == if old(currentPage) > 1 then old(currentPage) - 1 else 1
      ensures refreshes == if old(currentPage) > 1 then old(refreshes) + 1 else old(refreshes)
      ensures loading == (old(currentPage) > 1)
      ensures error == if old(currentPage) > 1 then None else old(error)
    {
      var p := Paging.PreviousPage(currentPage);
      if p != currentPage {
        currentPage := p;
        StartRefreshes(1);
      }
    }

    /** The Next button, live only while `currentPage < totalPages`:
        `Math.min(totalPages, p + 1)`. */
    method NextPage()
      requires Valid() && !loading && NextEnabled(currentPage, PageCount())
      modifies this`currentPage, this`refreshes, this`loading, this`error
      ensures Valid()
      ensures currentPage == old(currentPage) + 1 && currentPage <= PageCount()
      ensures refreshes == old(refreshes) + 1 && loading && error == None
    {
      currentPage := Paging.NextPage(currentPage, TotalPages(totalCount, rowsPerPage));
      StartRefreshes(1);
    }

    /** The button labelled with the following page number, shown while
        `totalPages > 1 && currentPage < totalPages`. */
    method FollowingPage()
      requires Valid() && !loading && FollowingNumberShown(currentPage, PageCount())
      modifies this`currentPage, this`refreshes, this`loading, this`error
      ensures Valid()
      ensures currentPage == old(currentPage) + 1 && currentPage <= PageCount()
      ensures refreshes == old(refreshes) + 1 && loading && error == None
    {
      currentPage := currentPage + 1;
      StartRefreshes(1);
    }

    /** A page-size button. The page resets to 1 when the size changes, with the
        fetches that follow (setting the same size changes nothing, so neither
        effect runs). */
    method SetRowsPerPage(size: int)
      requires Valid() && !loading && size in PageSizes
      modifies this`rowsPerPage, this`currentPage, this`refreshes, this`loading, this`error
      ensures Valid()
      ensures rowsPerPage == size
      ensures currentPage == if size != old(rowsPerPage) then 1 else old(currentPage)
      ensures refreshes == old(refreshes) + if size != old(rowsPerPage) then RunsAfterReset(old(currentPage)) else 0
      ensures loading == (size != old(rowsPerPage))
      ensures error == if size != old(rowsPerPage) then None else old(error)
    {
      if size != rowsPerPage {
        StartRefreshes(RunsAfterReset(currentPage));
        rowsPerPage := size;
        currentPage := 1;
      }
    }

    /** The search box. The page resets to 1 when the text changes, with the
        fetches that follow. */
    method SetSearch(text: string)
      requires Valid() && !loading
      modifies this`searchQuery, this`currentPage, this`refreshes, this`loading, this`error
      ensures Valid()
      ensures searchQuery == text
      ensures currentPage == if text != old(searchQuery) then 1 else old(currentPage)
      ensures refreshes == old(refreshes) + if text != old(searchQuery) then RunsAfterReset(old(currentPage)) else 0
      ensures loading == (text != old(searchQuery))
      ensures error == if text != old(searchQuery) then None else old(error)
    {
      if text != searchQuery {
        StartRefreshes(RunsAfterReset(currentPage));
        searchQuery := text;
        currentPage := 1;
      }
    }

    /** "Clear All": the filters return to their defaults; a new filter object is
        always set, so the fetch effect always runs and the page always resets to 1. */
    method ClearFilters()
      requires Valid() && !loading
      modifies this`filters, this`currentPage, this`refreshes, this`loading, this`error
      ensures Valid()
      ensures filters == DefaultFilters && currentPage == 1
      ensures refreshes == old(refreshes) + RunsAfterReset(old(currentPage))
      ensures loading && error == None
    {
      StartRefreshes(RunsAfterReset(currentPage));
      filters := DefaultFilters;
      currentPage := 1;
    }
  }

  /** Two records of one response get the same id when one carries an explicit `_id`
      equal to the 1-based position of another that has neither `_id` nor `id`: the
      second falls back to its position, which the first already claims. The loaded
      ids are then not distinct, and one open menu shows on both rows. */
  lemma PositionalIdClash(response: Value, i: nat, j: nat)
    requires NormalizeList(response).Ok?
    requires i != j && i < |ContactArray(response).value| && j < |ContactArray(response).value|
    requires Prop(ContactArray(response).value[i], "_id") == Num(j + 1)
    requires !Truthy(Prop(ContactArray(response).value[j], "_id")) && !Truthy(Prop(ContactArray(response).value[j], "id"))
    ensures var cs := NormalizeList(response).value.contacts;
      && cs[i].id == Num(j + 1) && cs[j].id == Num(j + 1)
      && !NoDup(Ids(cs))
      && MenuOpen(cs, Some(Num(j + 1)), i) && MenuOpen(cs, Some(Num(j + 1)), j)
  {
    var records := ContactArray(response).value;
    var cs := NormalizeList(response).value.contacts;
    assert cs[i] == ToContact(records[i], i);
    assert cs[j] == ToContact(records[j], j);
    assert Ids(cs)[i] == Ids(cs)[j];
  }
}
