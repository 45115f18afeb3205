/** CatalogViewModel: the state behind the catalog window — the search text
    and the four filter selections, the page of families shown, the paging
    counters, the busy flag and the status line — and the operations that
    move it: loading the current page, searching, paging forwards and
    backwards, clearing the filters and the initial load of the filter lists.
    API responses are inputs and the dispatcher runs its work at once. */
module ViewModel {
  import opened Wrappers
  import opened Strings
  import opened Models
  import ApiClient

  /** The page size the view model always asks for. */
  const PageSize: int := 12

  const ErrorStatusPrefix: string := "Ошибка: "
  const FoundStatusPrefix: string := "Найдено: "
  const NothingFoundStatus: string := "Ничего не найдено"
  const LoadingDataStatus: string := "Загрузка данных..."
  const ReadyStatus: string := "Готово"

  const AllCategories: string := "Все категории"
  const AllSections: string := "Все разделы"
  const AllManufacturers: string := "Все производители"
  const AllVersions: string := "Все версии"

  /** The view model's fields, as one value. */
  datatype ViewState = ViewState(
    searchText: Option<string>,
    selectedCategory: Option<NamedRef>,
    selectedSection: Option<NamedRef>,
    selectedManufacturer: Option<NamedRef>,
    selectedRevitVersion: Option<NamedRef>,
    families: seq<FamilyItem>,
    categories: seq<NamedRef>,
    sections: seq<NamedRef>,
    manufacturers: seq<NamedRef>,
    revitVersions: seq<NamedRef>,
    currentPage: int,
    totalPages: int,
    totalCount: int,
    isLoading: bool,
    statusMessage: Option<string>)

  /** A freshly constructed view model: nothing selected, empty collections,
      page 1 of 0. */
  const InitialState: ViewState :=
    ViewState(None, None, None, None, None, [], [], [], [], [], 1, 0, 0, false, None)

  /** The paging invariant: the current page is never below 1. */
  predicate Valid(s: ViewState) {
    s.currentPage >= 1
  }

  // ---- the filter of a page request -------------------------------------------

  /** The Guid filter a selection contributes: none when nothing is selected
      and none for an "All…" entry, whose Id is Guid.Empty. */
  function FilterId(selection: Option<NamedRef>): (id: Option<Guid>)
    ensures id.Some? <==> selection.Some? && selection.value.id != EmptyGuid
    ensures id.Some? ==> id.value == selection.value.id
  {
    if selection.Some? && selection.value.id != EmptyGuid then Some(selection.value.id) else None
  }

  /** The FilterOptions LoadPageAsync sends: the search text as it is, the
      four selections through FilterId, the current page, a page of 12 and
      the default sort. */
  function Filter(s: ViewState): (f: FilterOptions)
    ensures f.search == s.searchText
    ensures f.categoryId == FilterId(s.selectedCategory) && f.sectionId == FilterId(s.selectedSection)
    ensures f.manufacturerId == FilterId(s.selectedManufacturer) && f.revitVersionId == FilterId(s.selectedRevitVersion)
    ensures f.page == s.currentPage && f.pageSize == PageSize
    ensures f.sortBy == DefaultFilter.sortBy && f.sortOrder == DefaultFilter.sortOrder
  {
    DefaultFilter.(
      search := s.searchText,
      categoryId := FilterId(s.selectedCategory),
      sectionId := FilterId(s.selectedSection),
      manufacturerId := FilterId(s.selectedManufacturer),
      revitVersionId := FilterId(s.selectedRevitVersion),
      page := s.currentPage,
      pageSize := PageSize)
  }

  // ---- loading a page ---------------------------------------------------------

  /** The status line after a successful load. */
  function FoundStatus(totalCount: int): string {
    if totalCount > 0 then FoundStatusPrefix + IntToString(totalCount) else NothingFoundStatus
  }

  /** The response carries a page with an item list. */
  predicate Delivers(response: Result<Option<PagedResult>>) {
    response.Ok? && response.value.Some? && response.value.value.items.Some?
  }

  /** The state after the family search produced `result`: a page replaces
      the families and the counters, a failure empties them, the status line
      reports either and the view model is no longer busy. */
  function AfterResult(s: ViewState, result: Result<PagedResult>): ViewState
    requires result.Ok? ==> result.value.items.Some?
  {
    match result
    case Ok(page) =>
      s.(families := page.items.value, totalPages := page.totalPages, totalCount := page.totalCount,
         statusMessage := Some(FoundStatus(page.totalCount)), isLoading := false)
    case Err(m) =>
      s.(families := [], totalPages := 0, totalCount := 0,
         statusMessage := Some(ErrorStatusPrefix + m), isLoading := false)
  }

  /** LoadPageAsync, for the response the family search receives. */
  function AfterLoad(s: ViewState, response: Result<Option<PagedResult>>): ViewState {
    AfterResult(s, ApiClient.FamiliesResult(response))
  }

  /** A load changes only the families, the counters, the status and the busy
      flag. A delivered page's items appear in order, with their URLs
      completed, and its counters are copied; the status is "Найдено: N" for
      a positive count and "Ничего не найдено" otherwise. Any failure leaves
      no families and zero counters, and the status carries the wrapped
      message. */
  lemma LoadPageSpec(s: ViewState, response: Result<Option<PagedResult>>)
    ensures var t := AfterLoad(s, response);
      && !t.isLoading
      && t.(families := s.families, totalPages := s.totalPages, totalCount := s.totalCount,
            statusMessage := s.statusMessage, isLoading := s.isLoading) == s
    ensures Delivers(response) ==>
      var t := AfterLoad(s, response);
      var page := response.value.value;
      && |t.families| == |page.items.value|
      && (forall i :: 0 <= i < |page.items.value| ==>
            t.families[i] == ApiClient.CompleteUrls(page.items.value[i], ApiClient.FixedPreviewPrefix, ApiClient.FixedDownloadPrefix))
      && t.totalPages == page.totalPages && t.totalCount == page.totalCount
      && (page.totalCount > 0 ==> t.statusMessage == Some(FoundStatusPrefix + IntToString(page.totalCount)))
      && (page.totalCount <= 0 ==> t.statusMessage == Some(NothingFoundStatus))
    ensures !Delivers(response) ==>
      var t := AfterLoad(s, response);
      var inner := if response.Err? then response.message else ApiClient.NullReferenceMessage;
      && t.families == [] && t.totalPages == 0 && t.totalCount == 0
      && t.statusMessage == Some(ErrorStatusPrefix + ApiClient.Wrap(ApiClient.Families, inner))
  {
  }

  /** After a failed load the next-page command is disabled, whatever page
      the view model was on; the previous-page command stays enabled on any
      page after the first. */
  lemma FailedLoadDisablesNext(s: ViewState, response: Result<Option<PagedResult>>)
    requires Valid(s) && !Delivers(response)
    ensures !CanNextPage(AfterLoad(s, response))
    ensures CanPreviousPage(AfterLoad(s, response)) <==> s.currentPage > 1
  {
  }

  // ---- paging and searching ---------------------------------------------------

  /** NextPageAsync: nothing happens on or past the last page; otherwise the
      next page is loaded. */
  function AfterNext(s: ViewState, response: Result<Option<PagedResult>>): ViewState {
    if s.currentPage >= s.totalPages then s else AfterLoad(s.(currentPage := s.currentPage + 1), response)
  }

  /** PreviousPageAsync: nothing happens on or before the first page;
      otherwise the previous page is loaded. */
  function AfterPrevious(s: ViewState, response: Result<Option<PagedResult>>): ViewState {
    if s.currentPage <= 1 then s else AfterLoad(s.(currentPage := s.currentPage - 1), response)
  }

  /** SearchAsync: back to the first page, then load it. */
  function AfterSearch(s: ViewState, response: Result<Option<PagedResult>>): ViewState {
    AfterLoad(s.(currentPage := 1), response)
  }

  /** The next-page command's CanExecute. */
  predicate CanNextPage(s: ViewState) {
    s.currentPage < s.totalPages && !s.isLoading
  }

  /** The previous-page command's CanExecute. */
  predicate CanPreviousPage(s: ViewState) {
    s.currentPage > 1 && !s.isLoading
  }

  /** When the view model is idle, the next-page command is enabled exactly
      when NextPageAsync would move forward by one page; when it is
      disabled, NextPageAsync changes nothing. */
  lemma NextPageGuard(s: ViewState, response: Result<Option<PagedResult>>)
    requires !s.isLoading
    ensures CanNextPage(s) <==> AfterNext(s, response).currentPage == s.currentPage + 1
    ensures !CanNextPage(s) ==> AfterNext(s, response) == s
  {
  }

  /** When the view model is idle, the previous-page command is enabled
      exactly when PreviousPageAsync would move back by one page; when it is
      disabled, PreviousPageAsync changes nothing. */
  lemma PreviousPageGuard(s: ViewState, response: Result<Option<PagedResult>>)
    requires !s.isLoading
    ensures CanPreviousPage(s) <==> AfterPrevious(s, response).currentPage == s.currentPage - 1
    ensures !CanPreviousPage(s) ==> AfterPrevious(s, response) == s
  {
  }

  /** Going forward and then back returns to the page one started on,
      whatever the two loads return. */
  lemma NextThenPrevious(s: ViewState, first: Result<Option<PagedResult>>, second: Result<Option<PagedResult>>)
    requires Valid(s) && CanNextPage(s)
    ensures AfterPrevious(AfterNext(s, first), second).currentPage == s.currentPage
  {
  }

  /** Going back and then forward returns to the page one started on, as
      long as the page loaded in between still counts at least that many
      pages: after a failed load it does not. */
  lemma PreviousThenNext(s: ViewState, first: Result<Option<PagedResult>>, second: Result<Option<PagedResult>>)
    requires CanPreviousPage(s)
    ensures var back := AfterPrevious(s, first);
      AfterNext(back, second).currentPage == s.currentPage <==> s.currentPage <= back.totalPages
  {
  }

  /** Every operation keeps the current page at 1 or above, and every one
      that loads leaves the view model idle. */
  lemma OperationsKeepValid(s: ViewState, response: Result<Option<PagedResult>>)
    requires Valid(s)
    ensures Valid(AfterLoad(s, response)) && Valid(AfterSearch(s, response))
    ensures Valid(AfterNext(s, response)) && Valid(AfterPrevious(s, response))
    ensures Valid(AfterClearFilters(s, response))
    ensures AfterSearch(s, response).currentPage == 1 && !AfterSearch(s, response).isLoading
  {
  }

  // ---- the filter lists -------------------------------------------------------

  /** The "All…" entry at the head of a filter list. */
  function Sentinel(allName: string): NamedRef {
    NamedRef(EmptyGuid, Some(allName))
  }

  /** A filter list as LoadInitialDataAsync fills it: the "All…" entry, then
      the fetched items in order. */
  function SentinelList(allName: string, items: seq<NamedRef>): seq<NamedRef> {
    [Sentinel(allName)] + items
  }

  /** Enumerable.FirstOrDefault */
  function FirstOrDefault(list: seq<NamedRef>): Option<NamedRef> {
    if |list| == 0 then None else Some(list[0])
  }

  /** The sentinel is the first entry, so selecting the first entry of a
      sentinel list asks for no filter on that list. */
  lemma SentinelSelectsEverything(allName: string, items: seq<NamedRef>)
    ensures FirstOrDefault(SentinelList(allName, items)) == Some(Sentinel(allName))
    ensures FilterId(FirstOrDefault(SentinelList(allName, items))) == None
    ensures SentinelList(allName, items)[1..] == items
  {
  }

  /** Clear, add the sentinel, add every fetched item. */
  method WithSentinel(allName: string, items: seq<NamedRef>) returns (list: seq<NamedRef>)
    ensures list == SentinelList(allName, items)
  {
    list := [];
    list := list + [Sentinel(allName)];
    for i := 0 to |items|
      invariant list == [Sentinel(allName)] + items[..i]
    {
      list := list + [items[i]];
    }
    assert items[..|items|] == items;
  }

  /** The four fetched lists. */
  datatype Lists = Lists(categories: seq<NamedRef>, sections: seq<NamedRef>,
                         manufacturers: seq<NamedRef>, revitVersions: seq<NamedRef>)

  /** Awaiting the four list requests together: all four lists, or the
      failure of the first request that failed, in the order they were
      started. */
  function FetchLists(categories: Result<Option<seq<NamedRef>>>, sections: Result<Option<seq<NamedRef>>>,
                      manufacturers: Result<Option<seq<NamedRef>>>, revitVersions: Result<Option<seq<NamedRef>>>): (r: Result<Lists>)
    ensures var c := ApiClient.GetList(ApiClient.Categories, categories);
      var se := ApiClient.GetList(ApiClient.Sections, sections);
      var m := ApiClient.GetList(ApiClient.Manufacturers, manufacturers);
      var v := ApiClient.GetList(ApiClient.RevitVersions, revitVersions);
      && (r.Ok? <==> c.Ok? && se.Ok? && m.Ok? && v.Ok?)
      && (r.Ok? ==> r.value == Lists(c.value, se.value, m.value, v.value))
      && (c.Err? ==> r.message == c.message)
      && (c.Ok? && se.Err? ==> r.message == se.message)
      && (c.Ok? && se.Ok? && m.Err? ==> r.message == m.message)
      && (c.Ok? && se.Ok? && m.Ok? && v.Err? ==> r.message == v.message)
  {
    var c := ApiClient.GetList(ApiClient.Categories, categories);
    var se := ApiClient.GetList(ApiClient.Sections, sections);
    var m := ApiClient.GetList(ApiClient.Manufacturers, manufacturers);
    var v := ApiClient.GetList(ApiClient.RevitVersions, revitVersions);
    if c.Err? then Err(c.message)
    else if se.Err? then Err(se.message)
    else if m.Err? then Err(m.message)
    else if v.Err? then Err(v.message)
    else Ok(Lists(c.value, se.value, m.value, v.value))
  }

  /** The state once the lists are in and the first entry of each is
      selected. */
  function Filled(s: ViewState, lists: Lists): ViewState {
    var categories := SentinelList(AllCategories, lists.categories);
    var sections := SentinelList(AllSections, lists.sections);
    var manufacturers := SentinelList(AllManufacturers, lists.manufacturers);
    var revitVersions := SentinelList(AllVersions, lists.revitVersions);
    s.(categories := categories, sections := sections,
       manufacturers := manufacturers, revitVersions := revitVersions,
       selectedCategory := FirstOrDefault(categories), selectedSection := FirstOrDefault(sections),
       selectedManufacturer := FirstOrDefault(manufacturers), selectedRevitVersion := FirstOrDefault(revitVersions))
  }

  /** LoadInitialDataAsync: a failed list request only sets the error
      status; otherwise the lists are rebuilt, their first entries selected,
      the current page loaded and the status set to "Готово". */
  function AfterInitialLoad(s: ViewState, categories: Result<Option<seq<NamedRef>>>, sections: Result<Option<seq<NamedRef>>>,
                            manufacturers: Result<Option<seq<NamedRef>>>, revitVersions: Result<Option<seq<NamedRef>>>,
                            response: Result<Option<PagedResult>>): ViewState {
    match FetchLists(categories, sections, manufacturers, revitVersions)
    case Err(m) => s.(statusMessage := Some(ErrorStatusPrefix + m), isLoading := false)
    case Ok(lists) => AfterLoad(Filled(s, lists), response).(statusMessage := Some(ReadyStatus), isLoading := false)
  }

  /** After a successful initial load every filter list is its "All…" entry
      followed by the fetched items in order, that entry is selected, so the
      page is requested without any Guid filter, and the status is "Готово"
      even when that page failed to load. A failed list request changes
      nothing but the status and the busy flag. */
  lemma InitialLoadSpec(s: ViewState, categories: Result<Option<seq<NamedRef>>>, sections: Result<Option<seq<NamedRef>>>,
                        manufacturers: Result<Option<seq<NamedRef>>>, revitVersions: Result<Option<seq<NamedRef>>>,
                        response: Result<Option<PagedResult>>)
    ensures var r := FetchLists(categories, sections, manufacturers, revitVersions);
      var t := AfterInitialLoad(s, categories, sections, manufacturers, revitVersions, response);
      && !t.isLoading
      && (r.Err? ==> t == s.(statusMessage := Some(ErrorStatusPrefix + r.message), isLoading := false))
      && (r.Ok? ==>
            var f := Filter(Filled(s, r.value));
            && t.categories[0] == Sentinel(AllCategories) && t.categories[1..] == r.value.categories
            && t.sections[0] == Sentinel(AllSections) && t.sections[1..] == r.value.sections
            && t.manufacturers[0] == Sentinel(AllManufacturers) && t.manufacturers[1..] == r.value.manufacturers
            && t.revitVersions[0] == Sentinel(AllVersions) && t.revitVersions[1..] == r.value.revitVersions
            && t.selectedCategory == Some(t.categories[0]) && t.selectedSection == Some(t.sections[0])
            && t.selectedManufacturer == Some(t.manufacturers[0]) && t.selectedRevitVersion == Some(t.revitVersions[0])
            && f.categoryId.None? && f.sectionId.None? && f.manufacturerId.None? && f.revitVersionId.None?
            && t.statusMessage == Some(ReadyStatus)
            && (!Delivers(response) ==> t.families == [] && t.totalPages == 0))
  {
    var r := FetchLists(categories, sections, manufacturers, revitVersions);
    if r.Ok? {
      SentinelSelectsEverything(AllCategories, r.value.categories);
      SentinelSelectsEverything(AllSections, r.value.sections);
      SentinelSelectsEverything(AllManufacturers, r.value.manufacturers);
      SentinelSelectsEverything(AllVersions, r.value.revitVersions);
    }
  }

  // ---- clearing the filters ---------------------------------------------------

  /** ClearFilters before its search: an empty search text and the first
      entry of each list selected. */
  function Cleared(s: ViewState): ViewState {
    s.(searchText := Some(""),
       selectedCategory := FirstOrDefault(s.categories), selectedSection := FirstOrDefault(s.sections),
       selectedManufacturer := FirstOrDefault(s.manufacturers), selectedRevitVersion := FirstOrDefault(s.revitVersions))
  }

  /** ClearFilters, with the search it starts run to completion. */
  function AfterClearFilters(s: ViewState, response: Result<Option<PagedResult>>): ViewState {
    AfterSearch(Cleared(s), response)
  }

  /** Every list is empty or starts with an "All…" entry, as the initial
      load leaves them. */
  predicate ListsStartWithSentinels(s: ViewState) {
    && (|s.categories| > 0 ==> s.categories[0].id == EmptyGuid)
    && (|s.sections| > 0 ==> s.sections[0].id == EmptyGuid)
    && (|s.manufacturers| > 0 ==> s.manufacturers[0].id == EmptyGuid)
    && (|s.revitVersions| > 0 ==> s.revitVersions[0].id == EmptyGuid)
  }

  /** With the lists as the initial load leaves them, the search ClearFilters
      starts asks for the first page with no search and no Guid parameter,
      only the sort and the paging. */
  lemma ClearedSearchIsUnfiltered(s: ViewState, escape: string -> string)
    requires ListsStartWithSentinels(s)
    ensures var f := Filter(Cleared(s).(currentPage := 1));
      && f.page == 1
      && forall name: ApiClient.ParamName ::
           ApiClient.Wanted(name, f, escape).Some? <==> ApiClient.Rank(name) >= 5
  {
    var f := Filter(Cleared(s).(currentPage := 1));
    assert f.search == Some("");
    assert f.categoryId.None? && f.sectionId.None? && f.manufacturerId.None? && f.revitVersionId.None?;
  }

  /** The initial load leaves its lists in that shape. */
  lemma InitialLoadPreparesClear(s: ViewState, categories: Result<Option<seq<NamedRef>>>, sections: Result<Option<seq<NamedRef>>>,
                                 manufacturers: Result<Option<seq<NamedRef>>>, revitVersions: Result<Option<seq<NamedRef>>>,
                                 response: Result<Option<PagedResult>>)
    requires FetchLists(categories, sections, manufacturers, revitVersions).Ok?
    ensures ListsStartWithSentinels(AfterInitialLoad(s, categories, sections, manufacturers, revitVersions, response))
  {
  }

  // ---- the view model ---------------------------------------------------------

  class CatalogViewModel {
    const apiClient: ApiClient.CatalogApiClient
    var searchText: Option<string>
    var selectedCategory: Option<NamedRef>
    var selectedSection: Option<NamedRef>
    var selectedManufacturer: Option<NamedRef>
    var selectedRevitVersion: Option<NamedRef>
    var families: seq<FamilyItem>
    var categories: seq<NamedRef>
    var sections: seq<NamedRef>
    var manufacturers: seq<NamedRef>
    var revitVersions: seq<NamedRef>
    var currentPage: int
    var totalPages: int
    var totalCount: int
    var isLoading: bool
    var statusMessage: Option<string>

    function State(): ViewState
      reads this
    {
      ViewState(searchText, selectedCategory, selectedSection, selectedManufacturer, selectedRevitVersion,
                families, categories, sections, manufacturers, revitVersions,
                currentPage, totalPages, totalCount, isLoading, statusMessage)
    }

    /** A new view model: empty collections, page 1. */
    constructor (apiClient: ApiClient.CatalogApiClient)
      ensures this.apiClient == apiClient && State() == InitialState
    {
      this.apiClient := apiClient;
      searchText := None;
      selectedCategory := None;
      selectedSection := None;
      selectedManufacturer := None;
      selectedRevitVersion := None;
      families := [];
      categories := [];
      sections := [];
      manufacturers := [];
      revitVersions := [];
      currentPage := 1;
      totalPages := 0;
      totalCount := 0;
      isLoading := false;
      statusMessage := None;
    }

    /** LoadPageAsync. `escape` is Uri.EscapeDataString and `response` what
        the family search returns; the filter sent is returned. */
    method LoadPage(escape: string -> string, response: Result<Option<PagedResult>>) returns (filter: FilterOptions)
      modifies this
      ensures filter == Filter(old(State()))
      ensures State() == AfterLoad(old(State()), response)
    {
      isLoading := true;
      filter := Filter(State());
      var query, url, result := ApiClient.GetFamilies(apiClient, filter, escape, response);
      match result {
        case Ok(page) => ShowPage(page);
        case Err(m) => ShowFailure(m);
      }
      isLoading := false;
    }

    /** The success path of LoadPageAsync: Families cleared and refilled
        with the page's items in order, the counters copied, then the
        status line. */
    method ShowPage(page: PagedResult)
      requires page.items.Some?
      modifies this
      ensures State() == old(State()).(families := page.items.value, totalPages := page.totalPages,
                                       totalCount := page.totalCount, statusMessage := Some(FoundStatus(page.totalCount)))
    {
      var items := page.items.value;
      var shown := [];
      for i := 0 to |items|
        invariant shown == items[..i]
      {
        shown := shown + [items[i]];
      }
      assert items[..|items|] == items;
      families := shown;
      totalPages := page.totalPages;
      totalCount := page.totalCount;
      if page.totalCount > 0 {
        statusMessage := Some(FoundStatusPrefix + IntToString(page.totalCount));
      } else {
        statusMessage := Some(NothingFoundStatus);
      }
    }

    /** The catch block of LoadPageAsync: the error status, then Families
        cleared and the counters zeroed. */
    method ShowFailure(message: string)
      modifies this
      ensures State() == old(State()).(families := [], totalPages := 0, totalCount := 0,
                                       statusMessage := Some(ErrorStatusPrefix + message))
    {
      statusMessage := Some(ErrorStatusPrefix + message);
      families := [];
      totalPages := 0;
      totalCount := 0;
    }

    /** SearchAsync. */
    method Search(escape: string -> string, response: Result<Option<PagedResult>>) returns (filter: FilterOptions)
      modifies this
      ensures filter == Filter(old(State()).(currentPage := 1))
      ensures State() == AfterSearch(old(State()), response)
    {
      currentPage := 1;
      filter := LoadPage(escape, response);
    }

    /** NextPageAsync; returns the filter sent, if a page was requested. */
    method NextPage(escape: string -> string, response: Result<Option<PagedResult>>) returns (requested: Option<FilterOptions>)
      modifies this
      ensures requested == if old(currentPage) >= old(totalPages) then None
                           else Some(Filter(old(State()).(currentPage := old(currentPage) + 1)))
      ensures State() == AfterNext(old(State()), response)
    {
      if currentPage >= totalPages {
        return None;
      }
      currentPage := currentPage + 1;
      var filter := LoadPage(escape, response);
      requested := Some(filter);
    }

    /** PreviousPageAsync; returns the filter sent, if a page was requested. */
    method PreviousPage(escape: string -> string, response: Result<Option<PagedResult>>) returns (requested: Option<FilterOptions>)
      modifies this
      ensures requested == if old(currentPage) <= 1 then None
                           else Some(Filter(old(State()).(currentPage := old(currentPage) - 1)))
      ensures State() == AfterPrevious(old(State()), response)
    {
      if currentPage <= 1 {
        return None;
      }
      currentPage := currentPage - 1;
      var filter := LoadPage(escape, response);
      requested := Some(filter);
    }

    /** ClearFilters, with the search it starts run to completion. */
    method ClearFilters(escape: string -> string, response: Result<Option<PagedResult>>) returns (filter: FilterOptions)
      modifies this
      ensures filter == Filter(Cleared(old(State())).(currentPage := 1))
      ensures State() == AfterClearFilters(old(State()), response)
    {
      ResetFilters();
      filter := Search(escape, response);
    }

    /** The property assignments of ClearFilters. */
    method ResetFilters()
      modifies this
      ensures searchText == Some("")
      ensures selectedCategory == FirstOrDefault(categories) && selectedSection == FirstOrDefault(sections)
      ensures selectedManufacturer == FirstOrDefault(manufacturers) && selectedRevitVersion == FirstOrDefault(revitVersions)
      ensures families == old(families) && categories == old(categories) && sections == old(sections)
      ensures manufacturers == old(manufacturers) && revitVersions == old(revitVersions)
      ensures currentPage == old(currentPage) && totalPages == old(totalPages) && totalCount == old(totalCount)
      ensures isLoading == old(isLoading) && statusMessage == old(statusMessage)
    {
      searchText := Some("");
      selectedCategory := FirstOrDefault(categories);
      selectedSection := FirstOrDefault(sections);
      selectedManufacturer := FirstOrDefault(manufacturers);
      selectedRevitVersion := FirstOrDefault(revitVersions);
    }

    /** The dispatcher block of LoadInitialDataAsync: each list rebuilt
        behind its "All…" entry, then the first entry of each selected. */
    method FillLists(lists: Lists)
      modifies this
      ensures State() == Filled(old(State()), lists)
    {
      RebuildLists(lists);
      SelectFirstEntries();
    }

    /** Each list cleared, its "All…" entry added, then the fetched items. */
    method RebuildLists(lists: Lists)
      modifies this
      ensures categories == SentinelList(AllCategories, lists.categories)
      ensures sections == SentinelList(AllSections, lists.sections)
      ensures manufacturers == SentinelList(AllManufacturers, lists.manufacturers)
      ensures revitVersions == SentinelList(AllVersions, lists.revitVersions)
      ensures searchText == old(searchText) && families == old(families)
      ensures selectedCategory == old(selectedCategory) && selectedSection == old(selectedSection)
      ensures selectedManufacturer == old(selectedManufacturer) && selectedRevitVersion == old(selectedRevitVersion)
      ensures currentPage == old(currentPage) && totalPages == old(totalPages) && totalCount == old(totalCount)
      ensures isLoading == old(isLoading) && statusMessage == old(statusMessage)
    {
      categories := WithSentinel(AllCategories, lists.categories);
      sections := WithSentinel(AllSections, lists.sections);
      manufacturers := WithSentinel(AllManufacturers, lists.manufacturers);
      revitVersions := WithSentinel(AllVersions, lists.revitVersions);
    }

    /** The four selections set to the first entry of their lists. */
    method SelectFirstEntries()
      modifies this
      ensures selectedCategory == FirstOrDefault(categories) && selectedSection == FirstOrDefault(sections)
      ensures selectedManufacturer == FirstOrDefault(manufacturers) && selectedRevitVersion == FirstOrDefault(revitVersions)
      ensures categories == old(categories) && sections == old(sections)
      ensures manufacturers == old(manufacturers) && revitVersions == old(revitVersions)
      ensures searchText == old(searchText) && families == old(families)
      ensures currentPage == old(currentPage) && totalPages == old(totalPages) && totalCount == old(totalCount)
      ensures isLoading == old(isLoading) && statusMessage == old(statusMessage)
    {
      selectedCategory := FirstOrDefault(categories);
      selectedSection := FirstOrDefault(sections);
      selectedManufacturer := FirstOrDefault(manufacturers);
      selectedRevitVersion := FirstOrDefault(revitVersions);
    }

    /** LoadInitialDataAsync: the four list responses, then the page
        response; returns the filter of the page request, if one was made. */
    method LoadInitialData(escape: string -> string,
                           categoriesResponse: Result<Option<seq<NamedRef>>>, sectionsResponse: Result<Option<seq<NamedRef>>>,
                           manufacturersResponse: Result<Option<seq<NamedRef>>>, versionsResponse: Result<Option<seq<NamedRef>>>,
                           response: Result<Option<PagedResult>>)
      returns (requested: Option<FilterOptions>)
      modifies this
      ensures var r := FetchLists(categoriesResponse, sectionsResponse, manufacturersResponse, versionsResponse);
        requested == if r.Err? then None else Some(Filter(Filled(old(State()), r.value)))
      ensures State() == AfterInitialLoad(old(State()), categoriesResponse, sectionsResponse,
                                          manufacturersResponse, versionsResponse, response)
    {
      isLoading := true;
      statusMessage := Some(LoadingDataStatus);
      // Task.WhenAll over the four list requests.
      var fetched := FetchLists(categoriesResponse, sectionsResponse, manufacturersResponse, versionsResponse);
      match fetched {
        case Err(message) =>
          statusMessage := Some(ErrorStatusPrefix + message);
          isLoading := false;
          requested := None;
        case Ok(lists) =>
          FillLists(lists);
          var filter := LoadPage(escape, response);
          requested := Some(filter);
          statusMessage := Some(ReadyStatus);
          isLoading := false;
      }
    }
  }
}
