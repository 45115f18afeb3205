/** CatalogApiClient: the deterministic part of the catalog REST client — the
    base URL and authorization header fixed at construction, the request
    URLs, the query string of the family search, the preview/download URLs
    filled into returned items, and the wrapping of failures. The HTTP
    exchange and JSON decoding are inputs: a response is the decoded value
    (None for a JSON null) or the message of the exception raised on the way. */
module ApiClient {
  import opened Wrappers
  import opened Strings
  import opened Models
  import opened Encoding

  /** The message of a NullReferenceException. */
  const NullReferenceMessage: string := "Object reference not set to an instance of an object."

  /** The fixed host the family search uses for file URLs. */
  const FixedPreviewPrefix: string := "http://bimhub.kazgor.kz:5058/api/files/preview/"
  const FixedDownloadPrefix: string := "http://bimhub.kazgor.kz:5058/api/files/download/"

  /** AuthenticationHeaderValue */
  datatype AuthenticationHeader = AuthenticationHeader(scheme: string, parameter: string)

  datatype CatalogApiClient = CatalogApiClient(baseUrl: string, apiToken: Option<string>, authorization: Option<AuthenticationHeader>)

  /** The constructor: a null base URL throws; trailing '/' are trimmed; a
      Bearer header is set exactly when the token is non-empty. */
  function NewCatalogApiClient(baseUrl: Option<string>, apiToken: Option<string>): (r: Result<CatalogApiClient>)
    ensures baseUrl.None? <==> r.Err?
    ensures r.Err? ==> r.message == "Value cannot be null.\r\nParameter name: baseUrl"
    ensures r.Ok? ==> r.value.baseUrl <= baseUrl.value && r.value.apiToken == apiToken
    ensures r.Ok? ==> r.value.baseUrl == [] || r.value.baseUrl[|r.value.baseUrl| - 1] != '/'
    ensures r.Ok? ==> forall i :: |r.value.baseUrl| <= i < |baseUrl.value| ==> baseUrl.value[i] == '/'
    ensures r.Ok? ==> (r.value.authorization.Some? <==> !IsNullOrEmpty(apiToken))
    ensures r.Ok? && r.value.authorization.Some? ==> r.value.authorization.value == AuthenticationHeader("Bearer", apiToken.value)
  {
    if baseUrl.None? then Err("Value cannot be null.\r\nParameter name: baseUrl")
    else
      var auth := if !IsNullOrEmpty(apiToken) then Some(AuthenticationHeader("Bearer", apiToken.value)) else None;
      Ok(CatalogApiClient(TrimEnd(baseUrl.value, '/'), apiToken, auth))
  }

  /** Only trailing slashes are dropped: building a client from its own base
      URL gives the same client. */
  lemma ClientBaseUrlIsStable(baseUrl: string, apiToken: Option<string>)
    ensures var c := NewCatalogApiClient(Some(baseUrl), apiToken).value;
      NewCatalogApiClient(Some(c.baseUrl), apiToken) == Ok(c)
  {
    TrimEndIdempotent(baseUrl, '/');
  }

  // ---- operations and their failures -------------------------------------------

  /** The four reference lists. */
  datatype ReferenceList = Categories | Sections | Manufacturers | RevitVersions

  datatype Operation = Families | FamilyById | List(list: ReferenceList) | DownloadFile

  /** The prefix each operation puts before the inner message when it fails. */
  function ErrorPrefix(op: Operation): string {
    match op
    case Families => "Ошибка получения семейств: "
    case FamilyById => "Ошибка получения семейства: "
    case List(Categories) => "Ошибка получения категорий: "
    case List(Sections) => "Ошибка получения разделов: "
    case List(Manufacturers) => "Ошибка получения производителей: "
    case List(RevitVersions) => "Ошибка получения версий Revit: "
    case DownloadFile => "Ошибка скачивания файла: "
  }

  /** The rethrown exception's message. */
  function Wrap(op: Operation, inner: string): (m: string)
    ensures ErrorPrefix(op) <= m && m[|ErrorPrefix(op)|..] == inner
  {
    ErrorPrefix(op) + inner
  }

  /** Different operations wrap any two messages differently: their
      prefixes differ at some character. */
  lemma WrappedDiffer(op1: Operation, op2: Operation, m1: string, m2: string)
    requires op1 != op2
    ensures Wrap(op1, m1) != Wrap(op2, m2)
  {
    var p, q := ErrorPrefix(op1), ErrorPrefix(op2);
    var k := if op1 == DownloadFile || op2 == DownloadFile then 7
             else if op1.List? || op2.List? then 17 else 25;
    assert p[k] != q[k];
    assert (p + m1)[k] == p[k] && (q + m2)[k] == q[k];
  }

  /** The operation that failed and the inner message can both be read back
      from a wrapped message. */
  lemma WrapIsInjective(op1: Operation, op2: Operation, m1: string, m2: string)
    requires Wrap(op1, m1) == Wrap(op2, m2)
    ensures op1 == op2 && m1 == m2
  {
    if op1 != op2 {
      WrappedDiffer(op1, op2, m1, m2);
    }
    var p := ErrorPrefix(op1);
    assert m1 == (p + m1)[|p|..];
  }

  /** The URL of a reference list. */
  function ListUrl(client: CatalogApiClient, list: ReferenceList): string {
    client.baseUrl + match list
      case Categories => "/Category"
      case Sections => "/Section"
      case Manufacturers => "/Manufacturer"
      case RevitVersions => "/RevitVersion"
  }

  /** GetCategoriesAsync, GetSectionsAsync, GetManufacturersAsync and
      GetRevitVersionsAsync: a JSON null is an empty list, except for
      categories, where it fails on the element count. */
  function GetList(list: ReferenceList, response: Result<Option<seq<NamedRef>>>): (r: Result<seq<NamedRef>>)
    ensures response.Err? ==> r == Err(Wrap(List(list), response.message))
    ensures response == Ok(None) ==>
      r == if list == Categories then Err(Wrap(List(list), NullReferenceMessage)) else Ok([])
    ensures response.Ok? && response.value.Some? ==> r == Ok(response.value.value)
  {
    match response
    case Err(m) => Err(Wrap(List(list), m))
    case Ok(None) => if list == Categories then Err(Wrap(List(list), NullReferenceMessage)) else Ok([])
    case Ok(Some(items)) => Ok(items)
  }

  /** DownloadFamilyFileAsync: the downloaded bytes, or the wrapped failure. */
  function DownloadFamilyFile(response: Result<Bytes>): (r: Result<Bytes>)
    ensures r.Ok? <==> response.Ok?
    ensures r.Ok? ==> r.value == response.value
    ensures r.Err? ==> r.message == Wrap(DownloadFile, response.message)
  {
    match response
    case Ok(data) => Ok(data)
    case Err(m) => Err(Wrap(DownloadFile, m))
  }

  // ---- the family search query -------------------------------------------------

  /** The names GetFamiliesAsync can send, in the order it adds them. */
  datatype ParamName =
    | Search | CategoryId | ManufacturerId | RevitVersionId | SectionId
    | SortBy | SortOrder | Page | PageSize

  function NameText(n: ParamName): (t: string)
    ensures '&' !in t && '=' !in t
  {
    match n
    case Search => "search"
    case CategoryId => "categoryId"
    case ManufacturerId => "manufacturerId"
    case RevitVersionId => "revitVersionId"
    case SectionId => "sectionId"
    case SortBy => "sortBy"
    case SortOrder => "sortOrder"
    case Page => "page"
    case PageSize => "pageSize"
  }

  /** A name's position in the fixed order. */
  function Rank(n: ParamName): (r: nat)
    ensures r < 9
  {
    match n
    case Search => 0
    case CategoryId => 1
    case ManufacturerId => 2
    case RevitVersionId => 3
    case SectionId => 4
    case SortBy => 5
    case SortOrder => 6
    case Page => 7
    case PageSize => 8
  }

  /** One `name=value` query parameter. */
  datatype Param = Param(name: ParamName, value: string)

  function Render(p: Param): string {
    NameText(p.name) + "=" + p.value
  }

  function RenderAll(ps: seq<Param>): (r: seq<string>)
    ensures |r| == |ps| && forall i :: 0 <= i < |ps| ==> r[i] == Render(ps[i])
  {
    seq(|ps|, i requires 0 <= i < |ps| => Render(ps[i]))
  }

  /** Each name at most once, in the fixed order. */
  predicate InCanonicalOrder(ps: seq<Param>) {
    forall i, j :: 0 <= i < j < |ps| ==> Rank(ps[i].name) < Rank(ps[j].name)
  }

  /** The value of the first parameter with the given name. */
  function Lookup(ps: seq<Param>, name: ParamName): Option<string>
    decreases |ps|
  {
    if ps == [] then None
    else if ps[0].name == name then Some(ps[0].value)
    else Lookup(ps[1..], name)
  }

  lemma {:induction false} LookupAppend(ps: seq<Param>, p: Param, name: ParamName)
    ensures Lookup(ps + [p], name) ==
      if Lookup(ps, name).Some? then Lookup(ps, name)
      else if p.name == name then Some(p.value) else None
    decreases |ps|
  {
    if ps == [] {
      assert [p][1..] == [];
    } else {
      assert (ps + [p])[1..] == ps[1..] + [p];
      LookupAppend(ps[1..], p, name);
    }
  }

  /** The search parameter: present only for a non-empty search, escaped. */
  function SearchParam(search: Option<string>, escape: string -> string): Option<string> {
    if IsNullOrEmpty(search) then None else Some(escape(search.value))
  }

  /** A Guid? parameter: present only when the Guid is. */
  function GuidParam(id: Option<Guid>): Option<string> {
    if id.Some? then Some(id.value.text) else None
  }

  /** The value the filter gives each parameter, if any: the search only when
      non-empty, the Guids only when present, the last four always. */
  function Wanted(name: ParamName, filter: FilterOptions, escape: string -> string): Option<string> {
    match name
    case Search => SearchParam(filter.search, escape)
    case CategoryId => GuidParam(filter.categoryId)
    case ManufacturerId => GuidParam(filter.manufacturerId)
    case RevitVersionId => GuidParam(filter.revitVersionId)
    case SectionId => GuidParam(filter.sectionId)
    case SortBy => Some(filter.sortBy)
    case SortOrder => Some(filter.sortOrder)
    case Page => Some(IntToString(filter.page))
    case PageSize => Some(IntToString(filter.pageSize))
  }

  /** What the family search sends: names in the fixed order, and for every
      name exactly the value the filter gives it. */
  predicate QueryFor(ps: seq<Param>, filter: FilterOptions, escape: string -> string) {
    InCanonicalOrder(ps) && forall name: ParamName :: Lookup(ps, name) == Wanted(name, filter, escape)
  }

  /** After the Add steps for the names ranked below `k`: those parameters
      are exactly the wanted ones. */
  predicate Stage(ps: seq<Param>, k: nat, filter: FilterOptions, escape: string -> string) {
    && InCanonicalOrder(ps)
    && (forall i :: 0 <= i < |ps| ==> Rank(ps[i].name) < k)
    && forall name: ParamName :: Lookup(ps, name) == if Rank(name) < k then Wanted(name, filter, escape) else None
  }

  /** The Add step for `name`, when the filter gives it a value. */
  function StepFor(ps: seq<Param>, name: ParamName, filter: FilterOptions, escape: string -> string): seq<Param> {
    var w := Wanted(name, filter, escape);
    if w.Some? then ps + [Param(name, w.value)] else ps
  }

  lemma {:induction false} StageStep(ps: seq<Param>, name: ParamName, filter: FilterOptions, escape: string -> string)
    requires Stage(ps, Rank(name), filter, escape)
    ensures Stage(StepFor(ps, name, filter, escape), Rank(name) + 1, filter, escape)
  {
    var k := Rank(name);
    var w := Wanted(name, filter, escape);
    if w.Some? {
      var p := Param(name, w.value);
      var r := ps + [p];
      forall n ensures Lookup(r, n) == if Rank(n) < k + 1 then Wanted(n, filter, escape) else None {
        LookupAppend(ps, p, n);
      }
      assert forall i :: 0 <= i < |ps| ==> r[i] == ps[i];
    }
  }

  /** The query string: the rendered parameters joined by '&'. */
  function QueryString(ps: seq<Param>): string {
    Join("&", RenderAll(ps))
  }

  /** When no value contains '&' (Uri.EscapeDataString escapes it), splitting
      the query string at '&' gives back the rendered parameters. */
  lemma QueryStringSplits(ps: seq<Param>)
    requires |ps| >= 1
    requires forall i :: 0 <= i < |ps| ==> '&' !in ps[i].value
    ensures Split(QueryString(ps), '&') == RenderAll(ps)
  {
    var parts := RenderAll(ps);
    forall i | 0 <= i < |parts| ensures '&' !in parts[i] {
      assert parts[i] == NameText(ps[i].name) + "=" + ps[i].value;
    }
    SplitJoin(parts, '&');
  }

  /** The name added at position `k` of the fixed order. */
  function NameAt(k: nat): (n: ParamName)
    requires k < 9
    ensures Rank(n) == k
  {
    [Search, CategoryId, ManufacturerId, RevitVersionId, SectionId, SortBy, SortOrder, Page, PageSize][k]
  }

  /** The parameter list after the first `k` Add steps. */
  function Planned(k: nat, filter: FilterOptions, escape: string -> string): seq<Param>
    requires k <= 9
  {
    if k == 0 then [] else StepFor(Planned(k - 1, filter, escape), NameAt(k - 1), filter, escape)
  }

  /** The planned list after `k` steps holds exactly the wanted parameters of
      rank below `k`, in order. */
  lemma {:induction false} PlannedStage(k: nat, filter: FilterOptions, escape: string -> string)
    requires k <= 9
    ensures Stage(Planned(k, filter, escape), k, filter, escape)
  {
    if k > 0 {
      PlannedStage(k - 1, filter, escape);
      StageStep(Planned(k - 1, filter, escape), NameAt(k - 1), filter, escape);
    }
  }

  /** The complete planned list is the query the filter calls for. */
  lemma PlannedQuery(filter: FilterOptions, escape: string -> string)
    ensures QueryFor(Planned(9, filter, escape), filter, escape)
  {
    PlannedStage(9, filter, escape);
  }

  /** The planned list always ends with sortBy, sortOrder, page and pageSize. */
  lemma PlannedEndsWithPaging(filter: FilterOptions, escape: string -> string)
    ensures |Planned(9, filter, escape)| >= 4
    ensures Planned(9, filter, escape)[|Planned(9, filter, escape)| - 4..] ==
      [Param(SortBy, filter.sortBy), Param(SortOrder, filter.sortOrder),
       Param(Page, IntToString(filter.page)), Param(PageSize, IntToString(filter.pageSize))]
  {
    var optional := Planned(5, filter, escape);
    assert Planned(6, filter, escape) == optional + [Param(SortBy, filter.sortBy)];
    assert Planned(7, filter, escape) == Planned(6, filter, escape) + [Param(SortOrder, filter.sortOrder)];
    assert Planned(8, filter, escape) == Planned(7, filter, escape) + [Param(Page, IntToString(filter.page))];
    assert Planned(9, filter, escape) == optional +
      [Param(SortBy, filter.sortBy), Param(SortOrder, filter.sortOrder),
       Param(Page, IntToString(filter.page)), Param(PageSize, IntToString(filter.pageSize))];
  }

  /** GetFamiliesAsync's parameter list, built by successive Add calls:
      search, the four Guid filters, then sortBy, sortOrder, page, pageSize. */
  method BuildQueryParams(filter: FilterOptions, escape: string -> string) returns (ps: seq<Param>)
    ensures ps == Planned(9, filter, escape)
    ensures QueryFor(ps, filter, escape)
  {
    ps := [];
    if !IsNullOrEmpty(filter.search) {
      ps := ps + [Param(Search, escape(filter.search.value))];
    }
    assert ps == Planned(1, filter, escape);
    if filter.categoryId.Some? {
      ps := ps + [Param(CategoryId, filter.categoryId.value.text)];
    }
    assert ps == Planned(2, filter, escape);
    if filter.manufacturerId.Some? {
      ps := ps + [Param(ManufacturerId, filter.manufacturerId.value.text)];
    }
    assert ps == Planned(3, filter, escape);
    if filter.revitVersionId.Some? {
      ps := ps + [Param(RevitVersionId, filter.revitVersionId.value.text)];
    }
    assert ps == Planned(4, filter, escape);
    if filter.sectionId.Some? {
      ps := ps + [Param(SectionId, filter.sectionId.value.text)];
    }
    assert ps == Planned(5, filter, escape);
    ps := ps + [Param(SortBy, filter.sortBy)];
    assert ps == Planned(6, filter, escape);
    ps := ps + [Param(SortOrder, filter.sortOrder)];
    assert ps == Planned(7, filter, escape);
    ps := ps + [Param(Page, IntToString(filter.page))];
    assert ps == Planned(8, filter, escape);
    ps := ps + [Param(PageSize, IntToString(filter.pageSize))];
    PlannedQuery(filter, escape);
  }

  // ---- URL completion ----------------------------------------------------------

  /** Fills in PreviewUrl and DownloadUrl from PreviewFile and MainFile when
      those are non-empty; leaves every other field, and a URL whose file is
      empty, as it was. */
  function CompleteUrls(item: FamilyItem, previewPrefix: string, downloadPrefix: string): (r: FamilyItem)
    ensures r.previewUrl == if !IsNullOrEmpty(item.previewFile) then Some(previewPrefix + item.previewFile.value) else item.previewUrl
    ensures r.downloadUrl == if !IsNullOrEmpty(item.mainFile) then Some(downloadPrefix + item.mainFile.value) else item.downloadUrl
    ensures r.(previewUrl := item.previewUrl, downloadUrl := item.downloadUrl) == item
  {
    var withPreview := if !IsNullOrEmpty(item.previewFile) then item.(previewUrl := Some(previewPrefix + item.previewFile.value)) else item;
    if !IsNullOrEmpty(item.mainFile) then withPreview.(downloadUrl := Some(downloadPrefix + item.mainFile.value)) else withPreview
  }

  /** The URL-completion loop over the returned items, in place. */
  method CompleteAll(items: seq<FamilyItem>) returns (r: seq<FamilyItem>)
    ensures |r| == |items|
    ensures forall i :: 0 <= i < |items| ==> r[i] == CompleteUrls(items[i], FixedPreviewPrefix, FixedDownloadPrefix)
  {
    r := items;
    for i := 0 to |items|
      invariant |r| == |items|
      invariant forall j :: 0 <= j < i ==> r[j] == CompleteUrls(items[j], FixedPreviewPrefix, FixedDownloadPrefix)
      invariant forall j :: i <= j < |items| ==> r[j] == items[j]
    {
      var item := r[i];
      if !IsNullOrEmpty(item.previewFile) {
        item := item.(previewUrl := Some(FixedPreviewPrefix + item.previewFile.value));
      }
      if !IsNullOrEmpty(item.mainFile) {
        item := item.(downloadUrl := Some(FixedDownloadPrefix + item.mainFile.value));
      }
      r := r[i := item];
    }
  }

  /** The returned items with their URLs completed under the fixed host. */
  function CompletedItems(items: seq<FamilyItem>): (r: seq<FamilyItem>)
    ensures |r| == |items|
  {
    seq(|items|, i requires 0 <= i < |items| => CompleteUrls(items[i], FixedPreviewPrefix, FixedDownloadPrefix))
  }

  /** The outcome of the family search for a response: the page with its
      items' URLs completed, or the wrapped failure. */
  function FamiliesResult(response: Result<Option<PagedResult>>): (r: Result<PagedResult>)
    ensures r.Ok? ==> r.value.items.Some?
  {
    match response
    case Err(m) => Err(Wrap(Families, m))
    case Ok(None) => Err(Wrap(Families, NullReferenceMessage))
    case Ok(Some(page)) =>
      if page.items.None? then Err(Wrap(Families, NullReferenceMessage))
      else Ok(page.(items := Some(CompletedItems(page.items.value))))
  }

  /** The family search fails, wrapped, on a transport or decoding error and
      on a JSON null page or item list; otherwise it returns the page as
      received except for its items, each of which has its URLs completed
      under the fixed host, in the same order. */
  lemma FamiliesResultSpec(response: Result<Option<PagedResult>>)
    ensures var r := FamiliesResult(response);
      && (response.Err? ==> r == Err(Wrap(Families, response.message)))
      && (response.Ok? && (response.value.None? || response.value.value.items.None?) ==>
            r == Err(Wrap(Families, NullReferenceMessage)))
      && (response.Ok? && response.value.Some? && response.value.value.items.Some? ==>
            var page := response.value.value;
            && r.Ok? && r.value.items.Some?
            && r.value.(items := page.items) == page
            && |r.value.items.value| == |page.items.value|
            && forall i :: 0 <= i < |page.items.value| ==>
                 r.value.items.value[i] == CompleteUrls(page.items.value[i], FixedPreviewPrefix, FixedDownloadPrefix))
  {
  }

  /** GetFamiliesAsync: the query and request URL for the filter, and the
      outcome FamiliesResult gives the response. */
  method GetFamilies(client: CatalogApiClient, filter: FilterOptions, escape: string -> string,
                     response: Result<Option<PagedResult>>)
    returns (query: seq<Param>, url: string, r: Result<PagedResult>)
    ensures QueryFor(query, filter, escape)
    ensures url == client.baseUrl + "/Family?" + QueryString(query)
    ensures r == FamiliesResult(response)
  {
    query := BuildQueryParams(filter, escape);
    url := client.baseUrl + "/Family?" + Join("&", RenderAll(query));
    match response {
      case Err(m) =>
        r := Err(Wrap(Families, m));
      case Ok(None) =>
        r := Err(Wrap(Families, NullReferenceMessage));
      case Ok(Some(page)) =>
        if page.items.None? {
          r := Err(Wrap(Families, NullReferenceMessage));
        } else {
          var items := CompleteAll(page.items.value);
          assert items == CompletedItems(page.items.value);
          r := Ok(page.(items := Some(items)));
        }
    }
  }

  /** The request URL of GetFamilyByIdAsync. */
  function FamilyByIdUrl(client: CatalogApiClient, id: Guid): string {
    client.baseUrl + "/Family/" + id.text
  }

  /** GetFamilyByIdAsync: the item with its URLs completed under
      `<base>/api/files/…`; a JSON null fails on the dereference. */
  function GetFamilyById(client: CatalogApiClient, response: Result<Option<FamilyItem>>): (r: Result<FamilyItem>)
    ensures response.Err? ==> r == Err(Wrap(FamilyById, response.message))
    ensures response == Ok(None) ==> r == Err(Wrap(FamilyById, NullReferenceMessage))
    ensures response.Ok? && response.value.Some? ==>
      r == Ok(CompleteUrls(response.value.value, client.baseUrl + "/api/files/preview/", client.baseUrl + "/api/files/download/"))
  {
    match response
    case Err(m) => Err(Wrap(FamilyById, m))
    case Ok(None) => Err(Wrap(FamilyById, NullReferenceMessage))
    case Ok(Some(item)) =>
      Ok(CompleteUrls(item, client.baseUrl + "/api/files/preview/", client.baseUrl + "/api/files/download/"))
  }

  /** With the configured base URL ending in "/api", the single-item lookup
      builds a different download URL for the same file than the search does. */
  lemma ByIdDownloadUrlDiffersFromSearch(item: FamilyItem)
    requires !IsNullOrEmpty(item.mainFile)
    ensures var c := NewCatalogApiClient(Some("http://bimhub.kazgor.kz:5058/api"), None).value;
      && CompleteUrls(item, c.baseUrl + "/api/files/preview/", c.baseUrl + "/api/files/download/").downloadUrl
         == Some("http://bimhub.kazgor.kz:5058/api/api/files/download/" + item.mainFile.value)
      && CompleteUrls(item, FixedPreviewPrefix, FixedDownloadPrefix).downloadUrl
         != CompleteUrls(item, c.baseUrl + "/api/files/preview/", c.baseUrl + "/api/files/download/").downloadUrl
  {
    var base := "http://bimhub.kazgor.kz:5058/api";
    TrimEndNoop(base, '/');
    var c := NewCatalogApiClient(Some(base), None).value;
    var a := FixedDownloadPrefix + item.mainFile.value;
    assert c.baseUrl + "/api/files/download/" == "http://bimhub.kazgor.kz:5058/api/api/files/download/";
    var b := c.baseUrl + "/api/files/download/" + item.mainFile.value;
    assert a[33] == 'f' && b[33] == 'a';
  }
}
