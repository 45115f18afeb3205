/** The data the catalog exchanges: FamilyItem, FilterOptions, PagedResult
    and the reference lists (categories, sections, manufacturers, Revit
    versions). */
module Models {
  import opened Wrappers

  /** A Guid, represented by its canonical "D" text (what ToString gives). */
  datatype Guid = Guid(text: string)

  /** Guid.Empty */
  const EmptyGuid: Guid := Guid("00000000-0000-0000-0000-000000000000")

  /** A DateTime, as a tick count. */
  type Time = int

  /** A catalog entry. Strings are nullable, as JSON may omit them. */
  datatype FamilyItem = FamilyItem(
    id: Guid,
    name: Option<string>,
    nameRfa: Option<string>,
    description: Option<string>,
    categoryId: Guid,
    categoryName: Option<string>,
    sectionId: Guid,
    sectionName: Option<string>,
    revitVersionId: Guid,
    revitVersionName: Option<string>,
    manufacturerId: Guid,
    manufacturerName: Option<string>,
    mainFile: Option<string>,
    previewFile: Option<string>,
    attachments: seq<string>,
    createdAt: Time,
    updatedAt: Time,
    previewUrl: Option<string>,
    downloadUrl: Option<string>)

  /** Catalog query options. */
  datatype FilterOptions = FilterOptions(
    search: Option<string>,
    categoryId: Option<Guid>,
    manufacturerId: Option<Guid>,
    revitVersionId: Option<Guid>,
    sectionId: Option<Guid>,
    sortBy: string,
    sortOrder: string,
    page: int,
    pageSize: int)

  /** `new FilterOptions()`: no search, no filters, sorted by name ascending,
      first page of 12. */
  const DefaultFilter: FilterOptions :=
    FilterOptions(None, None, None, None, None, "name", "asc", 1, 12)

  /** One page of results. `items` is null when the JSON has no "families". */
  datatype PagedResult = PagedResult(
    items: Option<seq<FamilyItem>>,
    totalCount: int,
    totalPages: int,
    page: int,
    pageSize: int,
    hasNextPage: bool,
    hasPreviousPage: bool)

  /** A Category, Section, Manufacturer or RevitVersion: the plugin reads
      only their Id and Name. */
  datatype NamedRef = NamedRef(id: Guid, name: Option<string>)
}
