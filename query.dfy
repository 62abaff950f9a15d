/** The filter state of the contacts list and the request parameters derived from it
    for the list endpoint (`GET /contacts`) and the export endpoint
    (`GET /contacts/export`). */
module Query {
  import opened Json
  import opened Text

  /** The filter panel's state; "all" (and "newest" for the sort order) means
      "no constraint". */
  datatype Filters = Filters(
    source: string,
    temperature: string,
    stage: string,
    group: string,
    tags: string,
    dateRange: string,
    sortBy: string)

  /** The initial filter state, which "Clear All" restores. */
  const DefaultFilters := Filters("all", "all", "all", "all", "all", "all", "newest")

  /** The query parameters the page ever sends, named `page`, `limit`, `search`,
      `source`, `temperature`, `stage`, `group` and `sortBy` on the wire. */
  datatype Key = Page | Limit | Search | Source | Temperature | Stage | Group | SortBy

  /** A query-parameter bag, as the `Record<string, any>` handed to the API client. */
  type Params = map<Key, Value>

  /** `p` is the list request's parameter bag for the trimmed search text `q`: it
      always carries the page and the limit, the search text when it is not empty,
      and each filter that is not at its sentinel. */
  predicate IsListQuery(p: Params, q: string, f: Filters, page: int, limit: int) {
    && Page in p && p[Page] == Num(page)
    && Limit in p && p[Limit] == Num(limit)
    && (Search in p <==> q != []) && (Search in p ==> p[Search] == Str(q))
    && (Source in p <==> f.source != "all") && (Source in p ==> p[Source] == Str(f.source))
    && (Temperature in p <==> f.temperature != "all") && (Temperature in p ==> p[Temperature] == Str(f.temperature))
    && (Stage in p <==> f.stage != "all") && (Stage in p ==> p[Stage] == Str(f.stage))
    && (Group in p <==> f.group != "all") && (Group in p ==> p[Group] == Str(f.group))
    && (SortBy in p <==> f.sortBy != "newest") && (SortBy in p ==> p[SortBy] == Str(f.sortBy))
  }

  /** `fetchContacts`' request parameters: `page` and `limit`, then each field
      that is present added to the bag one by one. */
  method ListRequestParams(search: string, f: Filters, page: int, limit: int) returns (params: Params)
    ensures IsListQuery(params, Trim(search), f, page, limit)
  {
    params := map[Page := Num(page), Limit := Num(limit)];
    var q := Trim(search);
    if q != [] { params := params[Search := Str(q)]; }
    assert (Search in params <==> q != []) && (Search in params ==> params[Search] == Str(q));
    if f.source != "all" { params := params[Source := Str(f.source)]; }
    assert (Source in params <==> f.source != "all") && (Source in params ==> params[Source] == Str(f.source));
    if f.temperature != "all" { params := params[Temperature := Str(f.temperature)]; }
    assert (Temperature in params <==> f.temperature != "all") && (Temperature in params ==> params[Temperature] == Str(f.temperature));
    if f.stage != "all" { params := params[Stage := Str(f.stage)]; }
    assert (Stage in params <==> f.stage != "all") && (Stage in params ==> params[Stage] == Str(f.stage));
    if f.group != "all" { params := params[Group := Str(f.group)]; }
    assert (Group in params <==> f.group != "all") && (Group in params ==> params[Group] == Str(f.group));
    if f.sortBy != "newest" { params := params[SortBy := Str(f.sortBy)]; }
  }

  /** The search text is sent exactly when it is not all white space, and what is
      sent is neither empty nor starts or ends with white space. */
  lemma ListQuerySearch(p: Params, search: string, f: Filters, page: int, limit: int)
    requires IsListQuery(p, Trim(search), f, page, limit)
    ensures Search in p <==> !AllSpace(search)
    ensures Search in p ==> p[Search].Str? && Truthy(p[Search])
    ensures Search in p ==> !IsSpace(p[Search].s[0]) && !IsSpace(p[Search].s[|p[Search].s| - 1])
  {
    TrimSpec(search);
  }

  /** What a server reads back from a list request: an absent field means its
      sentinel. */
  datatype ListRequest = ListRequest(search: string, filters: Filters, page: Value, limit: Value)

  /** The string carried under `key`, or `absent` when the key is missing. */
  function StrOr(p: Params, key: Key, absent: string): (r: string) {
    if key in p && p[key].Str? then p[key].s else absent
  }

  /** Reads a parameter bag back into search text and filters. */
  function DecodeListQuery(p: Params): (r: ListRequest) {
    ListRequest(
      StrOr(p, Search, ""),
      Filters(StrOr(p, Source, "all"), StrOr(p, Temperature, "all"), StrOr(p, Stage, "all"),
              StrOr(p, Group, "all"), "all", "all", StrOr(p, SortBy, "newest")),
      if Page in p then p[Page] else Undefined,
      if Limit in p then p[Limit] else Undefined)
  }

  /** Leaving a field out means the same as sending its sentinel: decoding the list
      request recovers the trimmed search text, every forwarded filter and the page
      and limit, while tags and date range read back as unconstrained. */
  lemma ListQueryRoundTrip(p: Params, search: string, f: Filters, page: int, limit: int)
    requires IsListQuery(p, Trim(search), f, page, limit)
    ensures DecodeListQuery(p)
         == ListRequest(Trim(search), f.(tags := "all", dateRange := "all"), Num(page), Num(limit))
  {
    var d := DecodeListQuery(p);
    assert d.search == Trim(search);
    assert d.filters.source == f.source;
    assert d.filters.temperature == f.temperature;
    assert d.filters.stage == f.stage;
    assert d.filters.group == f.group;
    assert d.filters.sortBy == f.sortBy;
  }

  /** No list request ever carries a filter at its sentinel value, nor an empty
      search text. */
  lemma ListQueryOmitsSentinels(p: Params, search: string, f: Filters, page: int, limit: int)
    requires IsListQuery(p, Trim(search), f, page, limit)
    ensures forall k :: k in p && k in {Source, Temperature, Stage, Group} ==> p[k] != Str("all")
    ensures SortBy in p ==> p[SortBy] != Str("newest")
    ensures Search in p ==> Truthy(p[Search])
  {
  }

  /** With the filters at their defaults only page, limit and possibly the search
      text are sent. */
  lemma DefaultFiltersSendNoFilter(p: Params, search: string, page: int, limit: int)
    requires IsListQuery(p, Trim(search), DefaultFilters, page, limit)
    ensures p.Keys <= {Page, Limit, Search}
  {
    forall k | k in p ensures k in {Page, Limit, Search} {
      match k
      case Page =>
      case Limit =>
      case Search =>
      case Source =>
      case Temperature =>
      case Stage =>
      case Group =>
      case SortBy =>
    }
  }

  /** The export request: `source` and `temperature`, each `undefined` when
      unconstrained. */
  function ExportQuery(f: Filters): (p: Params)
    ensures p.Keys == {Source, Temperature}
    ensures p[Source] == (if f.source != "all" then Str(f.source) else Undefined)
    ensures p[Temperature] == (if f.temperature != "all" then Str(f.temperature) else Undefined)
  {
    map[Source := if f.source != "all" then Str(f.source) else Undefined,
        Temperature := if f.temperature != "all" then Str(f.temperature) else Undefined]
  }

  /** The export request forwards exactly the list request's source and temperature
      constraints and nothing else: a key is defined in the export request iff the
      list request carries it, with the same value; stage, group, sort order and
      search text are dropped. */
  lemma ExportAgreesWithList(l: Params, search: string, f: Filters, page: int, limit: int)
    requires IsListQuery(l, Trim(search), f, page, limit)
    ensures ExportQuery(f)[Source] != Undefined <==> Source in l
    ensures ExportQuery(f)[Temperature] != Undefined <==> Temperature in l
    ensures Source in l ==> ExportQuery(f)[Source] == l[Source]
    ensures Temperature in l ==> ExportQuery(f)[Temperature] == l[Temperature]
  {
  }
}
