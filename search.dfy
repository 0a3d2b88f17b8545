/**
 * The search engine (SearchEngineImpl): builds a backend search request from a free-text
 * query, filters, a page request, sort orders and aggregations, and decodes the
 * backend's response into a typed page. Executing the request is not modelled; decoding
 * one hit's sub-document is a parameter (the JSON library's partial decoder).
 */
module Search {
  import opened Domain

  /** The three base queries prepareSearch can choose from. */
  datatype Query =
    | MatchAll
    | SimpleQueryString(text: string)
    | CrossFields(text: string, fields: seq<string>, lenient: bool)

  /** A bool query: scoring clauses under must, inclusion-only clauses under filter. */
  datatype BoolQuery<Q> = BoolQuery(must: seq<Query>, filter: seq<Q>)

  datatype Direction = Asc | Desc

  /** One order of a Spring Data Sort: a property and a direction. */
  datatype Order = Order(property: string, direction: Direction)

  /** A page request: page number and size, the offset they give, and an optional sort. */
  datatype Pageable = Pageable(pageNumber: nat, pageSize: nat, offset: nat, sort: Option<seq<Order>>)

  datatype SortClause = FieldSort(path: string, direction: Direction) | ScoreSort

  /** What prepareSearch hands back: the index alias, the query, paging, sorts and aggregations. */
  datatype SearchRequest<Q, A> = SearchRequest(
    index: string,
    query: BoolQuery<Q>,
    size: nat,
    from: nat,
    sorts: seq<SortClause>,
    aggregations: seq<A>)

  /** Per-DTO-type binding of a search engine; a null field list means "parse the query string". */
  datatype SearchConfig = SearchConfig(
    name: string,
    includeInOmnisearch: bool,
    alias: string,
    fields: Option<seq<string>>,
    supportedClass: ClassName)

  /** The part of the backend's answer the engine reads. */
  datatype SearchResponse<H, A> = SearchResponse(
    tookMillis: int,
    hits: seq<H>,
    totalHits: int,
    aggregations: Option<seq<A>>)

  /** The engine's answer; a missing aggregation list means the backend sent none. */
  datatype SearchResult<T, A> = SearchResult(tookMillis: int, page: Page<T>, aggregations: Option<seq<A>>)

  /** Strings.isNullOrEmpty. */
  predicate IsNullOrEmpty(q: Option<string>)
  {
    q.None? || q.value == ""
  }

  /** The sub-document of a hit that each parse reads, and the class of SummaryDTO. */
  const DtoField := "dto"
  const SummaryField := "summary"
  const SummaryClass: ClassName := "SummaryDTO"

  /**
   * The base query: match-all for a null or empty query string, whatever the fields;
   * otherwise a query-string parse when no fields are configured, and otherwise a
   * lenient cross-fields match over exactly the configured fields.
   */
  function InitialQuery(q: Option<string>, fields: Option<seq<string>>): (r: Query)
    ensures r.MatchAll? <==> IsNullOrEmpty(q)
    ensures r.SimpleQueryString? <==> !IsNullOrEmpty(q) && fields.None?
    ensures r.CrossFields? <==> !IsNullOrEmpty(q) && fields.Some?
    ensures !r.MatchAll? ==> r.text == q.value
    ensures r.CrossFields? ==> r.fields == fields.value && r.lenient
  {
    if IsNullOrEmpty(q) then MatchAll
    else if fields.None? then SimpleQueryString(q.value)
    else CrossFields(q.value, fields.value, true)
  }

  /** The sort path of a property: the property inside the document's "dto" sub-object. */
  function SortPath(property: string): (path: string)
    ensures |path| == |property| + 4
    ensures path[..4] == "dto." && path[4..] == property
  {
    "dto." + property
  }

  /**
   * prepareSearch(q, pageable, filters, aggregations): the base query as the only must
   * clause, one filter clause per filter, paging copied, one field sort per order then
   * the score sort (only when a sort is present), and the aggregations verbatim.
   */
  method PrepareSearch<Q, A>(config: SearchConfig, q: Option<string>, pageable: Pageable,
                             filters: Option<seq<Q>>, aggregations: Option<seq<A>>)
    returns (request: SearchRequest<Q, A>)
    ensures request.index == config.alias
    ensures request.query.must == [InitialQuery(q, config.fields)]
    ensures request.query.filter == if filters.None? then [] else filters.value
    ensures request.size == pageable.pageSize && request.from == pageable.offset
    ensures pageable.sort.None? ==> request.sorts == []
    ensures pageable.sort.Some? ==>
      var orders := pageable.sort.value;
      && |request.sorts| == |orders| + 1
      && (forall i :: 0 <= i < |orders| ==>
            request.sorts[i] == FieldSort(SortPath(orders[i].property), orders[i].direction))
      && request.sorts[|orders|] == ScoreSort
    ensures request.aggregations == if aggregations.None? then [] else aggregations.value
  {
    var initialQuery := InitialQuery(q, config.fields);
    var query: BoolQuery<Q> := BoolQuery([initialQuery], []);
    if filters.Some? {
      var i := 0;
      while i < |filters.value|
        invariant 0 <= i <= |filters.value|
        invariant query == BoolQuery([initialQuery], filters.value[..i])
      {
        query := query.(filter := query.filter + [filters.value[i]]);
        i := i + 1;
      }
      assert filters.value[..i] == filters.value;
    }

    request := SearchRequest(config.alias, query, pageable.pageSize, pageable.offset, [], []);

    if pageable.sort.Some? {
      var orders := pageable.sort.value;
      var i := 0;
      while i < |orders|
        invariant 0 <= i <= |orders|
        invariant request == SearchRequest(config.alias, query, pageable.pageSize, pageable.offset, request.sorts, [])
        invariant |request.sorts| == i
        invariant forall j :: 0 <= j < i ==> request.sorts[j] == FieldSort(SortPath(orders[j].property), orders[j].direction)
      {
        var sortClause := FieldSort(SortPath(orders[i].property), orders[i].direction);
        request := request.(sorts := request.sorts + [sortClause]);
        i := i + 1;
      }
      request := request.(sorts := request.sorts + [ScoreSort]);
    }

    if aggregations.Some? {
      var i := 0;
      while i < |aggregations.value|
        invariant 0 <= i <= |aggregations.value|
        invariant request.aggregations == aggregations.value[..i]
        invariant request.index == config.alias && request.query == query
        invariant request.size == pageable.pageSize && request.from == pageable.offset
        invariant pageable.sort.None? ==> request.sorts == []
        invariant pageable.sort.Some? ==>
          var orders := pageable.sort.value;
          && |request.sorts| == |orders| + 1
          && (forall j :: 0 <= j < |orders| ==>
                request.sorts[j] == FieldSort(SortPath(orders[j].property), orders[j].direction))
          && request.sorts[|orders|] == ScoreSort
      {
        request := request.(aggregations := request.aggregations + [aggregations.value[i]]);
        i := i + 1;
      }
      assert aggregations.value[..i] == aggregations.value;
    }
  }

  /**
   * doParseResults(response, pageable, field, target): decodes the given sub-document of
   * every hit, in hit order; one failure fails the whole call. The page keeps the page
   * request and the backend's total; aggregations are passed on exactly when present.
   */
  method DoParseResults<H, A, T>(response: SearchResponse<H, A>, pageable: Pageable, field: string,
                                 target: ClassName, read: (H, string, ClassName) -> Option<T>)
    returns (r: Result<SearchResult<T, A>>)
    ensures r.Ok? <==> forall i :: 0 <= i < |response.hits| ==> read(response.hits[i], field, target).Some?
    ensures r.Err? ==> r.error == CannotParse(field, target)
    ensures r.Ok? ==>
      var page := r.value.page;
      && |page.content| == |response.hits|
      && (forall i :: 0 <= i < |response.hits| ==> page.content[i] == read(response.hits[i], field, target).value)
      && page.number == pageable.pageNumber && page.size == pageable.pageSize
      && page.total == response.totalHits
      && r.value.tookMillis == response.tookMillis
      && r.value.aggregations == response.aggregations
  {
    var resultList: seq<T> := [];
    var i := 0;
    while i < |response.hits|
      invariant 0 <= i <= |response.hits|
      invariant |resultList| == i
      invariant forall j :: 0 <= j < i ==> read(response.hits[j], field, target) == Some(resultList[j])
    {
      var decoded := read(response.hits[i], field, target);
      if decoded.None? {
        return Err(CannotParse(field, target));
      }
      resultList := resultList + [decoded.value];
      i := i + 1;
    }

    var page := Page(resultList, pageable.pageNumber, pageable.pageSize, response.totalHits);
    if response.aggregations.Some? {
      r := Ok(SearchResult(response.tookMillis, page, response.aggregations));
    } else {
      r := Ok(SearchResult(response.tookMillis, page, None));
    }
  }

  /** parseResults: every hit's "dto" sub-document decoded into the configured DTO class. */
  method ParseResults<H, A, D>(config: SearchConfig, response: SearchResponse<H, A>, pageable: Pageable,
                               read: (H, string, ClassName) -> Option<D>)
    returns (r: Result<SearchResult<D, A>>)
    ensures r.Ok? <==> forall i :: 0 <= i < |response.hits| ==> read(response.hits[i], DtoField, config.supportedClass).Some?
    ensures r.Err? ==> r.error == CannotParse(DtoField, config.supportedClass)
    ensures r.Ok? ==>
      && |r.value.page.content| == |response.hits|
      && (forall i :: 0 <= i < |response.hits| ==>
            r.value.page.content[i] == read(response.hits[i], DtoField, config.supportedClass).value)
      && r.value.page.number == pageable.pageNumber && r.value.page.size == pageable.pageSize
      && r.value.page.total == response.totalHits
      && r.value.tookMillis == response.tookMillis
      && r.value.aggregations == response.aggregations
  {
    r := DoParseResults(response, pageable, DtoField, config.supportedClass, read);
  }

  /** parseSummaryResults: every hit's "summary" sub-document decoded into SummaryDTO. */
  method ParseSummaryResults<H, A, S>(response: SearchResponse<H, A>, pageable: Pageable,
                                      read: (H, string, ClassName) -> Option<S>)
    returns (r: Result<SearchResult<S, A>>)
    ensures r.Ok? <==> forall i :: 0 <= i < |response.hits| ==> read(response.hits[i], SummaryField, SummaryClass).Some?
    ensures r.Err? ==> r.error == CannotParse(SummaryField, SummaryClass)
    ensures r.Ok? ==>
      && |r.value.page.content| == |response.hits|
      && (forall i :: 0 <= i < |response.hits| ==>
            r.value.page.content[i] == read(response.hits[i], SummaryField, SummaryClass).value)
      && r.value.page.number == pageable.pageNumber && r.value.page.size == pageable.pageSize
      && r.value.page.total == response.totalHits
      && r.value.tookMillis == response.tookMillis
      && r.value.aggregations == response.aggregations
  {
    r := DoParseResults(response, pageable, SummaryField, SummaryClass, read);
  }

  /** supports(delimiter): the delimiter is the supported DTO class or one of its superclasses. */
  function Supports(config: SearchConfig, parents: Hierarchy, delimiter: ClassName): (r: bool)
    ensures r <==> delimiter in Superclasses(parents, config.supportedClass)
  {
    AssignableIffSuperclass(parents, delimiter, config.supportedClass);
    IsAssignableFrom(parents, delimiter, config.supportedClass)
  }
}
