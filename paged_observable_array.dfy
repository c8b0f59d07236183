/**
  `ko.pagedObservableArray`: a collection that fetches its data page by page
  through an injected `loadPage` function and exposes the current page.

  The Knockout observables become plain fields of a class; the computed
  observables `pageCount` and `page` become functions of those fields. The
  asynchronous load is split in two: `StartLoad` is what happens when the load
  is issued, `CompleteLoad` is its `.then` handler followed by its `.always`
  handler, run when one of the issued requests settles.
 */
module PagedObservableArray {
  import opened Wrappers
  import opened Paging

  /** The request parameters handed to `loadPage`: a plain object of numeric fields. */
  type Params = map<string, int>

  /** Which fields of a response hold the items and the total count. */
  datatype Schema = Schema(data: string, count: string)

  const DefaultSchema: Schema := Schema("Data", "Count")
  const DefaultPageSize: nat := 10

  /**
    The options object given to the constructor. `hasLoadPage` says whether the
    required `loadPage` function is there; the function itself is outside the model,
    its calls are recorded as the requests it is given.
   */
  datatype Options<!T> = Options(
    hasLoadPage: bool,
    data: Option<seq<T>>,
    pageSize: Option<nat>,
    schema: Option<Schema>,
    parameterMap: Option<Params -> Params>,
    mapItems: Option<seq<T> -> seq<T>>,
    aggregateResults: bool,
    autoLoad: bool)

  /** The initial state the constructor derives from the options. */
  datatype Setup<T> = Setup(data: seq<T>, pageSize: nat, schema: Schema)

  /**
    The construction checks and defaults: no options, or options without
    `loadPage`, is an error; otherwise the schema, page size and data fall back
    to their defaults when absent (a page size of 0 counts as absent).
   */
  function Configure<T>(options: Option<Options<T>>): (r: Result<Setup<T>, string>)
    ensures options.None? ==> r == Failure("Options not specified")
    ensures options.Some? && !options.value.hasLoadPage ==> r == Failure("loadPage not specified on options")
    ensures r.Success? <==> options.Some? && options.value.hasLoadPage
    ensures r.Success? ==> r.value.pageSize >= 1
    ensures r.Success? ==>
              r.value.pageSize ==
                if options.value.pageSize.Some? && options.value.pageSize.value != 0 then options.value.pageSize.value else 10
    ensures r.Success? ==>
              r.value.schema == if options.value.schema.Some? then options.value.schema.value else Schema("Data", "Count")
    ensures r.Success? ==> r.value.data == (if options.value.data.Some? then options.value.data.value else [])
  {
    match options
    case None => Failure("Options not specified")
    case Some(o) =>
      if !o.hasLoadPage then Failure("loadPage not specified on options")
      else
        var size := match o.pageSize { case Some(n) => if n == 0 then DefaultPageSize else n case None => DefaultPageSize };
        var schema := match o.schema { case Some(s) => s case None => DefaultSchema };
        var data := match o.data { case Some(d) => d case None => [] };
        Success(Setup(data, size, schema))
  }

  /** How an issued `loadPage` request settles. */
  datatype Settlement<T> =
    | Resolved(status: string, items: seq<T>, count: int)  // the response's schema.data and schema.count fields
    | Rejected

  /** What a successful response makes of the data: mapped items, or the items appended to or replacing the old data. */
  function Committed<T>(old_data: seq<T>, items: seq<T>, mapItems: Option<seq<T> -> seq<T>>, aggregateResults: bool): (r: seq<T>)
    ensures mapItems.Some? ==> r == mapItems.value(items)
    ensures mapItems.None? && aggregateResults ==> r == old_data + items
    ensures mapItems.None? && !aggregateResults ==> r == items
  {
    var tmp := if aggregateResults then old_data else [];
    if mapItems.Some? then mapItems.value(items) else tmp + items
  }

  class PagedArray<T> {
    var allData: seq<T>
    var pageSize: nat
    var pageIndex: int
    var totalCount: int
    var loading: bool
    /** Request snapshots of the loads issued and not yet settled, in the order they were issued. */
    var pending: seq<Params>

    const schema: Schema
    const parameterMap: Option<Params -> Params>
    const mapItems: Option<seq<T> -> seq<T>>
    const aggregateResults: bool

    ghost predicate Valid()
      reads this
    {
      pageSize >= 1
    }

    /** The computed `pageCount`. */
    function PageCount(): nat
      reads this
      requires Valid()
    {
      PageCountOf(totalCount, |allData|, pageSize)
    }

    /** The computed `page`. */
    function Page(): seq<T>
      reads this
    {
      PageOf(allData, pageSize, pageIndex)
    }

    /** The parameters a load issued now would send: `{pageSize, pageIndex}`, passed through `parameterMap` if given. */
    function RequestParams(): (p: Params)
      reads this
      ensures parameterMap.None? ==> p == map["pageSize" := pageSize, "pageIndex" := pageIndex]
      ensures parameterMap.Some? ==> var f := parameterMap.value; p == f(map["pageSize" := pageSize, "pageIndex" := pageIndex])
    {
      var p: Params := map["pageSize" := pageSize, "pageIndex" := pageIndex];
      if parameterMap.Some? then var f := parameterMap.value; f(p) else p
    }

    constructor (options: Options<T>)
      requires Configure(Some(options)).Success?
      ensures Valid()
      ensures var setup := Configure(Some(options)).value;
        allData == setup.data && pageSize == setup.pageSize && schema == setup.schema
      ensures pageIndex == 0 && totalCount == 0
      ensures aggregateResults == options.aggregateResults
      ensures parameterMap == options.parameterMap && mapItems == options.mapItems
      ensures loading == options.autoLoad
      ensures pending == if options.autoLoad then [RequestParams()] else []
    {
      var setup := Configure(Some(options)).value;
      allData := setup.data;
      pageSize := setup.pageSize;
      pageIndex := 0;
      totalCount := 0;
      loading := false;
      pending := [];
      schema := setup.schema;
      parameterMap := options.parameterMap;
      mapItems := options.mapItems;
      aggregateResults := options.aggregateResults;
      new;
      if options.autoLoad {
        StartLoad();
      }
    }

    /** Issue a load: set `loading` and hand a snapshot of the request parameters to `loadPage`. */
    method StartLoad()
      requires Valid()
      modifies this
      ensures Valid()
      ensures loading
      ensures pending == old(pending) + [old(RequestParams())]
      ensures allData == old(allData) && pageSize == old(pageSize)
      ensures pageIndex == old(pageIndex) && totalCount == old(totalCount)
    {
      var params: Params := map["pageSize" := pageSize, "pageIndex" := pageIndex];
      loading := true;
      if parameterMap.Some? {
        var f := parameterMap.value;
        params := f(params);
      }
      pending := pending + [params];
    }

    /**
      Settle the `i`-th pending request. Only a resolution with status "success"
      commits anything: the count, the new data, and the snapshot's page index when
      the snapshot carries one. Every settlement clears `loading`.
     */
    method CompleteLoad(i: nat, outcome: Settlement<T>)
      requires Valid()
      requires i < |pending|
      modifies this
      ensures Valid()
      ensures !loading
      ensures pending == old(pending[..i] + pending[i + 1..])
      ensures pageSize == old(pageSize)
      ensures outcome.Resolved? && outcome.status == "success" ==>
        && totalCount == outcome.count
        && allData == Committed(old(allData), outcome.items, mapItems, aggregateResults)
        && pageIndex == (if "pageIndex" in old(pending[i]) then old(pending[i])["pageIndex"] else old(pageIndex))
      ensures !(outcome.Resolved? && outcome.status == "success") ==>
        allData == old(allData) && totalCount == old(totalCount) && pageIndex == old(pageIndex)
    {
      var params := pending[i];
      pending := pending[..i] + pending[i + 1..];
      if outcome.Resolved? && outcome.status == "success" {
        var tmp := if aggregateResults then allData else [];
        totalCount := outcome.count;
        if mapItems.Some? {
          tmp := mapItems.value(outcome.items);
        } else {
          tmp := tmp + outcome.items;
        }
        allData := tmp;
        if "pageIndex" in params {
          pageIndex := params["pageIndex"];
        }
      }
      loading := false;
    }

    /** Reload with the current page index and size. */
    method Refresh()
      requires Valid()
      modifies this
      ensures Valid() && loading
      ensures pending == old(pending) + [old(RequestParams())]
      ensures allData == old(allData) && pageSize == old(pageSize)
      ensures pageIndex == old(pageIndex) && totalCount == old(totalCount)
    {
      StartLoad();
    }

    /** Move to the next page and load it, unless already on the last page. */
    method NextPage()
      requires Valid()
      modifies this
      ensures Valid()
      ensures allData == old(allData) && pageSize == old(pageSize) && totalCount == old(totalCount)
      ensures old(pageIndex < PageCount() - 1) ==>
        pageIndex == old(pageIndex) + 1 && loading && pending == old(pending) + [RequestParams()]
      ensures old(pageIndex >= PageCount() - 1) ==>
        pageIndex == old(pageIndex) && loading == old(loading) && pending == old(pending)
      ensures old(0 <= pageIndex < PageCount()) ==> 0 <= pageIndex < PageCount()
    {
      if pageIndex < PageCount() - 1 {
        pageIndex := pageIndex + 1;
        StartLoad();
      }
    }

    /** Move to the previous page and load it, unless already on the first page. */
    method PreviousPage()
      requires Valid()
      modifies this
      ensures Valid()
      ensures allData == old(allData) && pageSize == old(pageSize) && totalCount == old(totalCount)
      ensures old(pageIndex) > 0 ==>
        pageIndex == old(pageIndex) - 1 && loading && pending == old(pending) + [RequestParams()]
      ensures old(pageIndex) <= 0 ==>
        pageIndex == old(pageIndex) && loading == old(loading) && pending == old(pending)
      ensures old(0 <= pageIndex < PageCount()) ==> 0 <= pageIndex < PageCount()
    {
      if pageIndex > 0 {
        pageIndex := pageIndex - 1;
        StartLoad();
      }
    }

    /**
      Write the `pageSize` observable. A write of a different value notifies its
      subscriber, which goes back to page 0 and loads it; writing the value it
      already holds notifies nobody.
     */
    method SetPageSize(n: nat)
      requires Valid() && n >= 1
      modifies this
      ensures Valid() && pageSize == n
      ensures allData == old(allData) && totalCount == old(totalCount)
      ensures n != old(pageSize) ==>
        pageIndex == 0 && loading && pending == old(pending) + [RequestParams()]
      ensures n == old(pageSize) ==>
        pageIndex == old(pageIndex) && loading == old(loading) && pending == old(pending)
    {
      if n != pageSize {
        pageSize := n;
        pageIndex := 0;
        StartLoad();
      }
    }
  }

  /**
    A refresh answered with ten items and a count of 42 on pages of ten: the data
    is the ten items, the count 42, five pages, and nothing is loading any more.
   */
  method RefreshScenario<T>(items: seq<T>)
    requires |items| == 10
  {
    var options := Options(true, None, Some(10), None, None, None, false, false);
    var a := new PagedArray<T>(options);
    assert a.pending == [];
    a.Refresh();
    a.CompleteLoad(0, Resolved("success", items, 42));
    assert |a.allData| == 10 && a.totalCount == 42 && !a.loading && a.pending == [];
    assert a.PageCount() == 5;
  }

  /** Two successful loads of ten items each: appended in aggregate mode, replaced otherwise. */
  method AggregateScenario<T>(first: seq<T>, second: seq<T>, aggregate: bool)
    requires |first| == 10 && |second| == 10
  {
    var options := Options(true, None, None, None, None, None, aggregate, true);
    var a := new PagedArray<T>(options);
    a.CompleteLoad(0, Resolved("success", first, 42));
    a.NextPage();
    a.CompleteLoad(0, Resolved("success", second, 42));
    assert aggregate ==> a.allData == first + second && |a.allData| == 20;
    assert !aggregate ==> a.allData == second && |a.allData| == 10;
    assert a.pageIndex == 1;
  }
}
