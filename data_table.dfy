/**
 * The list-page component of sites/aliyun/static/js/core/data-table-factory.js:
 * a table configuration (its fields and the path of the rows in a reply),
 * the page state (page, page size, total, region, search filters), the
 * state kept in the URL hash, the load of one page through a list API,
 * and the formatting of a cell. The API function is a parameter that gives
 * the reply for the arguments it is called with; the browser history is
 * the field `pushedHash`.
 */
module DataTable {
  import opened Wrappers
  import opened Strs
  import opened Json
  import opened FieldPath
  import opened ApiParams
  import Store

  type Positive = n: nat | n > 0 witness 1

  /** A field of a table configuration; an empty `filterField` or `columnType` is an absent one. */
  datatype Field = Field(
    field: string,
    showInFilter: bool,
    filterField: string,
    showInTable: bool,
    defaultValue: Option<string>,
    columnType: string,
    suffix: Option<string>)

  /** `filterFields`: the fields shown in the search form, in order. */
  function FilterFields(fields: seq<Field>): (r: seq<Field>)
    ensures |r| <= |fields|
    ensures forall f :: f in r <==> f in fields && f.showInFilter
  {
    if fields == [] then []
    else (if fields[0].showInFilter then [fields[0]] else []) + FilterFields(fields[1..])
  }

  /** `tableFields`: the fields shown as columns, in order. */
  function TableFields(fields: seq<Field>): (r: seq<Field>)
    ensures |r| <= |fields|
    ensures forall f :: f in r <==> f in fields && f.showInTable
  {
    if fields == [] then []
    else (if fields[0].showInTable then [fields[0]] else []) + TableFields(fields[1..])
  }

  /** A field that has a search box: shown in the filter form and naming its filter. */
  predicate Filterable(f: Field) {
    f.showInFilter && f.filterField != ""
  }

  /** The names of the search filters a configuration declares. */
  function FilterNames(fields: seq<Field>): (names: set<string>)
    ensures "" !in names
  {
    if fields == [] then {}
    else
      var last := fields[|fields| - 1];
      FilterNames(fields[..|fields| - 1]) + (if Filterable(last) then {last.filterField} else {})
  }

  /** The filters that are sent: declared ones holding a non-empty value. */
  function SentNames(fields: seq<Field>, filters: map<string, string>): set<string> {
    set n | n in FilterNames(fields) && n in filters && filters[n] != ""
  }

  /** Whether a field's filter is sent (`field.showInFilter && field.filterField && this.filters[field.filterField]`). */
  predicate Sends(f: Field, filters: map<string, string>) {
    Filterable(f) && f.filterField in filters && filters[f.filterField] != ""
  }

  /** The sent filters set onto `p`, one field after the other. */
  function AddSent(p: Params, fields: seq<Field>, filters: map<string, string>): (r: Params)
    ensures forall name :: Get(r, name) == if name in SentNames(fields, filters) then Some(filters[name]) else Get(p, name)
    ensures Distinct(p) ==> Distinct(r)
  {
    if fields == [] then p
    else
      var last := fields[|fields| - 1];
      var q := AddSent(p, fields[..|fields| - 1], filters);
      if Sends(last, filters) then Assign(q, last.filterField, filters[last.filterField]) else q
  }

  /** The search filters passed to the list API (`searchFilters`). */
  function SearchFilters(fields: seq<Field>, filters: map<string, string>): (r: Params)
    ensures Distinct(r)
    ensures forall name :: Get(r, name).Some? <==> name in FilterNames(fields) && name in filters && filters[name] != ""
    ensures forall name | Get(r, name).Some? :: Get(r, name).value == filters[name]
  {
    AddSent([], fields, filters)
  }

  /** The hash parameters before the filters: the region always, the page and the page size when not the defaults. */
  function BaseHash(regionId: string, page: Positive, size: Positive): (p: Params)
    ensures Distinct(p)
    ensures Get(p, "regionId") == Some(regionId)
    ensures Get(p, "page") == if page > 1 then Some(NatToString(page)) else None
    ensures Get(p, "pageSize") == if size != 10 then Some(NatToString(size)) else None
    ensures forall name | name != "regionId" && name != "page" && name != "pageSize" :: Get(p, name).None?
  {
    var p := Assign([], "regionId", regionId);
    var p := if page > 1 then Assign(p, "page", NatToString(page)) else p;
    if size != 10 then Assign(p, "pageSize", NatToString(size)) else p
  }

  /** The hash `updateUrl` writes. */
  function UrlHash(regionId: string, page: Positive, size: Positive, fields: seq<Field>, filters: map<string, string>): (r: Params)
    ensures Distinct(r)
    ensures forall name | name in SentNames(fields, filters) :: Get(r, name) == Some(filters[name])
  {
    AddSent(BaseHash(regionId, page, size), fields, filters)
  }

  /** The URL carries the same search filters as the API call, unless a filter is named like a page parameter. */
  lemma UrlCarriesFilters(regionId: string, page: Positive, size: Positive, fields: seq<Field>, filters: map<string, string>, name: string)
    requires name != "regionId" && name != "page" && name != "pageSize"
    ensures Get(UrlHash(regionId, page, size, fields, filters), name) == Get(SearchFilters(fields, filters), name)
  {
  }

  /** `urlParams.get('regionId') || window.appStore.keys.getDefaultRegion() || 'cn-hangzhou'`. */
  function HashRegion(hash: Params, storedRegion: Option<string>): (r: string)
    ensures r != ""
    ensures Get(hash, "regionId").Some? && Get(hash, "regionId").value != "" ==> r == Get(hash, "regionId").value
  {
    match Get(hash, "regionId")
    case Some(region) => if region != "" then region else StoredRegion(storedRegion)
    case None => StoredRegion(storedRegion)
  }

  function StoredRegion(storedRegion: Option<string>): string {
    if storedRegion.Some? && storedRegion.value != "" then storedRegion.value else "cn-hangzhou"
  }

  /** `if (text) x = parseInt(text)`, for a text that reads as a positive number. */
  function HashNumber(hash: Params, name: string, current: Positive): (r: Positive)
    ensures Get(hash, name).None? ==> r == current
  {
    match Get(hash, name)
    case None => current
    case Some(text) => if ParseInt(text).Some? && ParseInt(text).value > 0 then ParseInt(text).value else current
  }

  /** A filter read from the hash: its value when present and non-empty, else the '' of `initFilters`. */
  function HashFilter(hash: Params, name: string): (r: string)
    ensures Get(hash, name).Some? ==> r == Get(hash, name).value
  {
    match Get(hash, name)
    case None => ""
    case Some(text) => text
  }

  /**
   * Reading back the hash `updateUrl` wrote, into a fresh component,
   * restores the region, the page, the page size and every declared filter.
   */
  lemma UrlRoundTrip(regionId: string, page: Positive, size: Positive, fields: seq<Field>, filters: map<string, string>,
                     storedRegion: Option<string>, name: string)
    requires regionId != ""
    requires "regionId" !in FilterNames(fields) && "page" !in FilterNames(fields) && "pageSize" !in FilterNames(fields)
    requires name in FilterNames(fields)
    ensures HashRegion(UrlHash(regionId, page, size, fields, filters), storedRegion) == regionId
    ensures HashNumber(UrlHash(regionId, page, size, fields, filters), "page", 1) == page
    ensures HashNumber(UrlHash(regionId, page, size, fields, filters), "pageSize", 10) == size
    ensures HashFilter(UrlHash(regionId, page, size, fields, filters), name) == if name in filters then filters[name] else ""
  {
    var hash := UrlHash(regionId, page, size, fields, filters);
    UrlHashKeepsBase(regionId, page, size, fields, filters, "regionId");
    UrlHashKeepsBase(regionId, page, size, fields, filters, "page");
    UrlHashKeepsBase(regionId, page, size, fields, filters, "pageSize");
    NumberRoundTrip(hash, "page", page, 1);
    NumberRoundTrip(hash, "pageSize", size, 10);
  }

  /** A name no field filters on reads in the hash as in the base parameters. */
  lemma UrlHashKeepsBase(regionId: string, page: Positive, size: Positive, fields: seq<Field>, filters: map<string, string>,
                         name: string)
    requires name !in FilterNames(fields)
    ensures Get(UrlHash(regionId, page, size, fields, filters), name) == Get(BaseHash(regionId, page, size), name)
  {
    assert name !in SentNames(fields, filters);
  }

  /** A page number written only when it differs from the default reads back as itself. */
  lemma NumberRoundTrip(hash: Params, name: string, n: Positive, default: Positive)
    requires Get(hash, name) == if n != default then Some(NatToString(n)) else None
    ensures HashNumber(hash, name, default) == n
  {
    ParseIntOfNatToString(n);
  }

  /** `Math.ceil(totalCount / pageSize)`. */
  function TotalPages(total: nat, size: Positive): (pages: nat)
    ensures total <= pages * size
    ensures pages > 0 ==> (pages - 1) * size < total
    ensures pages == 0 <==> total == 0
  {
    (total + size - 1) / size
  }

  /** `startItem`: the 1-based number of the first row of the page. */
  function StartItem(page: Positive, size: Positive): nat {
    (page - 1) * size + 1
  }

  /** `endItem`: the number of the last row of the page. */
  function EndItem(page: Positive, size: Positive, total: nat): nat {
    if page * size < total then page * size else total
  }

  /**
   * On every page from the first to the last, the rows shown are a
   * non-empty range of at most a page size; each page starts right after
   * the one before ends, and the last page ends at the total.
   */
  lemma PagesTile(page: Positive, size: Positive, total: nat)
    requires page <= TotalPages(total, size)
    ensures StartItem(page, size) <= EndItem(page, size, total)
    ensures EndItem(page, size, total) - StartItem(page, size) < size
    ensures page < TotalPages(total, size) ==> EndItem(page, size, total) + 1 == StartItem(page + 1, size)
    ensures page == TotalPages(total, size) ==> EndItem(page, size, total) == total
  {
    var pages := TotalPages(total, size);
    assert (page - 1) * size <= (pages - 1) * size;
    if page < pages {
      assert page * size <= (pages - 1) * size;
    }
  }

  /** What the API function gives back: a reply, or an exception with its message. */
  datatype Reply = Answer(data: Value) | Thrown(message: string)

  /** A list API: (regionId, accessKeyId, accessKeySecret, page, pageSize, searchFilters). */
  type ListApi = (string, string, string, Positive, Positive, Params) -> Reply

  /** The message of the TypeError thrown by reading `Code` of a null reply. */
  const NullReplyMessage: string := "Cannot read properties of null (reading 'Code')"

  /** The reply once `data.Code` has been read: on a null reply that read throws. */
  function Checked(reply: Reply): Reply {
    if reply == Answer(Null) then Thrown(NullReplyMessage) else reply
  }

  /** `data.Code` is set. */
  predicate Failed(data: Value) {
    Member(data, "Code").Some? && Truthy(Member(data, "Code").value)
  }

  /** `data.Message || '加载失败'`. */
  function FailureText(data: Value): (t: string)
    ensures t != "" || Member(data, "Message").Some?
  {
    match Member(data, "Message")
    case Some(m) => if Truthy(m) then Display(m) else "加载失败"
    case None => "加载失败"
  }

  /** `items || []`, where the items are found by walking the dotted data path without stopping. */
  function Rows(data: Value, dataPath: string): (rows: Value)
    ensures Truthy(rows)
    ensures var at := Follow(Some(data), Split(dataPath, '.'));
            at.Some? && Truthy(at.value) ==> rows == at.value
    ensures !rows.Arr? ==> Follow(Some(data), Split(dataPath, '.')) == Some(rows)
  {
    match Follow(Some(data), Split(dataPath, '.'))
    case Some(v) => if Truthy(v) then v else Arr([])
    case None => Arr([])
  }

  /** `data.TotalCount || 0`, for a count given as a positive integer. */
  function Total(data: Value): (n: nat)
    ensures n > 0 <==> Member(data, "TotalCount").Some? && Member(data, "TotalCount").value.Num? && Member(data, "TotalCount").value.n > 0
  {
    match Member(data, "TotalCount")
    case Some(Num(n)) => if n > 0 then n else 0
    case _ => 0
  }

  /** The error a reply leaves: the exception's message, the failure's message, or none. */
  function ReplyError(reply: Reply): (e: string)
    ensures reply.Thrown? ==> e != ""
    ensures reply == Answer(Null) ==> e == NullReplyMessage
    ensures reply.Answer? && reply.data != Null && !Failed(reply.data) ==> e == ""
    ensures reply.Answer? && Failed(reply.data) ==> e == FailureText(reply.data)
  {
    match Checked(reply)
    case Thrown(m) => if m != "" then m else "加载失败"
    case Answer(data) => if Failed(data) then FailureText(data) else ""
  }

  /** The rows and the total a successful reply brings; none for an exception or a failure. */
  function ReplyRows(reply: Reply, dataPath: string): (r: Option<(Value, nat)>)
    ensures r.Some? <==> reply.Answer? && reply.data != Null && !Failed(reply.data)
    ensures r.Some? ==> Truthy(r.value.0)
  {
    if Checked(reply).Answer? && !Failed(reply.data) then Some((Rows(reply.data, dataPath), Total(reply.data))) else None
  }

  /**
   * What `formatStatus` returns: a `{text, class}` object, or a member
   * `statusMap` inherits from `Object.prototype`, which has neither field.
   */
  datatype StatusInfo = StatusInfo(text: string, cls: string) | PrototypeMember

  /** The `statusMap` of `formatStatus`. */
  const StatusMap: map<string, StatusInfo> := map[
    "Running" := StatusInfo("运行中", "running"),
    "Stopped" := StatusInfo("已停止", "stopped"),
    "Starting" := StatusInfo("启动中", "starting"),
    "Stopping" := StatusInfo("停止中", "stopping"),
    "Available" := StatusInfo("可用", "available"),
    "InUse" := StatusInfo("使用中", "inuse"),
    "Associating" := StatusInfo("绑定中", "associating"),
    "Pending" := StatusInfo("创建中", "pending"),
    "In_use" := StatusInfo("使用中", "inuse"),
    "Attaching" := StatusInfo("挂载中", "associating"),
    "Detaching" := StatusInfo("卸载中", "stopping"),
    "Creating" := StatusInfo("创建中", "pending"),
    "ReIniting" := StatusInfo("初始化中", "pending")]

  /** The `classMap` of `getBadgeClass`. */
  const BadgeMap: map<string, string> := map[
    "running" := "badge-success",
    "stopped" := "badge-error",
    "starting" := "badge-warning",
    "stopping" := "badge-warning",
    "available" := "badge-info",
    "inuse" := "badge-success",
    "associating" := "badge-warning",
    "pending" := "badge-warning"]

  /**
   * `formatStatus`: the entry of the status; for a name `statusMap`
   * inherits, the truthy inherited member; otherwise the status itself
   * with the class 'unknown'.
   */
  function FormatStatus(status: string): (info: StatusInfo)
    ensures status in StatusMap ==> info == StatusMap[status]
    ensures status !in StatusMap && status in InheritedNames ==> info == PrototypeMember
    ensures status !in StatusMap && status !in InheritedNames ==> info == StatusInfo(status, "unknown")
  {
    if status in StatusMap then StatusMap[status]
    else if status in InheritedNames then PrototypeMember
    else StatusInfo(status, "unknown")
  }

  /** `statusInfo.text` in a template literal: a missing field is written "undefined". */
  function ShownText(info: StatusInfo): (t: string)
    ensures info.StatusInfo? ==> t == info.text
    ensures info.PrototypeMember? ==> t == "undefined"
  {
    if info.StatusInfo? then info.text else "undefined"
  }

  /** `statusInfo.class` as a `classMap` key: a missing field is the key "undefined". */
  function ShownClass(info: StatusInfo): (c: string)
    ensures info.StatusInfo? ==> c == info.cls
    ensures info.PrototypeMember? ==> c == "undefined"
  {
    if info.StatusInfo? then info.cls else "undefined"
  }

  /** `getBadgeClass`: the class of the entry, or 'badge-ghost'. */
  function BadgeClass(statusClass: string): (c: string)
    ensures c == "badge-ghost" <==> statusClass !in BadgeMap
  {
    if statusClass in BadgeMap then BadgeMap[statusClass] else "badge-ghost"
  }

  /** Every known status has a coloured badge; an unknown one gets the plain 'badge-ghost'. */
  lemma GhostBadgeOnlyForUnknown(status: string)
    ensures BadgeClass(ShownClass(FormatStatus(status))) == "badge-ghost" <==> status !in StatusMap
  {
    assert "unknown" !in BadgeMap && "undefined" !in BadgeMap;
    if status in StatusMap {
      assert StatusMap[status].cls in BadgeMap;
    }
  }

  /** The badge markup of a status. */
  function Badge(value: Value): (html: string)
    ensures StartsWith(html, "<div class=\"badge ")
  {
    var info := FormatStatus(Display(value));
    BadgeHtml(BadgeClass(ShownClass(info)), ShownText(info))
  }

  function BadgeHtml(badgeClass: string, text: string): string {
    "<div class=\"badge " + badgeClass + "\">" + text + "</div>"
  }

  /** A status named like a member of `Object.prototype`, "constructor" say, shows as a plain badge reading "undefined". */
  lemma InheritedStatusBadge(status: string)
    requires status in InheritedNames
    ensures Badge(Str(status)) == BadgeHtml("badge-ghost", "undefined")
  {
    InheritedStatusUnmapped(status);
    assert BadgeClass("undefined") == "badge-ghost" by {
      assert "undefined" !in BadgeMap;
    }
  }

  /** No status of `statusMap` is named like a member of `Object.prototype`. */
  lemma InheritedStatusUnmapped(status: string)
    requires status in InheritedNames
    ensures FormatStatus(status) == PrototypeMember
  {
    assert status !in StatusMap;
  }

  predicate GivenText(o: Option<string>) {
    o.Some? && o.value != ""
  }

  /**
   * The formatting of a non-blank cell value, in this order: a datetime
   * column shows the formatted time; a suffix is appended to the value's
   * text; a badge column shows the status badge; any other value is shown
   * as it is. The locale formatting of dates is the parameter `formatTime`.
   */
  function Cell(value: Value, field: Field, formatTime: Value -> string): (r: Value)
    ensures field.columnType == "datetime" ==> r == Str(formatTime(value))
    ensures field.columnType != "datetime" && GivenText(field.suffix) ==>
              r.Str? && EndsWith(r.s, field.suffix.value) && StartsWith(r.s, Display(value))
    ensures field.columnType == "badge" && !GivenText(field.suffix) ==>
              r.Str? && StartsWith(r.s, "<div class=\"badge ")
    ensures field.columnType != "datetime" && field.columnType != "badge" && !GivenText(field.suffix) ==> r == value
  {
    if field.columnType == "datetime" then Str(formatTime(value))
    else if GivenText(field.suffix) then Str(Display(value) + field.suffix.value)
    else if field.columnType == "badge" then Str(Badge(value))
    else value
  }

  /**
   * `getColumnValue`: walks the field path of the item (the `[n]` indexes
   * rewritten as keys, stopping at undefined or null); an undefined, null
   * or '' value shows the default, any other is formatted by `Cell`.
   */
  method ColumnValue(item: Value, field: Field, formatTime: Value -> string) returns (r: Value)
    ensures var v := Lookup(Some(item), Keys(field.field));
            (Blank(v) ==> r == Str(DefaultText(field.defaultValue)))
            && (!Blank(v) ==> r == Cell(v.value, field, formatTime))
  {
    var value := Walk(Some(item), Keys(field.field));
    if value.None? || value == Some(Null) || value == Some(Str("")) {
      return Str(DefaultText(field.defaultValue));
    }
    r := Cell(value.value, field, formatTime);
  }

  /** A blank cell is never shown empty: it reads the default or '-'. */
  lemma BlankCellShowsDefault(field: Field)
    ensures DefaultText(field.defaultValue) != ""
    ensures !GivenText(field.defaultValue) ==> DefaultText(field.defaultValue) == "-"
  {
  }

  class Table {
    /** The table configuration: its fields, the path of the rows in a reply, and the API's name. */
    const fields: seq<Field>
    const dataPath: string
    const apiFunction: string

    var dataItems: Value
    var loading: bool
    var error: string
    var currentPage: Positive
    var pageSize: Positive
    var totalCount: nat
    var regionId: string
    var filters: map<string, string>
    /** The hash of the last `history.pushState`. */
    var pushedHash: Params

    /** The component as `createDataTable` returns it. */
    constructor (fields: seq<Field>, dataPath: string, apiFunction: string)
      ensures this.fields == fields && this.dataPath == dataPath && this.apiFunction == apiFunction
      ensures dataItems == Arr([]) && !loading && error == "" && currentPage == 1 && pageSize == 10
      ensures totalCount == 0 && regionId == "" && filters == map[] && pushedHash == []
    {
      this.fields := fields;
      this.dataPath := dataPath;
      this.apiFunction := apiFunction;
      dataItems := Arr([]);
      loading := false;
      error := "";
      currentPage := 1;
      pageSize := 10;
      totalCount := 0;
      regionId := "";
      filters := map[];
      pushedHash := [];
    }

    /** `initFilters`: every declared filter is set to ''. */
    method InitFilters()
      modifies this
      ensures forall n :: n in filters <==> n in old(filters) || n in FilterNames(fields)
      ensures forall n | n in filters :: filters[n] == if n in FilterNames(fields) then "" else old(filters)[n]
      ensures dataItems == old(dataItems) && loading == old(loading) && error == old(error)
      ensures currentPage == old(currentPage) && pageSize == old(pageSize) && totalCount == old(totalCount)
      ensures regionId == old(regionId) && pushedHash == old(pushedHash)
    {
      for k := 0 to |fields|
        invariant forall n :: n in filters <==> n in old(filters) || n in FilterNames(fields[..k])
        invariant forall n | n in filters :: filters[n] == if n in FilterNames(fields[..k]) then "" else old(filters)[n]
        invariant dataItems == old(dataItems) && loading == old(loading) && error == old(error)
        invariant currentPage == old(currentPage) && pageSize == old(pageSize) && totalCount == old(totalCount)
        invariant regionId == old(regionId) && pushedHash == old(pushedHash)
      {
        assert fields[..k + 1][..k] == fields[..k];
        if Filterable(fields[k]) {
          filters := filters[fields[k].filterField := ""];
        }
      }
      assert fields[..|fields|] == fields;
    }

    /**
     * `init`, up to the loads: the declared filters are reset, then the
     * region, the page, the page size and the filters are read from the hash.
     */
    method Init(hash: Params, keys: Store.KeyManager)
      modifies this
      ensures regionId == HashRegion(hash, keys.defaultRegion)
      ensures currentPage == HashNumber(hash, "page", old(currentPage))
      ensures pageSize == HashNumber(hash, "pageSize", old(pageSize))
      ensures forall n :: n in filters <==> n in old(filters) || n in FilterNames(fields)
      ensures forall n | n in FilterNames(fields) :: filters[n] == HashFilter(hash, n)
      ensures forall n | n in filters && n !in FilterNames(fields) :: filters[n] == old(filters)[n]
      ensures dataItems == old(dataItems) && totalCount == old(totalCount) && pushedHash == old(pushedHash)
    {
      InitFilters();
      regionId := HashRegion(hash, keys.defaultRegion);
      currentPage := HashNumber(hash, "page", currentPage);
      pageSize := HashNumber(hash, "pageSize", pageSize);
      ReadFilters(hash);
    }

    /** The filter loop of `init`: each declared filter with a non-empty value in the hash takes it. */
    method ReadFilters(hash: Params)
      requires forall n | n in FilterNames(fields) :: n in filters && filters[n] == ""
      modifies this
      ensures forall n :: n in filters <==> n in old(filters)
      ensures forall n | n in FilterNames(fields) :: filters[n] == HashFilter(hash, n)
      ensures forall n | n in filters && n !in FilterNames(fields) :: filters[n] == old(filters)[n]
      ensures regionId == old(regionId) && currentPage == old(currentPage) && pageSize == old(pageSize)
      ensures dataItems == old(dataItems) && totalCount == old(totalCount) && pushedHash == old(pushedHash)
    {
      for k := 0 to |fields|
        invariant forall n :: n in filters <==> n in old(filters)
        invariant forall n | n in FilterNames(fields) ::
                    filters[n] == if n in FilterNames(fields[..k]) then HashFilter(hash, n) else ""
        invariant forall n | n in filters && n !in FilterNames(fields) :: filters[n] == old(filters)[n]
        invariant regionId == old(regionId) && currentPage == old(currentPage) && pageSize == old(pageSize)
        invariant dataItems == old(dataItems) && totalCount == old(totalCount) && pushedHash == old(pushedHash)
      {
        assert fields[..k + 1][..k] == fields[..k];
        var f := fields[k];
        if Filterable(f) {
          FilterNamesHas(fields, k);
          var value := Get(hash, f.filterField);
          if value.Some? && value.value != "" {
            filters := filters[f.filterField := value.value];
          }
        }
      }
      assert fields[..|fields|] == fields;
    }

    /** `updateUrl`: pushes the hash of the current state. */
    method UpdateUrl()
      modifies this
      ensures pushedHash == UrlHash(regionId, currentPage, pageSize, fields, filters)
      ensures dataItems == old(dataItems) && loading == old(loading) && error == old(error)
      ensures currentPage == old(currentPage) && pageSize == old(pageSize) && totalCount == old(totalCount)
      ensures regionId == old(regionId) && filters == old(filters)
    {
      var params := BaseHash(regionId, currentPage, pageSize);
      for k := 0 to |fields|
        invariant params == AddSent(BaseHash(regionId, currentPage, pageSize), fields[..k], filters)
      {
        assert fields[..k + 1][..k] == fields[..k];
        if Sends(fields[k], filters) {
          params := Assign(params, fields[k].filterField, filters[fields[k].filterField]);
        }
      }
      assert fields[..|fields|] == fields;
      pushedHash := params;
    }

    /**
     * `loadData(page)`: moves to the page and records it in the URL; then,
     * with a current key and an API function, asks for the page with the
     * sent filters and takes the rows and the total from the reply, or
     * records the error. `loading` is false again at the end.
     */
    method LoadData(page: Positive, keys: Store.KeyManager, api: Option<ListApi>) returns (sent: Option<Params>)
      modifies this
      ensures currentPage == page && !loading
      ensures regionId == old(regionId) && pageSize == old(pageSize) && filters == old(filters)
      ensures pushedHash == UrlHash(regionId, page, pageSize, fields, filters)
      ensures keys.CurrentKey().None? ==> error == "请先登录" && sent.None?
      ensures keys.CurrentKey().Some? && api.None? ==> error == "API function not found: " + apiFunction && sent.None?
      ensures sent.Some? <==> keys.CurrentKey().Some? && api.Some?
      ensures sent.Some? ==> sent.value == SearchFilters(fields, filters)
      ensures sent.None? ==> dataItems == old(dataItems) && totalCount == old(totalCount)
      ensures sent.Some? ==>
                var key := keys.CurrentKey().value;
                var reply := api.value(regionId, key.accessKeyId, key.accessKeySecret, page, pageSize, sent.value);
                error == ReplyError(reply)
                && (ReplyRows(reply, dataPath).Some? ==>
                      dataItems == ReplyRows(reply, dataPath).value.0 && totalCount == ReplyRows(reply, dataPath).value.1)
                && (ReplyRows(reply, dataPath).None? ==> dataItems == old(dataItems) && totalCount == old(totalCount))
    {
      loading := true;
      error := "";
      currentPage := page;
      UpdateUrl();
      sent := Fetch(keys, api);
    }

    /** The request part of `loadData`, from the current key to the reply. */
    method Fetch(keys: Store.KeyManager, api: Option<ListApi>) returns (sent: Option<Params>)
      modifies this
      ensures !loading
      ensures currentPage == old(currentPage) && regionId == old(regionId) && pageSize == old(pageSize)
      ensures filters == old(filters) && pushedHash == old(pushedHash)
      ensures keys.CurrentKey().None? ==> error == "请先登录" && sent.None?
      ensures keys.CurrentKey().Some? && api.None? ==> error == "API function not found: " + apiFunction && sent.None?
      ensures sent.Some? <==> keys.CurrentKey().Some? && api.Some?
      ensures sent.Some? ==> sent.value == SearchFilters(fields, filters)
      ensures sent.None? ==> dataItems == old(dataItems) && totalCount == old(totalCount)
      ensures sent.Some? ==>
                var key := keys.CurrentKey().value;
                var reply := api.value(regionId, key.accessKeyId, key.accessKeySecret, currentPage, pageSize, sent.value);
                error == ReplyError(reply)
                && (ReplyRows(reply, dataPath).Some? ==>
                      dataItems == ReplyRows(reply, dataPath).value.0 && totalCount == ReplyRows(reply, dataPath).value.1)
                && (ReplyRows(reply, dataPath).None? ==> dataItems == old(dataItems) && totalCount == old(totalCount))
    {
      var key := keys.CurrentKey();
      if key.None? {
        error := "请先登录";
        loading := false;
        return None;
      }
      if api.None? {
        error := "API function not found: " + apiFunction;
        loading := false;
        return None;
      }
      var searchFilters := SearchFilters(fields, filters);
      sent := Some(searchFilters);
      Receive(api.value(regionId, key.value.accessKeyId, key.value.accessKeySecret, currentPage, pageSize, searchFilters));
    }

    /** The end of `loadData`: the reply's rows and total, or its error; `loading` goes back to false. */
    method Receive(reply: Reply)
      modifies this
      ensures error == ReplyError(reply) && !loading
      ensures ReplyRows(reply, dataPath).Some? ==>
                dataItems == ReplyRows(reply, dataPath).value.0 && totalCount == ReplyRows(reply, dataPath).value.1
      ensures ReplyRows(reply, dataPath).None? ==> dataItems == old(dataItems) && totalCount == old(totalCount)
      ensures currentPage == old(currentPage) && pageSize == old(pageSize) && regionId == old(regionId)
      ensures filters == old(filters) && pushedHash == old(pushedHash)
    {
      error := ReplyError(reply);
      var rows := ReplyRows(reply, dataPath);
      if rows.Some? {
        dataItems := rows.value.0;
        totalCount := rows.value.1;
      }
      loading := false;
    }

    /** `prevPage`: loads the page before, unless on the first page. */
    method PrevPage(keys: Store.KeyManager, api: Option<ListApi>) returns (moved: bool)
      modifies this
      ensures moved <==> old(currentPage) > 1
      ensures moved ==> currentPage == old(currentPage) - 1 && pushedHash == UrlHash(regionId, currentPage, pageSize, fields, filters)
      ensures !moved ==> currentPage == old(currentPage) && pushedHash == old(pushedHash) && error == old(error)
    {
      moved := currentPage > 1;
      if moved {
        var _ := LoadData(currentPage - 1, keys, api);
      }
    }

    /** `nextPage`: loads the page after, unless on the last page (or there are no rows). */
    method NextPage(keys: Store.KeyManager, api: Option<ListApi>) returns (moved: bool)
      modifies this
      ensures moved <==> old(currentPage) < TotalPages(old(totalCount), old(pageSize))
      ensures moved ==> currentPage == old(currentPage) + 1 && currentPage <= TotalPages(old(totalCount), pageSize)
      ensures !moved ==> currentPage == old(currentPage) && pushedHash == old(pushedHash) && error == old(error)
    {
      moved := currentPage < TotalPages(totalCount, pageSize);
      if moved {
        var _ := LoadData(currentPage + 1, keys, api);
      }
    }

    /** `search` and `changePageSize`: back to the first page. */
    method Search(keys: Store.KeyManager, api: Option<ListApi>)
      modifies this
      ensures currentPage == 1 && pushedHash == UrlHash(regionId, 1, pageSize, fields, filters)
      ensures filters == old(filters) && regionId == old(regionId)
    {
      var _ := LoadData(1, keys, api);
    }

    /** `changeRegion`: the region becomes the stored default, and the first page is loaded. */
    method ChangeRegion(keys: Store.KeyManager, api: Option<ListApi>)
      modifies this, keys
      ensures keys.defaultRegion == Some(regionId) && regionId == old(regionId)
      ensures keys.keys == old(keys.keys) && keys.currentId == old(keys.currentId)
      ensures currentPage == 1 && pushedHash == UrlHash(regionId, 1, pageSize, fields, filters)
    {
      keys.SetDefaultRegion(regionId);
      var _ := LoadData(1, keys, api);
    }
  }

  /** A declared filter field's name is among the filter names. */
  lemma {:induction false} FilterNamesHas(fields: seq<Field>, k: nat)
    requires k < |fields| && Filterable(fields[k])
    ensures fields[k].filterField in FilterNames(fields)
  {
    if k < |fields| - 1 {
      assert fields[..|fields| - 1][k] == fields[k];
      FilterNamesHas(fields[..|fields| - 1], k);
    }
  }
}
