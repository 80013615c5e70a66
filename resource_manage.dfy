/**
 * The detail page component of
 * sites/aliyun/static/js/core/resource-manage-factory.js: the resource id
 * and region read from the URL hash, the load of one resource through a
 * get API, the field values of the detail view, and the actions run on the
 * resource with their guard and the navigation after a release. Browser
 * alerts, navigation and messages to the parent window are returned as a
 * list of effects; the API functions are parameters giving their replies.
 */
module ResourceManage {
  import opened Wrappers
  import opened Strs
  import opened Json
  import opened FieldPath
  import opened ApiParams
  import Store
  import Credentials
  import opened DataTable

  /** `toLowerCase` on ASCII letters. */
  function LowerChar(c: char): char {
    if 'A' <= c <= 'Z' then (c as int + 32) as char else c
  }

  function ToLower(s: string): (r: string)
    ensures |r| == |s| && forall i | 0 <= i < |s| :: r[i] == LowerChar(s[i])
  {
    if s == [] then [] else [LowerChar(s[0])] + ToLower(s[1..])
  }

  /** `charAt(0).toLowerCase() + slice(1)`: "InstanceId" becomes "instanceId". */
  function Camel(idField: string): (r: string)
    ensures |r| == |idField|
    ensures idField != "" ==> r[0] == LowerChar(idField[0]) && r[1..] == idField[1..]
  {
    if idField == "" then "" else [LowerChar(idField[0])] + idField[1..]
  }

  /** The hash names the id is looked for under, in this order. */
  function IdNames(idField: string): (names: seq<string>)
    ensures |names| == 4 && names[2] == idField && names[3] == "instanceId"
    ensures |names[0]| == |idField| && |names[1]| == |idField|
  {
    [Camel(idField), ToLower(idField), idField, "instanceId"]
  }

  /** A hash entry that is present and non-empty. */
  predicate Filled(hash: Params, name: string) {
    Get(hash, name).Some? && Get(hash, name).value != ""
  }

  /** `get(a) || get(b) || ...`: the first non-empty value, '' when there is none. */
  function FirstGiven(hash: Params, names: seq<string>): (r: string)
    ensures r != "" ==> exists i | 0 <= i < |names| :: Get(hash, names[i]) == Some(r)
  {
    if names == [] then ""
    else if Filled(hash, names[0]) then Get(hash, names[0]).value
    else FirstGiven(hash, names[1..])
  }

  /** The value found is the one under the first filled name, and '' means that no name is filled. */
  lemma {:induction false} FirstGivenIsFirst(hash: Params, names: seq<string>)
    ensures FirstGiven(hash, names) == "" <==> forall i | 0 <= i < |names| :: !Filled(hash, names[i])
    ensures FirstGiven(hash, names) != "" ==>
              exists i | 0 <= i < |names| :: Get(hash, names[i]) == Some(FirstGiven(hash, names))
                                             && forall j | 0 <= j < i :: !Filled(hash, names[j])
  {
    if names != [] && !Filled(hash, names[0]) {
      var r := FirstGiven(hash, names[1..]);
      FirstGivenIsFirst(hash, names[1..]);
      forall j | 1 <= j < |names| ensures names[j] == names[1..][j - 1] {
      }
      if r != "" {
        var i :| 0 <= i < |names[1..]| && Get(hash, names[1..][i]) == Some(r)
                 && forall j | 0 <= j < i :: !Filled(hash, names[1..][j]);
        assert Get(hash, names[i + 1]) == Some(r);
      }
    } else if names != [] {
      assert Get(hash, names[0]) == Some(FirstGiven(hash, names));
    }
  }

  /** The camel-case spelling of the id wins over the others, and 'instanceId' is the last resort. */
  lemma IdLookupOrder(hash: Params, idField: string)
    ensures Filled(hash, Camel(idField)) ==> FirstGiven(hash, IdNames(idField)) == Get(hash, Camel(idField)).value
    ensures !Filled(hash, Camel(idField)) && !Filled(hash, ToLower(idField)) && !Filled(hash, idField) ==>
              FirstGiven(hash, IdNames(idField)) == Get(hash, "instanceId").GetOr("")
  {
    var names := IdNames(idField);
    if !Filled(hash, Camel(idField)) && !Filled(hash, ToLower(idField)) && !Filled(hash, idField) {
      assert FirstGiven(hash, names) == FirstGiven(hash, names[1..]);
      assert FirstGiven(hash, names[1..]) == FirstGiven(hash, names[2..]);
      assert FirstGiven(hash, names[2..]) == FirstGiven(hash, names[3..]);
      var last := names[3..];
      assert last == ["instanceId"] && last[0] == "instanceId" && last[1..] == [];
      if Filled(hash, "instanceId") {
        assert FirstGiven(hash, last) == Get(hash, "instanceId").value;
      } else {
        assert FirstGiven(hash, last) == FirstGiven(hash, []) == "";
      }
    }
  }

  /** The query of the get API: what to look the resource up by. */
  datatype Query = Query(instanceIds: Option<seq<string>>, allocationId: Option<string>, diskId: Option<string>)

  /** The query for each kind of id; other kinds send an empty query. */
  function QueryFor(idField: string, id: string): (q: Query)
    ensures q.instanceIds.Some? <==> idField == "InstanceId"
    ensures q.allocationId.Some? <==> idField == "AllocationId"
    ensures q.diskId.Some? <==> idField == "DiskId"
    ensures q.instanceIds.Some? ==> q.instanceIds.value == [id]
    ensures q.allocationId.Some? ==> q.allocationId.value == id
    ensures q.diskId.Some? ==> q.diskId.value == id
  {
    if idField == "InstanceId" then Query(Some([id]), None, None)
    else if idField == "AllocationId" then Query(None, Some(id), None)
    else if idField == "DiskId" then Query(None, None, Some(id))
    else Query(None, None, None)
  }

  /** A get API: (regionId, accessKeyId, accessKeySecret, page, pageSize, query). */
  type GetApi = (string, string, string, nat, nat, Query) -> Reply

  /** `resources[0]`: the first element of an array, the field "0" of an object. */
  function FirstItem(rows: Value): (r: Option<Value>)
    ensures r == Member(rows, "0")
  {
    match rows
    case Arr(items) => if items == [] then None else Some(items[0])
    case _ => Member(rows, "0")
  }

  /** The error a reply leaves: the exception's, the failure's, '资源不存在' for no rows, or none. */
  function LoadError(reply: Reply, dataPath: string): (e: string)
    ensures reply.Thrown? ==> e != ""
    ensures reply == Answer(Null) ==> e == NullReplyMessage
    ensures reply.Answer? && Failed(reply.data) ==> e == FailureText(reply.data)
    ensures reply.Answer? && reply.data != Null && !Failed(reply.data) ==>
              (e == "资源不存在" <==> Rows(reply.data, dataPath) == Arr([]))
              && (e != "资源不存在" ==> e == "")
  {
    match Checked(reply)
    case Thrown(m) => if m != "" then m else "加载失败"
    case Answer(data) =>
      if Failed(data) then FailureText(data)
      else if Rows(data, dataPath) == Arr([]) then "资源不存在"
      else ""
  }

  /** Whether the reply brings a resource: a successful reply with at least one row. */
  function Loaded(reply: Reply, dataPath: string): (b: bool)
    ensures b <==> Checked(reply).Answer? && !Failed(reply.data) && LoadError(reply, dataPath) == ""
  {
    Checked(reply).Answer? && !Failed(reply.data) && Rows(reply.data, dataPath) != Arr([])
  }

  /** `getFieldValue`'s result for the value found: the default for undefined, null or '', else the value. */
  function FieldText(found: Option<Value>, defaultValue: Option<string>): (r: Value)
    ensures r != Str("") && r != Null
    ensures Blank(found) ==> r == Str(DefaultText(defaultValue))
    ensures !Blank(found) ==> Some(r) == found
  {
    if Blank(found) then Str(DefaultText(defaultValue)) else found.value
  }

  /** `getFieldValue`: the path walked in the resource, stopping at undefined or null. */
  method FieldValue(resource: Option<Value>, path: string, defaultValue: Option<string>) returns (r: Value)
    ensures r == FieldText(Lookup(resource, Keys(path)), defaultValue)
  {
    var value := Walk(resource, Keys(path));
    if value.None? || value == Some(Null) || value == Some(Str("")) {
      return Str(DefaultText(defaultValue));
    }
    r := value.value;
  }

  /** `renameForm.name`: the name field's value, or '' for a falsy one. */
  function NameText(v: Value): (t: string)
    ensures v.Str? ==> t == v.s
    ensures v == Null || v == Bool(false) || v == Num(0) ==> t == ""
  {
    if Truthy(v) then Display(v) else ""
  }

  /** A field of the detail view; empty `formatter` and `kind` are absent ones. */
  datatype DetailField = DetailField(
    field: string,
    defaultValue: Option<string>,
    fallback: Option<string>,
    formatter: string,
    kind: string,
    suffix: Option<string>)

  /** The value shown before formatting: the field's, or the fallback's when the field's is '-' or falsy. */
  function Chosen(resource: Option<Value>, f: DetailField): (v: Value)
    ensures GivenText(f.fallback) ==> Truthy(v)
    ensures var own := FieldText(Lookup(resource, Keys(f.field)), f.defaultValue);
            Truthy(own) && own != Str("-") ==> v == own
  {
    var own := FieldText(Lookup(resource, Keys(f.field)), f.defaultValue);
    if (own == Str("-") || !Truthy(own)) && GivenText(f.fallback) then
      Or(FieldText(Lookup(resource, Keys(f.fallback.value)), None), Str("-"))
    else own
  }

  /** The detail `formatTime`: '-' for a falsy value or '-', the locale text otherwise. */
  function TimeText(v: Value, formatTime: Value -> string): (t: string)
    ensures !Truthy(v) || v == Str("-") ==> t == "-"
  {
    if !Truthy(v) || v == Str("-") then "-" else formatTime(v)
  }

  /**
   * `getDetailFieldValue`: the chosen value, then the formatter (the
   * memory text, whose division is the parameter `memoryText`, or the
   * switch text of a boolean), then a datetime column's time, then the
   * suffix, which a '-' never gets.
   */
  method DetailFieldValue(resource: Option<Value>, f: DetailField, memoryText: Value -> string, formatTime: Value -> string)
    returns (r: Value)
    ensures var v := Chosen(resource, f);
            var w := if f.formatter == "memory" then Str(memoryText(v)) else v;
            (f.formatter == "boolean" ==> r == Str(if v == Bool(true) then "已开启" else "未开启"))
            && (f.formatter != "boolean" && f.kind == "datetime" ==> r == Str(TimeText(w, formatTime)))
            && (f.formatter != "boolean" && f.kind != "datetime" && GivenText(f.suffix) ==>
                  r == if w == Str("-") then w else Str(Display(w) + f.suffix.value))
            && (f.formatter != "boolean" && f.kind != "datetime" && !GivenText(f.suffix) ==> r == w)
  {
    var value := FieldValue(resource, f.field, f.defaultValue);
    if (value == Str("-") || !Truthy(value)) && GivenText(f.fallback) {
      var other := FieldValue(resource, f.fallback.value, None);
      value := Or(other, Str("-"));
    }
    if f.formatter == "memory" {
      value := Str(memoryText(value));
    } else if f.formatter == "boolean" {
      return Str(if value == Bool(true) then "已开启" else "未开启");
    }
    if f.kind == "datetime" {
      return Str(TimeText(value, formatTime));
    }
    if GivenText(f.suffix) && value != Str("-") {
      return Str(Display(value) + f.suffix.value);
    }
    r := value;
  }

  /** The list page a released resource goes back to. */
  function ListPage(idField: string): (page: string)
    ensures page == "eip_list.html" <==> Contains(idField, "Allocation")
    ensures page == "ecs_instances.html" <==> !Contains(idField, "Allocation")
  {
    if Contains(idField, "Allocation") then "eip_list.html" else "ecs_instances.html"
  }

  /** What an action shows or does in the browser. */
  datatype Effect = Alert(text: string) | Navigate(url: string) | CloseModal

  /** An action of the configuration; `caption` is its `label`. */
  datatype Action = Action(name: string, caption: string, apiFunction: string)

  /** An action API: (regionId, resourceId, accessKeyId, accessKeySecret). */
  type ActionApi = (string, string, string, string) -> Reply

  /** The message of the TypeError thrown when there is no current key. */
  const NullKeyMessage: string := "Cannot read properties of null (reading 'accessKeyId')"

  /** `${result.Message}`. */
  function MessageText(data: Value): (t: string)
    ensures Member(data, "Message").None? ==> t == "undefined"
    ensures Member(data, "Message").Some? && Member(data, "Message").value.Str? ==> t == Member(data, "Message").value.s
  {
    match Member(data, "Message")
    case Some(m) => Display(m)
    case None => "undefined"
  }

  /** Whether an action's reply is a success after which the resource is loaded again: any but a release. */
  predicate Reloads(action: Action, reply: Reply) {
    Checked(reply).Answer? && !Failed(reply.data) && action.name != "release"
  }

  /** What follows a successful release: back to the list page, or, embedded, a request to the parent to close. */
  function AfterRelease(embedded: bool, framed: bool, basePath: string, idField: string): (effects: seq<Effect>)
    ensures !embedded ==> effects == [Navigate(basePath + "/" + ListPage(idField))]
    ensures embedded ==> (effects == [CloseModal] <==> framed) && (effects == [] <==> !framed)
  {
    if embedded then (if framed then [CloseModal] else []) else [Navigate(basePath + "/" + ListPage(idField))]
  }

  class Manager {
    /** The configuration: the kind of id, the get API's name, the path of the rows in its reply, and the name field. */
    const idField: string
    const apiGetFunction: string
    const apiGetDataPath: string
    const nameField: string

    var resource: Option<Value>
    var resourceId: string
    var regionId: string
    var loading: bool
    var error: string
    var operating: bool
    var isEmbedMode: bool
    var renameName: string

    /** The component as `createResourceManage` returns it. */
    constructor (idField: string, apiGetFunction: string, apiGetDataPath: string, nameField: string)
      ensures this.idField == idField && this.apiGetFunction == apiGetFunction
      ensures this.apiGetDataPath == apiGetDataPath && this.nameField == nameField
      ensures resource.None? && resourceId == "" && regionId == "" && loading && error == ""
      ensures !operating && !isEmbedMode && renameName == ""
    {
      this.idField := idField;
      this.apiGetFunction := apiGetFunction;
      this.apiGetDataPath := apiGetDataPath;
      this.nameField := nameField;
      resource := None;
      resourceId := "";
      regionId := "";
      loading := true;
      error := "";
      operating := false;
      isEmbedMode := false;
      renameName := "";
    }

    /**
     * `init`: the id (under its camel-case, lower-case or own name, or
     * 'instanceId'), the region and the embed flag from the hash; without
     * an id or a region it stops with '缺少必要参数', otherwise it loads.
     */
    method Init(hash: Params, keys: Store.KeyManager, api: Option<GetApi>) returns (loads: bool)
      modifies this
      ensures resourceId == FirstGiven(hash, IdNames(idField))
      ensures regionId == Get(hash, "regionId").GetOr("")
      ensures isEmbedMode <==> Get(hash, "embed") == Some("true")
      ensures loads <==> resourceId != "" && regionId != ""
      ensures !loads ==> error == "缺少必要参数" && resource == old(resource) && renameName == old(renameName) && !loading
      ensures loads ==> AfterLoad(keys.CurrentKey(), api, old(resource), old(renameName))
      ensures operating == old(operating)
    {
      resourceId := FirstGiven(hash, IdNames(idField));
      regionId := Get(hash, "regionId").GetOr("");
      isEmbedMode := Get(hash, "embed") == Some("true");
      if resourceId == "" || regionId == "" {
        error := "缺少必要参数";
        loading := false;
        return false;
      }
      LoadResource(keys, api);
      loads := true;
    }

    /**
     * The state `loadResource` leaves, from the key and the get API it
     * met and the resource and rename name it started with: the first row
     * of the reply and its name, or the error with the rest kept.
     */
    predicate AfterLoad(key: Option<Credentials.AccessKey>, api: Option<GetApi>, prevResource: Option<Value>, prevName: string)
      reads this
    {
      && !loading
      && match key
         case None => error == "请先登录" && resource == prevResource && renameName == prevName
         case Some(k) =>
           match api
           case None => error == "API function not found: " + apiGetFunction && resource == prevResource && renameName == prevName
           case Some(f) =>
             var reply := f(regionId, k.accessKeyId, k.accessKeySecret, 1, 1, QueryFor(idField, resourceId));
             && error == LoadError(reply, apiGetDataPath)
             && (Loaded(reply, apiGetDataPath) ==>
                   resource == FirstItem(Rows(reply.data, apiGetDataPath))
                   && renameName == NameText(FieldText(Lookup(resource, Keys(nameField)), None)))
             && (!Loaded(reply, apiGetDataPath) ==> resource == prevResource && renameName == prevName)
    }

    /**
     * `loadResource`: asks the get API for the resource by its id and
     * takes the first row, and the rename form's name from it, or records
     * the error. `loading` is false again at the end.
     */
    method LoadResource(keys: Store.KeyManager, api: Option<GetApi>)
      modifies this
      ensures AfterLoad(keys.CurrentKey(), api, old(resource), old(renameName))
      ensures resourceId == old(resourceId) && regionId == old(regionId)
      ensures isEmbedMode == old(isEmbedMode) && operating == old(operating)
    {
      loading := true;
      error := "";
      var key := keys.CurrentKey();
      if key.None? {
        error := "请先登录";
        loading := false;
        return;
      }
      if api.None? {
        error := "API function not found: " + apiGetFunction;
        loading := false;
        return;
      }
      Receive(api.value(regionId, key.value.accessKeyId, key.value.accessKeySecret, 1, 1, QueryFor(idField, resourceId)));
    }

    /** The end of `loadResource`: the first row of the reply, or its error. */
    method Receive(reply: Reply)
      modifies this
      ensures !loading && error == LoadError(reply, apiGetDataPath)
      ensures Loaded(reply, apiGetDataPath) ==>
                resource == FirstItem(Rows(reply.data, apiGetDataPath))
                && renameName == NameText(FieldText(Lookup(resource, Keys(nameField)), None))
      ensures !Loaded(reply, apiGetDataPath) ==> resource == old(resource) && renameName == old(renameName)
      ensures resourceId == old(resourceId) && regionId == old(regionId)
      ensures isEmbedMode == old(isEmbedMode) && operating == old(operating)
    {
      error := LoadError(reply, apiGetDataPath);
      if Loaded(reply, apiGetDataPath) {
        resource := FirstItem(Rows(reply.data, apiGetDataPath));
        var name := FieldValue(resource, nameField, None);
        renameName := NameText(name);
      }
      loading := false;
    }

    /**
     * `executeAction`: nothing while another action runs; otherwise the
     * action's API is called with the region, the id and the current key,
     * and the outcome is alerted. A successful release leaves the page
     * (or asks the embedding page to close it); any other success reloads
     * the resource. `operating` is false again at the end.
     */
    method ExecuteAction(action: Action, keys: Store.KeyManager, api: Option<ActionApi>, getApi: Option<GetApi>,
                         framed: bool, basePath: string) returns (effects: seq<Effect>)
      modifies this
      ensures old(operating) ==> effects == [] && operating && resource == old(resource) && error == old(error)
      ensures !old(operating) ==> !operating
      ensures !old(operating) && ReloadsAfter(action, api, keys.CurrentKey()) ==>
                AfterLoad(keys.CurrentKey(), getApi, old(resource), old(renameName))
      ensures !ReloadsAfter(action, api, keys.CurrentKey()) ==>
                resource == old(resource) && error == old(error) && renameName == old(renameName) && loading == old(loading)
      ensures !old(operating) && api.None? ==> effects == [Alert("API function not found: " + action.apiFunction)]
      ensures !old(operating) && api.Some? && keys.CurrentKey().None? ==> effects == [Alert("操作失败：" + NullKeyMessage)]
      ensures !old(operating) && api.Some? && keys.CurrentKey().Some? ==>
                var key := keys.CurrentKey().value;
                match Checked(api.value(regionId, resourceId, key.accessKeyId, key.accessKeySecret))
                case Thrown(m) => effects == [Alert("操作失败：" + m)]
                case Answer(data) =>
                  if Failed(data) then effects == [Alert("操作失败：" + MessageText(data))]
                  else if action.name == "release" then
                    effects == [Alert(action.caption + "指令已发送")] + AfterRelease(isEmbedMode, framed, basePath, idField)
                  else effects == [Alert(action.caption + "指令已发送")]
      ensures resourceId == old(resourceId) && regionId == old(regionId) && isEmbedMode == old(isEmbedMode)
    {
      if operating {
        return [];
      }
      operating := true;
      if api.None? {
        effects := [Alert("API function not found: " + action.apiFunction)];
      } else {
        var key := keys.CurrentKey();
        if key.None? {
          effects := [Alert("操作失败：" + NullKeyMessage)];
        } else {
          effects := Perform(action, api.value(regionId, resourceId, key.value.accessKeyId, key.value.accessKeySecret),
                             keys, getApi, framed, basePath);
        }
      }
      operating := false;
    }

    /** Whether an action's API, under the current key, answers with a success other than a release. */
    predicate ReloadsAfter(action: Action, api: Option<ActionApi>, key: Option<Credentials.AccessKey>)
      reads this
    {
      api.Some? && key.Some?
      && Reloads(action, api.value(regionId, resourceId, key.value.accessKeyId, key.value.accessKeySecret))
    }

    /** The outcome of an action's reply. */
    method Perform(action: Action, reply: Reply, keys: Store.KeyManager, getApi: Option<GetApi>, framed: bool, basePath: string)
      returns (effects: seq<Effect>)
      modifies this
      ensures match Checked(reply)
              case Thrown(m) => effects == [Alert("操作失败：" + m)]
              case Answer(data) =>
                if Failed(data) then effects == [Alert("操作失败：" + MessageText(data))]
                else if action.name == "release" then
                  effects == [Alert(action.caption + "指令已发送")] + AfterRelease(isEmbedMode, framed, basePath, idField)
                else effects == [Alert(action.caption + "指令已发送")]
      ensures Reloads(action, reply) ==> AfterLoad(keys.CurrentKey(), getApi, old(resource), old(renameName))
      ensures !Reloads(action, reply) ==>
                resource == old(resource) && error == old(error) && renameName == old(renameName) && loading == old(loading)
      ensures resourceId == old(resourceId) && regionId == old(regionId) && isEmbedMode == old(isEmbedMode)
      ensures operating == old(operating)
    {
      match Checked(reply) {
        case Thrown(m) =>
          effects := [Alert("操作失败：" + m)];
        case Answer(data) =>
          if Failed(data) {
            effects := [Alert("操作失败：" + MessageText(data))];
          } else if action.name == "release" {
            effects := [Alert(action.caption + "指令已发送")] + AfterRelease(isEmbedMode, framed, basePath, idField);
          } else {
            effects := [Alert(action.caption + "指令已发送")];
            LoadResource(keys, getApi);
          }
      }
    }
  }
}
