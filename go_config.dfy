/**
 * Go's typed site config (the `Config` struct of servers/go/main.go):
 * which config.json objects `json.Unmarshal` accepts into it, and the
 * JSON `json.NewEncoder(w).Encode` writes back for `/api/config`. Keys
 * the struct does not name are dropped, a missing or null field comes
 * back as its zero value, and a field of the wrong JSON type makes the
 * whole load fail.
 */
module GoConfig {
  import opened Json

  /** The JSON names of the struct's top-level fields. */
  const Keys: set<string> := {"site", "api", "pages", "tables", "resource_manage"}

  /** A member of an object, or null when it is absent: Go leaves an absent field at its zero value, as for null. */
  function Field(m: map<string, Value>, k: string): (v: Value)
    ensures k !in m ==> v == Null
    ensures k in m ==> v == m[k]
  {
    if k in m then m[k] else Null
  }

  /** A `string` field accepts a string or null. */
  predicate TextFits(v: Value) {
    v.Null? || v.Str?
  }

  /** A `map[string]string` accepts null or an object whose members are strings or null. */
  predicate TextMapFits(v: Value) {
    v.Null? || (v.Obj? && forall k | k in v.fields :: TextFits(v.fields[k]))
  }

  /** A `map[string]map[string]interface{}` accepts null or an object whose members are objects or null. */
  predicate ObjectMapFits(v: Value) {
    v.Null? || (v.Obj? && forall k | k in v.fields :: v.fields[k].Null? || v.fields[k].Obj?)
  }

  /** The anonymous `Site` struct accepts null or an object with string titles and descriptions. */
  predicate SiteFits(v: Value) {
    v.Null? || (v.Obj? && TextFits(Field(v.fields, "title")) && TextFits(Field(v.fields, "description")))
  }

  /** The anonymous `API` struct accepts null or an object whose `ecs` and `vpc` are string maps. */
  predicate ApiFits(v: Value) {
    v.Null? || (v.Obj? && TextMapFits(Field(v.fields, "ecs")) && TextMapFits(Field(v.fields, "vpc")))
  }

  /** `json.Unmarshal(file, &config)` returns no error. */
  predicate Decodes(doc: map<string, Value>) {
    && SiteFits(Field(doc, "site"))
    && ApiFits(Field(doc, "api"))
    && ObjectMapFits(Field(doc, "pages"))
    && ObjectMapFits(Field(doc, "tables"))
    && ObjectMapFits(Field(doc, "resource_manage"))
  }

  /** A `string` field written back: the text, or "" when it was null or absent. */
  function Text(v: Value): (r: Value)
    ensures r.Str?
    ensures v.Str? ==> r == v
  {
    if v.Str? then v else Str("")
  }

  /** A `map[string]string` written back: null when the map is nil, each null member as "". */
  function TextMap(v: Value): (r: Value)
    ensures v.Obj? <==> r.Obj?
    ensures r.Obj? ==> r.fields.Keys == v.fields.Keys && forall k | k in r.fields :: r.fields[k].Str?
  {
    if v.Obj? then Obj(map k | k in v.fields :: Text(v.fields[k])) else Null
  }

  /** The `site` field written back: both strings, always. */
  function SiteValue(v: Value): (r: Value)
    ensures r.Obj? && r.fields.Keys == {"title", "description"}
  {
    var f := if v.Obj? then v.fields else map[];
    Obj(map["title" := Text(Field(f, "title")), "description" := Text(Field(f, "description"))])
  }

  /** The `api` field written back: both maps, each null when nil. */
  function ApiValue(v: Value): (r: Value)
    ensures r.Obj? && r.fields.Keys == {"ecs", "vpc"}
  {
    var f := if v.Obj? then v.fields else map[];
    Obj(map["ecs" := TextMap(Field(f, "ecs")), "vpc" := TextMap(Field(f, "vpc"))])
  }

  /** A `map[string]map[string]interface{}` written back: the object, or null when the map is nil. */
  function ObjectMap(v: Value): (r: Value)
    ensures v.Obj? ==> r == v
    ensures !v.Obj? ==> r == Null
  {
    if v.Obj? then v else Null
  }

  /** What `/api/config` sends for a config that decoded: the struct, field by field. */
  function Encoded(doc: map<string, Value>): (r: Value)
    requires Decodes(doc)
    ensures r.Obj? && r.fields.Keys == Keys
  {
    Obj(map[
      "site" := SiteValue(Field(doc, "site")),
      "api" := ApiValue(Field(doc, "api")),
      "pages" := ObjectMap(Field(doc, "pages")),
      "tables" := ObjectMap(Field(doc, "tables")),
      "resource_manage" := ObjectMap(Field(doc, "resource_manage"))])
  }

  /**
   * What is written back keeps what the struct holds: no key outside the
   * struct, the title and description when they were strings, and each
   * object-valued table as it was.
   */
  lemma EncodedKeepsFields(doc: map<string, Value>)
    requires Decodes(doc)
    ensures var r := Encoded(doc).fields;
            && (forall k | k !in Keys :: k !in r)
            && (forall k | k in {"pages", "tables", "resource_manage"} && k in doc && doc[k].Obj? :: r[k] == doc[k])
            && (forall k | k in {"pages", "tables", "resource_manage"} && (k !in doc || doc[k].Null?) :: r[k] == Null)
            && ("site" in doc && doc["site"].Obj? && "title" in doc["site"].fields && doc["site"].fields["title"].Str?
                ==> r["site"].fields["title"] == doc["site"].fields["title"])
  {
  }

  /** What Go writes back decodes again to the same struct: loading it is the identity. */
  lemma {:induction false} EncodedIsStable(doc: map<string, Value>)
    requires Decodes(doc)
    ensures Decodes(Encoded(doc).fields)
    ensures Encoded(Encoded(doc).fields) == Encoded(doc)
  {
    var r := Encoded(doc).fields;
    var api := Field(doc, "api");
    var f := if api.Obj? then api.fields else map[];
    TextMapStable(Field(f, "ecs"));
    TextMapStable(Field(f, "vpc"));
    assert ApiValue(r["api"]) == r["api"];
    assert SiteValue(r["site"]) == r["site"];
  }

  /** A string map written back is a string map, and writing it back again changes nothing. */
  lemma TextMapStable(v: Value)
    ensures TextMapFits(TextMap(v))
    ensures TextMap(TextMap(v)) == TextMap(v)
  {
    if v.Obj? {
      var r := TextMap(v);
      assert r.fields == map k | k in v.fields :: Text(v.fields[k]);
      assert TextMap(r).fields == r.fields;
    }
  }

  /** An empty config.json is written back as the zero struct, with every field present. */
  lemma EmptyIsZeroStruct()
    ensures Decodes(map[])
    ensures Encoded(map[]) == Obj(map[
      "site" := Obj(map["title" := Str(""), "description" := Str("")]),
      "api" := Obj(map["ecs" := Null, "vpc" := Null]),
      "pages" := Null,
      "tables" := Null,
      "resource_manage" := Null])
  {
  }

  /** A string map with a member of another type, such as `"api": {"ecs": {"a": 1}}`, fails the load. */
  lemma NumberInStringMap()
    ensures !Decodes(map["api" := Obj(map["ecs" := Obj(map["a" := Num(1)])])])
  {
    var ecs := Obj(map["a" := Num(1)]);
    assert ecs.fields["a"] == Num(1);
  }
}
