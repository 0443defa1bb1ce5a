/**
 * The resource methods of `CompassClient`, written once for every entity:
 * each is a URL template over the entity's path, plus a body shape. An entity
 * is its path name, the record key holding its id, whether the client offers
 * a search for it, the sub-resources it has getters for, and how its create
 * method wraps the record.
 */
module Resources {
  import opened Wrappers
  import opened Json
  import opened Text
  import opened Transport

  const DEFAULT_LIMIT := 50
  const BATCH_SIZE := 250

  /** How `create_E` sends a record: JSON text of `[record]`, or the bare dict. */
  datatype CreateShape = ListOfOne | BareRecord

  datatype Entity = Entity(
    plural: string,
    idKey: string,
    searchable: bool,
    subresources: seq<string>,
    create: CreateShape)

  const Companies := Entity("companies", "CompanyId", true,
    ["addresses", "contacts", "divisions", "offices", "practiceareas", "prequalifications",
     "primarycategories", "studios", "territories", "companytypes", "users"],
    ListOfOne)
  const Contacts := Entity("contacts", "ContactId", true,
    ["company", "contact_category", "divisions", "offices"], ListOfOne)
  const Projects := Entity("projects", "ProjectId", true, [], ListOfOne)
  const Opportunities := Entity("opportunities", "OpportunityId", false, [], BareRecord)

  /** Path names that read back unambiguously: no '/' and no '?' inside a segment. */
  predicate WellFormed(e: Entity) {
    && '/' !in e.plural && '?' !in e.plural
    && forall i :: 0 <= i < |e.subresources| ==> '/' !in e.subresources[i]
  }

  /** A GET with no query parameters, no body, no extra headers and no authentication. */
  predicate PlainGet(call: Call) {
    call.verb == "get" && call.params.None? && call.data == NoData && call.headers.None? && call.auth.None?
  }

  function GetCall(resource: string): (r: Call)
    ensures PlainGet(r) && r.resource == resource
  {
    Call("get", resource, None, NoData, None, None)
  }

  /** `get_user`: a plain GET of `user/`. */
  function UserCall(): (r: Call)
    ensures PlainGet(r) && r.resource == "user/"
  {
    GetCall("user/")
  }

  /** `get_E_schema`: a plain GET of the entity's path followed by `/schema/`. */
  function SchemaCall(e: Entity): (r: Call)
    ensures PlainGet(r)
    ensures |r.resource| == |e.plural| + 8
    ensures r.resource[..|e.plural|] == e.plural && r.resource[|e.plural|..] == "/schema/"
  {
    GetCall(e.plural + "/schema/")
  }

  /**
   * `get_E(id)`: a plain GET of the entity's path, '/', then the id as
   * `'{0}'.format` writes it; unlike the other paths it has no trailing slash.
   */
  function ItemCall(c: Client, e: Entity, id: Value := Int(0)): (r: Call)
    ensures PlainGet(r)
    ensures |r.resource| >= |e.plural| + 1 && r.resource[..|e.plural| + 1] == e.plural + "/"
    ensures id.Int? ==> ParseInt(r.resource[|e.plural| + 1..]) == Some(id.i) && r.resource[|r.resource| - 1] != '/'
    ensures id.Str? ==> r.resource[|e.plural| + 1..] == id.s
    ensures id.Null? ==> r.resource[|e.plural| + 1..] == "None"
  {
    var path := e.plural + "/" + Format(id, c.codec.repr);
    assert path[|e.plural| + 1..] == Format(id, c.codec.repr);
    GetCall(path)
  }

  /** `get_E_list(limit, offset)`: a GET of `E/` whose only parameters are `size` and `from`. */
  function ListCall(e: Entity, limit: int := DEFAULT_LIMIT, offset: int := 0): (r: Call)
    ensures r.verb == "get" && r.resource == e.plural + "/"
    ensures r.data == NoData && r.headers.None? && r.auth.None?
    ensures r.params.Some? && r.params.value.Keys == {"size", "from"}
    ensures r.params.value["size"] == Int(limit) && r.params.value["from"] == Int(offset)
  {
    Call("get", e.plural + "/", Some(map["size" := Int(limit), "from" := Int(offset)]), NoData, None, None)
  }

  /**
   * `search_E(query)`: a plain GET of the entity's path, `/search?q=`, then
   * the query exactly as given, without any escaping.
   */
  function SearchCall(e: Entity, query: string := ""): (r: Call)
    requires e.searchable
    ensures PlainGet(r)
    ensures |r.resource| == |e.plural| + 10 + |query|
    ensures r.resource[..|e.plural| + 10] == e.plural + "/search?q="
    ensures r.resource[|e.plural| + 10..] == query
  {
    var path := e.plural + "/search?q=" + query;
    assert path[..|e.plural| + 10] == e.plural + "/search?q=";
    GetCall(path)
  }

  /**
   * The sub-resource getters, such as `get_company_offices(id)`: the entity's
   * path, '/', the id, then '/', the sub-resource and a trailing '/'.
   */
  function SubresourceCall(c: Client, e: Entity, sub: string, id: Value := Int(0)): (r: Call)
    requires sub in e.subresources
    ensures PlainGet(r)
    ensures |r.resource| >= |e.plural| + |sub| + 3
    ensures r.resource[..|e.plural| + 1] == e.plural + "/"
    ensures r.resource[|r.resource| - |sub| - 2..] == "/" + sub + "/"
    ensures id.Int? ==> ParseInt(r.resource[|e.plural| + 1..|r.resource| - |sub| - 2]) == Some(id.i)
  {
    var idText := Format(id, c.codec.repr);
    var path := e.plural + "/" + idText + "/" + sub + "/";
    assert path[|e.plural| + 1..|path| - |sub| - 2] == idText;
    assert path[|path| - |sub| - 2..] == "/" + sub + "/";
    GetCall(path)
  }

  /**
   * `update_E(record)`: PUT the record as a dict to `E/<id>/`, the id being
   * the record's own id field, or "None" when the record has none.
   */
  function UpdateCall(c: Client, e: Entity, record: Record): (r: Call)
    ensures r.verb == "put" && r.data == DictData(record)
    ensures r.params.None? && r.headers.None? && r.auth.None?
    ensures |r.resource| >= |e.plural| + 2
    ensures r.resource[..|e.plural| + 1] == e.plural + "/" && r.resource[|r.resource| - 1] == '/'
    ensures e.idKey in record && record[e.idKey].Int? ==>
      ParseInt(r.resource[|e.plural| + 1..|r.resource| - 1]) == Some(record[e.idKey].i)
    ensures e.idKey !in record ==> r.resource[|e.plural| + 1..|r.resource| - 1] == "None"
  {
    var idText := Format(Get(record, e.idKey), c.codec.repr);
    var path := e.plural + "/" + idText + "/";
    assert path[|e.plural| + 1..|path| - 1] == idText;
    Call("put", path, None, DictData(record), None, None)
  }

  /**
   * `create_E(record)`: POST to `E/`; the body is the JSON text of `[record]`,
   * or, for a bare-record entity, the record as a dict.
   */
  function CreateCall(c: Client, e: Entity, record: Record): (r: Call)
    ensures r.verb == "post" && r.resource == e.plural + "/"
    ensures r.params.None? && r.headers.None? && r.auth.None?
    ensures e.create == ListOfOne ==> r.data == Raw(c.codec.dumps(Array([Object(record)])))
    ensures e.create == BareRecord ==> r.data == DictData(record)
  {
    var body := match e.create
      case ListOfOne => Raw(c.codec.dumps(Array([Object(record)])))
      case BareRecord => DictData(record);
    Call("post", e.plural + "/", None, body, None, None)
  }

  /**
   * Which methods each entity has: its path name, id key, search, number of
   * sub-resource getters and create shape; and its path names read back.
   */
  lemma CompaniesWellFormed()
    ensures WellFormed(Companies)
    ensures Companies.plural == "companies" && Companies.idKey == "CompanyId"
    ensures Companies.searchable && |Companies.subresources| == 11 && Companies.create == ListOfOne
  {
    var subs := Companies.subresources;
    assert forall i :: 0 <= i < 6 ==> '/' !in subs[i];
    assert forall i :: 6 <= i < 11 ==> '/' !in subs[i];
  }

  lemma ContactsWellFormed()
    ensures WellFormed(Contacts)
    ensures Contacts.plural == "contacts" && Contacts.idKey == "ContactId"
    ensures Contacts.searchable && |Contacts.subresources| == 4 && Contacts.create == ListOfOne
  {}

  lemma ProjectsWellFormed()
    ensures WellFormed(Projects)
    ensures Projects.plural == "projects" && Projects.idKey == "ProjectId"
    ensures Projects.searchable && Projects.subresources == [] && Projects.create == ListOfOne
  {}

  lemma OpportunitiesWellFormed()
    ensures WellFormed(Opportunities)
    ensures Opportunities.plural == "opportunities" && Opportunities.idKey == "OpportunityId"
    ensures !Opportunities.searchable && Opportunities.subresources == [] && Opportunities.create == BareRecord
  {}

  /** A GET without parameters, body or headers carries only the two mandatory headers. */
  lemma GetRequest(c: Client, resource: string)
    ensures Prepare(c, GetCall(resource))
      == HttpRequest("get", Url(c.endpoint, resource), None, NoData, c.DefaultHeaders(), None)
  {
  }

  /** `get_E_list` GETs `E/` with exactly `{size: limit, from: offset}`; by default 50 and 0. */
  lemma ListRequest(c: Client, e: Entity, limit: int, offset: int)
    ensures Prepare(c, ListCall(e, limit, offset))
      == HttpRequest("get", Url(c.endpoint, e.plural + "/"),
                     Some(map["size" := Int(limit), "from" := Int(offset)]),
                     NoData, c.DefaultHeaders(), None)
    ensures ListCall(e).params == Some(map["size" := Int(50), "from" := Int(0)])
  {
  }

  /** The path of `get_E_schema` reads back as the entity and "schema". */
  lemma SchemaPathSegments(e: Entity)
    requires WellFormed(e)
    ensures Split(SchemaCall(e).resource, '/') == [e.plural, "schema", ""]
  {
    var parts := [e.plural, "schema", ""];
    JoinCons("schema", [""], '/');
    JoinCons(e.plural, ["schema", ""], '/');
    assert Join(parts, '/') == e.plural + "/" + "schema" + "/" + "";
    assert SchemaCall(e).resource == Join(parts, '/');
    assert forall i :: 0 <= i < |parts| ==> '/' !in parts[i];
    SplitJoin(parts, '/');
  }

  /** The path of `get_E(id)` for an integer id reads back as the entity and that id. */
  lemma ItemPathSegments(c: Client, e: Entity, id: int)
    requires WellFormed(e)
    ensures var parts := Split(ItemCall(c, e, Int(id)).resource, '/');
      parts == [e.plural, IntToDecimal(id)] && ParseInt(parts[1]) == Some(id)
  {
    var d := IntToDecimal(id);
    DecimalHasNoSeparator(id);
    DecimalRoundTrip(id);
    var parts := [e.plural, d];
    JoinCons(e.plural, [d], '/');
    assert ItemCall(c, e, Int(id)).resource == Join(parts, '/');
    assert forall i :: 0 <= i < |parts| ==> '/' !in parts[i];
    SplitJoin(parts, '/');
  }

  /** A sub-resource path for an integer id reads back as entity, id and sub-resource. */
  lemma SubresourcePathSegments(c: Client, e: Entity, sub: string, id: int)
    requires WellFormed(e) && sub in e.subresources
    ensures var parts := Split(SubresourceCall(c, e, sub, Int(id)).resource, '/');
      parts == [e.plural, IntToDecimal(id), sub, ""] && ParseInt(parts[1]) == Some(id)
  {
    var d := IntToDecimal(id);
    DecimalHasNoSeparator(id);
    DecimalRoundTrip(id);
    var parts := [e.plural, d, sub, ""];
    JoinCons(sub, [""], '/');
    JoinCons(d, [sub, ""], '/');
    JoinCons(e.plural, [d, sub, ""], '/');
    assert Join(parts, '/') == e.plural + "/" + d + "/" + sub + "/" + "";
    assert SubresourceCall(c, e, sub, Int(id)).resource == Join(parts, '/');
    assert forall i :: 0 <= i < |parts| ==> '/' !in parts[i];
    SplitJoin(parts, '/');
  }

  /**
   * The search path is `E/search`, the path's first '?', then `q=` and the
   * query verbatim, whatever characters the query holds; a query without '?'
   * is the whole of the one part after the '?'.
   */
  lemma SearchPathSegments(e: Entity, query: string)
    requires e.searchable && WellFormed(e)
    ensures var p := SearchCall(e, query).resource;
      var n := |e.plural| + 7;
      && p[..n] == e.plural + "/search" && '?' !in p[..n]
      && p[n] == '?' && p[n + 1..] == "q=" + query
    ensures '?' !in query ==> Split(SearchCall(e, query).resource, '?') == [e.plural + "/search", "q=" + query]
  {
    var p := SearchCall(e, query).resource;
    var n := |e.plural| + 7;
    assert p == e.plural + "/search" + "?" + ("q=" + query);
    assert '?' !in e.plural + "/search" by {
      assert forall i :: 0 <= i < |e.plural| ==> (e.plural + "/search")[i] == e.plural[i];
    }
    assert p[..n] == e.plural + "/search";
    if '?' !in query {
      assert '?' !in "q=" + query by {
        assert forall i :: 2 <= i < |query| + 2 ==> ("q=" + query)[i] == query[i - 2];
      }
      var parts := [e.plural + "/search", "q=" + query];
      JoinCons(e.plural + "/search", ["q=" + query], '?');
      assert p == Join(parts, '?');
      assert forall i :: 0 <= i < |parts| ==> '?' !in parts[i];
      SplitJoin(parts, '?');
    }
  }

  /**
   * `update_E` PUTs the record, JSON-encoded as one object, to `E/<id>/`, the
   * id read from the record itself; a record without its id key goes to `E/None/`.
   */
  lemma UpdateRequest(c: Client, e: Entity, record: Record)
    ensures var r := Prepare(c, UpdateCall(c, e, record));
      && r.verb == "put"
      && r.url == Url(c.endpoint, UpdateCall(c, e, record).resource)
      && r.data == Raw(c.codec.dumps(Object(record)))
      && r.headers == c.DefaultHeaders()
    ensures e.idKey !in record ==> UpdateCall(c, e, record).resource == e.plural + "/None/"
  {
  }

  /** The path of `update_E` for an integer id reads back as the entity and that id. */
  lemma UpdatePathSegments(c: Client, e: Entity, record: Record)
    requires WellFormed(e) && e.idKey in record && record[e.idKey].Int?
    ensures var parts := Split(UpdateCall(c, e, record).resource, '/');
      parts == [e.plural, IntToDecimal(record[e.idKey].i), ""]
      && ParseInt(parts[1]) == Some(record[e.idKey].i)
  {
    var id := record[e.idKey].i;
    var d := IntToDecimal(id);
    DecimalHasNoSeparator(id);
    DecimalRoundTrip(id);
    assert Format(Get(record, e.idKey), c.codec.repr) == d;
    var parts := [e.plural, d, ""];
    JoinCons(d, [""], '/');
    JoinCons(e.plural, [d, ""], '/');
    assert Join(parts, '/') == e.plural + "/" + d + "/" + "";
    assert UpdateCall(c, e, record).resource == Join(parts, '/');
    assert forall i :: 0 <= i < |parts| ==> '/' !in parts[i];
    SplitJoin(parts, '/');
  }

  /**
   * `create_E` POSTs to `E/`: companies, contacts and projects send the JSON
   * text of the one-element list `[record]`, opportunities the record itself,
   * encoded as a single object.
   */
  lemma CreateRequest(c: Client, e: Entity, record: Record)
    ensures var r := Prepare(c, CreateCall(c, e, record));
      && r.verb == "post"
      && r.url == Url(c.endpoint, e.plural + "/")
      && r.headers == c.DefaultHeaders()
      && (e.create == ListOfOne ==> r.data == Raw(c.codec.dumps(Array([Object(record)]))))
      && (e.create == BareRecord ==> r.data == Raw(c.codec.dumps(Object(record))))
  {
  }

  /**
   * With a serialiser that never maps two values to one text, creating the same
   * record as a company and as an opportunity sends different bodies.
   */
  lemma CreateShapesDiffer(c: Client, record: Record)
    requires forall a, b :: c.codec.dumps(a) == c.codec.dumps(b) ==> a == b
    ensures Prepare(c, CreateCall(c, Companies, record)).data
         != Prepare(c, CreateCall(c, Opportunities, record)).data
  {
    CreateRequest(c, Companies, record);
    CreateRequest(c, Opportunities, record);
    assert Array([Object(record)]) != Object(record);
  }
}
