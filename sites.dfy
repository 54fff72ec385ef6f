/**
 * The site proxy of the public v1 client (api/sites.py): the load
 * parameters a site carries, the query that fetches it, the widening of
 * its `fields` list on a miss, and the nodes behind a site and its
 * containers.
 */
module Sites {
  import opened Wrappers
  import opened Json
  import opened Text
  import opened Encoding
  import opened Http
  import opened Dicts
  import opened Connections
  import opened Nodes

  // ---------------------------------------------------------------- field tables

  /** `_relationFields`: the site fields that come as relations of the site. */
  const RelationFields: seq<string> := ["containers", "members"]

  /** `_siteFields`: every field a site's `fields` list may name. */
  const SiteFields: seq<string> := RelationFields + ["id", "guid", "title", "description", "visibility", "preset", "role"]

  // ---------------------------------------------------------------- load parameters

  /** A site's load-parameter dict: its `relations` list, and its `fields` list, None where that key is absent. */
  datatype SiteLoadParams = SiteLoadParams(relations: seq<string>, fields: Option<seq<string>>)

  /** The `fields` list `loadSite` keeps: the given names, then `id` and `guid` where they are missing. */
  function WithIdAndGuid(fields: seq<string>): (r: seq<string>)
    ensures "id" in r && "guid" in r
    ensures |fields| <= |r| <= |fields| + 2 && r[..|fields|] == fields
    ensures forall x :: x in r <==> x in fields || x == "id" || x == "guid"
  {
    var withId := AddOnce(fields, "id");
    AddOnceIdempotent(fields, "id");
    AddOnceIdempotent(withId, "guid");
    AddOnce(withId, "guid")
  }

  /** Completing a list that is already complete changes nothing, and no name is ever doubled. */
  lemma WithIdAndGuidIdempotent(fields: seq<string>)
    ensures WithIdAndGuid(WithIdAndGuid(fields)) == WithIdAndGuid(fields)
    ensures Distinct(fields) ==> Distinct(WithIdAndGuid(fields))
  {
    var r := WithIdAndGuid(fields);
    if Distinct(fields) {
      var withId := AddOnce(fields, "id");
      assert Distinct(withId) by {
        if "id" !in fields {
          forall i, j | 0 <= i < j < |withId| ensures withId[i] != withId[j] {
            if j == |fields| {
              assert withId[i] == fields[i];
            }
          }
        }
      }
      if "guid" !in withId {
        forall i, j | 0 <= i < j < |r| ensures r[i] != r[j] {
          if j == |withId| {
            assert r[i] == withId[i];
          }
        }
      }
    }
  }

  /** The load parameters `loadSite` builds from its arguments. */
  function InitialSiteParams(relations: Option<seq<string>>, fields: Option<seq<string>>): SiteLoadParams {
    SiteLoadParams(relations.GetOr([]), if fields.Some? then Some(WithIdAndGuid(fields.value)) else None)
  }

  /**
   * `loadSiteData`'s query: a copy of the load-parameter dict, `relations`
   * first, without a `fields` entry that is empty.
   */
  function SiteParams(lp: SiteLoadParams): Dict<Param> {
    [("relations", PList(lp.relations))]
    + if lp.fields.Some? && |lp.fields.value| > 0 then [("fields", PList(lp.fields.value))] else []
  }

  /**
   * What reaches the server: the relations comma-joined when there are any,
   * and the fields comma-joined when there are any; nothing else.
   */
  lemma SiteQuery(lp: SiteLoadParams, k: string)
    ensures var ps := NormalisedParams(SiteParams(lp));
            && Lookup(ps, "relations") == (if |lp.relations| > 0 then Some(PStr(JoinComma(lp.relations))) else None)
            && Lookup(ps, "fields") ==
               (if lp.fields.Some? && |lp.fields.value| > 0 then Some(PStr(JoinComma(lp.fields.value))) else None)
            && (k != "relations" && k != "fields" ==> Lookup(ps, k) == None)
  {
    var ps := SiteParams(lp);
    assert UniqueKeys(ps);
    NormalisedLookup(ps, "relations");
    NormalisedLookup(ps, "fields");
    NormalisedLookup(ps, k);
  }

  /** A site loaded with a `fields` list always asks for that list, `id` and `guid` included. */
  lemma InitialFieldsAlwaysSent(relations: Option<seq<string>>, fields: seq<string>)
    ensures var lp := InitialSiteParams(relations, Some(fields));
            Lookup(SiteParams(lp), "fields") == Some(PList(WithIdAndGuid(fields)))
            && "id" in lp.fields.value && "guid" in lp.fields.value
  {
    var lp := InitialSiteParams(relations, Some(fields));
    assert |lp.fields.value| > 0 by {
      assert "id" in lp.fields.value;
    }
  }

  /** The request `loadSiteData` sends for a site. */
  function SiteUrl(siteId: string): string {
    "sites/" + QuotePath(siteId)
  }

  /** The request `loadSiteContainerNode` sends for one container of a site. */
  function ContainerUrl(siteId: string, containerId: string): string {
    "sites/" + QuotePath(siteId) + "/containers/" + QuotePath(containerId)
  }

  // ---------------------------------------------------------------- widening

  /** The load parameters after a miss on a field, and whether the miss makes the site reload. */
  datatype SiteWidening = SiteWidening(lp: SiteLoadParams, reload: Result<bool, Fault>)

  /**
   * The widening `__getattr__` performs for a field absent from the site
   * data: a non-empty `fields` list gains a known field it lacks, which asks
   * for a reload. A relation field missing from `relations` is appended to
   * an `include` list the dict never has, so it raises KeyError after the
   * `fields` append; reading `fields` raises KeyError when that key is absent.
   */
  function SiteWiden(lp: SiteLoadParams, fieldName: string): SiteWidening {
    if lp.fields.None? then SiteWidening(lp, Failure(KeyError("fields")))
    else
      var fields := lp.fields.value;
      var grow := |fields| > 0 && fieldName in SiteFields && fieldName !in fields;
      var lp' := SiteLoadParams(lp.relations, Some(if grow then fields + [fieldName] else fields));
      if fieldName in RelationFields && fieldName !in lp.relations then SiteWidening(lp', Failure(KeyError("include")))
      else SiteWidening(lp', Success(grow))
  }

  /**
   * A known field missing from a non-empty `fields` list is appended once,
   * and it alone asks for a reload; `relations` never changes.
   */
  lemma SiteWidenAppends(lp: SiteLoadParams, fieldName: string)
    requires lp.fields.Some?
    ensures var w := SiteWiden(lp, fieldName);
            var grow := |lp.fields.value| > 0 && fieldName in SiteFields && fieldName !in lp.fields.value;
            && w.lp.relations == lp.relations
            && w.lp.fields == Some(if grow then lp.fields.value + [fieldName] else lp.fields.value)
            && (fieldName in w.lp.fields.value <==> fieldName in lp.fields.value || grow)
            && (w.reload.Success? <==> fieldName !in RelationFields || fieldName in lp.relations)
            && (w.reload.Success? ==> (w.reload.value <==> grow))
  {
    var w := SiteWiden(lp, fieldName);
    var grow := |lp.fields.value| > 0 && fieldName in SiteFields && fieldName !in lp.fields.value;
    if grow {
      assert w.lp.fields.value[|lp.fields.value|] == fieldName;
    }
  }

  /** Widening a second time for the same field appends nothing more and asks for no second reload. */
  lemma SiteWidenIdempotent(lp: SiteLoadParams, fieldName: string)
    requires SiteWiden(lp, fieldName).reload.Success?
    ensures var w := SiteWiden(lp, fieldName);
            SiteWiden(w.lp, fieldName) == SiteWidening(w.lp, Success(false))
  {
    var w := SiteWiden(lp, fieldName);
    var fields := lp.fields.value;
    if |fields| > 0 && fieldName in SiteFields && fieldName !in fields {
      assert w.lp.fields.value[|fields|] == fieldName;
    }
  }

  /**
   * A relation field the site was not loaded with always raises, so the
   * reload flag set beside the `include` append is never reached.
   */
  lemma RelationMissRaises(lp: SiteLoadParams, fieldName: string)
    requires lp.fields.Some? && fieldName in RelationFields && fieldName !in lp.relations
    ensures SiteWiden(lp, fieldName).reload == Failure(KeyError("include"))
    ensures SiteWiden(lp, fieldName).lp.fields.value ==
            if |lp.fields.value| > 0 && fieldName !in lp.fields.value then lp.fields.value + [fieldName] else lp.fields.value
  {
    assert fieldName in SiteFields;
  }

  /** A site loaded without a `fields` list raises KeyError('fields') on every missing field. */
  lemma NoFieldsListRaises(relations: Option<seq<string>>, fieldName: string)
    ensures var lp := InitialSiteParams(relations, None);
            SiteWiden(lp, fieldName) == SiteWidening(lp, Failure(KeyError("fields")))
  {
  }

  /** A site loaded with a `fields` list never reloads for its `id` or `guid`. */
  lemma IdAndGuidNeverReload(relations: Option<seq<string>>, fields: seq<string>, fieldName: string)
    requires fieldName == "id" || fieldName == "guid"
    ensures var lp := InitialSiteParams(relations, Some(fields));
            SiteWiden(lp, fieldName) == SiteWidening(lp, Success(false))
  {
  }

  // ---------------------------------------------------------------- as written

  /**
   * `reload` as written: it reads the `fields` key and then an `include`
   * key that a site's load-parameter dict never has, before calling
   * `loadSiteData` with keywords it does not accept.
   */
  function ReloadAsWritten(lp: SiteLoadParams): Result<Json, Fault> {
    if lp.fields.None? then Failure(KeyError("fields")) else Failure(KeyError("include"))
  }

  /** As written, `reload` never fetches: every site raises KeyError, even one loaded with a `fields` list. */
  lemma ReloadAsWrittenNeverLoads(lp: SiteLoadParams)
    ensures ReloadAsWritten(lp).Failure?
    ensures ReloadAsWritten(InitialSiteParams(None, Some(["title"]))) == Failure(KeyError("include"))
  {
  }

  /**
   * `getSiteNode` as written reads `guid` as an attribute of the decoded
   * site data; no JSON value (dict, list, str, number, bool, None) has one.
   */
  function GuidAttributeAsWritten(data: Json): Result<Json, Fault> {
    Failure(AttributeError("guid"))
  }

  /** `loadSiteNode` as written passes a name `guid` that is defined nowhere in place of its parameter. */
  function LoadSiteNodeAsWritten(siteGuid: Json): Result<Node, Exception> {
    Failure(PythonFault(NameError("guid")))
  }

  /** As written, the site node is never fetched, even for data that carries a `guid`. */
  lemma SiteNodeAsWrittenNeverLoads(g: string)
    ensures var data := Obj(map["id" := Str("swsdp"), "guid" := Str(g)]);
            && GuidAttributeAsWritten(data) == Failure(AttributeError("guid"))
            && Index(data, "guid") == Success(Str(g))
            && LoadSiteNodeAsWritten(Str(g)).Failure?
  {
  }

  // ---------------------------------------------------------------- reading fields

  /** `siteData[fieldName]`, with its fault raised. */
  function FieldOf(data: Json, fieldName: string): (r: Result<Json, Exception>)
    ensures r.Success? <==> data.Obj? && fieldName in data.fields
    ensures r.Success? ==> r.value == data.fields[fieldName]
  {
    match Index(data, fieldName)
    case Success(v) => Success(v)
    case Failure(f) => Failure(PythonFault(f))
  }

  /** The site `loadSite` builds from an answer, or what was raised on the way. */
  ghost predicate SiteFrom(r: Result<Site, Exception>, answer: Result<Json, Exception>, api: InternalSitesApi, lp: SiteLoadParams)
    reads if r.Success? then {r.value} else {}
  {
    && (answer.Failure? ==> r == Failure(answer.error))
    && (answer.Success? && Index(answer.value, "id").Failure? ==> r == Failure(PythonFault(Index(answer.value, "id").error)))
    && (answer.Success? && Index(answer.value, "id").Success? ==>
          && r.Success?
          && r.value.api == api && r.value.id == Index(answer.value, "id").value
          && r.value.data == answer.value && r.value.loadParams == lp && r.value.cachedNode == None)
  }

  /** The load parameters `getNode(id)` gives a node: no include flag and no `fields` list. */
  function BareNodeParams(): LoadParams {
    NodeLoadParams(Some([]), None)
  }

  /**
   * What `loadSiteContainerNode` did since `before`, when the session was
   * `session`: one GET of the container, then what `NodeOfEntry` says
   * about the node its answer names.
   */
  ghost predicate ContainerLoaded(c: Client, before: seq<Request>, session: Option<Dict<string>>,
                                  siteId: string, containerId: string,
                                  r: Result<Node, Exception>, nodesApi: InternalNodesApi?)
    reads c, if r.Success? then {r.value} else {}
  {
    var first := if session.Some? then session.value else Authorized([], c.ticket);
    && |c.sent| > |before|
    && c.sent[..|before| + 1] == before + [AlfrescoGet(c, ContainerUrl(siteId, containerId), [], first)]
    && NodeOfEntry(c, c.sent[..|before| + 1], Answer(c, c.sent[|before|]), r, nodesApi)
  }

  /**
   * The node an entry's `id` names, fetched with `getNode` after `before`;
   * no further request when the entry is missing, has no `id`, or has one
   * that is not a string.
   */
  ghost predicate NodeOfEntry(c: Client, before: seq<Request>, entry: Result<Json, Exception>,
                              r: Result<Node, Exception>, nodesApi: InternalNodesApi?)
    reads c, if r.Success? then {r.value} else {}
  {
    if entry.Failure? then r == Failure(entry.error) && c.sent == before
    else if Index(entry.value, "id").Failure? then
      r == Failure(PythonFault(Index(entry.value, "id").error)) && c.sent == before
    else
      var id := Index(entry.value, "id").value;
      if !id.Str? then r == Failure(PythonFault(QuoteFault)) && c.sent == before
      else
        && nodesApi != null
        && SentOnce(c, before, NodeUrl(id.s, ""), NodeDataParams(Some(BareNodeParams()), None))
        && NodeFrom(r, LastAnswer(c), nodesApi, BareNodeParams())
  }

  // ---------------------------------------------------------------- internal API

  class InternalSitesApi {
    const client: Client

    constructor(client: Client)
      ensures this.client == client
    {
      this.client := client;
    }

    /**
     * `loadSite`: the load parameters from the arguments (a `fields` list
     * completed with `id` and `guid`), one fetch, and a site over the answer.
     */
    method LoadSite(siteId: Json, relations: Option<seq<string>>, fields: Option<seq<string>>)
      returns (r: Result<Site, Exception>)
      requires client.Valid()
      modifies client
      ensures client.Valid() && client.ticket == old(client.ticket)
      ensures !siteId.Str? ==> r == Failure(PythonFault(QuoteFault)) && unchanged(client)
      ensures siteId.Str? ==>
                && SentOnce(client, old(client.sent), SiteUrl(siteId.s), SiteParams(InitialSiteParams(relations, fields)))
                && SiteFrom(r, LastAnswer(client), this, InitialSiteParams(relations, fields))
      ensures r.Success? ==> fresh(r.value)
    {
      var lp := SiteLoadParams([], None);
      if relations.Some? {
        lp := lp.(relations := relations.value);
      }
      if fields.Some? {
        var fs := fields.value;
        if "id" !in fs {
          fs := fs + ["id"];
        }
        if "guid" !in fs {
          fs := fs + ["guid"];
        }
        lp := lp.(fields := Some(fs));
      }
      assert lp == InitialSiteParams(relations, fields);
      var siteData := LoadSiteData(siteId, lp);
      if siteData.Failure? {
        return Failure(siteData.error);
      }
      var id := Index(siteData.value, "id");
      if id.Failure? {
        return Failure(PythonFault(id.error));
      }
      var site := new Site(this, siteData.value, lp);
      r := Success(site);
    }

    /** `loadSiteData`: one GET of the site with a copy of its load parameters, an empty `fields` list dropped. */
    method LoadSiteData(siteId: Json, lp: SiteLoadParams) returns (r: Result<Json, Exception>)
      requires client.Valid()
      modifies client
      ensures client.Valid() && client.ticket == old(client.ticket)
      ensures !siteId.Str? ==> r == Failure(PythonFault(QuoteFault)) && unchanged(client)
      ensures siteId.Str? ==> SentOnce(client, old(client.sent), SiteUrl(siteId.s), SiteParams(lp))
      ensures siteId.Str? ==> r == LastAnswer(client)
    {
      if !siteId.Str? {
        return Failure(PythonFault(QuoteFault));
      }
      var opUrl := SiteUrl(siteId.s);
      var params: Dict<Param> := [("relations", PList(lp.relations))];
      if lp.fields.Some? {
        SetNewKeyAppends(params, "fields", PList(lp.fields.value));
        params := Set(params, "fields", PList(lp.fields.value));
        if |lp.fields.value| == 0 {
          DeleteLast([("relations", PList(lp.relations))], "fields", PList(lp.fields.value));
          params := Dicts.Delete(params, "fields");
        }
      }
      assert params == SiteParams(lp);
      var out := client.Get("alfresco", opUrl, None, Some(params), None, None, None);
      r := Returned(out);
    }

    /** `loadSiteNode`, reading its parameter: the node with that id, through `getNode`. */
    method LoadSiteNode(siteGuid: Json) returns (r: Result<Node, Exception>, ghost nodesApi: InternalNodesApi)
      requires client.Valid()
      modifies client
      ensures fresh(nodesApi) && nodesApi.client == client
      ensures client.Valid() && client.ticket == old(client.ticket)
      ensures !siteGuid.Str? ==> r == Failure(PythonFault(QuoteFault)) && unchanged(client)
      ensures siteGuid.Str? ==>
                && SentOnce(client, old(client.sent), NodeUrl(siteGuid.s, ""), NodeDataParams(Some(BareNodeParams()), None))
                && NodeFrom(r, LastAnswer(client), nodesApi, BareNodeParams())
      ensures r.Success? ==> fresh(r.value)
    {
      var nodes := new NodesApi(client);
      NoFlagsIncludeNothing();
      r, nodesApi := nodes.GetNode(siteGuid, None, None, NoFlags);
    }

    /** `loadSiteContainerNode`: the container's entry, then the node its `id` names. */
    method LoadSiteContainerNode(siteId: Json, containerId: string)
      returns (r: Result<Node, Exception>, ghost nodesApi: InternalNodesApi?)
      requires client.Valid()
      modifies client
      ensures client.Valid() && client.ticket == old(client.ticket)
      ensures !siteId.Str? ==> r == Failure(PythonFault(QuoteFault)) && unchanged(client)
      ensures siteId.Str? ==> ContainerLoaded(client, old(client.sent), old(client.session), siteId.s, containerId, r, nodesApi)
      ensures r.Success? ==> fresh(r.value)
    {
      nodesApi := null;
      if !siteId.Str? {
        r := Failure(PythonFault(QuoteFault));
        return;
      }
      ghost var before := client.sent;
      var out := client.Get("alfresco", ContainerUrl(siteId.s, containerId), None, None, None, None, None);
      ghost var mid := client.sent;
      assert mid == before + [AlfrescoGet(client, ContainerUrl(siteId.s, containerId), [], client.session.value)];
      var containerData := Returned(out);
      assert containerData == Answer(client, mid[|before|]);
      r, nodesApi := LoadEntryNode(containerData);
      assert client.sent[..|before| + 1] == mid;
    }

    /** The tail of `loadSiteContainerNode`: `getNode` of the `id` an answer carries. */
    method LoadEntryNode(entry: Result<Json, Exception>) returns (r: Result<Node, Exception>, ghost nodesApi: InternalNodesApi?)
      requires client.Valid()
      modifies client
      ensures client.Valid() && client.ticket == old(client.ticket)
      ensures NodeOfEntry(client, old(client.sent), entry, r, nodesApi)
      ensures r.Success? ==> fresh(r.value)
    {
      nodesApi := null;
      var nodes := new NodesApi(client);
      if entry.Failure? {
        r := Failure(entry.error);
        return;
      }
      var id := Index(entry.value, "id");
      if id.Failure? {
        r := Failure(PythonFault(id.error));
        return;
      }
      NoFlagsIncludeNothing();
      r, nodesApi := nodes.GetNode(id.value, None, None, NoFlags);
    }
  }

  // ---------------------------------------------------------------- the site object

  class Site {
    const api: InternalSitesApi
    const id: Json
    var data: Json
    var loadParams: SiteLoadParams
    var cachedNode: Option<Node>

    /** `Site(api, siteData, loadParameters)`: the id is read from the data, and no node is cached. */
    constructor(api: InternalSitesApi, siteData: Json, loadParameters: SiteLoadParams)
      requires siteData.Obj? && "id" in siteData.fields
      ensures this.api == api && id == siteData.fields["id"]
      ensures data == siteData && loadParams == loadParameters && cachedNode == None
    {
      this.api := api;
      id := siteData.fields["id"];
      data := siteData;
      loadParams := loadParameters;
      cachedNode := None;
    }

    /** `reload`, passing the site's load parameters as `loadSiteData` takes them: new data on success. */
    method Reload() returns (r: Result<(), Exception>)
      requires api.client.Valid()
      modifies this, api.client
      ensures api.client.Valid() && api.client.ticket == old(api.client.ticket)
      ensures loadParams == old(loadParams) && cachedNode == old(cachedNode)
      ensures !id.Str? ==> r == Failure(PythonFault(QuoteFault)) && data == old(data) && unchanged(api.client)
      ensures id.Str? ==> SentOnce(api.client, old(api.client.sent), SiteUrl(id.s), SiteParams(loadParams))
      ensures id.Str? && LastAnswer(api.client).Failure? ==> r == Failure(LastAnswer(api.client).error) && data == old(data)
      ensures id.Str? && LastAnswer(api.client).Success? ==> r == Success(()) && data == LastAnswer(api.client).value
    {
      var siteData := api.LoadSiteData(id, loadParams);
      if siteData.Failure? {
        return Failure(siteData.error);
      }
      data := siteData.value;
      r := Success(());
    }

    /**
     * `__getattr__`: a field the data holds is read at once; a miss widens
     * the load parameters, reloads when `fields` grew, and then reads the
     * field from the (possibly new) data.
     */
    method Get(fieldName: string) returns (r: Result<Json, Exception>)
      requires api.client.Valid()
      modifies this, api.client
      ensures api.client.Valid() && api.client.ticket == old(api.client.ticket)
      ensures cachedNode == old(cachedNode)
      ensures Contains(old(data), fieldName).Failure? ==>
                r == Failure(PythonFault(Contains(old(data), fieldName).error)) && unchanged(this) && unchanged(api.client)
      ensures Contains(old(data), fieldName) == Success(true) ==>
                r == FieldOf(data, fieldName) && unchanged(this) && unchanged(api.client)
      ensures Contains(old(data), fieldName) == Success(false) ==>
                var w := SiteWiden(old(loadParams), fieldName);
                && loadParams == w.lp
                && (w.reload.Failure? ==>
                      r == Failure(PythonFault(w.reload.error)) && data == old(data) && unchanged(api.client))
                && (w.reload == Success(false) ==>
                      data == old(data) && unchanged(api.client) && r == FieldOf(data, fieldName))
                && (w.reload == Success(true) && !id.Str? ==>
                      r == Failure(PythonFault(QuoteFault)) && data == old(data) && unchanged(api.client))
                && (w.reload == Success(true) && id.Str? ==>
                      && SentOnce(api.client, old(api.client.sent), SiteUrl(id.s), SiteParams(w.lp))
                      && (LastAnswer(api.client).Failure? ==>
                            r == Failure(LastAnswer(api.client).error) && data == old(data))
                      && (LastAnswer(api.client).Success? ==>
                            data == LastAnswer(api.client).value && r == FieldOf(data, fieldName)))
    {
      var present := Contains(data, fieldName);
      if present.Failure? {
        return Failure(PythonFault(present.error));
      }
      if !present.value {
        var w := SiteWiden(loadParams, fieldName);
        loadParams := w.lp;
        if w.reload.Failure? {
          return Failure(PythonFault(w.reload.error));
        }
        if w.reload.value {
          var reloaded := Reload();
          if reloaded.Failure? {
            return Failure(reloaded.error);
          }
        }
      }
      r := FieldOf(data, fieldName);
    }

    /**
     * `getSiteNode`, reading `guid` from the site data: the node is fetched
     * once and cached; later calls return the cached node without a request.
     */
    method GetSiteNode() returns (r: Result<Node, Exception>, ghost nodesApi: InternalNodesApi?)
      requires api.client.Valid()
      modifies this, api.client
      ensures api.client.Valid() && api.client.ticket == old(api.client.ticket)
      ensures data == old(data) && loadParams == old(loadParams)
      ensures old(cachedNode).Some? ==> r == Success(old(cachedNode).value) && unchanged(this) && unchanged(api.client)
      ensures old(cachedNode).None? && Index(data, "guid").Failure? ==>
                r == Failure(PythonFault(Index(data, "guid").error)) && unchanged(this) && unchanged(api.client)
      ensures old(cachedNode).None? && Index(data, "guid").Success? && !Index(data, "guid").value.Str? ==>
                r == Failure(PythonFault(QuoteFault)) && unchanged(this) && unchanged(api.client)
      ensures old(cachedNode).None? && Index(data, "guid").Success? && Index(data, "guid").value.Str? ==>
                && nodesApi != null
                && SentOnce(api.client, old(api.client.sent), NodeUrl(Index(data, "guid").value.s, ""),
                            NodeDataParams(Some(BareNodeParams()), None))
                && NodeFrom(r, LastAnswer(api.client), nodesApi, BareNodeParams())
                && cachedNode == (if r.Success? then Some(r.value) else None)
    {
      nodesApi := null;
      if cachedNode.None? {
        var guid := Index(data, "guid");
        if guid.Failure? {
          r := Failure(PythonFault(guid.error));
          return;
        }
        var node;
        node, nodesApi := api.LoadSiteNode(guid.value);
        if node.Failure? {
          r := Failure(node.error);
          return;
        }
        cachedNode := Some(node.value);
      }
      r := Success(cachedNode.value);
    }

    /** `getSiteNode` as written: raises AttributeError while no node is cached, which is always. */
    method GetSiteNodeAsWritten() returns (r: Result<Node, Exception>)
      ensures cachedNode.None? ==> r == Failure(PythonFault(GuidAttributeAsWritten(data).error))
      ensures cachedNode.Some? ==> r == Success(cachedNode.value)
    {
      if cachedNode.None? {
        return Failure(PythonFault(GuidAttributeAsWritten(data).error));
      }
      r := Success(cachedNode.value);
    }

    /** `getDocumentLibrary`: the site's `documentLibrary` container node. */
    method GetDocumentLibrary() returns (r: Result<Node, Exception>, ghost nodesApi: InternalNodesApi?)
      requires api.client.Valid()
      modifies api.client
      ensures api.client.Valid() && api.client.ticket == old(api.client.ticket)
      ensures !id.Str? ==> r == Failure(PythonFault(QuoteFault)) && unchanged(api.client)
      ensures id.Str? ==> ContainerLoaded(api.client, old(api.client.sent), old(api.client.session), id.s, "documentLibrary", r, nodesApi)
    {
      r, nodesApi := api.LoadSiteContainerNode(id, "documentLibrary");
    }

    /** `getCalendar`: the site's `calendar` container node. */
    method GetCalendar() returns (r: Result<Node, Exception>, ghost nodesApi: InternalNodesApi?)
      requires api.client.Valid()
      modifies api.client
      ensures api.client.Valid() && api.client.ticket == old(api.client.ticket)
      ensures !id.Str? ==> r == Failure(PythonFault(QuoteFault)) && unchanged(api.client)
      ensures id.Str? ==> ContainerLoaded(api.client, old(api.client.sent), old(api.client.session), id.s, "calendar", r, nodesApi)
    {
      r, nodesApi := api.LoadSiteContainerNode(id, "calendar");
    }

    /** `getLinks`: the site's `links` container node. */
    method GetLinks() returns (r: Result<Node, Exception>, ghost nodesApi: InternalNodesApi?)
      requires api.client.Valid()
      modifies api.client
      ensures api.client.Valid() && api.client.ticket == old(api.client.ticket)
      ensures !id.Str? ==> r == Failure(PythonFault(QuoteFault)) && unchanged(api.client)
      ensures id.Str? ==> ContainerLoaded(api.client, old(api.client.sent), old(api.client.session), id.s, "links", r, nodesApi)
    {
      r, nodesApi := api.LoadSiteContainerNode(id, "links");
    }
  }

  // ---------------------------------------------------------------- public API

  class SitesApi {
    const client: Client

    constructor(client: Client)
      ensures this.client == client
    {
      this.client := client;
    }

    /** `getSite`: one fetch of the site through a new internal API. */
    method GetSite(siteId: Json, relations: Option<seq<string>>, fields: Option<seq<string>>)
      returns (r: Result<Site, Exception>, ghost api: InternalSitesApi)
      requires client.Valid()
      modifies client
      ensures fresh(api) && api.client == client
      ensures client.Valid() && client.ticket == old(client.ticket)
      ensures !siteId.Str? ==> r == Failure(PythonFault(QuoteFault)) && unchanged(client)
      ensures siteId.Str? ==>
                && SentOnce(client, old(client.sent), SiteUrl(siteId.s), SiteParams(InitialSiteParams(relations, fields)))
                && SiteFrom(r, LastAnswer(client), api, InitialSiteParams(relations, fields))
      ensures r.Success? ==> fresh(r.value)
    {
      var internal := new InternalSitesApi(client);
      api := internal;
      r := internal.LoadSite(siteId, relations, fields);
    }
  }
}
