/**
 * The node proxy of the legacy client (alfresco_client_nodes.py): the
 * include list built from seven flags, the query parameters of a node
 * request, the eight load arguments a node keeps, and `reload`, which
 * repeats the load with them.
 */
module LegacyNodes {
  import opened Wrappers
  import opened Json
  import opened Text
  import opened Encoding
  import opened Http
  import opened Dicts
  import opened LegacyClient

  /** The includable node aspects, in the order the include list is built. */
  const IncludeNames: seq<string> :=
    ["allowableOperations", "permissions", "associations", "path", "isLink", "isFavorite", "isLocked"]

  /** The seven `load*` flags of `loadNodeData`. */
  datatype IncludeFlags = IncludeFlags(
    allowableOperations: bool, permissions: bool, associations: bool, path: bool,
    isLink: bool, isFavorite: bool, isLocked: bool)

  const NoFlags: IncludeFlags := IncludeFlags(false, false, false, false, false, false, false)

  function FlagList(f: IncludeFlags): (on: seq<bool>)
    ensures |on| == |IncludeNames|
  {
    [f.allowableOperations, f.permissions, f.associations, f.path, f.isLink, f.isFavorite, f.isLocked]
  }

  /** The include list for a set of flags: the enabled names in the fixed order. */
  function IncludeList(f: IncludeFlags): seq<string> {
    Selected(IncludeNames, FlagList(f))
  }

  /** An aspect is included exactly when its flag is set, and none is included twice. */
  lemma IncludeListExact(f: IncludeFlags, i: int)
    requires 0 <= i < |IncludeNames|
    ensures IncludeNames[i] in IncludeList(f) <==> FlagList(f)[i]
    ensures Distinct(IncludeList(f))
  {
    SelectedMembership(IncludeNames, FlagList(f), i);
    SelectedDistinct(IncludeNames, FlagList(f));
  }

  /** The query of a node request: `include` always, then `fields` and `relativePath` when given. */
  function NodeParams(relativePath: Option<string>, fields: Option<seq<string>>, flags: IncludeFlags): Dict<Param> {
    [("include", PList(IncludeList(flags)))]
    + (if fields.Some? then [("fields", PList(fields.value))] else [])
    + (if relativePath.Some? then [("relativePath", PStr(relativePath.value))] else [])
  }

  /** What a caller of the request reads back from its query, key by key. */
  lemma NodeParamsLookup(relativePath: Option<string>, fields: Option<seq<string>>, flags: IncludeFlags)
    ensures Lookup(NodeParams(relativePath, fields, flags), "include") == Some(PList(IncludeList(flags)))
    ensures Lookup(NodeParams(relativePath, fields, flags), "fields") ==
              (if fields.Some? then Some(PList(fields.value)) else None)
    ensures Lookup(NodeParams(relativePath, fields, flags), "relativePath") ==
              (if relativePath.Some? then Some(PStr(relativePath.value)) else None)
    ensures UniqueKeys(NodeParams(relativePath, fields, flags))
  {
  }

  /** Dropping the relative path from a node query gives the query `reload` sends. */
  lemma ReloadQueryDropsRelativePath(relativePath: Option<string>, fields: Option<seq<string>>, flags: IncludeFlags)
    ensures Dicts.Delete(NodeParams(relativePath, fields, flags), "relativePath") == NodeParams(None, fields, flags)
  {
    var p := NodeParams(None, fields, flags);
    if relativePath.Some? {
      assert "relativePath" !in Keys(p);
      assert NodeParams(relativePath, fields, flags) == p + [("relativePath", PStr(relativePath.value))];
      DeleteLast(p, "relativePath", PStr(relativePath.value));
    }
  }

  /** The value a legacy node keeps: the eight load arguments, in the order `loadNode` packs them. */
  datatype LoadTuple = LoadTuple(fields: Option<seq<string>>, flags: IncludeFlags)

  /** `InternalNodesAPI`: node requests over a connection. */
  class InternalNodesApi {
    const connection: Connection

    constructor(connection: Connection)
      ensures this.connection == connection
    {
      this.connection := connection;
    }

    /** `loadNodeData`: one GET of `nodes/{id}` with the shaped query, or a fault before anything is sent. */
    method LoadNodeData(nodeId: Json, relativePath: Option<string>, fields: Option<seq<string>>, flags: IncludeFlags)
      returns (r: Result<Value, Exception>)
      modifies connection.client
      ensures !nodeId.Str? ==>
                r == Failure(PythonFault(TypeError("quote_from_bytes() expected bytes")))
                && connection.client.sent == old(connection.client.sent)
      ensures nodeId.Str? && connection.TicketArgument().Failure? ==>
                r == Failure(PythonFault(connection.TicketArgument().error))
                && connection.client.sent == old(connection.client.sent)
      ensures nodeId.Str? && connection.TicketArgument().Success? ==>
                && connection.client.sent == old(connection.client.sent) + [
                     connection.client.RequestFor(Verb.Get, "alfresco", "nodes/" + QuotePlus(nodeId.s),
                       connection.TicketArgument().value, Some(NodeParams(relativePath, fields, flags)), None, None)]
                && r == Dispatch(connection.client.server(connection.client.sent[|connection.client.sent| - 1]), None, None)
    {
      if !nodeId.Str? {
        return Failure(PythonFault(TypeError("quote_from_bytes() expected bytes")));
      }
      var opUrl := "nodes/" + QuotePlus(nodeId.s);
      var params := BuildParams(relativePath, fields, flags);
      var ticket := connection.TicketArgument();
      if ticket.Failure? {
        return Failure(PythonFault(ticket.error));
      }
      r := connection.client.Get("alfresco", opUrl, ticket.value, Some(params), None, None, None);
    }
  }

  /** The query of `loadNodeData`: `include` first, then `fields` and `relativePath` assigned when given. */
  method BuildParams(relativePath: Option<string>, fields: Option<seq<string>>, flags: IncludeFlags)
    returns (params: Dict<Param>)
    ensures params == NodeParams(relativePath, fields, flags)
  {
    var paramInclude := BuildInclude(flags);
    params := [("include", PList(paramInclude))];
    if fields.Some? {
      params := Set(params, "fields", PList(fields.value));
    }
    if relativePath.Some? {
      params := Set(params, "relativePath", PStr(relativePath.value));
    }
    NodeParamsBuilt(relativePath, fields, flags);
  }

  /** The include list of `loadNodeData`, built by one append per enabled flag. */
  method BuildInclude(flags: IncludeFlags) returns (paramInclude: seq<string>)
    ensures paramInclude == IncludeList(flags)
  {
    ghost var on := FlagList(flags);
    paramInclude := [];
    paramInclude := AppendIf(paramInclude, flags.allowableOperations, IncludeNames[0]);
    SelectedPrefixStep(IncludeNames, on, 0);
    paramInclude := AppendIf(paramInclude, flags.permissions, IncludeNames[1]);
    SelectedPrefixStep(IncludeNames, on, 1);
    paramInclude := AppendIf(paramInclude, flags.associations, IncludeNames[2]);
    SelectedPrefixStep(IncludeNames, on, 2);
    paramInclude := AppendIf(paramInclude, flags.path, IncludeNames[3]);
    SelectedPrefixStep(IncludeNames, on, 3);
    paramInclude := AppendIf(paramInclude, flags.isLink, IncludeNames[4]);
    SelectedPrefixStep(IncludeNames, on, 4);
    paramInclude := AppendIf(paramInclude, flags.isFavorite, IncludeNames[5]);
    SelectedPrefixStep(IncludeNames, on, 5);
    paramInclude := AppendIf(paramInclude, flags.isLocked, IncludeNames[6]);
    SelectedPrefixStep(IncludeNames, on, 6);
    assert IncludeNames[..7] == IncludeNames && on[..7] == on;
  }

  /** One `if load…: paramInclude.append(…)` of `loadNodeData`. */
  method AppendIf(acc: seq<string>, enabled: bool, name: string) returns (r: seq<string>)
    ensures r == acc + (if enabled then [name] else [])
  {
    r := acc;
    if enabled {
      r := r + [name];
    }
  }

  /** Assigning `fields` and `relativePath` into a dictionary holding `include` builds the node query. */
  lemma NodeParamsBuilt(relativePath: Option<string>, fields: Option<seq<string>>, flags: IncludeFlags)
    ensures var p0: Dict<Param> := [("include", PList(IncludeList(flags)))];
            var p1 := if fields.Some? then Set(p0, "fields", PList(fields.value)) else p0;
            (if relativePath.Some? then Set(p1, "relativePath", PStr(relativePath.value)) else p1)
              == NodeParams(relativePath, fields, flags)
  {
    var p0: Dict<Param> := [("include", PList(IncludeList(flags)))];
    var p1 := if fields.Some? then Set(p0, "fields", PList(fields.value)) else p0;
    if fields.Some? {
      SetNewKeyAppends(p0, "fields", PList(fields.value));
    }
    if relativePath.Some? {
      SetNewKeyAppends(p1, "relativePath", PStr(relativePath.value));
    }
  }

  /** `Node` of the legacy client: its id, the data last loaded, and the load arguments to repeat. */
  class Node {
    const api: InternalNodesApi
    const nodeId: Json
    var nodeData: Value
    const loadParameters: Option<LoadTuple>

    constructor(api: InternalNodesApi, nodeId: Json, nodeData: Value, loadParameters: Option<LoadTuple>)
      ensures this.api == api && this.nodeId == nodeId && this.nodeData == nodeData
      ensures this.loadParameters == loadParameters
    {
      this.api := api;
      this.nodeId := nodeId;
      this.nodeData := nodeData;
      this.loadParameters := loadParameters;
    }

    /** The fields list and flags `reload` passes: the kept arguments, or the defaults. */
    function ReloadArguments(): (Option<seq<string>>, IncludeFlags) {
      if loadParameters.Some? then (loadParameters.value.fields, loadParameters.value.flags) else (None, NoFlags)
    }

    /** `reload`: the load repeated with the kept arguments and no relative path; the data is replaced on success. */
    method Reload() returns (r: Result<(), Exception>)
      modifies this, api.connection.client
      ensures nodeId.Str? && api.connection.TicketArgument().Success? ==>
                api.connection.client.sent == old(api.connection.client.sent) + [
                  api.connection.client.RequestFor(Verb.Get, "alfresco", "nodes/" + QuotePlus(nodeId.s),
                    api.connection.TicketArgument().value,
                    Some(NodeParams(None, ReloadArguments().0, ReloadArguments().1)), None, None)]
      ensures !nodeId.Str? ==>
                r == Failure(PythonFault(TypeError("quote_from_bytes() expected bytes")))
                && api.connection.client.sent == old(api.connection.client.sent)
      ensures nodeId.Str? && api.connection.TicketArgument().Failure? ==>
                r == Failure(PythonFault(api.connection.TicketArgument().error))
                && api.connection.client.sent == old(api.connection.client.sent)
      ensures nodeId.Str? && api.connection.TicketArgument().Success? ==>
                var v := Dispatch(api.connection.client.server(
                           api.connection.client.sent[|api.connection.client.sent| - 1]), None, None);
                && (r.Success? <==> v.Success?)
                && (r.Failure? ==> r.error == v.error)
                && (r.Success? ==> nodeData == v.value)
      ensures r.Failure? ==> nodeData == old(nodeData)
    {
      var data;
      if loadParameters.Some? {
        var p := loadParameters.value;
        data := api.LoadNodeData(nodeId, None, p.fields, p.flags);
      } else {
        data := api.LoadNodeData(nodeId, None, None, NoFlags);
      }
      if data.Failure? {
        return Failure(data.error);
      }
      nodeData := data.value;
      r := Success(());
    }
  }

  /** `NodesAPI`: the public entry point, over its own internal API object. */
  class NodesApi {
    const internalApi: InternalNodesApi

    constructor(connection: Connection)
      ensures fresh(internalApi) && internalApi.connection == connection
    {
      internalApi := new InternalNodesApi(connection);
    }

    /** `loadNode`: load the data, then keep the eight load arguments and take the id from the data. */
    method LoadNode(nodeId: Json, relativePath: Option<string>, fields: Option<seq<string>>, flags: IncludeFlags)
      returns (r: Result<Node, Exception>)
      modifies internalApi.connection.client
      ensures nodeId.Str? && internalApi.connection.TicketArgument().Success? ==>
                internalApi.connection.client.sent == old(internalApi.connection.client.sent) + [
                  internalApi.connection.client.RequestFor(Verb.Get, "alfresco", "nodes/" + QuotePlus(nodeId.s),
                    internalApi.connection.TicketArgument().value,
                    Some(NodeParams(relativePath, fields, flags)), None, None)]
      ensures !nodeId.Str? ==>
                r == Failure(PythonFault(TypeError("quote_from_bytes() expected bytes")))
                && internalApi.connection.client.sent == old(internalApi.connection.client.sent)
      ensures nodeId.Str? && internalApi.connection.TicketArgument().Failure? ==>
                r == Failure(PythonFault(internalApi.connection.TicketArgument().error))
                && internalApi.connection.client.sent == old(internalApi.connection.client.sent)
      ensures nodeId.Str? && internalApi.connection.TicketArgument().Success? ==>
                var v := Dispatch(internalApi.connection.client.server(
                           internalApi.connection.client.sent[|internalApi.connection.client.sent| - 1]), None, None);
                && (r.Success? <==> v.Success? && Subscript(v.value, "id").Success?)
                && (v.Failure? ==> r == Failure(v.error))
                && (v.Success? && Subscript(v.value, "id").Failure? ==>
                      r == Failure(PythonFault(Subscript(v.value, "id").error)))
      ensures r.Success? ==> |internalApi.connection.client.sent| == |old(internalApi.connection.client.sent)| + 1
      ensures r.Success? ==>
                var v := Dispatch(internalApi.connection.client.server(
                           internalApi.connection.client.sent[|internalApi.connection.client.sent| - 1]), None, None);
                && fresh(r.value)
                && r.value.api == internalApi
                && v == Success(r.value.nodeData)
                && Subscript(r.value.nodeData, "id") == Success(r.value.nodeId)
                && r.value.loadParameters == Some(LoadTuple(fields, flags))
    {
      var data := internalApi.LoadNodeData(nodeId, relativePath, fields, flags);
      if data.Failure? {
        return Failure(data.error);
      }
      var id := Subscript(data.value, "id");
      if id.Failure? {
        return Failure(PythonFault(id.error));
      }
      var node := new Node(internalApi, id.value, data.value, Some(LoadTuple(fields, flags)));
      r := Success(node);
    }
  }

  /** `Connection.nodesAPI`. */
  method NodesApiOf(connection: Connection) returns (api: NodesApi)
    ensures fresh(api) && fresh(api.internalApi) && api.internalApi.connection == connection
  {
    api := new NodesApi(connection);
  }
}
