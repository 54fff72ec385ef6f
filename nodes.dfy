/**
 * The node proxy of the public v1 client (api/nodes.py): the load
 * parameters a node carries, the query each loader sends, the grouping of
 * related nodes by association type, and the `Node` object that widens its
 * load parameters, reloads itself and resolves properties and associations
 * lazily through caches.
 */
module Nodes {
  import opened Wrappers
  import opened Json
  import opened Text
  import opened Encoding
  import opened Http
  import opened Dicts
  import opened Connections

  // ---------------------------------------------------------------- field tables

  /** `_includeFields`: the fields the server returns only when `include` names them. */
  const IncludeFields: seq<string> :=
    ["allowableOperations", "permissions", "path", "isLink", "isFavorite", "isLocked"]

  /** `_nodeFields`: every field a `fields` list may name. */
  const NodeFields: seq<string> := IncludeFields +
    ["id", "name", "nodeType", "isFile", "isFolder", "modifiedAt", "modifiedByUser",
     "createdAt", "createdByUser", "parentId", "content", "aspectNames", "properties"]

  // ---------------------------------------------------------------- load parameters

  /** A node's load-parameter dict: its `include` and `fields` lists, None where the key is absent. */
  datatype LoadParams = LoadParams(includes: Option<seq<string>>, fields: Option<seq<string>>)

  /** The empty dict `{}`. */
  const NoLoadParams: LoadParams := LoadParams(None, None)

  /** One optional query parameter: the pair when there is a value, nothing otherwise. */
  function Piece(key: string, value: Option<Param>): (d: Dict<Param>)
    ensures Keys(d) == if value.Some? then [key] else []
    ensures forall x :: Lookup(d, x) == if x == key then value else None
  {
    if value.Some? then [(key, value.value)] else []
  }

  /** A list parameter, when the list exists. */
  function ListParam(xs: Option<seq<string>>): Option<Param> {
    if xs.Some? then Some(PList(xs.value)) else None
  }

  /** A string parameter, when the string exists. */
  function StrParam(s: Option<string>): Option<Param> {
    if s.Some? then Some(PStr(s.value)) else None
  }

  /** A list that exists and is not empty; the loaders drop the others. */
  function NonEmpty(xs: Option<seq<string>>): Option<seq<string>> {
    if xs.Some? && |xs.value| > 0 then xs else None
  }

  /** Assigning a new key appends its piece. */
  lemma AssignPiece(d: Dict<Param>, key: string, value: Option<Param>)
    requires key !in Keys(d)
    ensures (if value.Some? then Set(d, key, value.value) else d) == d + Piece(key, value)
  {
    if value.Some? {
      SetNewKeyAppends(d, key, value.value);
    } else {
      assert d + Piece(key, value) == d;
    }
  }

  /** Looking a key up in a dict followed by one piece. */
  lemma LookupPiece(d: Dict<Param>, key: string, value: Option<Param>, x: string)
    ensures Lookup(d + Piece(key, value), x) ==
              if Lookup(d, x).Some? then Lookup(d, x) else if x == key then value else None
  {
    if value.Some? {
      LookupSnoc(d, key, value.value, x);
    } else {
      assert d + Piece(key, value) == d;
    }
  }

  /** `dict(loadParameters)` as query parameters: `include` before `fields`. */
  function ParamsOf(lp: LoadParams): Dict<Param> {
    Piece("include", ListParam(lp.includes)) + Piece("fields", ListParam(lp.fields))
  }

  /** What the parameters copied from a load-parameter dict hold. */
  lemma ParamsOfFacts(lp: LoadParams)
    ensures Keys(ParamsOf(lp)) == Keys(Piece("include", ListParam(lp.includes))) + Keys(Piece("fields", ListParam(lp.fields)))
    ensures Lookup(ParamsOf(lp), "include") == ListParam(lp.includes)
    ensures Lookup(ParamsOf(lp), "fields") == ListParam(lp.fields)
  {
    var i, f := Piece("include", ListParam(lp.includes)), Piece("fields", ListParam(lp.fields));
    KeysConcat(i, f);
    LookupPiece(i, "fields", ListParam(lp.fields), "include");
    LookupPiece(i, "fields", ListParam(lp.fields), "fields");
  }

  /**
   * The `fields` list `loadNode` keeps: a copy of the caller's list with
   * `id` appended when the list is non-empty and lacks it, `[]` when no list
   * was given.
   */
  function FieldsWithId(fields: Option<seq<string>>): (r: seq<string>)
    ensures |r| > 0 ==> "id" in r
    ensures fields.None? ==> r == []
    ensures fields.Some? ==> |r| == |fields.value| + (if |fields.value| > 0 && "id" !in fields.value then 1 else 0)
    ensures fields.Some? ==> r[..|fields.value|] == fields.value
  {
    if fields.None? then []
    else if |fields.value| > 0 && "id" !in fields.value then fields.value + ["id"]
    else fields.value
  }

  /** The load parameters `loadNode` gives the node it builds: both keys always present. */
  function NodeLoadParams(includes: Option<seq<string>>, fields: Option<seq<string>>): LoadParams {
    LoadParams(Some(includes.GetOr([])), Some(FieldsWithId(fields)))
  }

  /** The `fields` list of a node built by `loadNode` never lacks `id` unless it is empty. */
  lemma NodeLoadParamsKeepId(includes: Option<seq<string>>, fields: Option<seq<string>>)
    ensures var lp := NodeLoadParams(includes, fields);
            && lp.includes.Some? && lp.fields.Some?
            && (includes.Some? ==> lp.includes.value == includes.value)
            && (includes.None? ==> lp.includes.value == [])
            && (|lp.fields.value| == 0 || "id" in lp.fields.value)
            && (fields.Some? ==> forall f :: f in fields.value ==> f in lp.fields.value)
  {
    var r := FieldsWithId(fields);
    if fields.Some? {
      forall f | f in fields.value ensures f in r {
        var i :| 0 <= i < |fields.value| && fields.value[i] == f;
        assert r[..|fields.value|][i] == f;
      }
    }
  }

  /** The parameters `loadNodeData` sends: `include` if given, a non-empty `fields`, then `relativePath`. */
  function NodeDataParams(lp: Option<LoadParams>, relativePath: Option<string>): Dict<Param> {
    var l := lp.GetOr(NoLoadParams);
    Piece("include", ListParam(l.includes)) + Piece("fields", ListParam(NonEmpty(l.fields)))
    + Piece("relativePath", StrParam(relativePath))
  }

  /** An empty `fields` list never reaches the server; `include` and `relativePath` pass as given. */
  lemma NodeDataQuery(lp: Option<LoadParams>, relativePath: Option<string>)
    ensures var ps := NodeDataParams(lp, relativePath);
            && (Lookup(ps, "fields").Some? <==> lp.Some? && lp.value.fields.Some? && |lp.value.fields.value| > 0)
            && (Lookup(ps, "fields").Some? ==> Lookup(ps, "fields").value == PList(lp.value.fields.value))
            && Lookup(ps, "relativePath") == StrParam(relativePath)
            && (lp.Some? ==> Lookup(ps, "include") == ListParam(lp.value.includes))
  {
    var l := lp.GetOr(NoLoadParams);
    var a, b := Piece("include", ListParam(l.includes)), Piece("fields", ListParam(NonEmpty(l.fields)));
    var c := StrParam(relativePath);
    LookupPiece(a, "fields", ListParam(NonEmpty(l.fields)), "fields");
    LookupPiece(a + b, "relativePath", c, "fields");
    LookupPiece(a, "fields", ListParam(NonEmpty(l.fields)), "include");
    LookupPiece(a + b, "relativePath", c, "include");
    LookupPiece(a, "fields", ListParam(NonEmpty(l.fields)), "relativePath");
    LookupPiece(a + b, "relativePath", c, "relativePath");
  }

  /**
   * The steps of `loadNodeData` build `NodeDataParams`: copy the load
   * parameters, assign `relativePath`, and delete an empty `fields` list.
   */
  lemma NodeDataSteps(lp: Option<LoadParams>, relativePath: Option<string>, p0: Dict<Param>, p1: Dict<Param>)
    requires p0 == if lp.Some? then ParamsOf(lp.value) else []
    requires p1 == if relativePath.Some? then Set(p0, "relativePath", PStr(relativePath.value)) else p0
    ensures var f := Lookup(p1, "fields");
            (if f.Some? && f.value == PList([]) then Dicts.Delete(p1, "fields") else p1) == NodeDataParams(lp, relativePath)
  {
    var l := lp.GetOr(NoLoadParams);
    var inc, fs := Piece("include", ListParam(l.includes)), Piece("fields", ListParam(l.fields));
    var rp := Piece("relativePath", StrParam(relativePath));
    assert p0 == inc + fs;
    assert p1 == inc + fs + rp by {
      NotInConcat(inc, fs, "relativePath");
      AssignPiece(inc + fs, "relativePath", StrParam(relativePath));
    }
    assert Lookup(p1, "fields") == ListParam(l.fields) by {
      LookupConcat(inc + fs, rp, "fields");
      LookupConcat(inc, fs, "fields");
    }
    if l.fields == Some([]) {
      DeleteEmptyFields(inc, rp);
      assert NodeDataParams(lp, relativePath) == inc + [] + rp;
    } else {
      assert NonEmpty(l.fields) == l.fields;
    }
  }

  /** Deleting an empty `fields` list between the other parameters. */
  lemma DeleteEmptyFields(inc: Dict<Param>, rest: Dict<Param>)
    requires "fields" !in Keys(inc) && "fields" !in Keys(rest)
    ensures Dicts.Delete(inc + [("fields", PList([]))] + rest, "fields") == inc + [] + rest
  {
    DeleteMiddle(inc, "fields", PList([]), rest);
    assert inc + [] == inc;
  }

  // ---------------------------------------------------------------- widening

  /** The load parameters after a miss on a field, and whether the miss makes the node reload. */
  datatype Widening = Widening(lp: LoadParams, reload: Result<bool, Fault>)

  /**
   * The widening `__getattr__` performs for a field absent from the node
   * data: a non-empty `fields` list gains a known field it lacks, and that
   * alone asks for a reload; an includable field joins `include` without
   * asking for one. Reading `fields` or `include` raises KeyError when the
   * key is absent, after any append already made.
   */
  function Widen(lp: LoadParams, fieldName: string): Widening {
    if lp.fields.None? then Widening(lp, Failure(KeyError("fields")))
    else
      var fields := lp.fields.value;
      var grow := |fields| > 0 && fieldName in NodeFields && fieldName !in fields;
      var fields' := if grow then fields + [fieldName] else fields;
      if fieldName !in IncludeFields then Widening(LoadParams(lp.includes, Some(fields')), Success(grow))
      else if lp.includes.None? then Widening(LoadParams(lp.includes, Some(fields')), Failure(KeyError("include")))
      else Widening(LoadParams(Some(AddOnce(lp.includes.value, fieldName)), Some(fields')), Success(grow))
  }

  /**
   * A known field missing from a non-empty `fields` list is appended exactly
   * once and asks for a reload; an includable field ends up in `include`;
   * nothing else in the load parameters changes.
   */
  lemma WidenAppends(lp: LoadParams, fieldName: string)
    requires lp.fields.Some? && (fieldName in IncludeFields ==> lp.includes.Some?)
    ensures var w := Widen(lp, fieldName);
            && w.reload.Success?
            && (w.reload.value <==> |lp.fields.value| > 0 && fieldName in NodeFields && fieldName !in lp.fields.value)
            && w.lp.fields == Some(if w.reload.value then lp.fields.value + [fieldName] else lp.fields.value)
            && (fieldName in IncludeFields ==> w.lp.includes == Some(AddOnce(lp.includes.value, fieldName)))
            && (fieldName !in IncludeFields ==> w.lp.includes == lp.includes)
  {
  }

  /** Widening twice for the same field changes nothing more and never asks for a second reload. */
  lemma WidenIdempotent(lp: LoadParams, fieldName: string)
    requires Widen(lp, fieldName).reload.Success?
    ensures var w := Widen(lp, fieldName);
            Widen(w.lp, fieldName) == Widening(w.lp, Success(false))
  {
    var w := Widen(lp, fieldName);
    if fieldName in IncludeFields {
      AddOnceIdempotent(lp.includes.value, fieldName);
    }
    if |lp.fields.value| > 0 && fieldName in NodeFields && fieldName !in lp.fields.value {
      assert fieldName in w.lp.fields.value by {
        assert w.lp.fields.value[|lp.fields.value|] == fieldName;
      }
    }
  }

  /**
   * An includable field that `fields` does not hold back is appended to
   * `include` but asks for no reload, so the node keeps data without the
   * field.
   */
  lemma IncludeOnlyMissDoesNotReload(lp: LoadParams, fieldName: string)
    requires fieldName in IncludeFields && lp.includes.Some? && fieldName !in lp.includes.value
    requires lp.fields.Some? && (|lp.fields.value| == 0 || fieldName in lp.fields.value)
    ensures Widen(lp, fieldName) == Widening(LoadParams(Some(lp.includes.value + [fieldName]), lp.fields), Success(false))
  {
  }

  /** A node whose load parameters are `{}`, as every source and child node's are, raises on any missing field. */
  lemma EmptyLoadParamsRaise(fieldName: string)
    ensures Widen(NoLoadParams, fieldName) == Widening(NoLoadParams, Failure(KeyError("fields")))
  {
  }

  // ---------------------------------------------------------------- property fallback

  /**
   * `__getPropertyFallback`: for a bare name, the value under `cm:` + name
   * in the `properties` of the node data, Null when there is none; a
   * KeyError while looking it up is swallowed, any other fault raised.
   */
  function PropertyFallback(data: Json, propertyName: string): Result<Json, Fault> {
    var hasProperties :- Contains(data, "properties");
    if hasProperties && IsBareName(propertyName) then
      var properties :- Index(data, "properties");
      var v := Index(properties, "cm:" + propertyName);
      if v.Success? then Success(v.value)
      else if v.error.KeyError? then Success(Null)
      else Failure(v.error)
    else
      Success(Null)
  }

  /**
   * A bare name resolves to its `cm:` property; a prefixed name, or a bare
   * name without a `cm:` entry, resolves to nothing.
   */
  lemma PropertyFallbackResolves(properties: map<string, Json>, rest: map<string, Json>, propertyName: string)
    ensures var data := Obj(rest["properties" := Obj(properties)]);
            && (IsBareName(propertyName) && "cm:" + propertyName in properties ==>
                  PropertyFallback(data, propertyName) == Success(properties["cm:" + propertyName]))
            && (IsBareName(propertyName) && "cm:" + propertyName !in properties ==>
                  PropertyFallback(data, propertyName) == Success(Null))
            && (!IsBareName(propertyName) ==> PropertyFallback(data, propertyName) == Success(Null))
  {
  }

  // ---------------------------------------------------------------- association names

  /** The key an association name is looked up and cached under: `cm:` + name for a bare name. */
  function AssociationKey(name: string): (key: string)
    ensures IsBareName(name) ==> key == "cm:" + name
    ensures !IsBareName(name) ==> key == name
  {
    if IsBareName(name) then "cm:" + name else name
  }

  /** A key is never bare again, so qualifying a name twice qualifies it once. */
  lemma AssociationKeyIdempotent(name: string)
    ensures AssociationKey(AssociationKey(name)) == AssociationKey(name)
    ensures IsBareName(name) ==> !IsBareName(AssociationKey(name))
  {
    if IsBareName(name) {
      assert AssociationKey(name)[2] == ':';
    }
  }

  /** The `where` clause that asks for the associations of one type. */
  function AssocTypeFilter(key: string): string {
    "(assocType=" + key + ")"
  }

  // ---------------------------------------------------------------- relation queries

  /** The three relation loaders: targets, sources and children. */
  datatype Relation = Targets | Sources | Children

  /** The path below a node that lists the related nodes. */
  function RelationPath(kind: Relation): string {
    match kind
    case Targets => "/targets"
    case Sources => "/sources"
    case Children => "/children"
  }

  /**
   * The query a relation loader sends, and the load parameters as it leaves
   * them: `dict(loadParameters)`, `where`, `orderBy`, then an empty `fields`
   * is dropped and `association` put into `include`. The dict copy is
   * shallow, so the `association` appended to an existing `include` list
   * lands in the caller's list. Without a `fields` key the loader raises
   * KeyError, and a non-empty list lacking `id` reaches the undefined name
   * `param`. The paging defaults of `loadChildren` play no part: they are
   * replaced whenever load parameters are given, and without load
   * parameters the loader raises.
   */
  function RelatedQuery(where: Option<string>, orderBy: Option<seq<string>>, lp: Option<LoadParams>)
    : Result<(Dict<Param>, LoadParams), Fault>
  {
    if lp.None? || lp.value.fields.None? then Failure(KeyError("fields"))
    else
      var l := lp.value;
      var fields := l.fields.value;
      if |fields| > 0 && "id" !in fields then Failure(NameError("param"))
      else
        var l' := if l.includes.Some? then LoadParams(Some(AddOnce(l.includes.value, "association")), l.fields) else l;
        var params :=
          Piece("include", ListParam(l'.includes)) + Piece("fields", ListParam(NonEmpty(l.fields)))
          + Piece("where", StrParam(where)) + Piece("orderBy", ListParam(orderBy))
          + Piece("include", if l.includes.None? then Some(PList(["association"])) else None);
        Success((params, l'))
  }

  /** The parameters `loadChildren` starts from: the paging defaults. */
  function PagingParams(skipCount: int, maxItems: int): Dict<Param> {
    [("skipCount", PInt(skipCount)), ("maxItems", PInt(maxItems))]
  }

  /**
   * Every relation query that is sent asks for `association` exactly once,
   * carries no empty `fields`, and never carries the paging defaults.
   */
  lemma RelatedQueryShape(where: Option<string>, orderBy: Option<seq<string>>, lp: Option<LoadParams>)
    requires RelatedQuery(where, orderBy, lp).Success?
    ensures var (ps, lp') := RelatedQuery(where, orderBy, lp).value;
            && lp.Some? && lp.value.fields.Some?
            && (|lp.value.fields.value| == 0 || "id" in lp.value.fields.value)
            && Lookup(ps, "include") == Some(PList(if lp.value.includes.Some? then AddOnce(lp.value.includes.value, "association")
                                                   else ["association"]))
            && Lookup(ps, "fields") == (if |lp.value.fields.value| > 0 then Some(PList(lp.value.fields.value)) else None)
            && Lookup(ps, "skipCount") == None && Lookup(ps, "maxItems") == None
            && lp'.fields == lp.value.fields
  {
    var l := lp.value;
    var l' := RelatedQuery(where, orderBy, lp).value.1;
    var a := Piece("include", ListParam(l'.includes));
    var b := Piece("fields", ListParam(NonEmpty(l.fields)));
    var c := Piece("where", StrParam(where));
    var d := Piece("orderBy", ListParam(orderBy));
    var e := Piece("include", if l.includes.None? then Some(PList(["association"])) else None);
    assert RelatedQuery(where, orderBy, lp).value.0 == a + b + c + d + e;
    LookupFive(a, b, c, d, e, "include");
    LookupFive(a, b, c, d, e, "fields");
    LookupFive(a, b, c, d, e, "skipCount");
    LookupFive(a, b, c, d, e, "maxItems");
  }

  /** Looking a key up in five dicts laid end to end. */
  lemma LookupFive(a: Dict<Param>, b: Dict<Param>, c: Dict<Param>, d: Dict<Param>, e: Dict<Param>, x: string)
    ensures Lookup(a + b + c + d + e, x) ==
              if Lookup(a, x).Some? then Lookup(a, x) else if Lookup(b, x).Some? then Lookup(b, x)
              else if Lookup(c, x).Some? then Lookup(c, x) else if Lookup(d, x).Some? then Lookup(d, x)
              else Lookup(e, x)
  {
    LookupConcat(a, b, x);
    LookupConcat(a + b, c, x);
    LookupConcat(a + b + c, d, x);
    LookupConcat(a + b + c + d, e, x);
  }

  /** A loader given no load parameters, or none with `fields`, raises KeyError('fields') and sends nothing. */
  lemma RelatedQueryNeedsFields(where: Option<string>, orderBy: Option<seq<string>>, includes: Option<seq<string>>)
    ensures RelatedQuery(where, orderBy, None) == Failure(KeyError("fields"))
    ensures RelatedQuery(where, orderBy, Some(LoadParams(includes, None))) == Failure(KeyError("fields"))
  {
  }

  /** A non-empty `fields` list without `id` reaches the undefined name `param`. */
  lemma RelatedQueryNeedsId(where: Option<string>, orderBy: Option<seq<string>>, lp: LoadParams)
    requires lp.fields.Some? && |lp.fields.value| > 0 && "id" !in lp.fields.value
    ensures RelatedQuery(where, orderBy, Some(lp)) == Failure(NameError("param"))
  {
  }

  /**
   * The load parameters a related node gets: the target loader copies the
   * caller's lists (after its own append), the source and child loaders copy
   * only dict values and so give `{}`.
   */
  function RelatedCopy(kind: Relation, lp: LoadParams): LoadParams {
    if kind == Targets then lp else NoLoadParams
  }

  // ---------------------------------------------------------------- listing and grouping

  /** `for entry in listResult['list']['entries']`: the entries iterated, or the fault. */
  function ListEntries(listResult: Json): Result<seq<Json>, Fault> {
    var list :- Index(listResult, "list");
    var entries :- Index(list, "entries");
    match entries
    case Arr(items) => Success(items)
    case Obj(fields) => if |fields| == 0 then Success([]) else Failure(TypeError("string indices must be integers"))
    case Str(s) => if |s| == 0 then Success([]) else Failure(TypeError("string indices must be integers"))
    case _ => Failure(TypeError("object is not iterable"))
  }

  /**
   * One list entry: its association type, and the node data without the
   * `association` key, or the fault raised reading `entry`, `id`,
   * `association.assocType`, or using an unhashable association type as a
   * dict key.
   */
  function Tag(listEntry: Json): (r: Result<(Json, Json), Fault>)
    ensures r.Success? ==> r.value.1.Obj? && "id" in r.value.1.fields && "association" !in r.value.1.fields
  {
    var nodeData :- Index(listEntry, "entry");
    var id :- Index(nodeData, "id");
    var association :- Index(nodeData, "association");
    var assocType :- Index(association, "assocType");
    if assocType.Arr? || assocType.Obj? then Failure(TypeError("unhashable type"))
    else Success((assocType, Obj(nodeData.fields - {"association"})))
  }

  /** Every entry tagged in order; the first fault wins. */
  function Tagged(entries: seq<Json>): (r: Result<seq<(Json, Json)>, Fault>)
    ensures r.Success? ==> |r.value| == |entries|
  {
    if |entries| == 0 then Success([])
    else
      var init :- Tagged(entries[..|entries| - 1]);
      var last :- Tag(entries[|entries| - 1]);
      Success(init + [last])
  }

  /** A fault while tagging a prefix of the entries is the fault of the whole list. */
  lemma {:induction false} TaggedPrefixFault(entries: seq<Json>, n: nat)
    requires n <= |entries| && Tagged(entries[..n]).Failure?
    ensures Tagged(entries) == Tagged(entries[..n])
    decreases |entries| - n
  {
    if n < |entries| {
      assert entries[..n + 1][..n] == entries[..n];
      TaggedPrefixFault(entries, n + 1);
    } else {
      assert entries[..n] == entries;
    }
  }

  /** Tagging one more entry: its fault, or its tag appended. */
  lemma TaggedStep(entries: seq<Json>, i: nat, tags: seq<(Json, Json)>)
    requires i < |entries| && Tagged(entries[..i]) == Success(tags)
    ensures Tag(entries[i]).Failure? ==> Tagged(entries) == Failure(Tag(entries[i]).error)
    ensures Tag(entries[i]).Success? ==> Tagged(entries[..i + 1]) == Success(tags + [Tag(entries[i]).value])
  {
    assert entries[..i + 1][..i] == entries[..i];
    if Tag(entries[i]).Failure? {
      TaggedPrefixFault(entries, i + 1);
    }
  }

  /** The values tagged `key`, in order. */
  function Members<T>(items: seq<(Json, T)>, key: Json): (r: seq<T>)
    ensures |r| <= |items|
  {
    if |items| == 0 then []
    else Members(items[..|items| - 1], key) + (if items[|items| - 1].0 == key then [items[|items| - 1].1] else [])
  }

  /** `byAssoc.setdefault(key, []).append(value)` over the items in order. */
  function GroupBy<T>(items: seq<(Json, T)>): map<Json, seq<T>> {
    if |items| == 0 then map[]
    else
      var groups := GroupBy(items[..|items| - 1]);
      var (key, value) := items[|items| - 1];
      groups[key := (if key in groups then groups[key] else []) + [value]]
  }

  /** The groups are exactly the non-empty filters by key, each in server order. */
  lemma {:induction false} GroupByMembers<T>(items: seq<(Json, T)>, key: Json)
    ensures key in GroupBy(items) <==> |Members(items, key)| > 0
    ensures key in GroupBy(items) ==> GroupBy(items)[key] == Members(items, key)
  {
    if |items| > 0 {
      GroupByMembers(items[..|items| - 1], key);
    }
  }

  // ---------------------------------------------------------------- answers

  /** The value `client.get` hands back without handlers; bytes and None both refuse `in` and `[]` alike, as Null does. */
  function Returned(o: Outcome): Result<Json, Exception> {
    match o
    case Raised(e) => Failure(e)
    case Handled(v) => Success(v)
    case NoContent => Success(Null)
    case NoResult => Success(Null)
    case Data(body) =>
      match body
      case Entry(v) => Success(v)
      case Whole(v) => Success(v)
      case TextBody(t) => Success(Str(t))
      case Bytes(_) => Success(Null)
  }

  /** The request `client.get('alfresco', opUrl, params=params)` sends with the session headers `session`. */
  function AlfrescoGet(c: Client, opUrl: string, params: Dict<Param>, session: Dict<string>): Request {
    BuildRequest(Verb.Get, EffectiveUrl(c.baseUrl, "alfresco", opUrl, None), NormalisedParams(params), [], [], None, session)
  }

  /** What the client's server answers to `request`, as `get` hands it back. */
  function Answer(c: Client, request: Request): Result<Json, Exception> {
    Returned(ProcessResponse(c.server(request), None, None))
  }

  /** Exactly one GET of `opUrl` with `params` went out since `before`. */
  ghost predicate SentOnce(c: Client, before: seq<Request>, opUrl: string, params: Dict<Param>)
    reads c
  {
    && c.session.Some?
    && c.sent == before + [AlfrescoGet(c, opUrl, params, c.session.value)]
  }

  /** The answer to the last request the client sent. */
  ghost function LastAnswer(c: Client): Result<Json, Exception>
    reads c
    requires |c.sent| > 0
  {
    Answer(c, c.sent[|c.sent| - 1])
  }

  /** `quote(nodeId)` of something that is not a string. */
  const QuoteFault: Fault := TypeError("quote_from_bytes() expected bytes")

  /** The operation URL of a node, or of a list below it. */
  function NodeUrl(id: string, suffix: string): string {
    "nodes/" + QuotePath(id) + suffix
  }

  /** The entries of a relation listing tagged by association type, or what was raised on the way. */
  function RelatedTags(answer: Result<Json, Exception>): Result<seq<(Json, Json)>, Exception> {
    if answer.Failure? then Failure(answer.error)
    else
      var entries := ListEntries(answer.value);
      if entries.Failure? then Failure(PythonFault(entries.error))
      else
        var tags := Tagged(entries.value);
        if tags.Failure? then Failure(PythonFault(tags.error)) else Success(tags.value)
  }

  /** The parameters a loader starts from: the paging defaults for children, nothing otherwise. */
  function InitialParams(kind: Relation, skipCount: int, maxItems: int): Dict<Param> {
    if kind == Children then PagingParams(skipCount, maxItems) else []
  }

  /** The association types a loader grouped its answer into, or what it raised. */
  function KeysOf(r: Result<map<Json, seq<Node>>, Exception>): Result<set<Json>, Exception> {
    if r.Success? then Success(r.value.Keys) else Failure(r.error)
  }

  /** Every node in the groups. */
  function AllNodes(groups: map<Json, seq<Node>>): set<Node> {
    set key, n | key in groups && n in groups[key] :: n
  }

  /** The data of each node, in order. */
  ghost function Snapshots(ns: seq<Node>): seq<Json>
    reads set n | n in ns
  {
    if |ns| == 0 then [] else Snapshots(ns[..|ns| - 1]) + [ns[|ns| - 1].data]
  }

  /**
   * The groups a relation loader returns: one group per association type,
   * holding in server order nodes whose data are the tagged entries, each
   * node belonging to `api`, taking its id from its data, carrying the load
   * parameters `lp` and no cache.
   */
  ghost predicate Grouped(groups: map<Json, seq<Node>>, tags: seq<(Json, Json)>, api: InternalNodesApi, lp: LoadParams)
    reads AllNodes(groups)
  {
    && groups.Keys == GroupBy(tags).Keys
    && (forall key :: key in groups ==> Snapshots(groups[key]) == GroupBy(tags)[key])
    && FreshlyLoaded(AllNodes(groups), api, lp)
  }

  /** Each node belongs to `api`, takes its id from its data, carries `lp` and has no cache. */
  ghost predicate FreshlyLoaded(nodes: set<Node>, api: InternalNodesApi, lp: LoadParams)
    reads nodes
  {
    forall n :: n in nodes ==>
      && n.api == api && n.loadParams == lp && n.Cleared()
      && n.data.Obj? && "id" in n.data.fields && n.id == n.data.fields["id"]
  }

  // ---------------------------------------------------------------- loaders

  /** `_InternalNodesAPI`: the node loaders over one client. */
  class InternalNodesApi {
    const client: Client

    constructor(client: Client)
      ensures this.client == client
    {
      this.client := client;
    }

    /** `loadNodeData`: one GET of the node with the shaped parameters, or a TypeError for an id that is not a string. */
    method LoadNodeData(nodeId: Json, relativePath: Option<string>, loadParameters: Option<LoadParams>)
      returns (r: Result<Json, Exception>)
      requires client.Valid()
      modifies client
      ensures client.Valid() && client.ticket == old(client.ticket)
      ensures !nodeId.Str? ==> r == Failure(PythonFault(QuoteFault)) && unchanged(client)
      ensures nodeId.Str? ==> SentOnce(client, old(client.sent), NodeUrl(nodeId.s, ""), NodeDataParams(loadParameters, relativePath))
      ensures nodeId.Str? ==> r == LastAnswer(client)
    {
      if !nodeId.Str? {
        return Failure(PythonFault(QuoteFault));
      }
      var opUrl := NodeUrl(nodeId.s, "");
      var params: Dict<Param> := [];
      if loadParameters.Some? {
        params := ParamsOf(loadParameters.value);
      }
      ghost var p0 := params;
      if relativePath.Some? {
        params := Set(params, "relativePath", PStr(relativePath.value));
      }
      ghost var p1 := params;
      var fields := Lookup(params, "fields");
      if fields.Some? && fields.value == PList([]) {
        params := Dicts.Delete(params, "fields");
      }
      NodeDataSteps(loadParameters, relativePath, p0, p1);
      assert params == NodeDataParams(loadParameters, relativePath);
      var out := client.Get("alfresco", opUrl, None, Some(params), None, None, None);
      r := Returned(out);
    }

    /** What a relation loader did, from the load parameters it was given to the groups it returns. */
    twostate predicate RelatedLoaded(
      kind: Relation, nodeId: Json, where: Option<string>, orderBy: Option<seq<string>>,
      new lpIn: Option<LoadParams>, new lpOut: Option<LoadParams>, new r: Result<map<Json, seq<Node>>, Exception>)
      reads client, if r.Success? then AllNodes(r.value) else {}
    {
      var q := RelatedQuery(where, orderBy, lpIn);
      && client.Valid() && client.ticket == old(client.ticket)
      && (!nodeId.Str? ==> lpOut == lpIn && r == Failure(PythonFault(QuoteFault)) && unchanged(client))
      && (nodeId.Str? && q.Failure? ==> lpOut == lpIn && r == Failure(PythonFault(q.error)) && unchanged(client))
      && (nodeId.Str? && q.Success? ==>
            && lpOut == Some(q.value.1)
            && SentOnce(client, old(client.sent), NodeUrl(nodeId.s, RelationPath(kind)), q.value.0)
            && var tags := RelatedTags(LastAnswer(client));
            && (tags.Failure? ==> r == Failure(tags.error))
            && (tags.Success? ==> r.Success? && Grouped(r.value, tags.value, this, RelatedCopy(kind, q.value.1))
                                  && forall n :: n in AllNodes(r.value) ==> fresh(n)))
    }

    /**
     * What a relation loader sent, and which association types its answer
     * groups into, leaving out the nodes in the groups.
     */
    twostate predicate RelatedSent(
      kind: Relation, nodeId: Json, where: Option<string>, orderBy: Option<seq<string>>,
      new lpIn: Option<LoadParams>, new lpOut: Option<LoadParams>, new keys: Result<set<Json>, Exception>)
      reads client
    {
      var q := RelatedQuery(where, orderBy, lpIn);
      && client.Valid() && client.ticket == old(client.ticket)
      && (!nodeId.Str? ==> lpOut == lpIn && keys == Failure(PythonFault(QuoteFault)) && unchanged(client))
      && (nodeId.Str? && q.Failure? ==> lpOut == lpIn && keys == Failure(PythonFault(q.error)) && unchanged(client))
      && (nodeId.Str? && q.Success? ==>
            && lpOut == Some(q.value.1)
            && SentOnce(client, old(client.sent), NodeUrl(nodeId.s, RelationPath(kind)), q.value.0)
            && var tags := RelatedTags(LastAnswer(client));
            && (tags.Failure? ==> keys == Failure(tags.error))
            && (tags.Success? ==> keys == Success(GroupBy(tags.value).Keys)))
    }

    /** `loadTargets`: the target nodes of one node, grouped by association type. */
    method LoadTargets(nodeId: Json, where: Option<string>, loadParameters: Option<LoadParams>)
      returns (lp: Option<LoadParams>, r: Result<map<Json, seq<Node>>, Exception>)
      requires client.Valid()
      modifies client
      ensures RelatedLoaded(Targets, nodeId, where, None, loadParameters, lp, r)
      ensures loadParameters.Some? ==> lp.Some?
      ensures r.Success? ==> forall n :: n in AllNodes(r.value) ==> fresh(n)
    {
      lp, r := LoadRelated(Targets, nodeId, [], where, None, loadParameters);
    }

    /** `loadSources`: the source nodes of one node, grouped by association type. */
    method LoadSources(nodeId: Json, where: Option<string>, loadParameters: Option<LoadParams>)
      returns (lp: Option<LoadParams>, r: Result<map<Json, seq<Node>>, Exception>)
      requires client.Valid()
      modifies client
      ensures RelatedLoaded(Sources, nodeId, where, None, loadParameters, lp, r)
      ensures loadParameters.Some? ==> lp.Some?
      ensures r.Success? ==> forall n :: n in AllNodes(r.value) ==> fresh(n)
    {
      lp, r := LoadRelated(Sources, nodeId, [], where, None, loadParameters);
    }

    /** `loadChildren`: the child nodes of one node, grouped by association type; paging applies only without load parameters. */
    method LoadChildren(nodeId: Json, where: Option<string>, skipCount: int, maxItems: int,
                        orderBy: Option<seq<string>>, loadParameters: Option<LoadParams>)
      returns (lp: Option<LoadParams>, r: Result<map<Json, seq<Node>>, Exception>)
      requires client.Valid()
      modifies client
      ensures RelatedLoaded(Children, nodeId, where, orderBy, loadParameters, lp, r)
      ensures loadParameters.Some? ==> lp.Some?
      ensures r.Success? ==> forall n :: n in AllNodes(r.value) ==> fresh(n)
    {
      lp, r := LoadRelated(Children, nodeId, PagingParams(skipCount, maxItems), where, orderBy, loadParameters);
    }

    /**
     * The body the three loaders share: shape the query, fetch the listing,
     * and group its entries. Returns the caller's load parameters as the
     * shaping leaves them, since the `include` list is shared with the caller.
     */
    method LoadRelated(kind: Relation, nodeId: Json, initial: Dict<Param>, where: Option<string>,
                       orderBy: Option<seq<string>>, loadParameters: Option<LoadParams>)
      returns (lp: Option<LoadParams>, r: Result<map<Json, seq<Node>>, Exception>)
      requires client.Valid()
      requires "fields" !in Keys(initial)
      modifies client
      ensures RelatedLoaded(kind, nodeId, where, orderBy, loadParameters, lp, r)
      ensures loadParameters.Some? ==> lp.Some?
      ensures r.Success? ==> forall n :: n in AllNodes(r.value) ==> fresh(n)
    {
      lp := loadParameters;
      if !nodeId.Str? {
        return lp, Failure(PythonFault(QuoteFault));
      }
      var opUrl := NodeUrl(nodeId.s, RelationPath(kind));
      var q := ShapeRelated(initial, where, orderBy, loadParameters);
      if q.Failure? {
        return lp, Failure(PythonFault(q.error));
      }
      var (params, lp') := q.value;
      lp := Some(lp');
      var out := client.Get("alfresco", opUrl, None, Some(params), None, None, None);
      r := GroupAnswer(Returned(out), RelatedCopy(kind, lp'));
    }

    /** The listing answered to a relation loader, grouped; a raised answer is raised again. */
    method GroupAnswer(answer: Result<Json, Exception>, lp: LoadParams) returns (r: Result<map<Json, seq<Node>>, Exception>)
      ensures RelatedTags(answer).Failure? ==> r == Failure(RelatedTags(answer).error)
      ensures RelatedTags(answer).Success? ==> r.Success? && Grouped(r.value, RelatedTags(answer).value, this, lp)
      ensures r.Success? ==> forall n :: n in AllNodes(r.value) ==> fresh(n)
    {
      if answer.Failure? {
        return Failure(answer.error);
      }
      var entries := ListEntries(answer.value);
      if entries.Failure? {
        return Failure(PythonFault(entries.error));
      }
      var groups := GroupRelated(entries.value, lp);
      if groups.Failure? {
        return Failure(PythonFault(groups.error));
      }
      r := Success(groups.value);
    }

    /**
     * The parameter shaping of a relation loader, step by step:
     * `dict(loadParameters)` (or the initial parameters), `where`,
     * `orderBy`, the `fields` check and the `include` update.
     */
    method ShapeRelated(initial: Dict<Param>, where: Option<string>, orderBy: Option<seq<string>>,
                        loadParameters: Option<LoadParams>)
      returns (q: Result<(Dict<Param>, LoadParams), Fault>)
      requires "fields" !in Keys(initial)
      ensures q == RelatedQuery(where, orderBy, loadParameters)
    {
      var params := initial;
      if loadParameters.Some? {
        params := ParamsOf(loadParameters.value);
      }
      ghost var p0 := params;
      if where.Some? {
        params := Set(params, "where", PStr(where.value));
      }
      ghost var p1 := params;
      if orderBy.Some? {
        params := Set(params, "orderBy", PList(orderBy.value));
      }
      RelatedBase(initial, where, orderBy, loadParameters, p0, p1, params);
      var fields := Lookup(params, "fields");
      if fields.None? {
        assert loadParameters.None? || loadParameters.value.fields.None?;
        return Failure(KeyError("fields"));
      }
      var l := loadParameters.value;
      ghost var p2 := params;
      if fields.value == PList([]) {
        params := Dicts.Delete(params, "fields");
      } else if "id" !in fields.value.items {
        RelatedQueryNeedsId(where, orderBy, l);
        return Failure(NameError("param"));
      }
      RelatedTrim(where, orderBy, l, p2, params);
      var current := Lookup(params, "include");
      if current.None? {
        IncludeNew(where, orderBy, l);
        params := Set(params, "include", PList(["association"]));
      } else if "association" !in current.value.items {
        IncludeAppend(where, orderBy, l);
        l := LoadParams(Some(l.includes.value + ["association"]), l.fields);
        params := Set(params, "include", PList(l.includes.value));
      } else {
        IncludeKept(where, orderBy, l);
      }
      q := Success((params, l));
    }

    /** The loop that turns the listed entries into nodes grouped by association type. */
    method GroupRelated(entries: seq<Json>, lp: LoadParams) returns (r: Result<map<Json, seq<Node>>, Fault>)
      ensures Tagged(entries).Failure? ==> r == Failure(Tagged(entries).error)
      ensures Tagged(entries).Success? ==> r.Success? && Grouped(r.value, Tagged(entries).value, this, lp)
      ensures r.Success? ==> forall n :: n in AllNodes(r.value) ==> fresh(n)
    {
      var groups: map<Json, seq<Node>> := map[];
      ghost var tags: seq<(Json, Json)> := [];
      var i := 0;
      while i < |entries|
        invariant 0 <= i <= |entries|
        invariant Tagged(entries[..i]) == Success(tags)
        invariant Grouped(groups, tags, this, lp)
        invariant forall n :: n in AllNodes(groups) ==> fresh(n)
      {
        TaggedStep(entries, i, tags);
        var t := Tag(entries[i]);
        if t.Failure? {
          return Failure(t.error);
        }
        groups := AddEntry(groups, tags, t.value.0, t.value.1, lp);
        tags := tags + [t.value];
        i := i + 1;
      }
      assert entries[..|entries|] == entries;
      r := Success(groups);
    }

    /** One turn of the grouping loop: a new node over the entry's data, appended to the group of its key. */
    method AddEntry(groups: map<Json, seq<Node>>, ghost tags: seq<(Json, Json)>, key: Json, nodeData: Json, lp: LoadParams)
      returns (grown: map<Json, seq<Node>>)
      requires Grouped(groups, tags, this, lp)
      requires nodeData.Obj? && "id" in nodeData.fields
      ensures Grouped(grown, tags + [(key, nodeData)], this, lp)
      ensures forall n :: n in AllNodes(grown) ==> n in AllNodes(groups) || fresh(n)
    {
      var node := new Node(this, nodeData, lp);
      var members := if key in groups then groups[key] else [];
      AddMember(groups, tags, key, nodeData, node, lp);
      grown := groups[key := members + [node]];
    }

    /** `loadNode`: the node's load parameters, one fetch of its data, and the node built from it. */
    method LoadNode(nodeId: Json, relativePath: Option<string>, includes: Option<seq<string>>, fields: Option<seq<string>>)
      returns (r: Result<Node, Exception>)
      requires client.Valid()
      modifies client
      ensures client.Valid() && client.ticket == old(client.ticket)
      ensures !nodeId.Str? ==> r == Failure(PythonFault(QuoteFault)) && unchanged(client)
      ensures nodeId.Str? ==>
                && SentOnce(client, old(client.sent), NodeUrl(nodeId.s, ""),
                            NodeDataParams(Some(NodeLoadParams(includes, fields)), relativePath))
                && NodeFrom(r, LastAnswer(client), this, NodeLoadParams(includes, fields))
      ensures r.Success? ==> fresh(r.value)
    {
      var lp := CopyLoadParams(includes, fields);
      var nodeData := LoadNodeData(nodeId, relativePath, Some(lp));
      r := NodeOf(nodeData, lp);
    }

    /** The node over an answer: the raised exception, the fault of reading `id`, or a new node. */
    method NodeOf(answer: Result<Json, Exception>, lp: LoadParams) returns (r: Result<Node, Exception>)
      ensures NodeFrom(r, answer, this, lp)
      ensures r.Success? ==> fresh(r.value)
    {
      if answer.Failure? {
        return Failure(answer.error);
      }
      var id := Index(answer.value, "id");
      if id.Failure? {
        return Failure(PythonFault(id.error));
      }
      var node := new Node(this, answer.value, lp);
      r := Success(node);
    }
  }

  /** The copies `loadNode` makes of its lists, `id` appended to a non-empty `fields` list that lacks it. */
  method CopyLoadParams(includes: Option<seq<string>>, fields: Option<seq<string>>) returns (lp: LoadParams)
    ensures lp == NodeLoadParams(includes, fields)
  {
    var inc: seq<string> := [];
    if includes.Some? {
      inc := includes.value;
    }
    var fs: seq<string> := [];
    if fields.Some? {
      fs := fields.value;
      if |fs| > 0 && "id" !in fs {
        fs := fs + ["id"];
      }
    }
    lp := LoadParams(Some(inc), Some(fs));
  }

  /**
   * The node built from an answer: the raised exception, the KeyError or
   * TypeError of reading `id`, or a node holding the data with no cache.
   */
  ghost predicate NodeFrom(r: Result<Node, Exception>, answer: Result<Json, Exception>, api: InternalNodesApi, lp: LoadParams)
    reads if r.Success? then {r.value} else {}
  {
    && (answer.Failure? ==> r == Failure(answer.error))
    && (answer.Success? && Index(answer.value, "id").Failure? ==> r == Failure(PythonFault(Index(answer.value, "id").error)))
    && (answer.Success? && Index(answer.value, "id").Success? ==>
          && r.Success?
          && r.value.api == api && r.value.id == Index(answer.value, "id").value
          && r.value.data == answer.value && r.value.loadParams == lp && r.value.Cleared())
  }

  /**
   * The first steps of a relation loader: the copied load parameters (or
   * the initial ones) with `where` and `orderBy` assigned.
   */
  lemma RelatedBase(initial: Dict<Param>, where: Option<string>, orderBy: Option<seq<string>>,
                    lp: Option<LoadParams>, p0: Dict<Param>, p1: Dict<Param>, p2: Dict<Param>)
    requires "fields" !in Keys(initial)
    requires p0 == if lp.Some? then ParamsOf(lp.value) else initial
    requires p1 == if where.Some? then Set(p0, "where", PStr(where.value)) else p0
    requires p2 == if orderBy.Some? then Set(p1, "orderBy", PList(orderBy.value)) else p1
    ensures Lookup(p2, "fields") == if lp.Some? then ListParam(lp.value.fields) else None
    ensures lp.Some? ==> p2 == ParamsOf(lp.value) + Piece("where", StrParam(where)) + Piece("orderBy", ListParam(orderBy))
  {
    if lp.Some? {
      CopiedBase(where, orderBy, lp.value, p1, p2);
    } else {
      InitialBase(initial, where, orderBy, p1, p2);
    }
  }

  lemma CopiedBase(where: Option<string>, orderBy: Option<seq<string>>, l: LoadParams, p1: Dict<Param>, p2: Dict<Param>)
    requires p1 == if where.Some? then Set(ParamsOf(l), "where", PStr(where.value)) else ParamsOf(l)
    requires p2 == if orderBy.Some? then Set(p1, "orderBy", PList(orderBy.value)) else p1
    ensures Lookup(p2, "fields") == ListParam(l.fields)
    ensures p2 == ParamsOf(l) + Piece("where", StrParam(where)) + Piece("orderBy", ListParam(orderBy))
  {
    var inc, fs := Piece("include", ListParam(l.includes)), Piece("fields", ListParam(l.fields));
    var wh, ob := Piece("where", StrParam(where)), Piece("orderBy", ListParam(orderBy));
    NotInConcat(inc, fs, "where");
    AssignPiece(inc + fs, "where", StrParam(where));
    NotInConcat(inc, fs, "orderBy");
    NotInConcat(inc + fs, wh, "orderBy");
    AssignPiece(inc + fs + wh, "orderBy", ListParam(orderBy));
    LookupConcat(inc, fs, "fields");
    LookupConcat(inc + fs, wh, "fields");
    LookupConcat(inc + fs + wh, ob, "fields");
  }

  lemma InitialBase(initial: Dict<Param>, where: Option<string>, orderBy: Option<seq<string>>, p1: Dict<Param>, p2: Dict<Param>)
    requires "fields" !in Keys(initial)
    requires p1 == if where.Some? then Set(initial, "where", PStr(where.value)) else initial
    requires p2 == if orderBy.Some? then Set(p1, "orderBy", PList(orderBy.value)) else p1
    ensures Lookup(p2, "fields") == None
  {
    assert Lookup(initial, "fields") == None;
    assert Lookup(p1, "fields") == None by {
      if where.Some? {
        assert "fields" != "where";
      }
    }
    if orderBy.Some? {
      assert "fields" != "orderBy";
    }
  }

  /** The part of a relation query after `include`: a non-empty `fields`, `where` and `orderBy`. */
  function RelatedRest(where: Option<string>, orderBy: Option<seq<string>>, l0: LoadParams): Dict<Param> {
    Piece("fields", ListParam(NonEmpty(l0.fields))) + Piece("where", StrParam(where)) + Piece("orderBy", ListParam(orderBy))
  }

  /** An empty `fields` list deleted: what is left of the query, and the `include` it holds. */
  lemma RelatedTrim(where: Option<string>, orderBy: Option<seq<string>>, l0: LoadParams, p2: Dict<Param>, p3: Dict<Param>)
    requires l0.fields.Some?
    requires p2 == ParamsOf(l0) + Piece("where", StrParam(where)) + Piece("orderBy", ListParam(orderBy))
    requires p3 == if l0.fields.value == [] then Dicts.Delete(p2, "fields") else p2
    ensures l0.includes.None? ==> p3 == RelatedRest(where, orderBy, l0)
    ensures l0.includes.Some? ==> p3 == [("include", PList(l0.includes.value))] + RelatedRest(where, orderBy, l0)
    ensures Lookup(p3, "include") == ListParam(l0.includes)
  {
    var inc := Piece("include", ListParam(l0.includes));
    var fs := Piece("fields", ListParam(l0.fields));
    var fs' := Piece("fields", ListParam(NonEmpty(l0.fields)));
    var wh, ob := Piece("where", StrParam(where)), Piece("orderBy", ListParam(orderBy));
    AppendAssoc(inc + fs, wh, ob);
    AppendAssoc(inc + fs', wh, ob);
    if l0.fields.value == [] {
      NotInConcat(wh, ob, "fields");
      assert fs == [("fields", PList([]))] && fs' == [];
      DeleteMiddle(inc, "fields", PList([]), wh + ob);
      assert inc + fs' == inc;
    } else {
      assert fs' == fs;
    }
    assert p3 == inc + (fs' + wh + ob) by {
      AppendAssoc(inc, fs', wh);
      AppendAssoc(inc, fs' + wh, ob);
    }
    LookupConcat(inc + fs', wh + ob, "include");
    LookupConcat(inc, fs', "include");
    LookupConcat(wh, ob, "include");
    if l0.includes.None? {
      assert inc == [];
    }
  }

  /** Without an `include` list the loader adds `["association"]` at the end. */
  lemma IncludeNew(where: Option<string>, orderBy: Option<seq<string>>, l0: LoadParams)
    requires l0.fields.Some? && (|l0.fields.value| == 0 || "id" in l0.fields.value) && l0.includes.None?
    ensures RelatedQuery(where, orderBy, Some(l0)) ==
              Success((Set(RelatedRest(where, orderBy, l0), "include", PList(["association"])), l0))
  {
    var fs', wh, ob := Piece("fields", ListParam(NonEmpty(l0.fields))), Piece("where", StrParam(where)), Piece("orderBy", ListParam(orderBy));
    var rest := RelatedRest(where, orderBy, l0);
    var tail := Piece("include", Some(PList(["association"])));
    assert RelatedQuery(where, orderBy, Some(l0)) == Success(([] + fs' + wh + ob + tail, l0));
    assert [] + fs' == fs';
    assert "include" !in Keys(rest) by {
      NotInConcat(fs', wh, "include");
      NotInConcat(fs' + wh, ob, "include");
    }
    AssignPiece(rest, "include", Some(PList(["association"])));
  }

  /** An `include` list without `association` gets it appended, in the query and in the caller's list. */
  lemma IncludeAppend(where: Option<string>, orderBy: Option<seq<string>>, l0: LoadParams)
    requires l0.fields.Some? && (|l0.fields.value| == 0 || "id" in l0.fields.value)
    requires l0.includes.Some? && "association" !in l0.includes.value
    ensures var xs := l0.includes.value + ["association"];
            RelatedQuery(where, orderBy, Some(l0)) ==
              Success((Set([("include", PList(l0.includes.value))] + RelatedRest(where, orderBy, l0), "include", PList(xs)),
                       LoadParams(Some(xs), l0.fields)))
  {
    var xs := l0.includes.value + ["association"];
    var fs', wh, ob := Piece("fields", ListParam(NonEmpty(l0.fields))), Piece("where", StrParam(where)), Piece("orderBy", ListParam(orderBy));
    SetHead(("include", PList(l0.includes.value)), RelatedRest(where, orderBy, l0), PList(xs));
    AppendAssoc([("include", PList(xs))], fs', wh);
    AppendAssoc([("include", PList(xs))], fs' + wh, ob);
    assert AddOnce(l0.includes.value, "association") == xs;
    var q := [("include", PList(xs))] + fs' + wh + ob;
    assert RelatedQuery(where, orderBy, Some(l0)) == Success((q + [], LoadParams(Some(xs), l0.fields)));
    assert q + [] == q;
  }

  /** An `include` list that already names `association` is left as it is. */
  lemma IncludeKept(where: Option<string>, orderBy: Option<seq<string>>, l0: LoadParams)
    requires l0.fields.Some? && (|l0.fields.value| == 0 || "id" in l0.fields.value)
    requires l0.includes.Some? && "association" in l0.includes.value
    ensures RelatedQuery(where, orderBy, Some(l0)) ==
              Success(([("include", PList(l0.includes.value))] + RelatedRest(where, orderBy, l0), l0))
  {
    var inc := [("include", PList(l0.includes.value))];
    var fs', wh, ob := Piece("fields", ListParam(NonEmpty(l0.fields))), Piece("where", StrParam(where)), Piece("orderBy", ListParam(orderBy));
    AppendAssoc(inc, fs', wh);
    AppendAssoc(inc, fs' + wh, ob);
    assert AddOnce(l0.includes.value, "association") == l0.includes.value;
    var q := inc + fs' + wh + ob;
    assert RelatedQuery(where, orderBy, Some(l0)) == Success((q + [], l0));
    assert q + [] == q;
  }

  /** Assigning the key a dict starts with replaces its value in place. */
  lemma SetHead(p: (string, Param), rest: Dict<Param>, v: Param)
    ensures Set([p] + rest, p.0, v) == [(p.0, v)] + rest
  {
    assert ([p] + rest)[0] == p;
    assert ([p] + rest)[1..] == rest;
  }

  /** Adding a node to its group keeps the groups in step with the tags. */
  lemma AddMember(groups: map<Json, seq<Node>>, tags: seq<(Json, Json)>, key: Json, nodeData: Json, node: Node, lp: LoadParams)
    requires Grouped(groups, tags, node.api, lp)
    requires node.data == nodeData && node.loadParams == lp && node.Cleared()
    requires nodeData.Obj? && "id" in nodeData.fields && node.id == nodeData.fields["id"]
    ensures var members := if key in groups then groups[key] else [];
            && Grouped(groups[key := members + [node]], tags + [(key, nodeData)], node.api, lp)
            && AllNodes(groups[key := members + [node]]) == AllNodes(groups) + {node}
  {
    var members := if key in groups then groups[key] else [];
    var groups' := groups[key := members + [node]];
    var tags' := tags + [(key, nodeData)];
    GroupBySnoc(tags, key, nodeData);
    AllNodesAdd(groups, key, node);
    FreshlyLoadedAdd(AllNodes(groups), node, lp);
    assert Snapshots(members + [node]) == Snapshots(members) + [nodeData] by {
      assert (members + [node])[..|members|] == members;
    }
    forall k | k in groups' ensures Snapshots(groups'[k]) == GroupBy(tags')[k] {
      if k != key {
        assert groups'[k] == groups[k];
      }
    }
  }

  /** A node loaded from an entry with an id joins a set of freshly loaded nodes. */
  lemma FreshlyLoadedAdd(nodes: set<Node>, node: Node, lp: LoadParams)
    requires FreshlyLoaded(nodes, node.api, lp)
    requires node.loadParams == lp && node.Cleared()
    requires node.data.Obj? && "id" in node.data.fields && node.id == node.data.fields["id"]
    ensures FreshlyLoaded(nodes + {node}, node.api, lp)
  {
  }

  /** Tagging one more entry appends its value to the group of its key. */
  lemma GroupBySnoc<T>(items: seq<(Json, T)>, key: Json, value: T)
    ensures var g := GroupBy(items);
            GroupBy(items + [(key, value)]) == g[key := (if key in g then g[key] else []) + [value]]
  {
    assert (items + [(key, value)])[..|items|] == items;
  }

  /** The nodes of the groups after one node joins a group. */
  lemma AllNodesAdd(groups: map<Json, seq<Node>>, key: Json, node: Node)
    ensures var members := if key in groups then groups[key] else [];
            AllNodes(groups[key := members + [node]]) == AllNodes(groups) + {node}
  {
    var members := if key in groups then groups[key] else [];
    var groups' := groups[key := members + [node]];
    forall n | n in AllNodes(groups') ensures n in AllNodes(groups) + {node} {
      var k :| k in groups' && n in groups'[k];
      if k != key {
        assert n in groups[k];
      } else if n != node {
        assert n in members;
      }
    }
    forall n | n in AllNodes(groups) + {node} ensures n in AllNodes(groups') {
      if n == node {
        assert n in groups'[key];
      } else {
        var k :| k in groups && n in groups[k];
        assert n in groups'[k];
      }
    }
  }

  // ---------------------------------------------------------------- the node proxy

  /** Which of a node's lazy dicts an attribute handed out. */
  datatype View = PropertiesView | RelationView(kind: Relation)

  /** What reading an attribute of a node gives: a plain value, or one of its lazy dicts. */
  datatype Attr = Value(value: Json) | Lazy(view: View)

  /** What subscripting an attribute gives: a JSON value, or a list of related nodes. */
  datatype Item = JsonItem(json: Json) | NodesItem(nodes: seq<Node>)

  /**
   * The relation attributes of `__getattr__`: the relation whose lazy dict
   * it creates when missing, and the relation whose lazy dict it hands out.
   * `sourceAssociations` creates the sources dict yet hands out the targets
   * one; every other name creates and hands out the same dict.
   */
  function RelationNames(fieldName: string): (r: Option<(Relation, Relation)>)
    ensures r.Some? <==> fieldName in {"associations", "targetAssociations", "sourceAssociations", "children", "childAssociations"}
    ensures r.Some? && fieldName != "sourceAssociations" ==> r.value.0 == r.value.1
    ensures fieldName == "sourceAssociations" ==> r == Some((Sources, Targets))
  {
    if fieldName == "associations" || fieldName == "targetAssociations" then Some((Targets, Targets))
    else if fieldName == "sourceAssociations" then Some((Sources, Targets))
    else if fieldName == "children" || fieldName == "childAssociations" then Some((Children, Children))
    else None
  }

  /**
   * `dict(value)`, as the properties lazy dict is seeded: an object's
   * entries are copied, an empty list or string gives `{}`, a non-empty
   * string raises ValueError and every other value TypeError.
   */
  function DictOf(j: Json): (r: Result<map<string, Json>, Fault>)
    ensures r.Success? <==> j.Obj? || j == Arr([]) || j == Str("")
    ensures r.Success? ==> r.value == if j.Obj? then j.fields else map[]
  {
    match j
    case Obj(fields) => Success(fields)
    case Arr(items) =>
      if |items| == 0 then Success(map[])
      else Failure(TypeError("cannot convert dictionary update sequence element to a sequence"))
    case Str(s) =>
      if |s| == 0 then Success(map[])
      else Failure(ValueError("dictionary update sequence element has length 1; 2 is required"))
    case _ => Failure(TypeError("object is not iterable"))
  }

  /** The entries the properties lazy dict starts with: `dict` of the data's `properties`. */
  function PropertiesSeed(data: Json): (r: Result<map<string, Json>, Fault>)
    ensures data.Obj? && "properties" in data.fields && data.fields["properties"].Obj? ==>
              r == Success(data.fields["properties"].fields)
    ensures data.Obj? && "properties" !in data.fields ==> r == Failure(KeyError("properties"))
    ensures r.Success? ==> data.Obj? && "properties" in data.fields
  {
    var properties :- Index(data, "properties");
    DictOf(properties)
  }

  /** `'Reloading node ' + self.id` for an id that is not a string. */
  const ConcatFault: Fault := TypeError("can only concatenate str to str")

  /** The data and caches of a node, the state a reload replaces. */
  datatype NodeState = NodeState(
    data: Json,
    properties: Option<map<string, Json>>,
    targetAssociations: Option<map<string, seq<Node>>>, targets: Option<map<string, seq<Node>>>,
    sourceAssociations: Option<map<string, seq<Node>>>, sources: Option<map<string, seq<Node>>>,
    childAssociations: Option<map<string, seq<Node>>>, children: Option<map<string, seq<Node>>>)

  /** The state a successful reload leaves: the new data and no cache. */
  function ClearedState(data: Json): NodeState {
    NodeState(data, None, None, None, None, None, None, None)
  }

  /**
   * The read that ends `__getattr__` for a name that is not a relation,
   * from the state after any reload: `properties` hands out the properties
   * lazy dict, seeding it from the data when it does not exist yet (a seed
   * that raises changes nothing); any other name is the data's entry.
   */
  ghost predicate DataRead(before: NodeState, fieldName: string, r: Result<Attr, Exception>, after: NodeState) {
    if fieldName == "properties" then
      if before.properties.Some? then r == Success(Lazy(PropertiesView)) && after == before
      else
        var seed := PropertiesSeed(before.data);
        if seed.Failure? then r == Failure(PythonFault(seed.error)) && after == before
        else r == Success(Lazy(PropertiesView)) && after == before.(properties := Some(seed.value))
    else
      var v := Index(before.data, fieldName);
      && after == before
      && r == if v.Success? then Success(Value(v.value)) else Failure(PythonFault(v.error))
  }

  /** `Node`: a proxy for one repository node. */
  class Node {
    const api: InternalNodesApi
    const id: Json
    var data: Json
    var loadParams: LoadParams
    var cachedProperties: Option<map<string, Json>>
    var cachedTargetAssociations: Option<map<string, seq<Node>>>
    var cachedTargets: Option<map<string, seq<Node>>>
    var cachedSourceAssociations: Option<map<string, seq<Node>>>
    var cachedSources: Option<map<string, seq<Node>>>
    var cachedChildAssociations: Option<map<string, seq<Node>>>
    var cachedChildren: Option<map<string, seq<Node>>>

    /** `Node(api, nodeData, loadParameters)`: the id is read from the data, and no cache exists yet. */
    constructor(api: InternalNodesApi, nodeData: Json, loadParameters: LoadParams)
      requires nodeData.Obj? && "id" in nodeData.fields
      ensures this.api == api && id == nodeData.fields["id"]
      ensures data == nodeData && loadParams == loadParameters
      ensures Cleared()
    {
      this.api := api;
      id := nodeData.fields["id"];
      data := nodeData;
      loadParams := loadParameters;
      cachedProperties := None;
      cachedTargetAssociations := None;
      cachedTargets := None;
      cachedSourceAssociations := None;
      cachedSources := None;
      cachedChildAssociations := None;
      cachedChildren := None;
    }

    /** All seven caches are None. */
    ghost predicate Cleared()
      reads this
    {
      && cachedProperties.None?
      && cachedTargetAssociations.None? && cachedTargets.None?
      && cachedSourceAssociations.None? && cachedSources.None?
      && cachedChildAssociations.None? && cachedChildren.None?
    }

    ghost function State(): NodeState
      reads this
    {
      NodeState(data, cachedProperties, cachedTargetAssociations, cachedTargets,
                cachedSourceAssociations, cachedSources, cachedChildAssociations, cachedChildren)
    }

    /** The lazy dict of one relation. */
    function LazyOf(kind: Relation): Option<map<string, seq<Node>>>
      reads this
    {
      match kind
      case Targets => cachedTargets
      case Sources => cachedSources
      case Children => cachedChildren
    }

    /** The association cache behind the lazy dict of one relation. */
    function AssocOf(kind: Relation): Option<map<string, seq<Node>>>
      reads this
    {
      match kind
      case Targets => cachedTargetAssociations
      case Sources => cachedSourceAssociations
      case Children => cachedChildAssociations
    }

    /** Whether the lazy dict a view names exists. */
    predicate Live(view: View)
      reads this
    {
      match view
      case PropertiesView => cachedProperties.Some?
      case RelationView(kind) => LazyOf(kind).Some?
    }

    /** Store the caches of one relation, leaving every other field as it is. */
    method StoreRelation(kind: Relation, lazy: Option<map<string, seq<Node>>>, assocs: Option<map<string, seq<Node>>>)
      modifies this
      ensures LazyOf(kind) == lazy && AssocOf(kind) == assocs
      ensures forall k :: k != kind ==> LazyOf(k) == old(LazyOf(k)) && AssocOf(k) == old(AssocOf(k))
      ensures data == old(data) && loadParams == old(loadParams) && cachedProperties == old(cachedProperties)
    {
      match kind
      case Targets =>
        cachedTargets, cachedTargetAssociations := lazy, assocs;
      case Sources =>
        cachedSources, cachedSourceAssociations := lazy, assocs;
      case Children =>
        cachedChildren, cachedChildAssociations := lazy, assocs;
    }

    /**
     * `reload`: one fetch of the node with its current load parameters; on
     * success the data is replaced and all seven caches are dropped, on
     * failure nothing changes.
     */
    method Reload() returns (r: Result<(), Exception>)
      requires api.client.Valid()
      modifies this, api.client
      ensures api.client.Valid() && api.client.ticket == old(api.client.ticket)
      ensures loadParams == old(loadParams)
      ensures !id.Str? ==> r == Failure(PythonFault(QuoteFault)) && unchanged(this) && unchanged(api.client)
      ensures id.Str? ==> SentOnce(api.client, old(api.client.sent), NodeUrl(id.s, ""), NodeDataParams(Some(loadParams), None))
      ensures id.Str? && LastAnswer(api.client).Failure? ==> r == Failure(LastAnswer(api.client).error) && State() == old(State())
      ensures id.Str? && LastAnswer(api.client).Success? ==> r == Success(()) && data == LastAnswer(api.client).value && Cleared()
    {
      var nodeData := api.LoadNodeData(id, None, Some(loadParams));
      if nodeData.Failure? {
        return Failure(nodeData.error);
      }
      Replace(nodeData.value);
      r := Success(());
    }

    /** New node data, with every cache dropped. */
    method Replace(nodeData: Json)
      modifies this
      ensures data == nodeData && loadParams == old(loadParams) && Cleared()
    {
      data := nodeData;
      cachedProperties := None;
      cachedTargetAssociations := None;
      cachedTargets := None;
      cachedSourceAssociations := None;
      cachedSources := None;
      cachedChildAssociations := None;
      cachedChildren := None;
    }

    /** `resolveChildPath`: a new node for the path below this one, loaded with this node's lists. */
    method ResolveChildPath(relativePath: string) returns (r: Result<Node, Exception>)
      requires api.client.Valid()
      modifies api.client
      ensures api.client.Valid()
      ensures loadParams.includes.None? ==> r == Failure(PythonFault(KeyError("include"))) && unchanged(api.client)
      ensures loadParams.includes.Some? && loadParams.fields.None? ==> r == Failure(PythonFault(KeyError("fields"))) && unchanged(api.client)
      ensures loadParams.includes.Some? && loadParams.fields.Some? && !id.Str? ==>
                r == Failure(PythonFault(QuoteFault)) && unchanged(api.client)
      ensures loadParams.includes.Some? && loadParams.fields.Some? && id.Str? ==>
                && SentOnce(api.client, old(api.client.sent), NodeUrl(id.s, ""),
                            NodeDataParams(Some(NodeLoadParams(loadParams.includes, loadParams.fields)), Some(relativePath)))
                && NodeFrom(r, LastAnswer(api.client), api, NodeLoadParams(loadParams.includes, loadParams.fields))
      ensures r.Success? ==> fresh(r.value)
    {
      if loadParams.includes.None? {
        return Failure(PythonFault(KeyError("include")));
      }
      if loadParams.fields.None? {
        return Failure(PythonFault(KeyError("fields")));
      }
      r := api.LoadNode(id, Some(relativePath), loadParams.includes, loadParams.fields);
    }

    /**
     * `__getattr__`: a relation name hands out a relation's lazy dict,
     * creating it on first use, and never fetches. Any other name absent
     * from the data first widens the load parameters and, when that added
     * to `fields`, reloads the node once; then the name is read.
     */
    method Get(fieldName: string) returns (r: Result<Attr, Exception>)
      requires api.client.Valid()
      modifies this, api.client
      ensures api.client.Valid() && api.client.ticket == old(api.client.ticket)
      ensures RelationNames(fieldName).Some? ==>
                var made := RelationNames(fieldName).value.0;
                var shown := RelationNames(fieldName).value.1;
                && unchanged(api.client)
                && data == old(data) && loadParams == old(loadParams) && cachedProperties == old(cachedProperties)
                && (old(LazyOf(made)).None? ==> LazyOf(made) == Some(map[]) && AssocOf(made) == Some(map[]))
                && (old(LazyOf(made)).Some? ==> LazyOf(made) == old(LazyOf(made)) && AssocOf(made) == old(AssocOf(made)))
                && (forall k :: k != made ==> LazyOf(k) == old(LazyOf(k)) && AssocOf(k) == old(AssocOf(k)))
                && r == Success(if LazyOf(shown).Some? then Lazy(RelationView(shown)) else Value(Null))
      ensures RelationNames(fieldName).None? && Contains(old(data), fieldName).Failure? ==>
                && r == Failure(PythonFault(Contains(old(data), fieldName).error))
                && unchanged(this) && unchanged(api.client)
      ensures RelationNames(fieldName).None? && Contains(old(data), fieldName) == Success(true) ==>
                && unchanged(api.client) && loadParams == old(loadParams)
                && DataRead(old(State()), fieldName, r, State())
      ensures RelationNames(fieldName).None? && Contains(old(data), fieldName) == Success(false) ==>
                var w := Widen(old(loadParams), fieldName);
                && loadParams == w.lp
                && (w.reload.Failure? ==>
                      r == Failure(PythonFault(w.reload.error)) && State() == old(State()) && unchanged(api.client))
                && (w.reload == Success(false) ==>
                      unchanged(api.client) && DataRead(old(State()), fieldName, r, State()))
                && (w.reload == Success(true) && !id.Str? ==>
                      r == Failure(PythonFault(ConcatFault)) && State() == old(State()) && unchanged(api.client))
                && (w.reload == Success(true) && id.Str? ==>
                      && SentOnce(api.client, old(api.client.sent), NodeUrl(id.s, ""), NodeDataParams(Some(w.lp), None))
                      && (LastAnswer(api.client).Failure? ==>
                            r == Failure(LastAnswer(api.client).error) && State() == old(State()))
                      && (LastAnswer(api.client).Success? ==>
                            DataRead(ClearedState(LastAnswer(api.client).value), fieldName, r, State())))
    {
      var names := RelationNames(fieldName);
      if names.Some? {
        var made, shown := names.value.0, names.value.1;
        if LazyOf(made).None? {
          StoreRelation(made, Some(map[]), Some(map[]));
        }
        r := Success(if LazyOf(shown).Some? then Lazy(RelationView(shown)) else Value(Null));
        return;
      }
      var present := Contains(data, fieldName);
      if present.Failure? {
        return Failure(PythonFault(present.error));
      }
      if !present.value {
        var w := Widen(loadParams, fieldName);
        loadParams := w.lp;
        if w.reload.Failure? {
          return Failure(PythonFault(w.reload.error));
        }
        if w.reload.value {
          if !id.Str? {
            return Failure(PythonFault(ConcatFault));
          }
          var reloaded := Reload();
          if reloaded.Failure? {
            return Failure(reloaded.error);
          }
        }
      }
      r := ReadData(fieldName);
    }

    /** The read that ends `__getattr__` for a name that is not a relation. */
    method ReadData(fieldName: string) returns (r: Result<Attr, Exception>)
      modifies this
      ensures DataRead(old(State()), fieldName, r, State())
      ensures loadParams == old(loadParams)
    {
      if fieldName == "properties" {
        if cachedProperties.None? {
          var seed := PropertiesSeed(data);
          if seed.Failure? {
            return Failure(PythonFault(seed.error));
          }
          cachedProperties := Some(seed.value);
        }
        return Success(Lazy(PropertiesView));
      }
      var v := Index(data, fieldName);
      r := if v.Success? then Success(Value(v.value)) else Failure(PythonFault(v.error));
    }

    /**
     * `properties[name]` on the properties lazy dict: a name it holds is
     * returned without a lookup; any other name goes through the `cm:`
     * fallback over the current data, whose value is stored under the name
     * and returned unless it is None, in which case the name's KeyError is
     * raised again.
     */
    method PropertyItem(name: string) returns (r: Result<Json, Exception>)
      requires cachedProperties.Some?
      modifies this
      ensures data == old(data) && loadParams == old(loadParams)
      ensures forall k :: LazyOf(k) == old(LazyOf(k)) && AssocOf(k) == old(AssocOf(k))
      ensures name in old(cachedProperties.value) ==>
                r == Success(old(cachedProperties.value)[name]) && cachedProperties == old(cachedProperties)
      ensures name !in old(cachedProperties.value) ==>
                var v := PropertyFallback(data, name);
                && (v.Failure? ==> r == Failure(PythonFault(v.error)) && cachedProperties == old(cachedProperties))
                && (v == Success(Null) ==>
                      r == Failure(PythonFault(KeyError(name))) && cachedProperties == old(cachedProperties))
                && (v.Success? && v.value != Null ==>
                      r == Success(v.value) && cachedProperties == Some(old(cachedProperties.value)[name := v.value]))
    {
      var properties := cachedProperties.value;
      if name in properties {
        return Success(properties[name]);
      }
      var v := PropertyFallback(data, name);
      if v.Failure? {
        return Failure(PythonFault(v.error));
      }
      if v.value == Null {
        return Failure(PythonFault(KeyError(name)));
      }
      cachedProperties := Some(properties[name := v.value]);
      r := Success(v.value);
    }

    /**
     * `[name]` on a relation lazy dict: a name it holds is returned without
     * a fetch. Any other name is looked up under its association key in the
     * association cache, and only when the key is not there does the
     * relation's loader fetch the associations of that type; the group is
     * stored under the key in the association cache and under the name in
     * the lazy dict.
     */
    method RelationItem(kind: Relation, name: string)
      returns (r: Result<seq<Node>, Exception>, ghost loaded: Result<map<Json, seq<Node>>, Exception>)
      requires LazyOf(kind).Some? && api.client.Valid()
      modifies this, api.client
      ensures api.client.Valid() && api.client.ticket == old(api.client.ticket)
      ensures data == old(data) && cachedProperties == old(cachedProperties)
      ensures forall k :: k != kind ==> LazyOf(k) == old(LazyOf(k)) && AssocOf(k) == old(AssocOf(k))
      ensures name in old(LazyOf(kind).value) ==>
                r == Success(old(LazyOf(kind).value)[name]) && unchanged(this) && unchanged(api.client)
      ensures name !in old(LazyOf(kind).value) && AssociationKey(name) in old(AssocOf(kind)).GetOr(map[]) ==>
                && unchanged(api.client) && loadParams == old(loadParams) && AssocOf(kind) == old(AssocOf(kind))
                && r == Success(old(AssocOf(kind)).value[AssociationKey(name)])
                && LazyOf(kind) == Some(old(LazyOf(kind).value)[name := r.value])
      ensures name !in old(LazyOf(kind).value) && AssociationKey(name) !in old(AssocOf(kind)).GetOr(map[]) ==>
                AssociationFetched(kind, name, AssociationKey(name), loaded, r)
    {
      var lazy := LazyOf(kind).value;
      loaded := Success(map[]);
      if name in lazy {
        return Success(lazy[name]), loaded;
      }
      var key := AssociationKey(name);
      var assocs := AssocOf(kind).GetOr(map[]);
      if key in assocs {
        r := Success(assocs[key]);
        StoreRelation(kind, Some(lazy[name := assocs[key]]), Some(assocs));
        return;
      }
      r, loaded := FetchAssociation(kind, name, key);
    }

    /**
     * What a miss on both caches did: the loader ran with the load
     * parameters, which it may widen; a raised loader is raised again and
     * a listing without the key raises the key's KeyError, both leaving the
     * caches as they were; otherwise the group under the key is stored and
     * returned.
     */
    twostate predicate AssociationFetched(kind: Relation, name: string, key: string,
                                          new loaded: Result<map<Json, seq<Node>>, Exception>,
                                          new r: Result<seq<Node>, Exception>)
      reads this, api.client
    {
      && api.RelatedSent(kind, id, Some(AssocTypeFilter(key)), None, Some(old(loadParams)), Some(loadParams), KeysOf(loaded))
      && AssociationStored(kind, name, key, loaded, r)
    }

    /** The caches after the loader answered: unchanged when it raised or lacks the key, the new group stored otherwise. */
    twostate predicate AssociationStored(kind: Relation, name: string, key: string,
                                         new loaded: Result<map<Json, seq<Node>>, Exception>,
                                         new r: Result<seq<Node>, Exception>)
      reads this
    {
      && (loaded.Failure? ==>
            r == Failure(loaded.error) && LazyOf(kind) == old(LazyOf(kind)) && AssocOf(kind) == old(AssocOf(kind)))
      && (loaded.Success? && Str(key) !in loaded.value ==>
            && r == Failure(PythonFault(KeyError(key)))
            && LazyOf(kind) == old(LazyOf(kind)) && AssocOf(kind) == old(AssocOf(kind)))
      && (loaded.Success? && Str(key) in loaded.value ==>
            && r == Success(loaded.value[Str(key)])
            && AssocOf(kind) == Some(old(AssocOf(kind)).GetOr(map[])[key := r.value])
            && old(LazyOf(kind)).Some?
            && LazyOf(kind) == Some(old(LazyOf(kind)).value[name := r.value]))
    }

    /** A miss on both caches: the relation's loader fetches the associations of the key's type. */
    method FetchAssociation(kind: Relation, name: string, key: string)
      returns (r: Result<seq<Node>, Exception>, ghost loaded: Result<map<Json, seq<Node>>, Exception>)
      requires LazyOf(kind).Some? && api.client.Valid()
      modifies this, api.client
      ensures api.client.Valid() && api.client.ticket == old(api.client.ticket)
      ensures data == old(data) && cachedProperties == old(cachedProperties)
      ensures forall k :: k != kind ==> LazyOf(k) == old(LazyOf(k)) && AssocOf(k) == old(AssocOf(k))
      ensures AssociationFetched(kind, name, key, loaded, r)
    {
      var lp, groups := LoadAssociations(kind, key);
      loaded := groups;
      r := StoreFetched(kind, name, key, lp.value, groups);
    }

    /** Keep the load parameters the loader left, and store the group it returned under the key, if any. */
    method StoreFetched(kind: Relation, name: string, key: string, lp: LoadParams, groups: Result<map<Json, seq<Node>>, Exception>)
      returns (r: Result<seq<Node>, Exception>)
      requires LazyOf(kind).Some?
      modifies this
      ensures loadParams == lp && data == old(data) && cachedProperties == old(cachedProperties)
      ensures forall k :: k != kind ==> LazyOf(k) == old(LazyOf(k)) && AssocOf(k) == old(AssocOf(k))
      ensures AssociationStored(kind, name, key, groups, r)
    {
      loadParams := lp;
      if groups.Failure? {
        return Failure(groups.error);
      }
      if Str(key) !in groups.value {
        return Failure(PythonFault(KeyError(key)));
      }
      var members := groups.value[Str(key)];
      r := Success(members);
      StoreRelation(kind, Some(LazyOf(kind).value[name := members]), Some(AssocOf(kind).GetOr(map[])[key := members]));
    }

    /** The relation's loader, asked for the associations of one type with this node's load parameters. */
    method LoadAssociations(kind: Relation, key: string)
      returns (lp: Option<LoadParams>, groups: Result<map<Json, seq<Node>>, Exception>)
      requires api.client.Valid()
      modifies api.client
      ensures api.RelatedLoaded(kind, id, Some(AssocTypeFilter(key)), None, Some(loadParams), lp, groups)
      ensures api.RelatedSent(kind, id, Some(AssocTypeFilter(key)), None, Some(loadParams), lp, KeysOf(groups))
      ensures lp.Some?
    {
      match kind {
        case Targets =>
          lp, groups := api.LoadTargets(id, Some(AssocTypeFilter(key)), Some(loadParams));
        case Sources =>
          lp, groups := api.LoadSources(id, Some(AssocTypeFilter(key)), Some(loadParams));
        case Children =>
          lp, groups := api.LoadChildren(id, Some(AssocTypeFilter(key)), 0, 100, None, Some(loadParams));
      }
    }
  }

  // ---------------------------------------------------------------- the public entry point

  /** The six flags of `getNode`, one per includable field. */
  datatype IncludeFlags = IncludeFlags(
    allowableOperations: bool, permissions: bool, path: bool,
    isLink: bool, isFavorite: bool, isLocked: bool)

  /** All flags off, as the root, shared and personal folders are fetched. */
  const NoFlags: IncludeFlags := IncludeFlags(false, false, false, false, false, false)

  /** The flags in the order of `_includeFields`. */
  function FlagList(f: IncludeFlags): (on: seq<bool>)
    ensures |on| == |IncludeFields|
  {
    [f.allowableOperations, f.permissions, f.path, f.isLink, f.isFavorite, f.isLocked]
  }

  /** The include list `getNode` builds: the names of the flags that are on, in `_includeFields` order. */
  function IncludeList(f: IncludeFlags): seq<string> {
    Selected(IncludeFields, FlagList(f))
  }

  /** A field is in the include list exactly when its flag is on, and no field twice. */
  lemma IncludeListExact(f: IncludeFlags, i: int)
    requires 0 <= i < |IncludeFields|
    ensures IncludeFields[i] in IncludeList(f) <==> FlagList(f)[i]
    ensures Distinct(IncludeList(f))
  {
    SelectedMembership(IncludeFields, FlagList(f), i);
    SelectedDistinct(IncludeFields, FlagList(f));
  }

  /** With every flag off the include list is empty. */
  lemma NoFlagsIncludeNothing()
    ensures IncludeList(NoFlags) == []
  {
    SelectedWithin(IncludeFields, FlagList(NoFlags));
    if |IncludeList(NoFlags)| > 0 {
      var x := IncludeList(NoFlags)[0];
      assert x in IncludeFields;
      var i :| 0 <= i < |IncludeFields| && IncludeFields[i] == x;
      IncludeListExact(NoFlags, i);
    }
  }

  /** `NodesAPI`: the public node operations over one client. */
  class NodesApi {
    const client: Client

    constructor(client: Client)
      ensures this.client == client
    {
      this.client := client;
    }

    /**
     * `getNode`: one fetch of the node through a new internal API, with
     * the include list of the flags that are on and the given fields.
     */
    method GetNode(id: Json, relativePath: Option<string>, fields: Option<seq<string>>, flags: IncludeFlags)
      returns (r: Result<Node, Exception>, ghost api: InternalNodesApi)
      requires client.Valid()
      modifies client
      ensures fresh(api) && api.client == client
      ensures client.Valid() && client.ticket == old(client.ticket)
      ensures !id.Str? ==> r == Failure(PythonFault(QuoteFault)) && unchanged(client)
      ensures id.Str? ==>
                && SentOnce(client, old(client.sent), NodeUrl(id.s, ""),
                            NodeDataParams(Some(NodeLoadParams(Some(IncludeList(flags)), fields)), relativePath))
                && NodeFrom(r, LastAnswer(client), api, NodeLoadParams(Some(IncludeList(flags)), fields))
      ensures r.Success? ==> fresh(r.value)
    {
      var includes := BuildIncludes(flags);
      var internal := new InternalNodesApi(client);
      api := internal;
      r := internal.LoadNode(id, relativePath, Some(includes), fields);
    }

    /** `getCompanyHome`: the repository root, `-root-`. */
    method GetCompanyHome() returns (r: Result<Node, Exception>, ghost api: InternalNodesApi)
      requires client.Valid()
      modifies client
      ensures fresh(api) && api.client == client
      ensures client.Valid() && client.ticket == old(client.ticket)
      ensures SentOnce(client, old(client.sent), NodeUrl("-root-", ""), NodeDataParams(Some(NodeLoadParams(Some([]), None)), None))
      ensures NodeFrom(r, LastAnswer(client), api, NodeLoadParams(Some([]), None))
      ensures r.Success? ==> fresh(r.value)
    {
      NoFlagsIncludeNothing();
      r, api := GetNode(Str("-root-"), None, None, NoFlags);
    }

    /** `getSharedFiles`: the shared files folder, `-shared-`. */
    method GetSharedFiles() returns (r: Result<Node, Exception>, ghost api: InternalNodesApi)
      requires client.Valid()
      modifies client
      ensures fresh(api) && api.client == client
      ensures client.Valid() && client.ticket == old(client.ticket)
      ensures SentOnce(client, old(client.sent), NodeUrl("-shared-", ""), NodeDataParams(Some(NodeLoadParams(Some([]), None)), None))
      ensures NodeFrom(r, LastAnswer(client), api, NodeLoadParams(Some([]), None))
      ensures r.Success? ==> fresh(r.value)
    {
      NoFlagsIncludeNothing();
      r, api := GetNode(Str("-shared-"), None, None, NoFlags);
    }

    /** `getMyFiles`: the current user's home folder, `-my-`. */
    method GetMyFiles() returns (r: Result<Node, Exception>, ghost api: InternalNodesApi)
      requires client.Valid()
      modifies client
      ensures fresh(api) && api.client == client
      ensures client.Valid() && client.ticket == old(client.ticket)
      ensures SentOnce(client, old(client.sent), NodeUrl("-my-", ""), NodeDataParams(Some(NodeLoadParams(Some([]), None)), None))
      ensures NodeFrom(r, LastAnswer(client), api, NodeLoadParams(Some([]), None))
      ensures r.Success? ==> fresh(r.value)
    {
      NoFlagsIncludeNothing();
      r, api := GetNode(Str("-my-"), None, None, NoFlags);
    }
  }

  /** The include list built by successive appends, one per flag that is on. */
  method BuildIncludes(flags: IncludeFlags) returns (includes: seq<string>)
    ensures includes == IncludeList(flags)
  {
    ghost var n, on := IncludeFields, FlagList(flags);
    includes := [];
    if flags.allowableOperations {
      includes := includes + [IncludeFields[0]];
    }
    assert includes == Selected(n[..1], on[..1]);
    if flags.permissions {
      includes := includes + [IncludeFields[1]];
    }
    assert n[..2][..1] == n[..1] && on[..2][..1] == on[..1];
    assert includes == Selected(n[..2], on[..2]);
    if flags.path {
      includes := includes + [IncludeFields[2]];
    }
    assert n[..3][..2] == n[..2] && on[..3][..2] == on[..2];
    assert includes == Selected(n[..3], on[..3]);
    if flags.isLink {
      includes := includes + [IncludeFields[3]];
    }
    assert n[..4][..3] == n[..3] && on[..4][..3] == on[..3];
    assert includes == Selected(n[..4], on[..4]);
    if flags.isFavorite {
      includes := includes + [IncludeFields[4]];
    }
    assert n[..5][..4] == n[..4] && on[..5][..4] == on[..4];
    assert includes == Selected(n[..5], on[..5]);
    if flags.isLocked {
      includes := includes + [IncludeFields[5]];
    }
    assert n[..6] == n && on[..6] == on;
    assert n[..6][..5] == n[..5] && on[..6][..5] == on[..5];
  }
}
