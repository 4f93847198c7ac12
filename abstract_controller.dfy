/**
 * Controller/AbstractController.php: the query-building part of the generic
 * REST controller. The controller's own `objectClass` and `objectKey` are
 * parameters here; the repository lookup is a function parameter.
 */
module AbstractController {
  import opened Common
  import opened Reflection
  import opened QueryModel
  import Helpers
  import opened QueryBuilders

  // ---------------------------------------------------------------------
  // appendSearchToQueryBuilder and getQueryBuilders

  /**
   * The controller's `appendSearchToQueryBuilder`: the alias defaults to "x"
   * and the class to the controller's own; then the same translation as
   * `Helpers::appendSearchToQueryBuilder`.
   */
  method AppendSearchToQueryBuilder(qb: QueryBuilder, search: map<string, Value>, config: map<string, string>,
                                    objectClass: string, schema: Schema)
    returns (ok: bool)
    modifies qb
    ensures var oc := GetKeyIfExists(config, "objectClass", objectClass);
      ok <==> oc in schema
    ensures !ok ==> qb.State() == old(qb.State())
    ensures ok ==>
      var oc := GetKeyIfExists(config, "objectClass", objectClass);
      var alias := GetKeyIfExists(config, "alias", "x");
      qb.State() == Helpers.AppendSearchState(old(qb.State()), alias, schema[oc].properties, search)
  {
    var oc := GetKeyIfExists(config, "objectClass", objectClass);
    var alias := GetKeyIfExists(config, "alias", "x");
    ok := Helpers.AppendSearchToQueryBuilder(qb, search, map["objectClass" := oc, "alias" := alias], schema);
  }

  /** The data query of `getQueryBuilders` for a class, its properties and the merged search. */
  function DataQueryOf(objectClass: string, props: seq<string>, search: map<string, Value>): QueryState
  {
    Helpers.AppendSearchState(ApplyOps(EmptyQuery, DataSelectOps(objectClass, "x") + LimitOps(search) + StartOps(search)),
                              "x", props, search)
  }

  /** The count query of `getQueryBuilders`. */
  function CountQueryOf(objectClass: string, props: seq<string>, search: map<string, Value>): QueryState
  {
    Helpers.AppendSearchState(ApplyOps(EmptyQuery, CountSelectOps(objectClass, "x")), "x", props, search)
  }

  /**
   * The pair `getQueryBuilders` returns: the data query selects `x` and the
   * count query `count(x) as num`, both from the class; both have the same
   * conditions, those of the search translation; only the data query is
   * paginated, from numeric `start` and `limit`.
   */
  lemma {:induction false} GetQueryBuildersPair(objectClass: string, props: seq<string>, search: map<string, Value>)
    ensures var d := DataQueryOf(objectClass, props, search);
      var c := CountQueryOf(objectClass, props, search);
      var start := GetKeyIfExists(search, "start", VNull);
      var limit := GetKeyIfExists(search, "limit", VNull);
      SameConditions(d, c) && Unpaginated(c) &&
      d.select == ["x"] && c.select == ["count(x) as num"] &&
      d.from == [FromPart(objectClass, "x")] &&
      d.first == (if IsNumeric(start) then Some(IntCast(start)) else None) &&
      d.max == (if IsNumeric(limit) then Some(IntCast(limit)) else None) &&
      d.wheres == Helpers.SearchClauses("x", props, search) &&
      d.params == Helpers.SearchParams(map[], "x", props, search) &&
      d.order == Helpers.SearchOrder(None, "x", props, search)
  {
    var ds := DataSelectOps(objectClass, "x");
    var l := LimitOps(search);
    var t := StartOps(search);
    Helpers.ApplyOpsTwo(EmptyQuery, Select("x"), From(objectClass, "x"));
    CountSelectDefaultAlias(objectClass);
    Helpers.ApplyOpsTwo(EmptyQuery, Select("count(x) as num"), From(objectClass, "x"));
    var base := ApplyOps(EmptyQuery, ds);
    ApplyOpsAppend(EmptyQuery, ds + l, t);
    ApplyOpsAppend(EmptyQuery, ds, l);
    ApplyOpsAppend(base, l, t);
    StartLimitCommute(base, search);
    PaginationFromSearch(base, search);
    var paged := ApplyOps(base, l + t);
    Helpers.AppendSearchShape(paged, "x", props, search);
    Helpers.AppendSearchShape(ApplyOps(EmptyQuery, CountSelectOps(objectClass, "x")), "x", props, search);
  }

  /**
   * `getQueryBuilders`: `search` over `defaults`; a data query and a count
   * query from the controller's class; `limit`/`start` on the data query
   * only; then the same search on both.
   */
  method GetQueryBuilders(search: map<string, Value>, defaults: map<string, Value>, objectClass: string, schema: Schema)
    returns (ok: bool, dataQuery: QueryBuilder, countQuery: QueryBuilder)
    ensures fresh(dataQuery) && fresh(countQuery) && dataQuery != countQuery
    ensures ok <==> objectClass in schema
    ensures ok ==>
      dataQuery.State() == DataQueryOf(objectClass, schema[objectClass].properties, defaults + search) &&
      countQuery.State() == CountQueryOf(objectClass, schema[objectClass].properties, defaults + search)
  {
    var merged := defaults + search;
    dataQuery := new QueryBuilder();
    dataQuery.Apply(Select("x"));
    dataQuery.Apply(From(objectClass, "x"));
    countQuery := new QueryBuilder();
    countQuery.Apply(Select("count(x) as num"));
    countQuery.Apply(From(objectClass, "x"));
    assert countQuery.State() == ApplyOps(EmptyQuery, CountSelectOps(objectClass, "x")) by {
      CountSelectDefaultAlias(objectClass);
      Helpers.ApplyOpsTwo(EmptyQuery, Select("count(x) as num"), From(objectClass, "x"));
    }
    ghost var dataBase := dataQuery.State();
    assert dataBase == ApplyOps(EmptyQuery, DataSelectOps(objectClass, "x")) by {
      Helpers.ApplyOpsTwo(EmptyQuery, Select("x"), From(objectClass, "x"));
    }
    var limit := GetKeyIfExists(merged, "limit", VNull);
    if IsNumeric(limit) {
      dataQuery.Apply(SetMaxResults(IntCast(limit)));
    }
    ghost var limited := dataQuery.State();
    assert limited == ApplyOps(dataBase, LimitOps(merged));
    var start := GetKeyIfExists(merged, "start", VNull);
    if IsNumeric(start) {
      dataQuery.Apply(SetFirstResult(IntCast(start)));
    }
    assert dataQuery.State() == ApplyOps(EmptyQuery, DataSelectOps(objectClass, "x") + LimitOps(merged) + StartOps(merged)) by {
      assert dataQuery.State() == ApplyOps(limited, StartOps(merged));
      ApplyOpsAppend(EmptyQuery, DataSelectOps(objectClass, "x"), LimitOps(merged));
      ApplyOpsAppend(EmptyQuery, DataSelectOps(objectClass, "x") + LimitOps(merged), StartOps(merged));
    }
    ok := AppendSearchToQueryBuilder(dataQuery, merged, map[], objectClass, schema);
    if !ok {
      return;
    }
    ok := AppendSearchToQueryBuilder(countQuery, merged, map[], objectClass, schema);
  }

  /** `setMaxResults` and `setFirstResult` touch different parts, so their order does not matter. */
  lemma StartLimitCommute(s: QueryState, search: map<string, Value>)
    ensures ApplyOps(s, LimitOps(search) + StartOps(search)) == ApplyOps(s, StartOps(search) + LimitOps(search))
  {
    var l := LimitOps(search);
    var t := StartOps(search);
    ApplyOpsAppend(s, l, t);
    ApplyOpsAppend(s, t, l);
  }

  /**
   * Paginating before or after the search translation gives the same data
   * query: `getQueryBuilders` and the `QueryBuilders` class build the same
   * pair for the same class and search.
   */
  lemma {:induction false} GetQueryBuildersMatchesQueryBuilders(objectClass: string, props: seq<string>, search: map<string, Value>)
    ensures Helpers.AppendSearchState(ApplyOps(EmptyQuery, DataSelectOps(objectClass, "x") + LimitOps(search) + StartOps(search)),
                                      "x", props, search) ==
            ApplyOps(Helpers.AppendSearchState(ApplyOps(EmptyQuery, DataSelectOps(objectClass, "x")), "x", props, search),
                     StartOps(search) + LimitOps(search))
  {
    var base := ApplyOps(EmptyQuery, DataSelectOps(objectClass, "x"));
    var l := LimitOps(search);
    var t := StartOps(search);
    ApplyOpsAppend(EmptyQuery, DataSelectOps(objectClass, "x") + l, t);
    ApplyOpsAppend(EmptyQuery, DataSelectOps(objectClass, "x"), l);
    ApplyOpsAppend(base, l, t);
    StartLimitCommute(base, search);
    var paged := ApplyOps(base, t + l);
    PaginationFromSearch(base, search);
    Helpers.AppendSearchShape(paged, "x", props, search);
    Helpers.AppendSearchShape(base, "x", props, search);
    var searched := Helpers.AppendSearchState(base, "x", props, search);
    PaginationFromSearch(searched, search);
  }

  // ---------------------------------------------------------------------
  // getObject

  /**
   * The criteria `getObject` passes to `findOneBy`: the key value under the
   * controller's key, unless the key value is exactly `false`.
   */
  function GetObjectCriteria(keyValue: Value, findArray: Assoc<Value>, objectKey: string): (r: Assoc<Value>)
    ensures keyValue == VBool(false) ==> r == findArray
    ensures keyValue != VBool(false) ==>
      Lookup(r, objectKey) == Some(keyValue) &&
      forall k :: k != objectKey ==> Lookup(r, k) == Lookup(findArray, k)
  {
    if keyValue == VBool(false) then findArray else Put(findArray, objectKey, keyValue)
  }

  /**
   * `getObject`: the object `findOneBy` returns for the criteria, or a 404
   * when the result is falsy (nothing found).
   */
  function GetObject(keyValue: Value, findArray: Assoc<Value>, objectKey: string,
                     findOneBy: Assoc<Value> -> Value): (r: Result<Value>)
    ensures var found := findOneBy(GetObjectCriteria(keyValue, findArray, objectKey));
      (r.Ok? <==> Truthy(found)) &&
      (r.Ok? ==> r.value == found) &&
      (r.HttpError? ==> r.status == 404)
  {
    var found := findOneBy(GetObjectCriteria(keyValue, findArray, objectKey));
    if !Truthy(found) then HttpError(404) else Ok(found)
  }

  // ---------------------------------------------------------------------
  // getListObject (the criteria it builds; the repository call is not modelled)

  /** The `x.key IN(:key)` clause for an array value, `x.key = :key` for any other. */
  function FindClause(key: string, value: Value): (r: Clause)
    ensures IsArray(value) ==> Dql(r) == "x." + key + " IN(:" + key + ")"
    ensures !IsArray(value) ==> Dql(r) == "x." + key + "  = :" + key + " "
  {
    if IsArray(value) then InParam("x." + key, key) else EqParam("x." + key, key)
  }

  /** The clause and parameter for one `findArray` entry; the parameter is set even when null. */
  function FindEntryOps(key: string, value: Value): seq<Op>
  {
    [AndWhere(FindClause(key, value)), SetParameter(key, value)]
  }

  function FindArrayOps(findArray: Assoc<Value>): seq<Op>
    decreases |findArray|
  {
    if findArray == [] then []
    else
      var n := |findArray| - 1;
      FindArrayOps(findArray[..n]) + FindEntryOps(findArray[n].0, findArray[n].1)
  }

  /**
   * The criterion a query-string value adds: a value other than "" and "0",
   * split on "|", and always a list, even of one piece.
   */
  function QueryCriterion(query: map<string, string>, prop: string): (r: Option<Value>)
    ensures r.Some? <==> prop in query && query[prop] != "" && query[prop] != "0"
    ensures r.Some? ==> r.value.VList? && |r.value.items| >= 1
    ensures r.Some? && Pipe !in query[prop] ==> r.value == VList([VStr(query[prop])])
  {
    if prop in query && Truthy(VStr(query[prop])) then
      ExplodeSingle(query[prop]);
      Some(VList(Helpers.Strings(Explode(query[prop]))))
    else None
  }

  /** The clause and parameter one property adds to the count query. */
  function PropertyOps(query: map<string, string>, prop: string): seq<Op>
  {
    match QueryCriterion(query, prop)
    case None => []
    case Some(v) => [AndWhere(InParam("x." + prop, prop)), SetParameter(prop, v)]
  }

  function QueryOps(query: map<string, string>, props: seq<string>): seq<Op>
    decreases |props|
  {
    if props == [] then []
    else
      var n := |props| - 1;
      QueryOps(query, props[..n]) + PropertyOps(query, props[n])
  }

  /** `findArray` after the property loop. */
  function ListFind(findArray: Assoc<Value>, query: map<string, string>, props: seq<string>): Assoc<Value>
    decreases |props|
  {
    if props == [] then findArray
    else
      var n := |props| - 1;
      var f := ListFind(findArray, query, props[..n]);
      match QueryCriterion(query, props[n])
      case None => f
      case Some(v) => Put(f, props[n], v)
  }

  /**
   * The direction a property gets in `orderArray`, if any: ascending when
   * the `orderby` query value is the property name, otherwise descending
   * when `orderbydesc` is.
   */
  function ListDirection(query: map<string, string>, prop: string): (r: Option<Dir>)
    ensures prop != "" && prop != "0" ==>
      (r == Some(Asc) <==> "orderby" in query && query["orderby"] == prop) &&
      (r == Some(Desc) <==> !("orderby" in query && query["orderby"] == prop) &&
                            "orderbydesc" in query && query["orderbydesc"] == prop)
  {
    if LooseEqualsName(OptionalString(if "orderby" in query then Some(query["orderby"]) else None), prop) then Some(Asc)
    else if LooseEqualsName(OptionalString(if "orderbydesc" in query then Some(query["orderbydesc"]) else None), prop) then Some(Desc)
    else None
  }

  function ListOrder(query: map<string, string>, props: seq<string>): Assoc<Dir>
    decreases |props|
  {
    if props == [] then []
    else
      var n := |props| - 1;
      var o := ListOrder(query, props[..n]);
      match ListDirection(query, props[n])
      case None => o
      case Some(d) => Put(o, props[n], d)
  }

  function QueryString(query: map<string, string>, key: string): string
  {
    GetKeyIfExists(query, key, "")
  }

  /** One more `findArray` entry: its two calls follow those of the earlier entries. */
  lemma FindArrayOpsStep(findArray: Assoc<Value>, i: nat)
    requires i < |findArray|
    ensures FindArrayOps(findArray[..i + 1]) == FindArrayOps(findArray[..i]) + FindEntryOps(findArray[i].0, findArray[i].1)
  {
    assert findArray[..i + 1][..i] == findArray[..i];
  }

  /** One more property: its calls, `findArray` update and `orderArray` update follow the earlier ones. */
  lemma PropertyStep(findArray: Assoc<Value>, query: map<string, string>, props: seq<string>, j: nat)
    requires j < |props|
    ensures QueryOps(query, props[..j + 1]) == QueryOps(query, props[..j]) + PropertyOps(query, props[j])
    ensures ListFind(findArray, query, props[..j + 1]) ==
      match QueryCriterion(query, props[j])
      case None => ListFind(findArray, query, props[..j])
      case Some(v) => Put(ListFind(findArray, query, props[..j]), props[j], v)
    ensures ListOrder(query, props[..j + 1]) ==
      match ListDirection(query, props[j])
      case None => ListOrder(query, props[..j])
      case Some(d) => Put(ListOrder(query, props[..j]), props[j], d)
  {
    assert props[..j + 1][..j] == props[..j];
  }

  /** Appends the `findArray` criteria to the count query. */
  method AppendFindArray(countQuery: QueryBuilder, findArray: Assoc<Value>)
    modifies countQuery
    ensures countQuery.State() == ApplyOps(old(countQuery.State()), FindArrayOps(findArray))
  {
    ghost var base := countQuery.State();
    var i := 0;
    while i < |findArray|
      invariant 0 <= i <= |findArray|
      invariant countQuery.State() == ApplyOps(base, FindArrayOps(findArray[..i]))
    {
      var (key, value) := findArray[i];
      ghost var before := countQuery.State();
      if IsArray(value) {
        countQuery.Apply(AndWhere(InParam("x." + key, key)));
      } else {
        countQuery.Apply(AndWhere(EqParam("x." + key, key)));
      }
      countQuery.Apply(SetParameter(key, value));
      assert countQuery.State() == ApplyOps(base, FindArrayOps(findArray[..i + 1])) by {
        Helpers.ApplyOpsTwo(before, FindEntryOps(key, value)[0], FindEntryOps(key, value)[1]);
        FindArrayOpsStep(findArray, i);
        ApplyOpsAppend(base, FindArrayOps(findArray[..i]), FindEntryOps(key, value));
      }
      i := i + 1;
    }
    assert findArray[..i] == findArray;
  }

  /**
   * The criteria of `getListObject`: the final `findArray`, `orderArray`,
   * `limit` and `offset`, and the count query. Returns false for the
   * exception an unknown class raises.
   */
  method ListObject(query: map<string, string>, findArray: Assoc<Value>, objectClass: string, schema: Schema)
    returns (ok: bool, find: Assoc<Value>, orderArray: Assoc<Dir>, limit: Option<int>, offset: Option<int>,
             countQuery: QueryBuilder)
    ensures fresh(countQuery)
    ensures ok <==> objectClass in schema
    ensures ok ==>
      var props := schema[objectClass].properties;
      find == ListFind(findArray, query, props) &&
      orderArray == ListOrder(query, props) &&
      countQuery.State() ==
        ApplyOps(EmptyQuery, CountSelectOps(objectClass, "x") + FindArrayOps(findArray) + QueryOps(query, props))
    ensures ok ==>
      limit == (if MatchesDigits(QueryString(query, "limit")) then Some(DigitsCast(QueryString(query, "limit"))) else None)
    ensures ok ==>
      offset == (if MatchesDigits(QueryString(query, "start")) && MatchesDigits(QueryString(query, "limit"))
                 then Some(DigitsCast(QueryString(query, "start"))) else None)
  {
    countQuery := new QueryBuilder();
    find, orderArray, limit, offset := findArray, [], None, None;
    if objectClass !in schema {
      return false, find, orderArray, limit, offset, countQuery;
    }
    var properties := schema[objectClass].properties;
    countQuery.Apply(Select("count(x) as num"));
    countQuery.Apply(From(objectClass, "x"));
    assert countQuery.State() == ApplyOps(EmptyQuery, CountSelectOps(objectClass, "x")) by {
      Helpers.ApplyOpsTwo(EmptyQuery, Select("count(x) as num"), From(objectClass, "x"));
      CountSelectDefaultAlias(objectClass);
    }
    AppendFindArray(countQuery, findArray);
    ghost var afterFind := countQuery.State();

    var orderby := if "orderby" in query then Some(query["orderby"]) else None;
    var orderbydesc := if "orderbydesc" in query then Some(query["orderbydesc"]) else None;
    var j := 0;
    while j < |properties|
      invariant 0 <= j <= |properties|
      invariant countQuery.State() == ApplyOps(afterFind, QueryOps(query, properties[..j]))
      invariant find == ListFind(findArray, query, properties[..j])
      invariant orderArray == ListOrder(query, properties[..j])
    {
      var prop := properties[j];
      ghost var before := countQuery.State();
      PropertyStep(findArray, query, properties, j);
      if prop in query && Truthy(VStr(query[prop])) {
        var pieces := VList(Helpers.Strings(Explode(query[prop])));
        find := Put(find, prop, pieces);
        countQuery.Apply(AndWhere(InParam("x." + prop, prop)));
        countQuery.Apply(SetParameter(prop, pieces));
        assert countQuery.State() == ApplyOps(before, PropertyOps(query, prop)) by {
          Helpers.ApplyOpsTwo(before, AndWhere(InParam("x." + prop, prop)), SetParameter(prop, pieces));
        }
      }
      assert countQuery.State() == ApplyOps(afterFind, QueryOps(query, properties[..j + 1])) by {
        ApplyOpsAppend(afterFind, QueryOps(query, properties[..j]), PropertyOps(query, prop));
      }
      if LooseEqualsName(OptionalString(orderby), prop) {
        orderArray := Put(orderArray, prop, Asc);
      } else if LooseEqualsName(OptionalString(orderbydesc), prop) {
        orderArray := Put(orderArray, prop, Desc);
      }
      j := j + 1;
    }
    assert properties[..j] == properties;
    assert countQuery.State() ==
      ApplyOps(EmptyQuery, CountSelectOps(objectClass, "x") + FindArrayOps(findArray) + QueryOps(query, properties)) by {
      ApplyOpsAppend(EmptyQuery, CountSelectOps(objectClass, "x"), FindArrayOps(findArray));
      ApplyOpsAppend(EmptyQuery, CountSelectOps(objectClass, "x") + FindArrayOps(findArray), QueryOps(query, properties));
    }

    var limitString := QueryString(query, "limit");
    var startString := QueryString(query, "start");
    if MatchesDigits(limitString) {
      limit := Some(DigitsCast(limitString));
    }
    if MatchesDigits(startString) && MatchesDigits(limitString) {
      offset := Some(DigitsCast(startString));
    }
    ok := true;
  }

  // ---------------------------------------------------------------------
  // What getListObject's criteria mean

  /**
   * The final `findArray`: a property with a truthy query value holds that
   * value split on "|"; every other key keeps what the caller passed.
   */
  lemma {:induction false} ListFindLookup(findArray: Assoc<Value>, query: map<string, string>, props: seq<string>, k: string)
    ensures Lookup(ListFind(findArray, query, props), k) ==
      if k in props && QueryCriterion(query, k).Some? then QueryCriterion(query, k) else Lookup(findArray, k)
    decreases |props|
  {
    if props != [] {
      var n := |props| - 1;
      ListFindLookup(findArray, query, props[..n], k);
      assert props == props[..n] + [props[n]];
    }
  }

  /**
   * `orderArray` holds exactly the properties named by `orderby` (ASC) or,
   * failing that, by `orderbydesc` (DESC).
   */
  lemma {:induction false} ListOrderLookup(query: map<string, string>, props: seq<string>, k: string)
    ensures Lookup(ListOrder(query, props), k) == if k in props then ListDirection(query, k) else None
    decreases |props|
  {
    if props != [] {
      var n := |props| - 1;
      ListOrderLookup(query, props[..n], k);
      assert props == props[..n] + [props[n]];
    }
  }

  /** Unlike `appendSearchToQueryBuilder`, `getListObject` can order by two properties at once. */
  lemma ListOrderTwoDirections()
    ensures ListOrder(map["orderby" := "name", "orderbydesc" := "date"], ["name", "date"]) ==
      [("name", Asc), ("date", Desc)]
  {
    var q := map["orderby" := "name", "orderbydesc" := "date"];
    assert ListDirection(q, "name") == Some(Asc);
    assert ListDirection(q, "date") == Some(Desc);
    assert ["name", "date"][..1] == ["name"];
    assert ["name"][..0] == [];
    assert ListOrder(q, ["name"]) == [("name", Asc)];
    assert Put([("name", Asc)], "date", Desc) == [("name", Asc)] + Put([], "date", Desc);
  }

  /** The parameters the `findArray` loop sets: each entry's value under its key, null included. */
  lemma {:induction false} FindArrayParams(s: QueryState, findArray: Assoc<Value>, k: string)
    requires UniqueKeys(findArray)
    ensures var p := ApplyOps(s, FindArrayOps(findArray)).params;
      (Lookup(findArray, k).Some? ==> k in p && p[k] == Lookup(findArray, k).value) &&
      (Lookup(findArray, k).None? ==> (k in p <==> k in s.params) && (k in s.params ==> p[k] == s.params[k]))
    decreases |findArray|
  {
    if findArray != [] {
      var n := |findArray| - 1;
      var init := findArray[..n];
      var (key, value) := findArray[n];
      assert findArray == init + [(key, value)];
      assert UniqueKeys(init);
      FindArrayParams(s, init, k);
      var mid := ApplyOps(s, FindArrayOps(init));
      ApplyOpsAppend(s, FindArrayOps(init), FindEntryOps(key, value));
      Helpers.ApplyOpsTwo(mid, FindEntryOps(key, value)[0], FindEntryOps(key, value)[1]);
      LookupSnoc(init, key, value, k);
      if k == key {
        LookupNone(init, key);
      }
    }
  }

  /** A key absent from every entry looks up to nothing. */
  lemma {:induction false} LookupNone(a: Assoc<Value>, k: string)
    requires forall i :: 0 <= i < |a| ==> a[i].0 != k
    ensures Lookup(a, k).None?
    decreases |a|
  {
    if a != [] {
      LookupNone(a[1..], k);
    }
  }

  /** The parameters the property loop sets: the split query value of each property that has a truthy one. */
  lemma {:induction false} QueryOpsParams(s: QueryState, query: map<string, string>, props: seq<string>, k: string)
    ensures var p := ApplyOps(s, QueryOps(query, props)).params;
      (k in props && QueryCriterion(query, k).Some? ==> k in p && p[k] == QueryCriterion(query, k).value) &&
      (!(k in props && QueryCriterion(query, k).Some?) ==> (k in p <==> k in s.params) && (k in s.params ==> p[k] == s.params[k]))
    decreases |props|
  {
    if props != [] {
      var n := |props| - 1;
      var p := props[n];
      QueryOpsParams(s, query, props[..n], k);
      assert props == props[..n] + [p];
      var mid := ApplyOps(s, QueryOps(query, props[..n]));
      assert ApplyOps(s, QueryOps(query, props)) == ApplyOps(mid, PropertyOps(query, p)) by {
        ApplyOpsAppend(s, QueryOps(query, props[..n]), PropertyOps(query, p));
      }
      PropertyOpsEffect(mid, query, p);
    }
  }

  /**
   * The count query of `getListObject` binds exactly the criteria handed to
   * `findBy`: a parameter per key of the final `findArray`, with its value.
   */
  lemma ListCountParamsMatchFind(objectClass: string, findArray: Assoc<Value>, query: map<string, string>,
                                 props: seq<string>, k: string)
    requires UniqueKeys(findArray)
    ensures var p := ApplyOps(EmptyQuery, CountSelectOps(objectClass, "x") + FindArrayOps(findArray) + QueryOps(query, props)).params;
      var f := Lookup(ListFind(findArray, query, props), k);
      (k in p <==> f.Some?) && (k in p ==> p[k] == f.value)
  {
    var base := ApplyOps(EmptyQuery, CountSelectOps(objectClass, "x"));
    Helpers.ApplyOpsTwo(EmptyQuery, CountSelectOps(objectClass, "x")[0], CountSelectOps(objectClass, "x")[1]);
    ApplyOpsAppend(EmptyQuery, CountSelectOps(objectClass, "x"), FindArrayOps(findArray));
    ApplyOpsAppend(EmptyQuery, CountSelectOps(objectClass, "x") + FindArrayOps(findArray), QueryOps(query, props));
    FindArrayParams(base, findArray, k);
    QueryOpsParams(ApplyOps(base, FindArrayOps(findArray)), query, props, k);
    ListFindLookup(findArray, query, props, k);
  }

  // ---------------------------------------------------------------------
  // The conditions of the count query of getListObject

  /** The clauses of the `findArray` loop, one per entry, in order. */
  function FindClauses(findArray: Assoc<Value>): (r: seq<Clause>)
    ensures |r| == |findArray|
    ensures forall i :: 0 <= i < |r| ==> r[i] == FindClause(findArray[i].0, findArray[i].1)
  {
    seq(|findArray|, i requires 0 <= i < |findArray| => FindClause(findArray[i].0, findArray[i].1))
  }

  /** The properties whose query value adds a criterion, in property order. */
  function QueryKeyed(query: map<string, string>, props: seq<string>): seq<string>
    decreases |props|
  {
    if props == [] then []
    else
      var n := |props| - 1;
      QueryKeyed(query, props[..n]) + (if QueryCriterion(query, props[n]).Some? then [props[n]] else [])
  }

  /** The clauses of the property loop: `x.p IN(:p)` for each property with a criterion, in property order. */
  function QueryClauses(query: map<string, string>, props: seq<string>): seq<Clause>
    decreases |props|
  {
    if props == [] then []
    else
      var n := |props| - 1;
      var p := props[n];
      QueryClauses(query, props[..n]) + (if QueryCriterion(query, p).Some? then [InParam("x." + p, p)] else [])
  }

  /** The clauses of the property loop are those of the properties of `QueryKeyed`, one each, in order. */
  lemma {:induction false} QueryClausesOfKeyed(query: map<string, string>, props: seq<string>)
    ensures |QueryClauses(query, props)| == |QueryKeyed(query, props)|
    ensures forall j :: 0 <= j < |QueryKeyed(query, props)| ==>
      QueryClauses(query, props)[j] == InParam("x." + QueryKeyed(query, props)[j], QueryKeyed(query, props)[j])
    decreases |props|
  {
    if props != [] {
      var n := |props| - 1;
      QueryClausesOfKeyed(query, props[..n]);
    }
  }

  /** The `findArray` loop appends one clause per entry. */
  lemma {:induction false} FindArrayWheres(s: QueryState, findArray: Assoc<Value>)
    ensures ApplyOps(s, FindArrayOps(findArray)).wheres == s.wheres + FindClauses(findArray)
    decreases |findArray|
  {
    if findArray == [] {
      assert s.wheres + [] == s.wheres;
    } else {
      var n := |findArray| - 1;
      var init := findArray[..n];
      var (key, value) := findArray[n];
      FindArrayWheres(s, init);
      var mid := ApplyOps(s, FindArrayOps(init));
      ApplyOpsAppend(s, FindArrayOps(init), FindEntryOps(key, value));
      Helpers.ApplyOpsTwo(mid, FindEntryOps(key, value)[0], FindEntryOps(key, value)[1]);
      assert FindClauses(findArray) == FindClauses(init) + [FindClause(key, value)];
      assert (s.wheres + FindClauses(init)) + [FindClause(key, value)] ==
             s.wheres + (FindClauses(init) + [FindClause(key, value)]);
    }
  }

  /** One property's calls: its `IN` clause and its parameter when it has a criterion, nothing otherwise. */
  lemma PropertyOpsEffect(s: QueryState, query: map<string, string>, p: string)
    ensures ApplyOps(s, PropertyOps(query, p)) ==
      match QueryCriterion(query, p)
      case None => s
      case Some(v) => s.(wheres := s.wheres + [InParam("x." + p, p)], params := s.params[p := v])
  {
    match QueryCriterion(query, p) {
      case None =>
      case Some(v) =>
        Helpers.ApplyOpsTwo(s, AndWhere(InParam("x." + p, p)), SetParameter(p, v));
    }
  }

  /** The property loop appends one `IN` clause per property with a criterion. */
  lemma {:induction false} QueryOpsWheres(s: QueryState, query: map<string, string>, props: seq<string>)
    ensures ApplyOps(s, QueryOps(query, props)).wheres == s.wheres + QueryClauses(query, props)
    decreases |props|
  {
    if props == [] {
      assert s.wheres + [] == s.wheres;
    } else {
      var n := |props| - 1;
      var p := props[n];
      var earlier := QueryClauses(query, props[..n]);
      var mid := ApplyOps(s, QueryOps(query, props[..n]));
      var added: seq<Clause> := if QueryCriterion(query, p).Some? then [InParam("x." + p, p)] else [];
      assert ApplyOps(s, QueryOps(query, props)) == ApplyOps(mid, PropertyOps(query, p)) by {
        ApplyOpsAppend(s, QueryOps(query, props[..n]), PropertyOps(query, p));
      }
      assert mid.wheres == s.wheres + earlier by {
        QueryOpsWheres(s, query, props[..n]);
      }
      assert ApplyOps(mid, PropertyOps(query, p)).wheres == mid.wheres + added by {
        PropertyOpsEffect(mid, query, p);
        if QueryCriterion(query, p).None? {
          assert mid.wheres + [] == mid.wheres;
        }
      }
      assert (s.wheres + earlier) + added == s.wheres + (earlier + added);
    }
  }

  /**
   * The conditions of the count query of `getListObject`: one clause per
   * `findArray` entry in order, then `x.p IN(:p)` for each property whose
   * query value is truthy.
   */
  lemma ListCountWheres(objectClass: string, findArray: Assoc<Value>, query: map<string, string>, props: seq<string>)
    ensures ApplyOps(EmptyQuery, CountSelectOps(objectClass, "x") + FindArrayOps(findArray) + QueryOps(query, props)).wheres ==
            FindClauses(findArray) + QueryClauses(query, props)
  {
    var base := ApplyOps(EmptyQuery, CountSelectOps(objectClass, "x"));
    Helpers.ApplyOpsTwo(EmptyQuery, CountSelectOps(objectClass, "x")[0], CountSelectOps(objectClass, "x")[1]);
    ApplyOpsAppend(EmptyQuery, CountSelectOps(objectClass, "x"), FindArrayOps(findArray));
    ApplyOpsAppend(EmptyQuery, CountSelectOps(objectClass, "x") + FindArrayOps(findArray), QueryOps(query, props));
    FindArrayWheres(base, findArray);
    QueryOpsWheres(ApplyOps(base, FindArrayOps(findArray)), query, props);
    assert base.wheres == [];
  }

  /** A key present in an array has an entry holding the value it looks up to. */
  lemma {:induction false} LookupIndex<V>(a: Assoc<V>, k: string) returns (i: nat)
    requires Lookup(a, k).Some?
    ensures i < |a| && a[i] == (k, Lookup(a, k).value)
    decreases |a|
  {
    if a[0].0 == k {
      i := 0;
    } else {
      var j := LookupIndex(a[1..], k);
      i := j + 1;
    }
  }

  /** A property with a criterion is one of `QueryKeyed`. */
  lemma {:induction false} QueryKeyedHas(query: map<string, string>, props: seq<string>, k: string) returns (j: nat)
    requires k in props && QueryCriterion(query, k).Some?
    ensures j < |QueryKeyed(query, props)| && QueryKeyed(query, props)[j] == k
    decreases |props|
  {
    var n := |props| - 1;
    if props[n] == k {
      j := |QueryKeyed(query, props[..n])|;
    } else {
      assert k in props[..n] by {
        var i :| 0 <= i < |props| && props[i] == k;
        assert props[..n][i] == k;
      }
      j := QueryKeyedHas(query, props[..n], k);
    }
  }

  /**
   * A `findArray` key with a scalar value that is also a property with a
   * truthy query value constrains the count query twice, `x.k = :k` and
   * `x.k IN(:k)`, while a single parameter `k` holds the list, which is
   * also what `findBy` receives.
   */
  lemma ListCountDoubleConstraint(objectClass: string, findArray: Assoc<Value>, query: map<string, string>,
                                  props: seq<string>, k: string)
    requires UniqueKeys(findArray)
    requires Lookup(findArray, k).Some? && !IsArray(Lookup(findArray, k).value)
    requires k in props && QueryCriterion(query, k).Some?
    ensures var q := ApplyOps(EmptyQuery, CountSelectOps(objectClass, "x") + FindArrayOps(findArray) + QueryOps(query, props));
      EqParam("x." + k, k) in q.wheres && InParam("x." + k, k) in q.wheres &&
      k in q.params && q.params[k] == QueryCriterion(query, k).value &&
      Lookup(ListFind(findArray, query, props), k) == QueryCriterion(query, k)
  {
    ListCountFindClause(objectClass, findArray, query, props, k);
    ListCountQueryClause(objectClass, findArray, query, props, k);
    ListCountParamsMatchFind(objectClass, findArray, query, props, k);
    ListFindLookup(findArray, query, props, k);
  }

  /** A `findArray` entry's clause is among the count query's conditions. */
  lemma ListCountFindClause(objectClass: string, findArray: Assoc<Value>, query: map<string, string>,
                            props: seq<string>, k: string)
    requires Lookup(findArray, k).Some?
    ensures FindClause(k, Lookup(findArray, k).value) in
      ApplyOps(EmptyQuery, CountSelectOps(objectClass, "x") + FindArrayOps(findArray) + QueryOps(query, props)).wheres
  {
    var fc := FindClauses(findArray);
    ListCountWheres(objectClass, findArray, query, props);
    var i := LookupIndex(findArray, k);
    assert fc[i] == FindClause(k, Lookup(findArray, k).value);
    assert (fc + QueryClauses(query, props))[i] == fc[i];
  }

  /** A property with a criterion has its `IN` clause among the count query's conditions. */
  lemma ListCountQueryClause(objectClass: string, findArray: Assoc<Value>, query: map<string, string>,
                             props: seq<string>, k: string)
    requires k in props && QueryCriterion(query, k).Some?
    ensures InParam("x." + k, k) in
      ApplyOps(EmptyQuery, CountSelectOps(objectClass, "x") + FindArrayOps(findArray) + QueryOps(query, props)).wheres
  {
    var fc := FindClauses(findArray);
    var qc := QueryClauses(query, props);
    ListCountWheres(objectClass, findArray, query, props);
    var j := QueryKeyedHas(query, props, k);
    QueryClausesOfKeyed(query, props);
    assert qc[j] == InParam("x." + k, k);
    assert (fc + qc)[|fc| + j] == qc[j];
  }
}
