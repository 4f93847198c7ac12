/**
 * Component/QueryBuilders.php: a data query and a count query built side by
 * side. Both receive the same search conditions; only the data query is
 * paginated, so the count is the total number of matching rows.
 */
module QueryBuilders {
  import opened Common
  import opened Reflection
  import opened QueryModel
  import opened Helpers

  /** `setFirstResult((int)$start)` when `start` is numeric. */
  function StartOps(search: map<string, Value>): seq<Op>
  {
    var start := GetKeyIfExists(search, "start", VNull);
    if IsNumeric(start) then [SetFirstResult(IntCast(start))] else []
  }

  /** `setMaxResults((int)$limit)` when `limit` is numeric. */
  function LimitOps(search: map<string, Value>): seq<Op>
  {
    var limit := GetKeyIfExists(search, "limit", VNull);
    if IsNumeric(limit) then [SetMaxResults(IntCast(limit))] else []
  }

  /**
   * Pagination from `start`/`limit`: a numeric value sets first/max result to
   * its integer value, a missing or non-numeric one leaves it as it was;
   * nothing else changes.
   */
  lemma {:induction false} PaginationFromSearch(s: QueryState, search: map<string, Value>)
    ensures var r := ApplyOps(s, StartOps(search) + LimitOps(search));
      var start := GetKeyIfExists(search, "start", VNull);
      var limit := GetKeyIfExists(search, "limit", VNull);
      SameConditions(r, s) && r.select == s.select &&
      r.first == (if IsNumeric(start) then Some(IntCast(start)) else s.first) &&
      r.max == (if IsNumeric(limit) then Some(IntCast(limit)) else s.max)
  {
    var st := StartOps(search);
    var li := LimitOps(search);
    ApplyOpsAppend(s, st, li);
    PaginationKeepsConditions(s, st + li);
  }

  /**
   * The configuration handed to the helper: `objectClass` and `alias` from
   * `config` override the stored ones (a stored value that was never set is
   * null, which the helper treats like a missing key).
   */
  function MergedConfig(objectClass: Option<string>, alias: Option<string>, config: map<string, string>): (r: map<string, string>)
    ensures "objectClass" in config ==> "objectClass" in r && r["objectClass"] == config["objectClass"]
    ensures "objectClass" !in config ==>
      ("objectClass" in r <==> objectClass.Some?) &&
      (objectClass.Some? ==> r["objectClass"] == objectClass.value)
    ensures "alias" in config ==> GetKeyIfExists(r, "alias", "") == config["alias"]
    ensures "alias" !in config && alias.Some? ==> GetKeyIfExists(r, "alias", "") == alias.value
    ensures "alias" !in config && alias.None? ==> GetKeyIfExists(r, "alias", "") == ""
  {
    var defaults := map[];
    var defaults := if objectClass.Some? then defaults["objectClass" := objectClass.value] else defaults;
    var defaults := if alias.Some? then defaults["alias" := alias.value] else defaults;
    defaults + config
  }

  /**
   * The same search on both queries, followed by pagination of the data
   * query only, keeps them selecting the same rows and keeps the count
   * query unpaginated.
   */
  lemma AppendSearchKeepsPairing(d0: QueryState, c0: QueryState, alias: string, props: seq<string>, search: map<string, Value>)
    ensures SameConditions(d0, c0) ==>
      SameConditions(ApplyOps(AppendSearchState(d0, alias, props, search), StartOps(search) + LimitOps(search)),
                     AppendSearchState(c0, alias, props, search))
    ensures Unpaginated(c0) ==> Unpaginated(AppendSearchState(c0, alias, props, search))
  {
    AppendSearchShape(d0, alias, props, search);
    AppendSearchShape(c0, alias, props, search);
    PaginationFromSearch(AppendSearchState(d0, alias, props, search), search);
  }

  class QueryBuilders {
    const dataQuery: QueryBuilder
    const countQuery: QueryBuilder
    var objectClass: Option<string>
    var alias: Option<string>

    ghost predicate Valid()
      reads this
    {
      dataQuery != countQuery
    }

    /** Both queries select their rows by the same conditions. */
    predicate Paired()
      reads this, dataQuery, countQuery
    {
      SameConditions(dataQuery.State(), countQuery.State())
    }

    /** The count query carries no pagination. */
    predicate CountUnpaginated()
      reads this, countQuery
    {
      Unpaginated(countQuery.State())
    }

    /** The two `createQueryBuilder()` calls of the constructor. */
    constructor Init()
      ensures Valid() && fresh(dataQuery) && fresh(countQuery)
      ensures dataQuery.State() == EmptyQuery && countQuery.State() == EmptyQuery
      ensures objectClass == None && alias == None
    {
      dataQuery := new QueryBuilder();
      countQuery := new QueryBuilder();
      objectClass, alias := None, None;
    }

    /**
     * The constructor: with a class name it sets the class (alias "x") and
     * appends the search; without one both queries stay empty. Null stands
     * for the exception thrown when the class is unknown.
     */
    static method Create(objectClass: Option<string>, search: map<string, Value>, schema: Schema)
      returns (qbs: QueryBuilders?)
      ensures qbs == null <==> objectClass.Some? && objectClass.value !in schema
      ensures qbs != null ==>
        fresh(qbs) && fresh(qbs.dataQuery) && fresh(qbs.countQuery) &&
        qbs.Valid() && qbs.Paired() && qbs.CountUnpaginated()
      ensures qbs != null && objectClass.None? ==>
        qbs.objectClass == None && qbs.alias == None &&
        qbs.dataQuery.State() == EmptyQuery && qbs.countQuery.State() == EmptyQuery
      ensures qbs != null && objectClass.Some? ==>
        var oc := objectClass.value;
        var props := schema[oc].properties;
        qbs.objectClass == objectClass && qbs.alias == Some("x") &&
        qbs.countQuery.State() ==
          AppendSearchState(ApplyOps(EmptyQuery, CountSelectOps(oc, "x")), "x", props, search) &&
        qbs.dataQuery.State() ==
          ApplyOps(AppendSearchState(ApplyOps(EmptyQuery, DataSelectOps(oc, "x")), "x", props, search),
                   StartOps(search) + LimitOps(search))
    {
      var r := new QueryBuilders.Init();
      if objectClass.Some? {
        r.SetObjectClass(objectClass.value, "x");
        var ok := r.AppendSearch(search, map[], schema);
        if !ok {
          return null;
        }
      }
      return r;
    }

    /** `setObjectClass`: the data query selects `alias`, the count query `count(alias) as num`, both from the class. */
    method SetObjectClass(oc: string, a: string)
      requires Valid()
      modifies this, dataQuery, countQuery
      ensures Valid()
      ensures objectClass == Some(oc) && alias == Some(a)
      ensures dataQuery.State() == ApplyOps(old(dataQuery.State()), DataSelectOps(oc, a))
      ensures countQuery.State() == ApplyOps(old(countQuery.State()), CountSelectOps(oc, a))
      ensures dataQuery.select == [a] && countQuery.select == ["count(" + a + ") as num"]
      ensures dataQuery.from == old(dataQuery.from) + [FromPart(oc, a)]
      ensures countQuery.from == old(countQuery.from) + [FromPart(oc, a)]
      ensures old(Paired()) ==> Paired()
      ensures old(CountUnpaginated()) ==> CountUnpaginated()
    {
      objectClass := Some(oc);
      alias := Some(a);
      dataQuery.Apply(Select(a));
      dataQuery.Apply(From(oc, a));
      countQuery.Apply(Select("count(" + a + ") as num"));
      countQuery.Apply(From(oc, a));
      ApplyOpsTwo(old(dataQuery.State()), Select(a), From(oc, a));
      ApplyOpsTwo(old(countQuery.State()), Select("count(" + a + ") as num"), From(oc, a));
    }

    /**
     * `appendSearch`: the same search on both queries, then `start`/`limit`
     * on the data query only. Returns false for the exception an unknown
     * class raises, before either query changes.
     */
    method AppendSearch(search: map<string, Value>, config: map<string, string>, schema: Schema)
      returns (ok: bool)
      requires Valid()
      modifies dataQuery, countQuery
      ensures Valid()
      ensures var merged := MergedConfig(objectClass, alias, config);
        ok <==> "objectClass" in merged && merged["objectClass"] in schema
      ensures !ok ==> dataQuery.State() == old(dataQuery.State()) && countQuery.State() == old(countQuery.State())
      ensures ok ==>
        var merged := MergedConfig(objectClass, alias, config);
        var a := GetKeyIfExists(merged, "alias", "");
        var props := schema[merged["objectClass"]].properties;
        countQuery.State() == AppendSearchState(old(countQuery.State()), a, props, search) &&
        dataQuery.State() == ApplyOps(AppendSearchState(old(dataQuery.State()), a, props, search),
                                      StartOps(search) + LimitOps(search))
      ensures old(Paired()) ==> Paired()
      ensures old(CountUnpaginated()) ==> CountUnpaginated()
    {
      var merged := MergedConfig(objectClass, alias, config);
      ok := AppendSearchToQueryBuilder(dataQuery, search, merged, schema);
      if !ok {
        return;
      }
      var okCount := AppendSearchToQueryBuilder(countQuery, search, merged, schema);
      ghost var searched := dataQuery.State();
      var start := GetKeyIfExists(search, "start", VNull);
      if IsNumeric(start) {
        dataQuery.Apply(SetFirstResult(IntCast(start)));
      }
      var limit := GetKeyIfExists(search, "limit", VNull);
      if IsNumeric(limit) {
        dataQuery.Apply(SetMaxResults(IntCast(limit)));
      }
      assert dataQuery.State() == ApplyOps(searched, StartOps(search) + LimitOps(search)) by {
        ApplyOpsAppend(searched, StartOps(search), LimitOps(search));
      }
      AppendSearchKeepsPairing(old(dataQuery.State()), old(countQuery.State()), GetKeyIfExists(merged, "alias", ""),
                               schema[merged["objectClass"]].properties, search);
    }

    /** `modify`: the same builder call on both queries. */
    method Modify(op: Op)
      requires Valid()
      modifies dataQuery, countQuery
      ensures Valid()
      ensures dataQuery.State() == ApplyOp(old(dataQuery.State()), op)
      ensures countQuery.State() == ApplyOp(old(countQuery.State()), op)
      ensures old(Paired()) ==> Paired()
      ensures old(CountUnpaginated()) && !IsPagination(op) ==> CountUnpaginated()
    {
      dataQuery.Apply(op);
      countQuery.Apply(op);
    }
  }

  /** The data query's `select(alias)` and `from(class, alias)`. */
  function DataSelectOps(oc: string, alias: string): seq<Op>
  {
    [Select(alias), From(oc, alias)]
  }

  /**
   * The count query's `select("count(alias) as num")` and `from(class, alias)`;
   * with the default alias "x" the select is `count(x) as num`.
   */
  function CountSelectOps(oc: string, alias: string): seq<Op>
  {
    [Select("count(" + alias + ") as num"), From(oc, alias)]
  }

  /** The count select with the default alias spelled out. */
  lemma CountSelectDefaultAlias(oc: string)
    ensures CountSelectOps(oc, "x") == [Select("count(x) as num"), From(oc, "x")]
  {
    var a := "count(" + "x" + ") as num";
    assert a == "count(x) as num";
    assert CountSelectOps(oc, "x")[0] == Select(a);
  }

  /**
   * The count query does not depend on `start` or `limit` (unless the entity
   * has a property of that name): changing them leaves it as it was.
   */
  lemma CountIgnoresPagination(s: QueryState, alias: string, props: seq<string>, search: map<string, Value>, start: Value, limit: Value)
    requires "start" !in props && "limit" !in props
    ensures AppendSearchState(s, alias, props, search["start" := start]["limit" := limit]) ==
            AppendSearchState(s, alias, props, search)
  {
    SearchOpsIgnoreKey(alias, props, search["start" := start], "limit", limit);
    SearchOpsIgnoreKey(alias, props, search, "start", start);
  }
}
