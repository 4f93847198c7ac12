/**
 * Component/Helpers.php: translation of a flat search array into where
 * clauses, bound parameters and one ordering on a query builder.
 *
 * For every property of the entity class, in declaration order: when the
 * property is a key of the search, its value is split on "|" (a single
 * piece collapses back to a string) and one clause is appended, IS NULL for
 * null, IN for an array, = otherwise; the parameter `alias___prop` is bound
 * unless the value is null. A property equal to `orderby` (or, failing that,
 * to `orderbydesc`) replaces the ordering.
 */
module Helpers {
  import opened Common
  import opened Reflection
  import opened QueryModel

  function FieldName(alias: string, prop: string): string
  {
    alias + "." + prop
  }

  function ParameterName(alias: string, prop: string): string
  {
    alias + "___" + prop
  }

  /** Distinct properties never share a parameter name. */
  lemma ParameterNameInjective(alias: string, p: string, q: string)
    requires ParameterName(alias, p) == ParameterName(alias, q)
    ensures p == q
  {
    var n := |alias| + 3;
    assert ParameterName(alias, p)[n..] == p;
    assert ParameterName(alias, q)[n..] == q;
  }

  /** The pieces of an exploded string as PHP string values. */
  function Strings(pieces: seq<string>): (r: seq<Value>)
    ensures |r| == |pieces|
    ensures forall i :: 0 <= i < |r| ==> r[i] == VStr(pieces[i])
  {
    seq(|pieces|, i requires 0 <= i < |pieces| => VStr(pieces[i]))
  }

  /**
   * The `is_string`/`explode`/`count == 1` step: a string with a "|" becomes
   * the list of its pieces, any other value (a string without "|" included)
   * stays as it is.
   */
  function Normalize(v: Value): (r: Value)
    ensures !v.VStr? ==> r == v
    ensures v.VStr? && Pipe !in v.s ==> r == v
    ensures v.VStr? && Pipe in v.s ==>
      |Explode(v.s)| >= 2 && r == VList(Strings(Explode(v.s)))
  {
    if v.VStr? then
      var pieces := Explode(v.s);
      ExplodeSingle(v.s);
      if |pieces| == 1 then VStr(pieces[0]) else VList(Strings(pieces))
    else v
  }

  /**
   * The clause for a property whose (normalised) search value is `v`, as the
   * DQL text handed to `andWhere`: `IS NULL` for null, `IN(:param)` for an
   * array, `= :param` for any other value.
   */
  function ClauseFor(alias: string, prop: string, v: Value): (r: Clause)
    ensures v.VNull? ==> Dql(r) == alias + "." + prop + " IS NULL"
    ensures IsArray(v) ==> Dql(r) == alias + "." + prop + " IN(:" + alias + "___" + prop + ")"
    ensures !v.VNull? && !IsArray(v) ==> Dql(r) == alias + "." + prop + "  = :" + alias + "___" + prop + " "
  {
    if v.VNull? then IsNull(FieldName(alias, prop))
    else if IsArray(v) then InParam(FieldName(alias, prop), ParameterName(alias, prop))
    else EqParam(FieldName(alias, prop), ParameterName(alias, prop))
  }

  function OrderByValue(search: map<string, Value>): Value
  {
    GetKeyIfExists(search, "orderby", VNull)
  }

  function OrderByDescValue(search: map<string, Value>): Value
  {
    GetKeyIfExists(search, "orderbydesc", VNull)
  }

  /**
   * Whether the property sets the ordering, and in which direction. For a
   * property name (never "" or "0") `orderby` wins when it is that name (or
   * true); otherwise `orderbydesc` decides the same way.
   */
  function OrderFor(search: map<string, Value>, prop: string): (r: Option<Dir>)
    ensures prop != "" && prop != "0" ==>
      var names := {VStr(prop), VBool(true)};
      (r == Some(Asc) <==> "orderby" in search && search["orderby"] in names) &&
      (r == Some(Desc) <==> !("orderby" in search && search["orderby"] in names) &&
                            "orderbydesc" in search && search["orderbydesc"] in names)
  {
    if LooseEqualsName(OrderByValue(search), prop) then Some(Asc)
    else if LooseEqualsName(OrderByDescValue(search), prop) then Some(Desc)
    else None
  }

  /** The `andWhere`/`setParameter` calls for one property. */
  function FilterOps(alias: string, prop: string, search: map<string, Value>): seq<Op>
  {
    if prop !in search then []
    else
      var v := Normalize(search[prop]);
      [AndWhere(ClauseFor(alias, prop, v))] +
      (if v.VNull? then [] else [SetParameter(ParameterName(alias, prop), v)])
  }

  /** The `orderBy` call for one property, if any. */
  function OrderOps(alias: string, prop: string, search: map<string, Value>): seq<Op>
  {
    match OrderFor(search, prop)
    case None => []
    case Some(d) => [OrderBy(FieldName(alias, prop), d)]
  }

  /** All builder calls of the loop, property by property. */
  function SearchOps(alias: string, props: seq<string>, search: map<string, Value>): seq<Op>
    decreases |props|
  {
    if props == [] then []
    else
      var n := |props| - 1;
      SearchOps(alias, props[..n], search) + FilterOps(alias, props[n], search) + OrderOps(alias, props[n], search)
  }

  /** The builder state after `appendSearchToQueryBuilder` with the given alias and properties. */
  function AppendSearchState(s: QueryState, alias: string, props: seq<string>, search: map<string, Value>): QueryState
  {
    ApplyOps(s, SearchOps(alias, props, search))
  }

  // ---------------------------------------------------------------------
  // The three parts of the result, each as a function of its own

  /** The properties that are keys of the search, in property order. */
  function Keyed(props: seq<string>, search: map<string, Value>): (r: seq<string>)
    ensures forall j :: 0 <= j < |r| ==> r[j] in search
    decreases |props|
  {
    if props == [] then []
    else
      var n := |props| - 1;
      Keyed(props[..n], search) + (if props[n] in search then [props[n]] else [])
  }

  /** The clauses appended, one per keyed property. */
  function SearchClauses(alias: string, props: seq<string>, search: map<string, Value>): seq<Clause>
    decreases |props|
  {
    if props == [] then []
    else
      var n := |props| - 1;
      var p := props[n];
      SearchClauses(alias, props[..n], search) +
      (if p in search then [ClauseFor(alias, p, Normalize(search[p]))] else [])
  }

  /** The parameter map after the loop. */
  function SearchParams(params: map<string, Value>, alias: string, props: seq<string>, search: map<string, Value>): map<string, Value>
    decreases |props|
  {
    if props == [] then params
    else
      var n := |props| - 1;
      var p := props[n];
      var m := SearchParams(params, alias, props[..n], search);
      if p in search && !Normalize(search[p]).VNull? then m[ParameterName(alias, p) := Normalize(search[p])]
      else m
  }

  /** The ordering after the loop. */
  function SearchOrder(order: Option<(string, Dir)>, alias: string, props: seq<string>, search: map<string, Value>): Option<(string, Dir)>
    decreases |props|
  {
    if props == [] then order
    else
      var n := |props| - 1;
      var p := props[n];
      match OrderFor(search, p)
      case Some(d) => Some((FieldName(alias, p), d))
      case None => SearchOrder(order, alias, props[..n], search)
  }

  lemma ApplyOpsTwo(s: QueryState, a: Op, b: Op)
    ensures ApplyOps(s, [a, b]) == ApplyOp(ApplyOp(s, a), b)
  {
    assert [a, b][1..] == [b];
    assert ApplyOps(ApplyOp(s, a), [b]) == ApplyOps(ApplyOp(ApplyOp(s, a), b), []);
  }

  /**
   * The translation appends exactly the search clauses, binds exactly the
   * search parameters, sets the search ordering, and leaves the select and
   * from parts, the joins and the pagination untouched.
   */
  lemma {:induction false} AppendSearchShape(s: QueryState, alias: string, props: seq<string>, search: map<string, Value>)
    ensures AppendSearchState(s, alias, props, search) == SearchShape(s, alias, props, search)
    decreases |props|
  {
    if props == [] {
      assert s.wheres + [] == s.wheres;
    } else {
      var n := |props| - 1;
      var pre := SearchOps(alias, props[..n], search);
      var fo := FilterOps(alias, props[n], search) + OrderOps(alias, props[n], search);
      assert AppendSearchState(s, alias, props, search) == ApplyOps(ApplyOps(s, pre), fo) by {
        assert SearchOps(alias, props, search) == pre + fo;
        ApplyOpsAppend(s, pre, fo);
      }
      AppendSearchShape(s, alias, props[..n], search);
      SearchShapeStep(s, alias, props, search);
    }
  }

  /** The state the translation leads to: the search clauses, parameters and ordering over the old state. */
  function SearchShape(s: QueryState, alias: string, props: seq<string>, search: map<string, Value>): QueryState
  {
    s.(wheres := s.wheres + SearchClauses(alias, props, search),
       params := SearchParams(s.params, alias, props, search),
       order := SearchOrder(s.order, alias, props, search))
  }

  /** The last property's calls take the shape for the earlier properties to the shape for all of them. */
  lemma SearchShapeStep(s: QueryState, alias: string, props: seq<string>, search: map<string, Value>)
    requires props != []
    ensures ApplyOps(SearchShape(s, alias, props[..|props| - 1], search),
                     FilterOps(alias, props[|props| - 1], search) + OrderOps(alias, props[|props| - 1], search))
            == SearchShape(s, alias, props, search)
  {
    var n := |props| - 1;
    var p := props[n];
    var earlier := SearchClauses(alias, props[..n], search);
    var added := if p in search then [ClauseFor(alias, p, Normalize(search[p]))] else [];
    PropertyCallsEffect(SearchShape(s, alias, props[..n], search), alias, p, search);
    assert SearchClauses(alias, props, search) == earlier + added;
    assert (s.wheres + earlier) + added == s.wheres + (earlier + added);
  }

  /** The calls for one property append its clause, bind its parameter and possibly set the ordering. */
  lemma PropertyCallsEffect(s: QueryState, alias: string, p: string, search: map<string, Value>)
    ensures ApplyOps(s, FilterOps(alias, p, search) + OrderOps(alias, p, search)) ==
      s.(wheres := s.wheres + (if p in search then [ClauseFor(alias, p, Normalize(search[p]))] else []),
         params := if p in search && !Normalize(search[p]).VNull?
                   then s.params[ParameterName(alias, p) := Normalize(search[p])] else s.params,
         order := match OrderFor(search, p)
                  case Some(d) => Some((FieldName(alias, p), d))
                  case None => s.order)
  {
    var f := FilterOps(alias, p, search);
    var o := OrderOps(alias, p, search);
    ApplyOpsAppend(s, f, o);
    if p in search {
      var v := Normalize(search[p]);
      if v.VNull? {
        assert f == [AndWhere(ClauseFor(alias, p, v))];
      } else {
        assert f == [AndWhere(ClauseFor(alias, p, v)), SetParameter(ParameterName(alias, p), v)];
        ApplyOpsTwo(s, f[0], f[1]);
      }
    } else {
      assert s.wheres + [] == s.wheres;
    }
  }

  /** The clauses are those of the keyed properties, in property order. */
  lemma {:induction false} SearchClausesOfKeyed(alias: string, props: seq<string>, search: map<string, Value>)
    ensures |SearchClauses(alias, props, search)| == |Keyed(props, search)|
    ensures forall j :: 0 <= j < |Keyed(props, search)| ==>
      SearchClauses(alias, props, search)[j] ==
        ClauseFor(alias, Keyed(props, search)[j], Normalize(search[Keyed(props, search)[j]]))
    decreases |props|
  {
    if props != [] {
      var n := |props| - 1;
      SearchClausesOfKeyed(alias, props[..n], search);
    }
  }

  /** A property is keyed once per occurrence in `props` when it is a key of the search, and never otherwise. */
  lemma {:induction false} KeyedAreKeys(props: seq<string>, search: map<string, Value>)
    ensures forall p :: multiset(Keyed(props, search))[p] == if p in search then multiset(props)[p] else 0
    decreases |props|
  {
    if props != [] {
      var n := |props| - 1;
      KeyedAreKeys(props[..n], search);
      assert props == props[..n] + [props[n]];
    }
  }

  /** Keys that are not properties (`orderby`, `start`, `limit`, unknown keys) add no clause. */
  lemma {:induction false} NonPropertyKeyAddsNoClause(alias: string, props: seq<string>, search: map<string, Value>, k: string, v: Value)
    requires k !in props
    ensures SearchClauses(alias, props, search[k := v]) == SearchClauses(alias, props, search)
    ensures SearchParams(map[], alias, props, search[k := v]) == SearchParams(map[], alias, props, search)
    decreases |props|
  {
    if props != [] {
      var n := |props| - 1;
      var p := props[n];
      assert p in props;
      assert k !in props[..n] by {
        assert forall q :: q in props[..n] ==> q in props;
      }
      NonPropertyKeyAddsNoClause(alias, props[..n], search, k, v);
      assert (p in search[k := v]) == (p in search);
      if p in search {
        assert search[k := v][p] == search[p];
      }
    }
  }

  /**
   * A key that is neither a property nor `orderby`/`orderbydesc` (such as
   * `start` or `limit`) changes none of the builder calls.
   */
  lemma {:induction false} SearchOpsIgnoreKey(alias: string, props: seq<string>, search: map<string, Value>, k: string, v: Value)
    requires k !in props && k != "orderby" && k != "orderbydesc"
    ensures SearchOps(alias, props, search[k := v]) == SearchOps(alias, props, search)
    decreases |props|
  {
    if props != [] {
      var n := |props| - 1;
      assert props == props[..n] + [props[n]];
      SearchOpsIgnoreKey(alias, props[..n], search, k, v);
      PropertyOpsIgnoreKey(alias, props[n], search, k, v);
    }
  }

  /** The calls for one property do not depend on a key that is neither that property nor an ordering key. */
  lemma PropertyOpsIgnoreKey(alias: string, p: string, search: map<string, Value>, k: string, v: Value)
    requires k != p && k != "orderby" && k != "orderbydesc"
    ensures FilterOps(alias, p, search[k := v]) == FilterOps(alias, p, search)
    ensures OrderOps(alias, p, search[k := v]) == OrderOps(alias, p, search)
  {
    assert OrderByValue(search[k := v]) == OrderByValue(search);
    assert OrderByDescValue(search[k := v]) == OrderByDescValue(search);
  }

  /**
   * The parameter of a property of the class: bound to the normalised value
   * when that value is not null, otherwise exactly as before.
   */
  lemma {:induction false} SearchParamOf(params: map<string, Value>, alias: string, props: seq<string>, search: map<string, Value>, p: string)
    requires p in props
    ensures var r := SearchParams(params, alias, props, search);
      var name := ParameterName(alias, p);
      if p in search && !Normalize(search[p]).VNull? then
        name in r && r[name] == Normalize(search[p])
      else
        (name in r <==> name in params) && (name in params ==> r[name] == params[name])
    decreases |props|
  {
    var n := |props| - 1;
    var q := props[n];
    if q != p {
      assert p in props[..n] by {
        var i :| 0 <= i < |props| && props[i] == p;
        assert i < n;
        assert props[..n][i] == p;
      }
      SearchParamOf(params, alias, props[..n], search, p);
      if ParameterName(alias, q) == ParameterName(alias, p) {
        ParameterNameInjective(alias, q, p);
      }
    } else if !(p in search && !Normalize(search[p]).VNull?) && p in props[..n] {
      SearchParamOf(params, alias, props[..n], search, p);
    } else if !(p in search && !Normalize(search[p]).VNull?) {
      forall q | q in props[..n] ensures ParameterName(alias, p) != ParameterName(alias, q) {
        if ParameterName(alias, p) == ParameterName(alias, q) {
          ParameterNameInjective(alias, p, q);
        }
      }
      SearchParamsOutside(params, alias, props[..n], search, ParameterName(alias, p));
    }
  }

  /** A parameter name that belongs to no property of the class is left as it was. */
  lemma {:induction false} SearchParamsOutside(params: map<string, Value>, alias: string, props: seq<string>, search: map<string, Value>, name: string)
    requires forall p :: p in props ==> name != ParameterName(alias, p)
    ensures var r := SearchParams(params, alias, props, search);
      (name in r <==> name in params) && (name in params ==> r[name] == params[name])
    decreases |props|
  {
    if props != [] {
      var n := |props| - 1;
      assert props[n] in props;
      assert forall q :: q in props[..n] ==> q in props;
      SearchParamsOutside(params, alias, props[..n], search, name);
    }
  }

  /** With no property matching `orderby` or `orderbydesc` the ordering is unchanged. */
  lemma {:induction false} SearchOrderNoMatch(order: Option<(string, Dir)>, alias: string, props: seq<string>, search: map<string, Value>)
    requires forall i :: 0 <= i < |props| ==> OrderFor(search, props[i]).None?
    ensures SearchOrder(order, alias, props, search) == order
    decreases |props|
  {
    if props != [] {
      var n := |props| - 1;
      assert forall i :: 0 <= i < n ==> props[..n][i] == props[i];
      SearchOrderNoMatch(order, alias, props[..n], search);
    }
  }

  /**
   * The final ordering belongs to the last property that matches `orderby`
   * (ASC) or `orderbydesc` (DESC).
   */
  lemma {:induction false} SearchOrderLastMatch(order: Option<(string, Dir)>, alias: string, props: seq<string>, search: map<string, Value>, i: nat)
    requires i < |props| && OrderFor(search, props[i]).Some?
    requires forall j :: i < j < |props| ==> OrderFor(search, props[j]).None?
    ensures SearchOrder(order, alias, props, search) == Some((FieldName(alias, props[i]), OrderFor(search, props[i]).value))
    decreases |props|
  {
    var n := |props| - 1;
    if i < n {
      assert OrderFor(search, props[n]).None?;
      assert forall j :: i < j < n ==> props[..n][j] == props[j];
      SearchOrderLastMatch(order, alias, props[..n], search, i);
    }
  }

  /** `orderby` wins when one property matches both `orderby` and `orderbydesc`. */
  lemma OrderByWinsOverDesc(search: map<string, Value>, prop: string)
    requires LooseEqualsName(OrderByValue(search), prop)
    requires LooseEqualsName(OrderByDescValue(search), prop)
    ensures OrderFor(search, prop) == Some(Asc)
  {
  }

  /**
   * A property searched with a string holding "|" gets an IN clause whose
   * parameter is bound to the list of pieces, which join back to the string.
   */
  lemma PipeValueGivesIn(params: map<string, Value>, alias: string, props: seq<string>, search: map<string, Value>, p: string)
    requires p in props && p in search && search[p].VStr? && Pipe in search[p].s
    ensures var pieces := Explode(search[p].s);
      |pieces| >= 2 && Implode(pieces) == search[p].s &&
      ClauseFor(alias, p, Normalize(search[p])) == InParam(FieldName(alias, p), ParameterName(alias, p)) &&
      ParameterName(alias, p) in SearchParams(params, alias, props, search) &&
      SearchParams(params, alias, props, search)[ParameterName(alias, p)] == VList(Strings(pieces))
  {
    ImplodeExplode(search[p].s);
    SearchParamOf(params, alias, props, search, p);
  }

  /** A string without "|" (the empty string included) gives an = clause bound to the string itself. */
  lemma PlainValueGivesEq(params: map<string, Value>, alias: string, props: seq<string>, search: map<string, Value>, p: string)
    requires p in props && p in search && search[p].VStr? && Pipe !in search[p].s
    ensures ClauseFor(alias, p, Normalize(search[p])) == EqParam(FieldName(alias, p), ParameterName(alias, p))
    ensures ParameterName(alias, p) in SearchParams(params, alias, props, search) &&
            SearchParams(params, alias, props, search)[ParameterName(alias, p)] == search[p]
  {
    SearchParamOf(params, alias, props, search, p);
  }

  /** A null value gives IS NULL and binds no parameter. */
  lemma NullValueGivesIsNull(params: map<string, Value>, alias: string, props: seq<string>, search: map<string, Value>, p: string)
    requires p in props && p in search && search[p] == VNull
    requires ParameterName(alias, p) !in params
    ensures ClauseFor(alias, p, Normalize(search[p])) == IsNull(FieldName(alias, p))
    ensures ParameterName(alias, p) !in SearchParams(params, alias, props, search)
  {
    SearchParamOf(params, alias, props, search, p);
  }

  /** `Helpers::appendSearchToQueryBuilder`. An unknown class throws before the builder is touched. */
  method AppendSearchToQueryBuilder(qb: QueryBuilder, search: map<string, Value>, config: map<string, string>, schema: Schema)
    returns (ok: bool)
    modifies qb
    ensures ok <==> "objectClass" in config && config["objectClass"] in schema
    ensures !ok ==> qb.State() == old(qb.State())
    ensures ok ==> qb.State() == AppendSearchState(old(qb.State()), GetKeyIfExists(config, "alias", ""),
                                                   schema[config["objectClass"]].properties, search)
  {
    var alias := GetKeyIfExists(config, "alias", "");
    var orderby := GetKeyIfExists(search, "orderby", VNull);
    var orderbydesc := GetKeyIfExists(search, "orderbydesc", VNull);
    if "objectClass" !in config || config["objectClass"] !in schema {
      return false;
    }
    var properties := schema[config["objectClass"]].properties;
    ghost var s0 := qb.State();
    var i := 0;
    while i < |properties|
      invariant 0 <= i <= |properties|
      invariant qb.State() == ApplyOps(s0, SearchOps(alias, properties[..i], search))
    {
      var prop := properties[i];
      AppendFilter(qb, alias, prop, search);
      AppendOrder(qb, alias, prop, search, orderby, orderbydesc);
      SearchOpsStep(s0, alias, properties, search, i);
      i := i + 1;
    }
    assert properties[..i] == properties;
    ok := true;
  }

  /** One more iteration of the loop applies the next property's filter calls and then its ordering call. */
  lemma SearchOpsStep(s0: QueryState, alias: string, props: seq<string>, search: map<string, Value>, i: nat)
    requires i < |props|
    ensures ApplyOps(s0, SearchOps(alias, props[..i + 1], search)) ==
            ApplyOps(ApplyOps(ApplyOps(s0, SearchOps(alias, props[..i], search)), FilterOps(alias, props[i], search)),
                     OrderOps(alias, props[i], search))
  {
    var pre := SearchOps(alias, props[..i], search);
    var f := FilterOps(alias, props[i], search);
    var o := OrderOps(alias, props[i], search);
    assert props[..i + 1][..i] == props[..i];
    assert SearchOps(alias, props[..i + 1], search) == pre + f + o;
    ApplyOpsAppend(s0, pre + f, o);
    ApplyOpsAppend(s0, pre, f);
  }

  /** The filter part of one iteration: a clause for a property present in the search, and its parameter unless the value is null. */
  method AppendFilter(qb: QueryBuilder, alias: string, prop: string, search: map<string, Value>)
    modifies qb
    ensures qb.State() == ApplyOps(old(qb.State()), FilterOps(alias, prop, search))
  {
    if prop in search {
      var fullName := FieldName(alias, prop);
      var paramName := ParameterName(alias, prop);
      var value := Normalize(search[prop]);
      var clause;
      if value.VNull? {
        clause := IsNull(fullName);
      } else if IsArray(value) {
        clause := InParam(fullName, paramName);
      } else {
        clause := EqParam(fullName, paramName);
      }
      ghost var s0 := qb.State();
      qb.Apply(AndWhere(clause));
      if !value.VNull? {
        qb.Apply(SetParameter(paramName, value));
        ApplyOpsTwo(s0, AndWhere(clause), SetParameter(paramName, value));
      } else {
        assert FilterOps(alias, prop, search) == [AndWhere(clause)];
      }
    }
  }

  /** The ordering part of one iteration: "orderby" naming the property wins over "orderbydesc". */
  method AppendOrder(qb: QueryBuilder, alias: string, prop: string, search: map<string, Value>, orderby: Value, orderbydesc: Value)
    requires orderby == GetKeyIfExists(search, "orderby", VNull)
    requires orderbydesc == GetKeyIfExists(search, "orderbydesc", VNull)
    modifies qb
    ensures qb.State() == ApplyOps(old(qb.State()), OrderOps(alias, prop, search))
  {
    if LooseEqualsName(orderby, prop) {
      qb.Apply(OrderBy(FieldName(alias, prop), Asc));
    } else if LooseEqualsName(orderbydesc, prop) {
      qb.Apply(OrderBy(FieldName(alias, prop), Desc));
    }
  }
}
