/**
 * The part of Doctrine's QueryBuilder that the bundle drives: select and
 * from parts, joins, AND-combined where clauses, named parameters, one
 * ordering, and the first/max result of pagination.
 */
module QueryModel {
  import opened Common

  datatype Dir = Asc | Desc

  /** A where clause, kept structured; `Dql` gives the text the bundle passes to `andWhere`. */
  datatype Clause =
    | IsNull(field: string)
    | InParam(field: string, param: string)
    | EqParam(field: string, param: string)
    | Raw(dql: string)

  function Dql(c: Clause): string
  {
    match c
    case IsNull(f) => f + " IS NULL"
    case InParam(f, p) => f + " IN(:" + p + ")"
    case EqParam(f, p) => f + "  = :" + p + " "
    case Raw(d) => d
  }

  datatype FromPart = FromPart(entity: string, alias: string)
  datatype JoinPart = JoinPart(path: string, alias: string)

  /** Everything a QueryBuilder holds that the bundle reads or writes. */
  datatype QueryState = QueryState(
    select: seq<string>,
    from: seq<FromPart>,
    joins: seq<JoinPart>,
    wheres: seq<Clause>,
    params: map<string, Value>,
    order: Option<(string, Dir)>,
    first: Option<int>,
    max: Option<int>)

  /** A fresh builder from `createQueryBuilder()`. */
  const EmptyQuery: QueryState := QueryState([], [], [], [], map[], None, None, None)

  /** The builder calls the bundle makes, by `andWhere`, `setParameter`, ... or through `modify`. */
  datatype Op =
    | Select(expr: string)
    | AddSelect(expr: string)
    | From(entity: string, alias: string)
    | Join(path: string, alias: string)
    | AndWhere(clause: Clause)
    | SetParameter(name: string, value: Value)
    | OrderBy(field: string, dir: Dir)
    | SetFirstResult(n: int)
    | SetMaxResults(n: int)

  predicate IsPagination(op: Op)
  {
    op.SetFirstResult? || op.SetMaxResults?
  }

  /**
   * Doctrine semantics of one call: `select` replaces the select list, while
   * `addSelect`, `from`, `join` and `andWhere` append; `setParameter`
   * overwrites by name; `orderBy` replaces any earlier ordering.
   */
  function ApplyOp(s: QueryState, op: Op): (r: QueryState)
  {
    match op
    case Select(e) => s.(select := [e])
    case AddSelect(e) => s.(select := s.select + [e])
    case From(c, a) => s.(from := s.from + [FromPart(c, a)])
    case Join(p, a) => s.(joins := s.joins + [JoinPart(p, a)])
    case AndWhere(c) => s.(wheres := s.wheres + [c])
    case SetParameter(n, v) => s.(params := s.params[n := v])
    case OrderBy(f, d) => s.(order := Some((f, d)))
    case SetFirstResult(n) => s.(first := Some(n))
    case SetMaxResults(n) => s.(max := Some(n))
  }

  /** A sequence of calls, in order. */
  function ApplyOps(s: QueryState, ops: seq<Op>): QueryState
    decreases |ops|
  {
    if ops == [] then s else ApplyOps(ApplyOp(s, ops[0]), ops[1..])
  }

  lemma {:induction false} ApplyOpsAppend(s: QueryState, a: seq<Op>, b: seq<Op>)
    ensures ApplyOps(s, a + b) == ApplyOps(ApplyOps(s, a), b)
    decreases |a|
  {
    if a == [] {
      assert a + b == b;
    } else {
      assert (a + b)[0] == a[0] && (a + b)[1..] == a[1..] + b;
      ApplyOpsAppend(ApplyOp(s, a[0]), a[1..], b);
    }
  }

  /** The parts of a query that decide which rows it counts: all but the select list and pagination. */
  predicate SameConditions(a: QueryState, b: QueryState)
  {
    a.from == b.from && a.joins == b.joins && a.wheres == b.wheres &&
    a.params == b.params && a.order == b.order
  }

  predicate Unpaginated(s: QueryState)
  {
    s.first.None? && s.max.None?
  }

  /** The same calls made on two queries with the same conditions leave them with the same conditions. */
  lemma {:induction false} ApplyOpsKeepsSameConditions(a: QueryState, b: QueryState, ops: seq<Op>)
    requires SameConditions(a, b)
    ensures SameConditions(ApplyOps(a, ops), ApplyOps(b, ops))
    decreases |ops|
  {
    if ops != [] {
      ApplyOpsKeepsSameConditions(ApplyOp(a, ops[0]), ApplyOp(b, ops[0]), ops[1..]);
    }
  }

  /** Calls other than `setFirstResult`/`setMaxResults` never paginate a query. */
  lemma {:induction false} ApplyOpsKeepsPagination(s: QueryState, ops: seq<Op>)
    requires forall i :: 0 <= i < |ops| ==> !IsPagination(ops[i])
    ensures ApplyOps(s, ops).first == s.first && ApplyOps(s, ops).max == s.max
    decreases |ops|
  {
    if ops != [] {
      ApplyOpsKeepsPagination(ApplyOp(s, ops[0]), ops[1..]);
    }
  }

  /** `setFirstResult`/`setMaxResults` calls change nothing that decides which rows match. */
  lemma {:induction false} PaginationKeepsConditions(s: QueryState, ops: seq<Op>)
    requires forall i :: 0 <= i < |ops| ==> IsPagination(ops[i])
    ensures SameConditions(ApplyOps(s, ops), s)
    ensures ApplyOps(s, ops).select == s.select
    decreases |ops|
  {
    if ops != [] {
      PaginationKeepsConditions(ApplyOp(s, ops[0]), ops[1..]);
    }
  }

  /** A Doctrine QueryBuilder; its fields change in place with every call. */
  class QueryBuilder {
    var select: seq<string>
    var from: seq<FromPart>
    var joins: seq<JoinPart>
    var wheres: seq<Clause>
    var params: map<string, Value>
    var order: Option<(string, Dir)>
    var first: Option<int>
    var max: Option<int>

    function State(): QueryState
      reads this
    {
      QueryState(select, from, joins, wheres, params, order, first, max)
    }

    /** `$em->createQueryBuilder()`. */
    constructor ()
      ensures State() == EmptyQuery
    {
      select, from, joins, wheres := [], [], [], [];
      params, order, first, max := map[], None, None, None;
    }

    /** One builder call; only the part the call names changes. */
    method Apply(op: Op)
      modifies this
      ensures State() == ApplyOp(old(State()), op)
    {
      match op
      case Select(e) => select := [e];
      case AddSelect(e) => select := select + [e];
      case From(c, a) => from := from + [FromPart(c, a)];
      case Join(p, a) => joins := joins + [JoinPart(p, a)];
      case AndWhere(c) => wheres := wheres + [c];
      case SetParameter(n, v) => params := params[n := v];
      case OrderBy(f, d) => order := Some((f, d));
      case SetFirstResult(n) => first := Some(n);
      case SetMaxResults(n) => max := Some(n);
    }
  }
}
