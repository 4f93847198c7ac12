/**
 * A worked request through `getQueryBuilders`: `status=A|B`,
 * `orderby=name`, `start=10`, `limit=5` on a class with the properties
 * `status` and `name`.
 */
module Scenario {
  import opened Common
  import opened QueryModel
  import Helpers
  import opened AbstractController

  function SampleSearch(): map<string, Value>
  {
    map["status" := VStr("A|B"), "orderby" := VStr("name"), "start" := VStr("10"), "limit" := VStr("5")]
  }

  lemma SplitAB()
    ensures Explode("A|B") == ["A", "B"]
  {
    ExplodeImplode(["A", "B"]);
    assert Implode(["A", "B"]) == "A" + [Pipe] + Implode(["B"]);
    assert ["A", "B"][1..] == ["B"];
  }

  /** The one keyed property, `status`, gives an IN clause bound to the two pieces of "A|B". */
  lemma SampleFilter()
    ensures Helpers.SearchClauses("x", ["status", "name"], SampleSearch()) == [InParam("x.status", "x___status")]
    ensures Helpers.SearchParams(map[], "x", ["status", "name"], SampleSearch()) ==
            map["x___status" := VList([VStr("A"), VStr("B")])]
  {
    var search := SampleSearch();
    var props := ["status", "name"];
    SplitAB();
    assert Helpers.Normalize(VStr("A|B")) == VList([VStr("A"), VStr("B")]);
    assert props[..1] == ["status"];
    assert ["status"][..0] == [];
    assert "name" !in search;
    assert Helpers.FieldName("x", "status") == "x.status";
    assert Helpers.ParameterName("x", "status") == "x___status";
    assert Helpers.SearchClauses("x", props, search) == Helpers.SearchClauses("x", ["status"], search);
    assert Helpers.SearchParams(map[], "x", props, search) == Helpers.SearchParams(map[], "x", ["status"], search);
  }

  /** `orderby=name` orders by `x.name` ascending; `status` is not named by either ordering key. */
  lemma SampleOrder()
    ensures Helpers.SearchOrder(None, "x", ["status", "name"], SampleSearch()) == Some(("x.name", Asc))
  {
    var search := SampleSearch();
    assert Helpers.FieldName("x", "name") == "x.name";
    assert Helpers.OrderFor(search, "name") == Some(Asc);
  }

  /**
   * The data query filters `x.status IN(:x___status)` bound to ["A", "B"],
   * orders by `x.name` ascending, and starts at 10 with at most 5 rows. The
   * count query has the same filter and parameter, and also the same
   * ordering, but no pagination.
   */
  lemma SampleRequest(objectClass: string)
    ensures var d := DataQueryOf(objectClass, ["status", "name"], SampleSearch());
      var c := CountQueryOf(objectClass, ["status", "name"], SampleSearch());
      d.wheres == [InParam("x.status", "x___status")] &&
      d.params == map["x___status" := VList([VStr("A"), VStr("B")])] &&
      d.order == Some(("x.name", Asc)) &&
      d.first == Some(10) && d.max == Some(5) &&
      c.wheres == d.wheres && c.params == d.params && c.order == d.order &&
      c.first == None && c.max == None
  {
    GetQueryBuildersPair(objectClass, ["status", "name"], SampleSearch());
    SampleFilter();
    SampleOrder();
    assert "10"[..1] == "1";
    assert DecimalValue("10") == 10;
  }
}
