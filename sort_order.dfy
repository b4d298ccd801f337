/** Sort specifications for search queries (enums/sort_order.rs). */
module SortOrder {
  import opened Json

  /** Serialised with `rename_all = "lowercase"`. */
  datatype SortOrder = Asc | Desc

  datatype SortSpec = SortSpec(field: string, order: SortOrder)

  function OrderToJson(o: SortOrder): (j: Json)
    ensures j.Str?
    ensures j.s == (if o.Asc? then "asc" else "desc")
  {
    match o
    case Asc => Str("asc")
    case Desc => Str("desc")
  }

  /** `to_es_json`: `{ field: { "order": order } }`. */
  function ToEsJson(spec: SortSpec): (j: Json)
    ensures j.Object? && j.fields.Keys == {spec.field}
    ensures var inner := j.fields[spec.field];
      inner.Object? && inner.fields.Keys == {"order"}
      && inner.fields["order"] == OrderToJson(spec.order)
  {
    Object(map[spec.field := Object(map["order" := OrderToJson(spec.order)])])
  }

  /** Distinct sort specifications serialise to distinct JSON. */
  lemma ToEsJsonInjective(a: SortSpec, b: SortSpec)
    requires ToEsJson(a) == ToEsJson(b)
    ensures a == b
  {
    var ja := ToEsJson(a);
    assert a.field in ja.fields.Keys;
    assert a.field == b.field;
    var oa := ja.fields[a.field].fields["order"];
    assert oa == OrderToJson(a.order) && oa == OrderToJson(b.order);
    assert oa.s == "asc" || oa.s == "desc";
    assert "asc" != "desc" by { assert "asc"[0] != "desc"[0]; }
  }
}
