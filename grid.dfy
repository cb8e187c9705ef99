/** The grid-placement schema (`GridSchema`): four numeric fields, no range constraint. */
module GridSchema {
  import opened Wrappers
  import opened Json
  import opened Zod

  datatype Grid = Grid(colStart: real, colSpan: real, rowStart: real, rowSpan: Option<real>)

  /** `GridSchema` */
  predicate Accepts(v: Json)
    ensures Accepts(v) ==> HasKeys(v, {"colStart", "colSpan", "rowStart"})
  {
    && v.Object?
    && IsNumber(Field(v, "colStart"))
    && IsNumber(Field(v, "colSpan"))
    && IsNumber(Field(v, "rowStart"))
    && IsOptionalNumber(Field(v, "rowSpan"))
  }

  function Parse(v: Json): (r: Option<Grid>)
    ensures r.Some? <==> Accepts(v)
    ensures r.Some? ==>
      && Field(v, "colStart") == Some(Number(r.value.colStart))
      && Field(v, "colSpan") == Some(Number(r.value.colSpan))
      && Field(v, "rowStart") == Some(Number(r.value.rowStart))
      && (r.value.rowSpan.None? <==> Field(v, "rowSpan").None?)
      && (r.value.rowSpan.Some? ==> Field(v, "rowSpan") == Some(Number(r.value.rowSpan.value)))
  {
    if !v.Object? then None
    else
      var colStart :- AsNumber(Field(v, "colStart"));
      var colSpan :- AsNumber(Field(v, "colSpan"));
      var rowStart :- AsNumber(Field(v, "rowStart"));
      var rowSpan :- AsOptionalNumber(Field(v, "rowSpan"));
      Some(Grid(colStart, colSpan, rowStart, rowSpan))
  }

  function ToJson(g: Grid): Json {
    Object(WithOptional(
      map["colStart" := Number(g.colStart), "colSpan" := Number(g.colSpan), "rowStart" := Number(g.rowStart)],
      "rowSpan", if g.rowSpan.Some? then Some(Number(g.rowSpan.value)) else None))
  }

  /** Every Grid value, written out as JSON, is accepted and decodes to itself. */
  lemma RoundTrip(g: Grid)
    ensures Parse(ToJson(g)) == Some(g)
  {
  }

  /**
   * Any three numbers, zero and negative ones included, make an accepted placement:
   * the schema imposes no range on the column and row fields.
   */
  lemma NoRangeConstraint(colStart: real, colSpan: real, rowStart: real)
    ensures Parse(Object(map["colStart" := Number(colStart), "colSpan" := Number(colSpan), "rowStart" := Number(rowStart)]))
      == Some(Grid(colStart, colSpan, rowStart, None))
  {
  }
}
