/** What the engine reads from Django's model metadata and querysets, taken as
    plain values: a model's table name and ordered fields, and a queryset's
    annotations and `values()` selection. Compiling a queryset to SQL
    (`query.as_sql`) and quoting an identifier (`connection.ops.quote_name`)
    are Django's and are passed in as functions. */
module Meta {
  import opened Python

  /** A model field: its attribute name and its database column. */
  datatype Field = Field(name: string, column: string)

  /** `model._meta`: the table name and the fields in declaration order. */
  datatype ModelMeta = ModelMeta(dbTable: string, fields: seq<Field>)

  /** `[f.column for f in fields]`. */
  function Columns(fields: seq<Field>): (cols: seq<string>)
    ensures |cols| == |fields|
    ensures forall i :: 0 <= i < |fields| ==> cols[i] == fields[i].column
  {
    seq(|fields|, i requires 0 <= i < |fields| => fields[i].column)
  }

  /** A Python dict from names to names, as its items in insertion order. */
  type Dict = seq<(string, string)>

  /** `[d[k] for k in d]`, that is `list(d.values())`. */
  function Values(d: Dict): (vs: seq<string>)
    ensures |vs| == |d| && forall i :: 0 <= i < |d| ==> vs[i] == d[i].1
  {
    seq(|d|, i requires 0 <= i < |d| => d[i].1)
  }

  /** The expression of an annotation: a NULL literal (`models.Value(None)`)
      or some other expression, known by its identity only. */
  datatype AnnotationExpr = NullLiteral | Expression(id: nat)

  datatype Annotation = Annotation(name: string, expr: AnnotationExpr)

  /** The parts of a queryset the engine reads: the model it ranges over,
      `query.annotations` in order, and `query.values_select`. */
  datatype QuerySetInfo = QuerySetInfo(model: ModelMeta, annotations: seq<Annotation>, valuesSelect: seq<string>)

  /** `list(query.annotations.keys())`. */
  function AnnotationNames(anns: seq<Annotation>): (names: seq<string>)
    ensures |names| == |anns| && forall i :: 0 <= i < |anns| ==> names[i] == anns[i].name
  {
    seq(|anns|, i requires 0 <= i < |anns| => anns[i].name)
  }

  /** `query.as_sql(...)`: a compiled statement and its ordered parameters. */
  type AsSql = QuerySetInfo -> (string, seq<Value>)

  /** `connection.ops.quote_name`. */
  type QuoteName = string -> string

  /** What a compiler's `get_from_clause` returns: the FROM entries (the
      base table first, then joins) and their ordered parameters. */
  datatype FromClause = FromClause(entries: seq<string>, params: seq<Value>)

  /** A queryset's `query` slot: one handed in by the caller (a clone Django
      made), known by its identity, or the query the engine installed. */
  datatype QuerySlot<Q> = PassedIn(handle: nat) | Installed(query: Q)
}
