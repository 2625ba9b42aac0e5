/** raw_sugar/query.py: the FROM-clause rewrite of the current generation.
    `RawSugarQuery.get_compiler` wraps the compiler's `get_from_clause` so that
    the model's table is replaced by the source, either directly
    (`<source> AS <table>`) or through a sub-select that renames translated
    columns and synthesizes NULL columns, and so that the source's parameters
    come before the outer statement's. */
module SugarQuery {
  import opened Python
  import opened Meta
  import opened SourceRules
  import opened SugarSources

  /** The alias of the wrapper sub-select. */
  const WrapperTable := "wrapper_table"

  /** A model column is passed through unchanged when no translation targets
      it and it is not null-filled. */
  predicate PassesThrough(column: string, translations: Dict, nullFields: seq<string>) {
    column !in Values(translations) && column !in nullFields
  }

  /** The model columns that pass through, in model-field order. */
  function Passthrough(cols: seq<string>, translations: Dict, nullFields: seq<string>): seq<string> {
    if |cols| == 0 then []
    else (if PassesThrough(cols[0], translations, nullFields) then [cols[0]] else [])
         + Passthrough(cols[1..], translations, nullFields)
  }

  /** Filtering distributes over concatenation: the passthrough columns keep
      the model's order. */
  lemma {:induction false} PassthroughAppend(a: seq<string>, b: seq<string>, translations: Dict, nullFields: seq<string>)
    ensures Passthrough(a + b, translations, nullFields)
            == Passthrough(a, translations, nullFields) + Passthrough(b, translations, nullFields)
  {
    if |a| == 0 {
      assert a + b == b;
    } else {
      assert (a + b)[0] == a[0];
      assert (a + b)[1..] == a[1..] + b;
      PassthroughAppend(a[1..], b, translations, nullFields);
    }
  }

  /** Each passing column occurs as often as among the model's columns (so
      exactly once when columns are distinct); no other column occurs. */
  lemma {:induction false} PassthroughCount(cols: seq<string>, translations: Dict, nullFields: seq<string>, c: string)
    ensures multiset(Passthrough(cols, translations, nullFields))[c]
            == if PassesThrough(c, translations, nullFields) then multiset(cols)[c] else 0
  {
    if |cols| > 0 {
      PassthroughCount(cols[1..], translations, nullFields, c);
      assert cols == [cols[0]] + cols[1..];
      assert multiset(cols) == multiset([cols[0]]) + multiset(cols[1..]);
    }
  }

  /** A column occurs in the passthrough list exactly when it is a model
      column that is neither translated to nor null-filled. */
  lemma PassthroughMember(cols: seq<string>, translations: Dict, nullFields: seq<string>, c: string)
    ensures c in Passthrough(cols, translations, nullFields) <==> c in cols && PassesThrough(c, translations, nullFields)
  {
    PassthroughCount(cols, translations, nullFields, c);
  }

  /** `{wrapper_table}.{col}` */
  function PassthroughSelect(qn: QuoteName, column: string): string {
    qn(WrapperTable) + "." + qn(column)
  }

  /** `NULL AS {field}` */
  function NullSelect(qn: QuoteName, field: string): string {
    "NULL AS " + qn(field)
  }

  /** `{wrapper_table}.{source column} AS {model column}` */
  function TranslationSelect(qn: QuoteName, translation: (string, string)): string {
    qn(WrapperTable) + "." + qn(translation.0) + " AS " + qn(translation.1)
  }

  function PassthroughSelects(qn: QuoteName, cols: seq<string>): (s: seq<string>)
    ensures |s| == |cols| && forall i :: 0 <= i < |cols| ==> s[i] == PassthroughSelect(qn, cols[i])
  {
    seq(|cols|, i requires 0 <= i < |cols| => PassthroughSelect(qn, cols[i]))
  }

  function NullSelects(qn: QuoteName, nullFields: seq<string>): (s: seq<string>)
    ensures |s| == |nullFields| && forall i :: 0 <= i < |nullFields| ==> s[i] == NullSelect(qn, nullFields[i])
  {
    seq(|nullFields|, i requires 0 <= i < |nullFields| => NullSelect(qn, nullFields[i]))
  }

  function TranslationSelects(qn: QuoteName, translations: Dict): (s: seq<string>)
    ensures |s| == |translations| && forall i :: 0 <= i < |translations| ==> s[i] == TranslationSelect(qn, translations[i])
  {
    seq(|translations|, i requires 0 <= i < |translations| => TranslationSelect(qn, translations[i]))
  }

  /** The wrapper's select list: the passthrough columns in model order, then
      one NULL column per null field in its order, then one renamed column
      per translation in dict order. */
  function WrapperSelectList(qn: QuoteName, cols: seq<string>, translations: Dict, nullFields: seq<string>): (l: seq<string>)
    ensures var p := Passthrough(cols, translations, nullFields);
            && |l| == |p| + |nullFields| + |translations|
            && (forall i :: 0 <= i < |p| ==> l[i] == PassthroughSelect(qn, p[i]))
            && (forall i :: 0 <= i < |nullFields| ==> l[|p| + i] == NullSelect(qn, nullFields[i]))
            && (forall i :: 0 <= i < |translations| ==> l[|p| + |nullFields| + i] == TranslationSelect(qn, translations[i]))
  {
    PassthroughSelects(qn, Passthrough(cols, translations, nullFields))
      + NullSelects(qn, nullFields) + TranslationSelects(qn, translations)
  }

  /** The three loops of `get_from_clause_wrapper` that build `select_fields`. */
  method BuildWrapperSelect(qn: QuoteName, fields: seq<Field>, translations: Dict, nullFields: seq<string>)
    returns (selectFields: seq<string>)
    ensures selectFields == WrapperSelectList(qn, Columns(fields), translations, nullFields)
  {
    ghost var cols := Columns(fields);
    selectFields := [];
    for i := 0 to |fields|
      invariant selectFields == PassthroughSelects(qn, Passthrough(cols[..i], translations, nullFields))
    {
      var fieldName := fields[i].column;
      if !(fieldName in Values(translations)) && !(fieldName in nullFields) {
        selectFields := selectFields + [PassthroughSelect(qn, fieldName)];
      }
      assert cols[..i + 1] == cols[..i] + [cols[i]];
      PassthroughAppend(cols[..i], [cols[i]], translations, nullFields);
    }
    assert cols[..|fields|] == cols;
    ghost var passed := selectFields;
    for i := 0 to |nullFields|
      invariant selectFields == passed + NullSelects(qn, nullFields[..i])
    {
      selectFields := selectFields + [NullSelect(qn, nullFields[i])];
    }
    assert nullFields[..|nullFields|] == nullFields;
    ghost var nulled := selectFields;
    for i := 0 to |translations|
      invariant selectFields == nulled + TranslationSelects(qn, translations[..i])
    {
      selectFields := selectFields + [TranslationSelect(qn, translations[i])];
    }
    assert translations[..|translations|] == translations;
  }

  /** The text that replaces the table: the source itself when it has no
      translations and no null fields, otherwise the wrapper sub-select. */
  function WrapperText(qn: QuoteName, cols: seq<string>, d: Descriptor): string {
    if |d.translations| > 0 || |d.nullFields| > 0 then
      "(SELECT " + Join(WrapperSelectList(qn, cols, d.translations, d.nullFields), ", ")
        + " FROM " + d.rawQuery + " AS " + qn(WrapperTable) + ")"
    else d.rawQuery
  }

  /** The new first FROM entry. On the fast path it is exactly
      `<source> AS <table>`; otherwise the wrapper sub-select aliased to the
      table. */
  function FromEntry(qn: QuoteName, model: ModelMeta, d: Descriptor): (entry: string)
    ensures |d.translations| == 0 && |d.nullFields| == 0 ==> entry == d.rawQuery + " AS " + qn(model.dbTable)
    ensures |d.translations| > 0 || |d.nullFields| > 0 ==>
              entry == "(SELECT " + Join(WrapperSelectList(qn, Columns(model.fields), d.translations, d.nullFields), ", ")
                       + " FROM " + d.rawQuery + " AS " + qn(WrapperTable) + ") AS " + qn(model.dbTable)
  {
    WrapperText(qn, Columns(model.fields), d) + " AS " + qn(model.dbTable)
  }

  /** The rewrite `get_from_clause_wrapper` performs on the base compiler's
      FROM clause. The first entry must be the quoted table name; only that
      entry is replaced; the source's parameters come first, in order,
      followed by the base parameters. */
  function SugarFrom(qn: QuoteName, model: ModelMeta, source: Option<Descriptor>, base: FromClause): (r: Result<FromClause>)
    ensures |base.entries| == 0 ==> r == Err(IndexError)
    ensures |base.entries| > 0 && base.entries[0] != qn(model.dbTable) ==> r == Err(AssertionError(""))
    ensures |base.entries| > 0 && base.entries[0] == qn(model.dbTable) && source.None? ==> r == Err(AttributeError("translations"))
    ensures r.Ok? <==> |base.entries| > 0 && base.entries[0] == qn(model.dbTable) && source.Some?
    ensures r.Ok? ==> |r.value.params| == |source.value.params| + |base.params|
    ensures r.Ok? ==> r.value.params[..|source.value.params|] == source.value.params
    ensures r.Ok? ==> r.value.params[|source.value.params|..] == base.params
    ensures r.Ok? ==> |r.value.entries| == |base.entries| && r.value.entries[1..] == base.entries[1..]
    ensures r.Ok? ==> r.value.entries[0] == FromEntry(qn, model, source.value)
  {
    if |base.entries| == 0 then Err(IndexError)
    else if base.entries[0] != qn(model.dbTable) then Err(AssertionError(""))
    else if source.None? then Err(AttributeError("translations"))
    else
      var d := source.value;
      Ok(FromClause([FromEntry(qn, model, d)] + base.entries[1..], d.params + base.params))
  }

  /** Late rebinding: a source copied by `with_params(args)` rewrites the FROM
      clause to the same entries, and its parameters are exactly `args`
      followed by the base parameters, with none of the old ones. */
  lemma RebindKeepsShape(qn: QuoteName, model: ModelMeta, d: Descriptor, args: seq<Value>, base: FromClause)
    requires SugarFrom(qn, model, Some(d), base).Ok?
    ensures SugarFrom(qn, model, Some(d.(params := args)), base).Ok?
    ensures SugarFrom(qn, model, Some(d.(params := args)), base).value.entries == SugarFrom(qn, model, Some(d), base).value.entries
    ensures SugarFrom(qn, model, Some(d.(params := args)), base).value.params == args + base.params
  {
  }

  /** A source derived from a plain queryset (no annotations, no `values()`,
      no translations) over a model that has every column of the target
      model needs no null fields, so the rewrite takes the fast path: the
      parenthesised compiled SQL aliased to the table, with the queryset's
      parameters before the outer ones. */
  lemma PlainDerivedSourceFastPath(qn: QuoteName, model: ModelMeta, qs: QuerySetInfo, asSql: AsSql,
                                   nullFields: seq<string>, base: FromClause)
    requires qs.annotations == [] && qs.valuesSelect == []
    requires forall c :: c in Columns(model.fields) ==> c in Columns(qs.model.fields)
    requires forall c :: c in nullFields <==> c in MissingColumns(Columns(model.fields), ProducedFields(qs, None))
    requires |base.entries| > 0 && base.entries[0] == qn(model.dbTable)
    ensures var d := Descriptor("(" + asSql(qs).0 + ")", asSql(qs).1, [], nullFields);
            SugarFrom(qn, model, Some(d), base)
            == Ok(FromClause(["(" + asSql(qs).0 + ")" + " AS " + qn(model.dbTable)] + base.entries[1..], asSql(qs).1 + base.params))
  {
    AllColumnsQuerysetNoNullFill(qs, Columns(model.fields));
    forall c
      ensures multiset(nullFields)[c] == 0
    {
      assert c !in nullFields;
    }
    assert multiset(nullFields) == multiset{};
  }

  /** What the FROM rewrite reads of `self._source`, or `None`. */
  function SourceView(source: Source?): Option<Descriptor>
    reads source
  {
    if source == null then None else Some(source.View())
  }

  /** `RawSugarQuery`: a Django query that carries a source. */
  class RawSugarQuery {
    const model: ModelMeta
    const source: Source?

    constructor(model: ModelMeta, source: Source?)
      ensures this.model == model && this.source == source
    {
      this.model := model;
      this.source := source;
    }

    /** `get_from_clause_wrapper`: `result` and `params` are what the base
        compiler's `get_from_clause` returned; `result` is rewritten in place
        and the new parameters are returned. On an error nothing is written. */
    method GetFromClause(qn: QuoteName, result: array<string>, params: seq<Value>) returns (r: Result<seq<Value>>)
      modifies result
      ensures var spec := SugarFrom(qn, model, SourceView(source), FromClause(old(result[..]), params));
              && (spec.Ok? ==> r == Ok(spec.value.params) && result[..] == spec.value.entries)
              && (spec.Err? ==> r == Err(spec.error) && result[..] == old(result[..]))
    {
      if result.Length == 0 {
        return Err(IndexError);
      }
      if result[0] != qn(model.dbTable) {
        return Err(AssertionError(""));
      }
      if source == null {
        return Err(AttributeError("translations"));
      }
      var wrapper: string;
      if |source.translations| > 0 || |source.nullFields| > 0 {
        var selectFields := BuildWrapperSelect(qn, model.fields, source.translations, source.nullFields);
        wrapper := "(SELECT " + Join(selectFields, ", ") + " FROM " + source.rawQuery + " AS " + qn(WrapperTable) + ")";
      } else {
        wrapper := source.rawQuery;
      }
      ghost var before := result[..];
      result[0] := wrapper + " AS " + qn(model.dbTable);
      assert result[..] == [FromEntry(qn, model, source.View())] + before[1..];
      r := Ok(source.params + params);
    }
  }

  /** `RawSugarQuerySet`: a queryset whose query is a `RawSugarQuery`. */
  class RawSugarQuerySet {
    const model: ModelMeta
    var query: QuerySlot<RawSugarQuery>

    /** `RawSugarQuerySet.__init__(model, query=..., _source=...)`: a new
        `RawSugarQuery` carrying the source is installed only when no query
        was handed in; a handed-in query is kept as it is. */
    constructor(model: ModelMeta, query: Option<nat>, source: Source?)
      ensures this.model == model
      ensures query.Some? ==> this.query == PassedIn(query.value)
      ensures query.None? ==> this.query.Installed? && fresh(this.query.query)
      ensures query.None? ==> this.query.query.model == model && this.query.query.source == source
    {
      this.model := model;
      if query.Some? {
        this.query := PassedIn(query.value);
      } else {
        var q := new RawSugarQuery(model, source);
        this.query := Installed(q);
      }
    }
  }
}
