/** facade_model/sources.py: the source descriptors of the facade
    generation. Unlike raw_sugar's, they store `params`, `translations` and
    `null_fields` exactly as given (a `None` stays `None`), and the null-field
    computation is called `_calculate_null_fields`. */
module FacadeSources {
  import opened Python
  import opened Meta
  import opened SourceRules

  datatype FacadeSourceKind = FacadeFromRaw | FacadeFromQuerySet

  class FacadeSource {
    const kind: FacadeSourceKind
    var rawQuery: string
    var params: Option<seq<Value>>
    var translations: Option<Dict>
    var nullFields: Option<seq<string>>
    /** `_queryset_fields`; only `FromQuerySet.__init__` sets it. */
    var querysetFields: Option<seq<string>>

    constructor Create(kind: FacadeSourceKind, rawQuery: string, params: Option<seq<Value>>, translations: Option<Dict>,
                       nullFields: Option<seq<string>>, querysetFields: Option<seq<string>>)
      ensures this.kind == kind && this.rawQuery == rawQuery && this.params == params
      ensures this.translations == translations && this.nullFields == nullFields
      ensures this.querysetFields == querysetFields
    {
      this.kind := kind;
      this.rawQuery := rawQuery;
      this.params := params;
      this.translations := translations;
      this.nullFields := nullFields;
      this.querysetFields := querysetFields;
    }

    /** `source._calculate_null_fields(target_model)`: on a `FromQuerySet`,
        `null_fields` becomes the target's columns that are not produced,
        each once. A `FromRaw` has no such method, so the lookup of the
        method itself fails; a `FromQuerySet` without `_queryset_fields`
        fails on that attribute. On a failure nothing changes. */
    method CalculateNullFields(target: ModelMeta) returns (outcome: Outcome)
      modifies this`nullFields
      ensures kind == FacadeFromRaw ==>
                outcome == Fail(AttributeError("_calculate_null_fields")) && nullFields == old(nullFields)
      ensures kind == FacadeFromQuerySet && querysetFields.None? ==>
                outcome == Fail(AttributeError("_queryset_fields")) && nullFields == old(nullFields)
      ensures kind == FacadeFromQuerySet && querysetFields.Some? ==>
                outcome == Pass && nullFields.Some? && NoDup(nullFields.value)
      ensures kind == FacadeFromQuerySet && querysetFields.Some? ==>
                forall c :: c in nullFields.value <==> c in MissingColumns(Columns(target.fields), querysetFields.value)
    {
      if kind == FacadeFromRaw {
        return Fail(AttributeError("_calculate_null_fields"));
      }
      var modelFields := Columns(target.fields);
      if querysetFields.None? {
        return Fail(AttributeError("_queryset_fields"));
      }
      var missing := MissingColumnList(modelFields, querysetFields.value);
      nullFields := Some(missing);
      outcome := Pass;
    }
  }

  /** `FromRaw(raw_query, params, translations, null_fields, db_table)`:
      the same two assertions and text as raw_sugar's, the other arguments
      kept as they were passed. */
  method FromRaw(rawQuery: Option<string>, params: Option<seq<Value>>, translations: Option<Dict>,
                 nullFields: Option<seq<string>>, dbTable: Option<string>) returns (r: Result<FacadeSource>)
    ensures r.Err? <==> SourceText(rawQuery, dbTable).Err?
    ensures r.Err? ==> r.error == SourceText(rawQuery, dbTable).error
    ensures r.Ok? ==> fresh(r.value) && r.value.kind == FacadeFromRaw && r.value.querysetFields.None?
    ensures r.Ok? ==> r.value.rawQuery == SourceText(rawQuery, dbTable).value
    ensures r.Ok? ==> r.value.params == params && r.value.translations == translations && r.value.nullFields == nullFields
  {
    var text := SourceText(rawQuery, dbTable);
    if text.Err? {
      return Err(text.error);
    }
    var s := new FacadeSource.Create(FacadeFromRaw, text.value, params, translations, nullFields, None);
    r := Ok(s);
  }

  /** `FromQuerySet(queryset, translations)`: records the produced fields,
      parenthesises the compiled SQL, takes its parameters, keeps the
      translations as given, and starts with an empty `null_fields`. */
  method FromQuerySet(qs: QuerySetInfo, translations: Option<Dict>, asSql: AsSql) returns (s: FacadeSource)
    ensures fresh(s) && s.kind == FacadeFromQuerySet
    ensures s.querysetFields == Some(ProducedFields(qs, translations))
    ensures s.rawQuery == "(" + asSql(qs).0 + ")" && s.params == Some(asSql(qs).1)
    ensures s.translations == translations && s.nullFields == Some([])
  {
    var fields := QuerysetFields(qs, translations);
    var (rawQuery, params) := asSql(qs);
    s := new FacadeSource.Create(FacadeFromQuerySet, "(" + rawQuery + ")", Some(params), translations, Some([]), Some(fields));
  }
}
