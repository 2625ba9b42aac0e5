/** raw_sugar/sources.py: the source descriptors of the current generation.
    A `Source` is a `FromRaw` or a `FromQuerySet`; both are mutable Python
    objects (`_set_target_model` rebinds `null_fields`, `with_params` sets
    `params` on a shallow copy). */
module SugarSources {
  import opened Python
  import opened Meta
  import opened SourceRules

  /** The Python class of a source object; it never changes. */
  datatype SourceKind = FromRawKind | FromQuerySetKind

  /** The methods a source object of the given class has: both inherit
      `copy` and `with_params` from `SourceRaw`, and only `FromQuerySet`
      defines `_set_target_model`. */
  function SourceMethods(kind: SourceKind): (ms: set<string>)
    ensures "copy" in ms && "with_params" in ms
    ensures "_set_target_model" in ms <==> kind == FromQuerySetKind
    ensures "_calculate_null_fields" !in ms
  {
    if kind == FromQuerySetKind then {"copy", "with_params", "_set_target_model"}
    else {"copy", "with_params"}
  }

  /** The four attributes the FROM-clause rewrite reads from a source. */
  datatype Descriptor = Descriptor(rawQuery: string, params: seq<Value>, translations: Dict, nullFields: seq<string>)

  class Source {
    const kind: SourceKind
    var rawQuery: string
    var params: seq<Value>
    var translations: Dict
    var nullFields: seq<string>
    /** `_queryset_fields`; only `FromQuerySet.__init__` sets it. */
    var querysetFields: Option<seq<string>>

    /** What the rewrite sees of this source. */
    function View(): Descriptor
      reads this
    {
      Descriptor(rawQuery, params, translations, nullFields)
    }

    /** A new object with the given attributes (object creation followed by
        the attribute assignments of an `__init__`, or by `copy.copy`). */
    constructor Create(kind: SourceKind, rawQuery: string, params: seq<Value>, translations: Dict,
                       nullFields: seq<string>, querysetFields: Option<seq<string>>)
      ensures this.kind == kind && this.querysetFields == querysetFields
      ensures View() == Descriptor(rawQuery, params, translations, nullFields)
    {
      this.kind := kind;
      this.rawQuery := rawQuery;
      this.params := params;
      this.translations := translations;
      this.nullFields := nullFields;
      this.querysetFields := querysetFields;
    }

    /** `SourceRaw.copy`: a shallow copy with every attribute equal. */
    method Copy() returns (clone: Source)
      ensures fresh(clone)
      ensures clone.kind == kind && clone.View() == View() && clone.querysetFields == querysetFields
    {
      clone := new Source.Create(kind, rawQuery, params, translations, nullFields, querysetFields);
    }

    /** `SourceRaw.with_params(*args)`: a copy whose `params` are exactly
        `args` and whose other attributes equal this one's; this source is
        left as it was. */
    method WithParams(args: seq<Value>) returns (clone: Source)
      ensures fresh(clone)
      ensures clone.kind == kind && clone.querysetFields == querysetFields
      ensures clone.View() == View().(params := args)
    {
      clone := Copy();
      clone.params := args;
    }

    /** `source._set_target_model(model)`: on a `FromQuerySet`, `null_fields`
        becomes the model's columns that are not among the produced fields,
        each once. A `FromRaw` has no such method, so the lookup of the
        method itself fails; a `FromQuerySet` without `_queryset_fields`
        fails on that attribute. On a failure nothing changes. */
    method SetTargetModel(model: ModelMeta) returns (outcome: Outcome)
      modifies this`nullFields
      ensures kind == FromRawKind ==> outcome == Fail(AttributeError("_set_target_model")) && nullFields == old(nullFields)
      ensures kind == FromQuerySetKind && querysetFields.None? ==>
                outcome == Fail(AttributeError("_queryset_fields")) && nullFields == old(nullFields)
      ensures kind == FromQuerySetKind && querysetFields.Some? ==> outcome == Pass && NoDup(nullFields)
      ensures kind == FromQuerySetKind && querysetFields.Some? ==>
                forall c :: c in nullFields <==> c in MissingColumns(Columns(model.fields), querysetFields.value)
    {
      if "_set_target_model" !in SourceMethods(kind) {
        return Fail(AttributeError("_set_target_model"));
      }
      var modelFields := Columns(model.fields);
      if querysetFields.None? {
        return Fail(AttributeError("_queryset_fields"));
      }
      nullFields := MissingColumnList(modelFields, querysetFields.value);
      outcome := Pass;
    }
  }

  /** The attributes `FromRaw.__init__` stores once its assertions hold:
      missing (or empty) params, translations and null fields become empty. */
  function RawDescriptor(text: string, params: Option<seq<Value>>, translations: Option<Dict>,
                         nullFields: Option<seq<string>>): (d: Descriptor)
    ensures d.rawQuery == text
    ensures d.params == (if TruthySeq(params) then params.value else [])
    ensures d.translations == (if TruthySeq(translations) then translations.value else [])
    ensures d.nullFields == (if TruthySeq(nullFields) then nullFields.value else [])
  {
    Descriptor(text, OrEmpty(params), OrEmpty(translations), OrEmpty(nullFields))
  }

  /** `FromRaw(raw_query, params, translations, null_fields, db_table)`. */
  method FromRaw(rawQuery: Option<string>, params: Option<seq<Value>>, translations: Option<Dict>,
                 nullFields: Option<seq<string>>, dbTable: Option<string>) returns (r: Result<Source>)
    ensures r.Err? <==> SourceText(rawQuery, dbTable).Err?
    ensures r.Err? ==> r.error == SourceText(rawQuery, dbTable).error
    ensures r.Ok? ==> fresh(r.value) && r.value.kind == FromRawKind && r.value.querysetFields.None?
    ensures r.Ok? ==> r.value.View() == RawDescriptor(SourceText(rawQuery, dbTable).value, params, translations, nullFields)
  {
    var text := SourceText(rawQuery, dbTable);
    if text.Err? {
      return Err(text.error);
    }
    var d := RawDescriptor(text.value, params, translations, nullFields);
    var s := new Source.Create(FromRawKind, d.rawQuery, d.params, d.translations, d.nullFields, None);
    r := Ok(s);
  }

  /** `FromQuerySet(queryset, translations)`: records the produced fields,
      wraps the compiled SQL in parentheses, takes its parameters, and starts
      with no null fields. */
  method FromQuerySet(qs: QuerySetInfo, translations: Option<Dict>, asSql: AsSql) returns (s: Source)
    ensures fresh(s) && s.kind == FromQuerySetKind
    ensures s.querysetFields == Some(ProducedFields(qs, translations))
    ensures s.View() == Descriptor("(" + asSql(qs).0 + ")", asSql(qs).1, OrEmpty(translations), [])
  {
    var fields := QuerysetFields(qs, translations);
    var (rawQuery, params) := asSql(qs);
    s := new Source.Create(FromQuerySetKind, "(" + rawQuery + ")", params, OrEmpty(translations), [], Some(fields));
  }
}
