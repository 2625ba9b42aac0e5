/** The rules all three generations of sources share: which text a raw source
    stands for (`FromRaw.__init__`), which columns a queryset-derived source
    produces (`FromQuerySet.__init__` and the queryset managers), and which of
    a target model's columns must then be filled with NULL. */
module SourceRules {
  import opened Python
  import opened Meta

  const MissingSourceMessage := "Either `raw_query` or `db_table` must be provided!"
  const BothSourcesMessage := "Either `raw_query` or `db_table` must be provided, not both!"

  /** The two assertions of `FromRaw.__init__` and the text it stores:
      `db_table or '({})'.format(raw_query)`. Exactly one of the two
      arguments must be truthy. */
  function SourceText(rawQuery: Option<string>, dbTable: Option<string>): (r: Result<string>)
    ensures r.Ok? <==> TruthyStr(rawQuery) != TruthyStr(dbTable)
    ensures !TruthyStr(rawQuery) && !TruthyStr(dbTable) ==> r == Err(AssertionError(MissingSourceMessage))
    ensures TruthyStr(rawQuery) && TruthyStr(dbTable) ==> r == Err(AssertionError(BothSourcesMessage))
    ensures r.Ok? && TruthyStr(dbTable) ==> r.value == dbTable.value
    ensures r.Ok? && TruthyStr(rawQuery) ==> r.value == "(" + rawQuery.value + ")"
  {
    if !(TruthyStr(rawQuery) || TruthyStr(dbTable)) then Err(AssertionError(MissingSourceMessage))
    else if !(!TruthyStr(rawQuery) || !TruthyStr(dbTable)) then Err(AssertionError(BothSourcesMessage))
    else if TruthyStr(dbTable) then Ok(dbTable.value)
    else Ok("(" + Format(rawQuery) + ")")
  }

  /** The column a `values()` name selects: the column of the first field
      with that name, or the name itself when no field has it. */
  function ColumnFor(fields: seq<Field>, name: string): (column: string)
    ensures (forall j :: 0 <= j < |fields| ==> fields[j].name != name) ==> column == name
    ensures forall i :: 0 <= i < |fields| && fields[i].name == name && (forall j :: 0 <= j < i ==> fields[j].name != name)
                        ==> column == fields[i].column
  {
    match FirstWhere(fields, (f: Field) => f.name == name)
    case None => name
    case Some(i) => fields[i].column
  }

  /** The columns a `values()` selection produces, in selection order. */
  function SelectedColumns(names: seq<string>, fields: seq<Field>): (cols: seq<string>)
    ensures |cols| == |names| && forall i :: 0 <= i < |names| ==> cols[i] == ColumnFor(fields, names[i])
  {
    seq(|names|, i requires 0 <= i < |names| => ColumnFor(fields, names[i]))
  }

  /** `[translations[i] for i in translations]` when `translations` is truthy. */
  function TranslationTargets(translations: Option<Dict>): seq<string> {
    if TruthySeq(translations) then Values(translations.value) else []
  }

  /** The columns a `FromQuerySet` (and `QuerysetFacadeManager.__call__`)
      records as produced: annotation names, then translation targets, then
      the selected columns, or every column of the queryset's model when
      nothing was selected. */
  function ProducedFields(qs: QuerySetInfo, translations: Option<Dict>): seq<string> {
    AnnotationNames(qs.annotations) + TranslationTargets(translations)
      + (if |qs.valuesSelect| > 0 then SelectedColumns(qs.valuesSelect, qs.model.fields)
         else Columns(qs.model.fields))
  }

  /** The columns `QuerySetSourceManager.__call__` records as produced:
      annotation names, then the selected columns (no translations, and no
      fallback to all columns when nothing was selected). */
  function DynamicProducedFields(qs: QuerySetInfo): seq<string> {
    AnnotationNames(qs.annotations) + SelectedColumns(qs.valuesSelect, qs.model.fields)
  }

  /** The target columns a derived source does not produce:
      `set(model_fields) - set(queryset_fields)`. */
  function MissingColumns(target: seq<string>, produced: seq<string>): (missing: set<string>)
    ensures forall c :: c in missing <==> c in target && c !in produced
  {
    set c | c in target && c !in produced
  }

  /** The nested `for ... break ... else` loops that append, for each
      selected name, the column of the first field with that name, or the
      name itself. */
  method AppendSelected(prefix: seq<string>, names: seq<string>, fields: seq<Field>) returns (out: seq<string>)
    ensures out == prefix + SelectedColumns(names, fields)
  {
    out := prefix;
    for i := 0 to |names|
      invariant out == prefix + SelectedColumns(names[..i], fields)
    {
      var fieldName := names[i];
      ghost var before := out;
      var found := false;
      for j := 0 to |fields|
        invariant !found
        invariant out == before
        invariant forall k :: 0 <= k < j ==> fields[k].name != fieldName
      {
        if fields[j].name == fieldName {
          out := out + [fields[j].column];
          found := true;
          break;
        }
      }
      if !found {
        out := out + [fieldName];
      }
      assert out == before + [ColumnFor(fields, fieldName)];
      assert SelectedColumns(names[..i + 1], fields) == SelectedColumns(names[..i], fields) + [ColumnFor(fields, names[i])];
    }
    assert names[..|names|] == names;
  }

  /** `FromQuerySet.__init__` (both generations) and
      `QuerysetFacadeManager.__call__`: the produced-field list. */
  method QuerysetFields(qs: QuerySetInfo, translations: Option<Dict>) returns (fields: seq<string>)
    ensures fields == ProducedFields(qs, translations)
  {
    fields := AnnotationNames(qs.annotations);
    if TruthySeq(translations) {
      fields := fields + Values(translations.value);
    }
    assert fields == AnnotationNames(qs.annotations) + TranslationTargets(translations);
    if |qs.valuesSelect| > 0 {
      fields := AppendSelected(fields, qs.valuesSelect, qs.model.fields);
    } else {
      fields := fields + Columns(qs.model.fields);
    }
  }

  /** `QuerySetSourceManager.__call__`: the produced-field list. */
  method DynamicQuerysetFields(qs: QuerySetInfo) returns (fields: seq<string>)
    ensures fields == DynamicProducedFields(qs)
  {
    fields := AnnotationNames(qs.annotations);
    fields := AppendSelected(fields, qs.valuesSelect, qs.model.fields);
  }

  /** `list(set(target) - set(produced))`: each missing column once, in the
      (unspecified) iteration order of a Python set. */
  method MissingColumnList(target: seq<string>, produced: seq<string>) returns (missing: seq<string>)
    ensures NoDup(missing)
    ensures forall c :: c in missing <==> c in MissingColumns(target, produced)
  {
    var rest := (set c | c in target) - (set c | c in produced);
    missing := [];
    while rest != {}
      invariant NoDup(missing)
      invariant forall c :: c in missing ==> c !in rest
      invariant forall c :: c in missing || c in rest <==> c in MissingColumns(target, produced)
      decreases |rest|
    {
      var c :| c in rest;
      missing := missing + [c];
      rest := rest - {c};
    }
  }

  /** A translation target is never null-filled. */
  lemma TranslationTargetsNotMissing(qs: QuerySetInfo, translations: Dict, target: seq<string>, v: string)
    requires v in Values(translations)
    ensures v !in MissingColumns(target, ProducedFields(qs, Some(translations)))
  {
    assert TruthySeq(Some(translations));
  }

  /** Deriving from a plain queryset (no annotations, no `values()`) over a
      model that has every target column leaves nothing to null-fill. */
  lemma AllColumnsQuerysetNoNullFill(qs: QuerySetInfo, target: seq<string>)
    requires qs.annotations == [] && qs.valuesSelect == []
    requires forall c :: c in target ==> c in Columns(qs.model.fields)
    ensures MissingColumns(target, ProducedFields(qs, None)) == {}
  {
    assert ProducedFields(qs, None) == Columns(qs.model.fields);
    assert forall c :: c !in MissingColumns(target, ProducedFields(qs, None));
  }

  /** A `values()` selection whose names reach every target column leaves
      nothing to null-fill, whatever the annotations. */
  lemma SelectionCoveringTargetNoNullFill(qs: QuerySetInfo, translations: Option<Dict>, target: seq<string>)
    requires |qs.valuesSelect| > 0
    requires forall c :: c in target ==> exists i :: 0 <= i < |qs.valuesSelect| && ColumnFor(qs.model.fields, qs.valuesSelect[i]) == c
    ensures MissingColumns(target, ProducedFields(qs, translations)) == {}
  {
    var sel := SelectedColumns(qs.valuesSelect, qs.model.fields);
    forall c | c in target ensures c in ProducedFields(qs, translations) {
      var i :| 0 <= i < |qs.valuesSelect| && ColumnFor(qs.model.fields, qs.valuesSelect[i]) == c;
      assert sel[i] == c;
    }
    assert forall c :: c !in MissingColumns(target, ProducedFields(qs, translations));
  }
}
