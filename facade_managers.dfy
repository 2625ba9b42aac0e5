/** facade_model/managers.py: the facade generation. A `FacadeModelQuery`
    rewrites the select list entry by entry (translated columns are read
    under their source name, null-filled columns become `Null`) and replaces
    the first FROM entry with the parenthesised source; the managers record
    the source settings when called. */
module FacadeManagers {
  import opened Python
  import opened Meta
  import opened SourceRules

  /** One entry of a compiler's select list: `col, (sql, params), alias`.
      The column object is known by its identity only. */
  datatype SelectEntry = SelectEntry(col: nat, sql: string, params: seq<Value>, alias: Option<string>)

  /** `'"{}"'.format(name)`: the hard-coded identifier quoting. */
  function Quoted(name: string): (q: string)
    ensures |q| == |name| + 2 && q[0] == '"' && q[|q| - 1] == '"' && q[1..|q| - 1] == name
  {
    "\"" + name + "\""
  }

  /** Some null field, quoted, is the entry's field part. */
  predicate NullFilled(nullFields: seq<string>, field: string) {
    exists i :: 0 <= i < |nullFields| && Quoted(nullFields[i]) == field
  }

  /** The index of the first translation whose quoted target is `field`. */
  function FirstTranslation(translations: Dict, field: string): (r: Option<nat>)
    ensures r.Some? ==> r.value < |translations| && Quoted(translations[r.value].1) == field
    ensures r.Some? ==> forall j :: 0 <= j < r.value ==> Quoted(translations[j].1) != field
    ensures r.None? ==> forall j :: 0 <= j < |translations| ==> Quoted(translations[j].1) != field
  {
    FirstWhere(translations, (t: (string, string)) => Quoted(t.1) == field)
  }

  /** The entry's SQL after the translation scan: the first translation
      whose quoted target is the field reads the source column under the
      target's name; without one the SQL is unchanged. */
  function TranslatedSql(sql: string, table: string, field: string, translations: Dict): string {
    match FirstTranslation(translations, field)
    case None => sql
    case Some(i) => table + "." + translations[i].0 + " as " + Quoted(translations[i].1)
  }

  /** What `get_select_wrapper` makes of one entry's SQL `table.field`: the
      SQL must split on `.` into exactly two parts; the first translation
      whose quoted target is the field reads the source column under the
      target's name; a null field whose quoted name is the field turns the
      entry into `Null`, whatever the translations said; any other entry is
      left as it was. */
  function RewriteSql(sql: string, translations: Dict, nullFields: seq<string>): (r: Result<string>)
    ensures r.Err? <==> CountChar(sql, '.') != 1
    ensures r.Err? ==> r.error == ValueError
    ensures r.Ok? ==> var table, field := Split(sql, '.')[0], Split(sql, '.')[1];
                      && sql == table + "." + field
                      && (NullFilled(nullFields, field) ==> r.value == "Null as " + field)
                      && (!NullFilled(nullFields, field) ==>
                            forall i :: 0 <= i < |translations| && Quoted(translations[i].1) == field
                                        && (forall j :: 0 <= j < i ==> Quoted(translations[j].1) != field)
                                        ==> r.value == table + "." + translations[i].0 + " as " + field)
                      && ((!NullFilled(nullFields, field) && forall i :: 0 <= i < |translations| ==> Quoted(translations[i].1) != field)
                          ==> r.value == sql)
  {
    var parts := Split(sql, '.');
    if |parts| != 2 then Err(ValueError)
    else
      JoinSplit(sql, '.');
      assert Join(parts, ".") == parts[0] + "." + parts[1];
      if NullFilled(nullFields, parts[1]) then Ok("Null as " + parts[1])
      else Ok(TranslatedSql(sql, parts[0], parts[1], translations))
  }

  /** The body of `get_select_wrapper`'s loop for one entry: split, scan the
      translations in order until one matches, then scan the null fields. */
  method RewriteEntrySql(sql: string, translations: Dict, nullFields: seq<string>) returns (r: Result<string>)
    ensures r == RewriteSql(sql, translations, nullFields)
  {
    var parts := Split(sql, '.');
    if |parts| != 2 {
      return Err(ValueError);
    }
    var table, field := parts[0], parts[1];
    ghost var translated := TranslatedSql(sql, table, field, translations);
    var out := sql;
    var i := 0;
    var found := false;
    while i < |translations| && !found
      invariant 0 <= i <= |translations| && field == parts[1]
      invariant !found ==> out == sql && forall j :: 0 <= j < i ==> Quoted(translations[j].1) != field
      invariant found ==> out == translated
    {
      if Quoted(translations[i].1) == field {
        assert FirstTranslation(translations, field) == Some(i);
        field := Quoted(translations[i].1);
        out := table + "." + translations[i].0;
        out := out + " as " + field;
        found := true;
      }
      i := i + 1;
    }
    for k := 0 to |nullFields|
      invariant forall j :: 0 <= j < k ==> Quoted(nullFields[j]) != field
      invariant out == translated
    {
      if Quoted(nullFields[k]) == field {
        out := "Null as " + field;
        return Ok(out);
      }
    }
    r := Ok(out);
  }

  /** `FacadeModelQuery`: a Django query that carries the source settings,
      with `None` params, translations and null fields read as empty. */
  class FacadeModelQuery {
    const model: ModelMeta
    const sourceRaw: Option<string>
    const sourceParams: seq<Value>
    const sourceTranslations: Dict
    const sourceNullFields: seq<string>

    constructor(model: ModelMeta, sourceRaw: Option<string>, sourceParams: Option<seq<Value>>,
                sourceTranslations: Option<Dict>, sourceNullFields: Option<seq<string>>)
      ensures this.model == model && this.sourceRaw == sourceRaw
      ensures this.sourceParams == (if TruthySeq(sourceParams) then sourceParams.value else [])
      ensures this.sourceTranslations == (if TruthySeq(sourceTranslations) then sourceTranslations.value else [])
      ensures this.sourceNullFields == (if TruthySeq(sourceNullFields) then sourceNullFields.value else [])
    {
      this.model := model;
      this.sourceRaw := sourceRaw;
      this.sourceParams := OrEmpty(sourceParams);
      this.sourceTranslations := OrEmpty(sourceTranslations);
      this.sourceNullFields := OrEmpty(sourceNullFields);
    }

    /** `get_select_wrapper`: the select list keeps its length and order and
        each entry its column, parameters and alias; only the SQL of each
        entry is rewritten. An entry whose SQL is not `table.field` raises
        `ValueError`. */
    method GetSelect(ret: seq<SelectEntry>) returns (r: Result<seq<SelectEntry>>)
      ensures r.Err? <==> exists i :: 0 <= i < |ret| && CountChar(ret[i].sql, '.') != 1
      ensures r.Err? ==> r.error == ValueError
      ensures r.Ok? ==> |r.value| == |ret|
      ensures r.Ok? ==> forall i :: 0 <= i < |ret| ==>
                          && r.value[i].col == ret[i].col && r.value[i].params == ret[i].params
                          && r.value[i].alias == ret[i].alias
                          && r.value[i].sql == RewriteSql(ret[i].sql, sourceTranslations, sourceNullFields).value
    {
      var newRet: seq<SelectEntry> := [];
      for i := 0 to |ret|
        invariant |newRet| == i
        invariant forall j :: 0 <= j < i ==> CountChar(ret[j].sql, '.') == 1
        invariant forall j :: 0 <= j < i ==>
                    newRet[j] == ret[j].(sql := RewriteSql(ret[j].sql, sourceTranslations, sourceNullFields).value)
      {
        var sql := RewriteEntrySql(ret[i].sql, sourceTranslations, sourceNullFields);
        if sql.Err? {
          return Err(sql.error);
        }
        newRet := newRet + [ret[i].(sql := sql.value)];
      }
      r := Ok(newRet);
    }

    /** `get_from_clause_wrapper`: the first FROM entry becomes
        `(<source>) as <table>` (no check of what it was, no quoting of the
        table), the other entries stay, and the parameters are the source's
        followed by the base ones. An empty FROM list raises `IndexError`. */
    method GetFromClause(result: array<string>, params: seq<Value>) returns (r: Result<seq<Value>>)
      modifies result
      ensures result.Length == 0 ==> r == Err(IndexError)
      ensures result.Length > 0 ==> r == Ok(sourceParams + params)
      ensures result.Length > 0 ==> result[0] == "(" + Format(sourceRaw) + ") as " + model.dbTable
      ensures result.Length > 0 ==> result[1..] == old(result[1..])
    {
      if result.Length == 0 {
        return Err(IndexError);
      }
      result[0] := "(" + Format(sourceRaw) + ") as " + model.dbTable;
      r := Ok(sourceParams + params);
    }
  }

  /** `FacadeModelQuerySet`: a queryset whose query is a `FacadeModelQuery`. */
  class FacadeModelQuerySet {
    const model: ModelMeta
    var query: QuerySlot<FacadeModelQuery>

    /** A new `FacadeModelQuery` with the source settings is installed only
        when no query was handed in. */
    constructor(model: ModelMeta, query: Option<nat>, sourceRaw: Option<string>, sourceParams: Option<seq<Value>>,
                sourceTranslations: Option<Dict>, sourceNullFields: Option<seq<string>>)
      ensures this.model == model
      ensures query.Some? ==> this.query == PassedIn(query.value)
      ensures query.None? ==> this.query.Installed? && fresh(this.query.query)
      ensures query.None? ==> var q := this.query.query;
                              && q.model == model && q.sourceRaw == sourceRaw
                              && q.sourceParams == OrEmpty(sourceParams)
                              && q.sourceTranslations == OrEmpty(sourceTranslations)
                              && q.sourceNullFields == OrEmpty(sourceNullFields)
    {
      this.model := model;
      if query.Some? {
        this.query := PassedIn(query.value);
      } else {
        var q := new FacadeModelQuery(model, sourceRaw, sourceParams, sourceTranslations, sourceNullFields);
        this.query := Installed(q);
      }
    }
  }

  const NoSourceMessage := "Source raw was not provided!"

  /** `RawFacadeManager` and its subclass `QuerysetFacadeManager`, which
      only replaces `__call__`: the four source settings the last call
      recorded. `_source_raw` is unassigned until the first call. */
  class FacadeManager {
    const model: ModelMeta
    var sourceRaw: Attr<Option<string>>
    var sourceParams: Option<seq<Value>>
    var sourceTranslations: Option<Dict>
    var sourceNullFields: Option<seq<string>>

    constructor(model: ModelMeta)
      ensures this.model == model && sourceRaw == Unset
    {
      this.model := model;
      sourceRaw := Unset;
      sourceParams := None;
      sourceTranslations := None;
      sourceNullFields := None;
    }

    /** `RawFacadeManager.__call__(raw_query, params, translations,
        null_fields)`: the four settings are stored as given, and the
        manager itself is returned. */
    method CallRaw(rawQuery: Option<string>, params: Option<seq<Value>>, translations: Option<Dict>,
                   nullFields: Option<seq<string>>) returns (manager: FacadeManager)
      modifies this
      ensures manager == this
      ensures sourceRaw == Set(rawQuery) && sourceParams == params
      ensures sourceTranslations == translations && sourceNullFields == nullFields
    {
      sourceRaw := Set(rawQuery);
      sourceParams := params;
      sourceTranslations := translations;
      sourceNullFields := nullFields;
      manager := this;
    }

    /** `QuerysetFacadeManager.__call__(queryset, translations)`: the source
        is the queryset's compiled SQL and parameters, the translations are
        kept as given, and the null fields are the manager model's columns
        the queryset does not produce, each once. The manager itself is
        returned. */
    method CallQueryset(qs: QuerySetInfo, translations: Option<Dict>, asSql: AsSql) returns (manager: FacadeManager)
      modifies this
      ensures manager == this
      ensures sourceRaw == Set(Some(asSql(qs).0)) && sourceParams == Some(asSql(qs).1)
      ensures sourceTranslations == translations
      ensures sourceNullFields.Some? && NoDup(sourceNullFields.value)
      ensures forall c :: c in sourceNullFields.value <==> c in MissingColumns(Columns(model.fields), ProducedFields(qs, translations))
    {
      var querysetFields := QuerysetFields(qs, translations);
      var modelFields := Columns(model.fields);
      var nullFields := MissingColumnList(modelFields, querysetFields);
      var (raw, params) := asSql(qs);
      sourceRaw := Set(Some(raw));
      sourceParams := Some(params);
      sourceTranslations := translations;
      sourceNullFields := Some(nullFields);
      manager := this;
    }

    /** `RawFacadeManager.get_queryset`: raises while no raw source was
        given (before any call, or after a call with `None`); otherwise a
        `FacadeModelQuerySet` carrying the recorded settings. */
    method GetQueryset() returns (r: Result<FacadeModelQuerySet>)
      ensures sourceRaw == Unset ==> r == Err(AttributeError("_source_raw"))
      ensures sourceRaw == Set(None) ==> r == Err(Exception(NoSourceMessage))
      ensures sourceRaw.Set? && sourceRaw.value.Some? ==>
                r.Ok? && fresh(r.value) && r.value.model == model && r.value.query.Installed?
                && var q := r.value.query.query;
                   && q.sourceRaw == sourceRaw.value
                   && q.sourceParams == OrEmpty(sourceParams)
                   && q.sourceTranslations == OrEmpty(sourceTranslations)
                   && q.sourceNullFields == OrEmpty(sourceNullFields)
    {
      if sourceRaw.Unset? {
        return Err(AttributeError("_source_raw"));
      }
      if sourceRaw.value.None? {
        return Err(Exception(NoSourceMessage));
      }
      var qs := new FacadeModelQuerySet(model, None, sourceRaw.value, sourceParams, sourceTranslations, sourceNullFields);
      r := Ok(qs);
    }
  }

  /** A queryset-backed facade reads every column of the manager's model
      that the queryset does not produce as `Null`: such a column's select
      entry is rewritten to `Null as "<column>"`. */
  lemma MissingColumnReadsNull(m: FacadeManager, qs: QuerySetInfo, translations: Option<Dict>, table: string, column: string)
    requires m.sourceNullFields.Some?
    requires forall c :: c in m.sourceNullFields.value <==> c in MissingColumns(Columns(m.model.fields), ProducedFields(qs, translations))
    requires column in Columns(m.model.fields) && column !in ProducedFields(qs, translations)
    requires '.' !in table && '.' !in column
    ensures RewriteSql(table + "." + Quoted(column), OrEmpty(m.sourceTranslations), OrEmpty(m.sourceNullFields)).Ok?
    ensures RewriteSql(table + "." + Quoted(column), OrEmpty(m.sourceTranslations), OrEmpty(m.sourceNullFields)).value
            == "Null as " + Quoted(column)
  {
    var sql := table + "." + Quoted(column);
    var nf := m.sourceNullFields.value;
    assert column in nf;
    var k :| 0 <= k < |nf| && nf[k] == column;
    SplitTwo(table, Quoted(column));
    assert NullFilled(OrEmpty(m.sourceNullFields), Quoted(column)) by {
      assert Quoted(nf[k]) == Quoted(column);
    }
  }

  /** Splitting `a.b` on `.` gives `a` and `b` back when neither contains a dot. */
  lemma {:induction false} SplitTwo(a: string, b: string)
    requires '.' !in a && '.' !in b
    ensures Split(a + "." + b, '.') == [a, b]
    decreases |a|
  {
    if |a| == 0 {
      assert a + "." + b == ['.'] + b;
      assert (['.'] + b)[1..] == b;
      SplitNoSep(b);
    } else {
      var s := a + "." + b;
      assert s[0] == a[0] && s[1..] == a[1..] + "." + b;
      SplitTwo(a[1..], b);
      assert [a[0]] + a[1..] == a;
    }
  }

  /** A string without the separator splits into itself. */
  lemma {:induction false} SplitNoSep(s: string)
    requires '.' !in s
    ensures Split(s, '.') == [s]
    decreases |s|
  {
    if |s| > 0 {
      SplitNoSep(s[1..]);
      assert [s[0]] + s[1..] == s;
    }
  }

  /** The write operations of a read-only manager. */
  datatype WriteOp = BulkCreate | Create | GetOrCreate | Delete | Update

  /** `ReadOnlyRawFacadeManager` (and `RawSourceManager`): every write
      operation raises `NotImplementedError`. */
  function RefuseWrite(op: WriteOp): (r: Outcome)
    ensures r == Fail(NotImplementedError)
  {
    Fail(NotImplementedError)
  }
}
