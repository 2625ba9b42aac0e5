/** dynamic_source_models/models.py: the oldest generation. A
    `DynamicSourceQuery` replaces the quoted table in the FROM clause with
    the parenthesised source; `RawSourceManager` records raw SQL and
    parameters, and `QuerySetSourceManager` records the compiled SQL of a
    queryset after annotating a NULL for every column it lacks. */
module DynamicModels {
  import opened Python
  import opened Meta
  import opened SourceRules
  import opened FacadeManagers

  /** The FROM rewrite of `DynamicSourceQuery.get_compiler`. */
  class DynamicSourceQuery {
    const model: ModelMeta
    const sourceRaw: Option<string>
    const sourceParams: Option<seq<Value>>

    constructor(model: ModelMeta, sourceRaw: Option<string>, sourceParams: Option<seq<Value>>)
      ensures this.model == model && this.sourceRaw == sourceRaw && this.sourceParams == sourceParams
    {
      this.model := model;
      this.sourceRaw := sourceRaw;
      this.sourceParams := sourceParams;
    }

    /** The compiler's wrapped `get_from_clause`: the first FROM entry must be
        the double-quoted table name; it becomes `(<source>) as <table>` and
        the other entries stay; the parameters are the source's followed by
        the base ones. `None` parameters raise `TypeError`, but only after
        the entry has been written. */
    method GetFromClause(result: array<string>, params: seq<Value>) returns (r: Result<seq<Value>>)
      modifies result
      ensures result.Length == 0 ==> r == Err(IndexError)
      ensures result.Length > 0 && old(result[0]) != Quoted(model.dbTable) ==>
                r == Err(AssertionError("")) && result[..] == old(result[..])
      ensures result.Length > 0 && old(result[0]) == Quoted(model.dbTable) ==>
                && result[0] == "(" + Format(sourceRaw) + ") as " + model.dbTable
                && result[1..] == old(result[1..])
                && (sourceParams.None? ==> r == Err(TypeError))
                && (sourceParams.Some? ==> r == Ok(sourceParams.value + params))
    {
      if result.Length == 0 {
        return Err(IndexError);
      }
      if result[0] != Quoted(model.dbTable) {
        return Err(AssertionError(""));
      }
      result[0] := "(" + Format(sourceRaw) + ") as " + model.dbTable;
      if sourceParams.None? {
        return Err(TypeError);
      }
      r := Ok(sourceParams.value + params);
    }
  }

  /** `DynamicSourceQuerySet`: a queryset whose query is a `DynamicSourceQuery`. */
  class DynamicSourceQuerySet {
    const model: ModelMeta
    var query: QuerySlot<DynamicSourceQuery>

    /** A new `DynamicSourceQuery` with the source is installed only when no
        query was handed in. */
    constructor(model: ModelMeta, query: Option<nat>, sourceRaw: Option<string>, sourceParams: Option<seq<Value>>)
      ensures this.model == model
      ensures query.Some? ==> this.query == PassedIn(query.value)
      ensures query.None? ==> this.query.Installed? && fresh(this.query.query)
      ensures query.None? ==> var q := this.query.query;
                              q.model == model && q.sourceRaw == sourceRaw && q.sourceParams == sourceParams
    {
      this.model := model;
      if query.Some? {
        this.query := PassedIn(query.value);
      } else {
        var q := new DynamicSourceQuery(model, sourceRaw, sourceParams);
        this.query := Installed(q);
      }
    }
  }

  /** The NULL annotations `annotate(**{name: Value(None)})` adds, one per
      name, in the order given. */
  function NullAnnotations(names: seq<string>): (anns: seq<Annotation>)
    ensures |anns| == |names|
    ensures forall i :: 0 <= i < |names| ==> anns[i] == Annotation(names[i], NullLiteral)
  {
    seq(|names|, i requires 0 <= i < |names| => Annotation(names[i], NullLiteral))
  }

  /** The loop that reassigns the queryset once per missing column: each
      step adds one NULL annotation under the column's name and leaves the
      model and the selection alone. */
  method AnnotateNull(qs: QuerySetInfo, names: seq<string>) returns (annotated: QuerySetInfo)
    ensures annotated == qs.(annotations := qs.annotations + NullAnnotations(names))
  {
    annotated := qs;
    for i := 0 to |names|
      invariant annotated == qs.(annotations := qs.annotations + NullAnnotations(names[..i]))
    {
      assert NullAnnotations(names[..i + 1]) == NullAnnotations(names[..i]) + [Annotation(names[i], NullLiteral)];
      annotated := annotated.(annotations := annotated.annotations + [Annotation(names[i], NullLiteral)]);
    }
    assert names[..|names|] == names;
  }

  /** The annotations a source queryset ends up with: each column of the
      target missing from what the queryset produces is annotated exactly
      once, and no other name is. */
  lemma NullAnnotatedOnce(qs: QuerySetInfo, target: seq<string>, names: seq<string>, column: string)
    requires NoDup(names)
    requires forall c :: c in names <==> c in MissingColumns(target, DynamicProducedFields(qs))
    ensures column in target && column !in DynamicProducedFields(qs) ==>
              |set i | 0 <= i < |names| && NullAnnotations(names)[i].name == column| == 1
    ensures !(column in target && column !in DynamicProducedFields(qs)) ==>
              |set i | 0 <= i < |names| && NullAnnotations(names)[i].name == column| == 0
  {
    var hits := set i | 0 <= i < |names| && NullAnnotations(names)[i].name == column;
    if column in target && column !in DynamicProducedFields(qs) {
      assert column in MissingColumns(target, DynamicProducedFields(qs));
      assert column in names;
      var k :| 0 <= k < |names| && names[k] == column;
      assert hits == {k};
    } else {
      assert column !in names;
      forall i | 0 <= i < |names|
        ensures NullAnnotations(names)[i].name != column
      {
        assert names[i] in names;
      }
      assert hits == {};
    }
  }

  /** `RawSourceManager` and its subclass `QuerySetSourceManager`, which
      replaces `__call__`: the raw SQL and parameters the manager builds its
      querysets from. */
  class SourceManager {
    const model: ModelMeta
    var sourceRaw: Option<string>
    var sourceParams: Option<seq<Value>>

    /** `RawSourceManager.__init__(source_raw=None, source_params=[])`. */
    constructor(model: ModelMeta, sourceRaw: Option<string>, sourceParams: Option<seq<Value>>)
      ensures this.model == model && this.sourceRaw == sourceRaw && this.sourceParams == sourceParams
    {
      this.model := model;
      this.sourceRaw := sourceRaw;
      this.sourceParams := sourceParams;
    }

    /** `RawSourceManager.__call__(source_raw, source_params)`: both are
        stored as given, and the manager itself is returned. */
    method CallRaw(raw: Option<string>, params: Option<seq<Value>>) returns (manager: SourceManager)
      modifies this
      ensures manager == this
      ensures sourceRaw == raw && sourceParams == params
    {
      sourceRaw := raw;
      sourceParams := params;
      manager := this;
    }

    /** `QuerySetSourceManager.__call__(source_queryset)`: every column of
        the manager's model that the queryset does not produce is annotated
        as NULL under its own name, once, in the order the set yields them
        (`added`); the source is the compiled SQL of the annotated queryset.
        The manager itself is returned. */
    method CallQueryset(qs: QuerySetInfo, asSql: AsSql) returns (manager: SourceManager, added: seq<string>)
      modifies this
      ensures manager == this
      ensures NoDup(added)
      ensures forall c :: c in added <==> c in MissingColumns(Columns(model.fields), DynamicProducedFields(qs))
      ensures var annotated := qs.(annotations := qs.annotations + NullAnnotations(added));
              sourceRaw == Some(asSql(annotated).0) && sourceParams == Some(asSql(annotated).1)
    {
      var querysetFields := DynamicQuerysetFields(qs);
      var modelFields := Columns(model.fields);
      added := MissingColumnList(modelFields, querysetFields);
      var annotated := AnnotateNull(qs, added);
      var (raw, params) := asSql(annotated);
      sourceRaw := Some(raw);
      sourceParams := Some(params);
      manager := this;
    }

    /** `RawSourceManager.get_queryset`: raises while the raw SQL is `None`;
        otherwise a `DynamicSourceQuerySet` carrying the SQL and parameters. */
    method GetQueryset() returns (r: Result<DynamicSourceQuerySet>)
      ensures sourceRaw.None? ==> r == Err(Exception(NoSourceMessage))
      ensures sourceRaw.Some? ==>
                r.Ok? && fresh(r.value) && r.value.model == model && r.value.query.Installed?
                && r.value.query.query.sourceRaw == sourceRaw && r.value.query.query.sourceParams == sourceParams
    {
      if sourceRaw.None? {
        return Err(Exception(NoSourceMessage));
      }
      var qs := new DynamicSourceQuerySet(model, None, sourceRaw, sourceParams);
      r := Ok(qs);
    }
  }
}
