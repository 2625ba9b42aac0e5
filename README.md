# django-raw-sugar, modelled in Dafny

django-raw-sugar lets a Django model be read from a substitute source
instead of its own table: either raw SQL text with bind parameters, or the
compiled SQL of another queryset. When the queryset is compiled, the engine
does three things:

- it replaces the model's table in the FROM clause with the source;
- it reconciles the source's columns with the model's columns, renaming
  translated columns and synthesising `NULL` for columns the source lacks;
- it puts the source's bind parameters before the outer statement's.

The repository holds three generations of this engine, and all three are
modelled:

- `raw_sugar` is the current one: `FromRaw`/`FromQuerySet` sources, a
  wrapper sub-select in the FROM clause, `RawManager`, and the
  `DecoratedRawManager` state machine;
- `facade_model` rewrites the select list entry by entry;
- `dynamic_source_models` annotates NULL columns on the source queryset.

Layout, one Dafny module per file:

| file | module | models |
|---|---|---|
| python.dfy | `Python` | the Python semantics the code relies on: exceptions as `Result`/`Outcome`, truthiness, `'{}'.format` of `None`, `str.split`/`str.join` |
| meta.dfy | `Meta` | model metadata (table name, ordered fields), querysets (annotations, `values()` selection), dicts as ordered item lists |
| source_rules.dfy | `SourceRules` | the rules all generations share: `FromRaw` validation, the produced-field list, the missing-column set |
| sugar_sources.dfy | `SugarSources` | raw_sugar/sources.py: `Source` is a class (its attributes are rebound in place) |
| sugar_query.dfy | `SugarQuery` | raw_sugar/query.py: the FROM rewrite, as a specification function and as the method that writes `result[0]` in place |
| sugar_managers.dfy | `SugarManagers` | raw_sugar/managers.py: `RawManager`, `DecoratedRawManager` and its call state machine, `raw_manager` |
| facade_sources.dfy | `FacadeSources` | facade_model/sources.py |
| facade_managers.dfy | `FacadeManagers` | facade_model/managers.py: the select-list and FROM rewrites and the facade managers |
| dynamic_models.dfy | `DynamicModels` | dynamic_source_models/models.py |

Django itself stays outside the model:

- `connection.ops.quote_name` and `query.as_sql` are function parameters
  (`QuoteName`, `AsSql`);
- the base compiler's `get_from_clause` result is an `array<string>` of
  entries plus a parameter sequence, and the rewrites write that array in
  place;
- a Python callable handed to `DecoratedRawManager` is an `Obj.FuncObj(id)`,
  and what calling it does is the manager's `run` function.

Where the code departs from the engine's general design, the model follows
the code:

- the wrapper's select list is not in declared-column order; it lists the
  passthrough columns, then every NULL column, then every translation;
- no column-coverage, ambiguous-translation or rebind-count errors are
  raised anywhere;
- misuse raises Python's `AssertionError` or `TypeError`, not dedicated
  error types;
- a table-name source keeps whatever parameters it was given.

## Model

| member | source | states |
|---|---|---|
| SourceRules.SourceText | raw_sugar/sources.py:19-23 | accepted exactly when one of `raw_query`/`db_table` is truthy; neither gives the "must be provided" assertion, both give the "not both" assertion; the text is `db_table` verbatim or `(raw_query)` |
| SourceRules.ColumnFor | raw_sugar/sources.py:35-41 | a selected name maps to the column of the first field with that name, or stays itself when no field has it |
| SourceRules.AppendSelected | raw_sugar/sources.py:34-41 | the nested `for … break … else` loops append exactly the mapped columns of the selection, in selection order |
| SourceRules.QuerysetFields | raw_sugar/sources.py:31-44 | the produced fields are the annotation names, then the translation targets (when translations are truthy), then the selected columns, or every column of the queryset's model when nothing was selected |
| SourceRules.DynamicQuerysetFields | dynamic_source_models/models.py:85-92 | the produced fields are the annotation names followed by the selected columns, with no translations and no all-columns fallback |
| SourceRules.MissingColumnList | raw_sugar/sources.py:53-56 | `list(set(target) - set(produced))` holds each target column that is not produced, exactly once, and nothing else |
| SourceRules.TranslationTargetsNotMissing | raw_sugar/sources.py:32-33 | a translation target is always among the produced fields, so it is never null-filled |
| SourceRules.AllColumnsQuerysetNoNullFill | raw_sugar/sources.py:42-43 | a queryset with no annotations and no selection produces all its model's columns, so a target whose columns it has gets no null fields |
| SourceRules.SelectionCoveringTargetNoNullFill | raw_sugar/sources.py:34-41 | a selection whose mapped columns cover the target leaves nothing to null-fill |
| SugarSources.Source.Copy | raw_sugar/sources.py:6-7 | the shallow copy is a new object whose attributes all equal the original's |
| SugarSources.SourceMethods | raw_sugar/sources.py:5-56 | both source classes have `copy` and `with_params`; only `FromQuerySet` has `_set_target_model`; neither has `_calculate_null_fields` |
| SugarSources.Source.WithParams | raw_sugar/sources.py:9-12 | the clone's params are exactly the arguments, its other attributes equal the original's, and the original is untouched |
| SugarSources.Source.SetTargetModel | raw_sugar/sources.py:53-56 | on a `FromQuerySet`, `null_fields` becomes each target column that the source does not produce, exactly once; a `FromRaw` has no `_set_target_model`, so the call raises AttributeError naming that method and keeps its null fields |
| SugarSources.RawDescriptor | raw_sugar/sources.py:24-26 | missing or empty params, translations and null fields become empty, present ones are kept |
| SugarSources.FromRaw | raw_sugar/sources.py:16-26 | the constructor fails exactly as `SourceText` says; otherwise it returns a new `FromRaw` with the validated text and the defaulted attributes |
| SugarSources.FromQuerySet | raw_sugar/sources.py:30-51 | records the produced fields, parenthesises the compiled SQL, takes its parameters, defaults the translations and starts with no null fields |
| SugarQuery.PassthroughAppend | raw_sugar/query.py:19-25 | the passthrough filter distributes over concatenation, so the passthrough columns keep model-field order |
| SugarQuery.PassthroughCount | raw_sugar/query.py:19-25 | each passthrough column occurs as often as among the model's columns, and no other column occurs |
| SugarQuery.PassthroughMember | raw_sugar/query.py:21-22 | a column passes through exactly when it is a model column that is neither a translation target nor a null field |
| SugarQuery.WrapperSelectList | raw_sugar/query.py:18-33 | the wrapper select list is the passthrough columns as `wrapper_table.col`, then `NULL AS f` per null field, then `wrapper_table.k AS v` per translation; its length is the sum of the three |
| SugarQuery.BuildWrapperSelect | raw_sugar/query.py:18-33 | the three append loops build exactly that list |
| SugarQuery.FromEntry | raw_sugar/query.py:17-41 | fast path: with no translations and no null fields the entry is `<source> AS qn(table)`; otherwise it is the `(SELECT … FROM <source> AS qn(wrapper_table)) AS qn(table)` sub-select |
| SugarQuery.SugarFrom | raw_sugar/query.py:13-43 | an empty FROM list raises IndexError; a first entry other than the quoted table fails the assertion; a missing source raises AttributeError; otherwise only the first entry is replaced, and the parameters are the source's followed by the base ones, with total length the sum of the two |
| SugarQuery.RebindKeepsShape | raw_sugar/query.py:40-42 | a source rebound with `with_params(args)` rewrites to the same entries, with parameters exactly `args` followed by the base ones |
| SugarQuery.PlainDerivedSourceFastPath | raw_sugar/query.py:38-42 | a plain queryset with no translations, derived onto a model whose columns it has, takes the fast path `(<sql>) AS qn(table)` with its parameters first |
| SugarQuery.RawSugarQuery.constructor | raw_sugar/query.py:5-7 | the query carries the model and the source it was given (`None` when none was) |
| SugarQuery.RawSugarQuery.GetFromClause | raw_sugar/query.py:13-43 | writes `result` and returns the parameters exactly as `SugarFrom` says; on an error nothing is written |
| SugarQuery.RawSugarQuerySet.constructor | raw_sugar/query.py:50-57 | a new query carrying the source is installed only when no query was passed in |
| SugarManagers.CheckSourceType | raw_sugar/managers.py:52-55 | passes exactly for a `FromRaw` or `FromQuerySet`, otherwise fails the assertion with its message |
| SugarManagers.FromRawQuerySet | raw_sugar/managers.py:7-14 | fails exactly when the `FromRaw` construction fails; otherwise it returns a new queryset over the manager's model carrying the new `FromRaw` |
| SugarManagers.FromQuerysetAsWritten | raw_sugar/managers.py:16-21 | as written, `from_queryset` always raises AttributeError for `_calculate_null_fields` |
| SugarManagers.FromQueryset | raw_sugar/managers.py:16-21 | with the intended null-field step, the derived source's null fields are each of the model's columns that the queryset does not produce, exactly once |
| SugarManagers.RawManager.New | raw_sugar/managers.py:25-31 | only `None` or a `FromRaw` is accepted; anything else fails the assertion |
| SugarManagers.RawManager.GetQueryset | raw_sugar/managers.py:33-39 | a stored `FromRaw` gives a new sugar queryset carrying it; otherwise the default queryset |
| SugarManagers.InitCheckAsWritten | raw_sugar/managers.py:46-47 | as written, construction passes exactly in callable mode or when the function is callable |
| SugarManagers.InitCheck | raw_sugar/managers.py:46-47 | as intended, construction also passes when the function is still to be set by the next call |
| SugarManagers.DispatchState | raw_sugar/managers.py:86-93 | a function argument gives a manager holding it; a truthy flag gives callable mode waiting for its function; a falsy flag gives a manager that is only waiting for its function |
| SugarManagers.FalsyDispatchFailsAsWritten | raw_sugar/managers.py:46-47 | as written, `raw_manager(is_callable)` fails the constructor's assertion exactly when `is_callable` is neither callable nor truthy (`raw_manager()`, `raw_manager(False)`) |
| SugarManagers.DispatchNeverFails | raw_sugar/managers.py:86-93 | with the intended check, every branch of `raw_manager` builds a manager |
| SugarManagers.CallStep | raw_sugar/managers.py:57-72 | waiting for the function: no positional argument raises IndexError with the state unchanged; a non-callable first argument is stored and then fails the assertion, the flag still set; a callable one is stored, clears the flag and returns the manager (exactly this case returns it). Set up: the state never changes; outside callable mode, or with a non-callable function, the call raises TypeError; otherwise the function's exception propagates, a non-source result fails the type check, and a source is used exactly when the function returned one |
| SugarManagers.SetupHappensAtMostOnce | raw_sugar/managers.py:58-62 | over any sequence of calls the manager returns itself at most once, and never when it was not waiting for its function |
| SugarManagers.NonCallableCallsRaise | raw_sugar/managers.py:71-72 | once set up outside callable mode, every call raises TypeError |
| SugarManagers.DecoratedRawManager.New | raw_sugar/managers.py:43-50 | builds a manager in the given state exactly when the (intended) constructor check passes |
| SugarManagers.DecoratedRawManager.Call | raw_sugar/managers.py:57-72 | the attributes move as `CallStep` says; a returned `FromQuerySet` gets null fields for the model's unproduced columns before a new queryset carrying the source is returned; only the returned source's null fields change |
| SugarManagers.DecoratedRawManager.CallAsWritten | raw_sugar/managers.py:57-72 | as written: the attributes move as `CallStep` says, a returned `FromRaw` gives a new queryset carrying it, and a returned `FromQuerySet` raises AttributeError for `_calculate_null_fields` |
| SugarManagers.DecoratedRawManager.GetQueryset | raw_sugar/managers.py:74-83 | callable mode raises TypeError; otherwise the function is called with the model alone and must return a source, which a new queryset carries |
| SugarManagers.RawManagerDispatch | raw_sugar/managers.py:86-93 | with the intended constructor check, `raw_manager` always yields a manager in the `DispatchState` state |
| SugarManagers.RawManagerDispatchAsWritten | raw_sugar/managers.py:86-93 | as written, `raw_manager` yields a manager in the `DispatchState` state, except for a non-callable falsy argument, which fails the constructor's assertion |
| FacadeSources.FacadeSource.CalculateNullFields | facade_model/sources.py:42-44 | on a `FromQuerySet`, `null_fields` becomes each target column that the source does not produce, exactly once; a `FromRaw` has no `_calculate_null_fields`, so the call raises AttributeError naming that method and keeps its null fields |
| FacadeSources.FromRaw | facade_model/sources.py:5-15 | the same validation and text as raw_sugar's; params, translations and null fields are stored exactly as given |
| FacadeSources.FromQuerySet | facade_model/sources.py:19-40 | records the produced fields, parenthesises the compiled SQL, keeps the translations as given and starts with empty null fields |
| FacadeManagers.FirstTranslation | facade_model/managers.py:27-33 | the index of the first translation whose quoted target is the field, or none when no translation matches |
| FacadeManagers.RewriteSql | facade_model/managers.py:24-39 | SQL without exactly one `.` raises ValueError; a null-filled field gives `Null as "f"` even when a translation matches; otherwise the first matching translation gives `table.k as "v"`; otherwise the SQL is unchanged |
| FacadeManagers.RewriteEntrySql | facade_model/managers.py:26-37 | the translation loop with `break`, then the null-field loop with `break`, compute exactly `RewriteSql` |
| FacadeManagers.SplitTwo | facade_model/managers.py:26 | `table.field` with no dot in either part unpacks back into the two parts |
| FacadeManagers.MissingColumnReadsNull | facade_model/managers.py:34-37 | after `QuerysetFacadeManager.__call__`, a model column the queryset does not produce is selected as `Null as "col"` |
| FacadeManagers.FacadeModelQuery.constructor | facade_model/managers.py:5-11 | `None` (or empty) params, translations and null fields become empty |
| FacadeManagers.FacadeModelQuery.GetSelect | facade_model/managers.py:20-42 | the select list keeps its length and order and each entry's column, params and alias; each entry's SQL is rewritten as `RewriteSql` says; any malformed entry raises ValueError |
| FacadeManagers.FacadeModelQuery.GetFromClause | facade_model/managers.py:47-52 | the first entry becomes `(<raw>) as <table>` and the rest stay; the parameters are the source's followed by the base ones; an empty list raises IndexError |
| FacadeManagers.FacadeModelQuerySet.constructor | facade_model/managers.py:59-71 | a new facade query carrying the settings is installed only when no query was passed in |
| FacadeManagers.FacadeManager.CallRaw | facade_model/managers.py:75-80 | the four settings are stored as given and the manager itself is returned |
| FacadeManagers.FacadeManager.CallQueryset | facade_model/managers.py:113-138 | the source is the compiled SQL and its parameters; the null fields are each of the model's columns that the queryset does not produce, exactly once; the manager itself is returned |
| FacadeManagers.FacadeManager.GetQueryset | facade_model/managers.py:82-92 | before any call it raises AttributeError; with a `None` source it raises "Source raw was not provided!"; otherwise it returns a new queryset carrying the defaulted settings |
| FacadeManagers.RefuseWrite | facade_model/managers.py:95-109 | every write operation of the read-only manager raises NotImplementedError (the same holds for `RawSourceManager`, dynamic_source_models/models.py:61-74) |
| DynamicModels.DynamicSourceQuery.constructor | dynamic_source_models/models.py:5-9 | the query carries the model, the raw SQL and the params it was given |
| DynamicModels.DynamicSourceQuery.GetFromClause | dynamic_source_models/models.py:16-22 | the first entry must be `"table"`; it becomes `(<raw>) as table` and the rest stay; the parameters are the source's followed by the base ones; `None` params raise TypeError after the entry was written |
| DynamicModels.DynamicSourceQuerySet.constructor | dynamic_source_models/models.py:30-36 | a new dynamic query carrying the source is installed only when no query was passed in |
| DynamicModels.NullAnnotations | dynamic_source_models/models.py:96-98 | one `Value(None)` annotation per name, under that name, in order |
| DynamicModels.AnnotateNull | dynamic_source_models/models.py:96-98 | the reassigning loop appends exactly those annotations and changes nothing else in the queryset |
| DynamicModels.NullAnnotatedOnce | dynamic_source_models/models.py:94-98 | every target column missing from the produced fields gets exactly one NULL annotation; every other name gets none |
| DynamicModels.SourceManager.constructor | dynamic_source_models/models.py:40-44 | the raw SQL and params are stored as given |
| DynamicModels.SourceManager.CallRaw | dynamic_source_models/models.py:46-49 | the raw SQL and params are stored as given and the manager itself is returned |
| DynamicModels.SourceManager.CallQueryset | dynamic_source_models/models.py:84-105 | each missing column is annotated as NULL exactly once, and the stored source is the compiled SQL and parameters of the annotated queryset; the manager itself is returned |
| DynamicModels.SourceManager.GetQueryset | dynamic_source_models/models.py:51-59 | a `None` source raises "Source raw was not provided!"; otherwise a new queryset carrying the SQL and params |

## Left out

- Django's compiler, `query.as_sql`, `quote_name`, `annotate`, `models.Value` and `_meta` are inputs: compiled `(sql, params)` pairs, a quoting function and ordered field lists. The SQL text is never parsed.
- `using=self._db`: the database alias a queryset is bound to is not modelled.
- Python's `-O` flag, which strips `assert` statements, is not modelled; every assertion is checked.
- A queryset handed in through `query=` is known by an identity only (`QuerySlot.PassedIn`). Django's own queryset state is not modelled.
- `klass_info` and `annotations` pass through `get_select_wrapper` unchanged, so they are not modelled.
- Dicts are their item lists in insertion order. Python guarantees distinct keys; nothing in the model depends on that.
- `list(set(...))` and iteration over a set have no specified order. `MissingColumnList` picks elements in an arbitrary order, so every contract holds for any order.
- Exception messages: IndexError, TypeError and ValueError carry none, and AttributeError carries only the attribute name.
- SugarManagers.CheckSourceType: its message omits the type name the source appends with `%`.
- SugarManagers.RawManager.New: its message omits the type name the source appends with `%`.
- SugarManagers.DecoratedRawManager.Call: uses the intended null-field step (`_set_target_model`). As written, a returned `FromQuerySet` raises AttributeError; that behaviour is `DecoratedRawManager.CallAsWritten` (see Findings).
- SugarManagers.DecoratedRawManager.New: uses the intended constructor check. The as-written check is `InitCheckAsWritten` (see Findings).
- SugarManagers.RawManagerDispatch: uses the intended constructor check, so it always yields a manager. As written, `raw_manager()` and `raw_manager(False)` fail the assertion instead; that behaviour is `RawManagerDispatchAsWritten` (see Findings).
- RawManagerMixin: `from_raw`'s mutable default arguments (`params=[]`, …) are never mutated by the code, so they behave as fresh empty values.
- `RawFacadeManager` and `QuerysetFacadeManager` are one Dafny class, `FacadeManager`, because the subclass only replaces `__call__`. Likewise `RawSourceManager` and `QuerySetSourceManager` are `SourceManager`. Dafny classes have no inheritance without traits.
- `QuerySetSourceManager.__init__` is left out. Its `if source_queryset:` evaluates the queryset against the database. It also calls `__call__` before Django has attached the manager to a model.
- `QuerySetSourceManager._get_model_field` (the output field of each NULL annotation) is left out. So is Django's check that an annotation name does not clash with a field of the source queryset's model.
- `DynamicSourceModel.delete`/`save` are left out. They are model-instance methods that only raise NotImplementedError, and the model has no instances.
- `ReadOnlyRawFacadeManager` derives from Django's `Manager`, not from `RawFacadeManager`. It therefore has no `__call__`, and the model gives it only its write refusals (`RefuseWrite`).
- `FacadeManager` stores only `_source_raw` as possibly unassigned. The other three settings are read only after `_source_raw` has been read successfully.
- The decorator modules (`_classproperty`, `manager_from_raw`, `source_queryset`, raw_sugar/decorators.py) are descriptor plumbing and are not part of this model. raw_sugar/decorators.py also imports a class that raw_sugar/managers.py does not define.

## Findings

| source | as written | input that shows it | evidently intended | confidence | as-written member | corrected member |
|---|---|---|---|---|---|---|
| raw_sugar/managers.py:18 | `from_queryset` calls `source._calculate_null_fields(self.model)`, but raw_sugar's `FromQuerySet` names that method `_set_target_model` (raw_sugar/sources.py:53) | any `Model.objects.from_queryset(qs)` on a `RawManager` | compute the null fields with `_set_target_model` | high (not executed) | SugarManagers.FromQuerysetAsWritten | SugarManagers.FromQueryset |
| raw_sugar/managers.py:67 | `DecoratedRawManager.__call__` calls `source._calculate_null_fields(self.model)` on a returned `FromQuerySet`, a method raw_sugar's sources do not have | a callable-mode manager whose function returns a `FromQuerySet` | compute the null fields with `_set_target_model` | high (not executed) | SugarManagers.DecoratedRawManager.CallAsWritten | SugarManagers.DecoratedRawManager.Call |
| raw_sugar/managers.py:46-47 | outside callable mode the constructor asserts `callable(_source_func)`, even when the function is to come with the next call; `raw_manager(False)` passes no function (line 93) | `raw_manager()` or `raw_manager(is_callable=False)` | skip the assertion while `_set_source_func_on_next_call` is set | high (not executed) | SugarManagers.FalsyDispatchFailsAsWritten | SugarManagers.DispatchNeverFails |
