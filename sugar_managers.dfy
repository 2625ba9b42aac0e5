/** raw_sugar/managers.py: the managers of the current generation.
    `RawManagerMixin` builds querysets from a raw source or from another
    queryset, `RawManager` holds a fixed `FromRaw`, and `DecoratedRawManager`
    holds a source function: a one-shot "take the function on the next call"
    flag, and a callable mode in which each call passes its arguments to the
    function. Python objects the managers receive are `Obj` values; what
    calling a Python function does is the manager's `run` function. */
module SugarManagers {
  import opened Python
  import opened Meta
  import opened SourceRules
  import opened SugarSources
  import opened SugarQuery

  /** A Python object handed to a manager: a plain value (`None` among
      them), a callable (known by its identity), or a source object. */
  datatype Obj = ValueObj(v: Value) | FuncObj(id: nat) | SourceObj(source: Source)

  /** Python's `None` as an object. */
  const NoneObj: Obj := ValueObj(NoneValue)

  /** `callable(o)` */
  predicate Callable(o: Obj) {
    o.FuncObj?
  }

  /** `bool(o)`: functions and other objects are truthy. */
  predicate Truthy(o: Obj) {
    match o
    case ValueObj(v) => TruthyValue(v)
    case FuncObj(_) => true
    case SourceObj(_) => true
  }

  /** `isinstance(o, FromRaw)` */
  predicate IsFromRaw(o: Obj) {
    o.SourceObj? && o.source.kind == FromRawKind
  }

  /** `*args, **kwargs` */
  datatype CallArgs = CallArgs(positional: seq<Obj>, keyword: seq<(string, Obj)>)

  /** What a call of a Python function did: returned an object or raised. */
  datatype Returned = Returns(result: Obj) | Raises(error: Error)

  /** `run(f, model, args)` is what calling the Python callable `f` as
      `f(model, *args, **kwargs)` does. */
  type Invoke = (nat, ModelMeta, CallArgs) -> Returned

  const SourceTypeMessage := "Expected a `FromRaw` or `FromQuerySet` to be returned from the manager method"
  const RawManagerSourceMessage := "Expected a `FromRaw` to be passed to 'from_raw'"

  /** `DecoratedRawManager._check_source_type`: only a `FromRaw` or a
      `FromQuerySet` is accepted. */
  function CheckSourceType(o: Obj): (r: Outcome)
    ensures r == Pass <==> o.SourceObj?
    ensures r.Fail? ==> r.error == AssertionError(SourceTypeMessage)
  {
    if o.SourceObj? then Pass else Fail(AssertionError(SourceTypeMessage))
  }

  /** `RawManagerMixin.from_raw`: a `RawSugarQuerySet` over the manager's
      model whose new query carries a new `FromRaw`; the `FromRaw`
      assertions surface unchanged. */
  method FromRawQuerySet(model: ModelMeta, rawQuery: Option<string>, params: Option<seq<Value>>,
                         translations: Option<Dict>, nullFields: Option<seq<string>>, dbTable: Option<string>)
    returns (r: Result<RawSugarQuerySet>)
    ensures r.Err? <==> SourceText(rawQuery, dbTable).Err?
    ensures r.Err? ==> r.error == SourceText(rawQuery, dbTable).error
    ensures r.Ok? ==> fresh(r.value) && r.value.model == model && r.value.query.Installed?
    ensures r.Ok? ==> var s := r.value.query.query.source;
                      && s != null && s.kind == FromRawKind
                      && s.View() == RawDescriptor(SourceText(rawQuery, dbTable).value, params, translations, nullFields)
  {
    var source := FromRaw(rawQuery, params, translations, nullFields, dbTable);
    if source.Err? {
      return Err(source.error);
    }
    var qs := new RawSugarQuerySet(model, None, source.value);
    r := Ok(qs);
  }

  /** `RawManagerMixin.from_queryset` as written: after building the
      `FromQuerySet` it calls `source._calculate_null_fields(self.model)`,
      a method raw_sugar's sources do not have, so the call always fails. */
  method FromQuerysetAsWritten(model: ModelMeta, qs: QuerySetInfo, translations: Option<Dict>, asSql: AsSql)
    returns (r: Result<RawSugarQuerySet>)
    ensures r == Err(AttributeError("_calculate_null_fields"))
  {
    var source := FromQuerySet(qs, translations, asSql);
    if "_calculate_null_fields" !in SourceMethods(source.kind) {
      return Err(AttributeError("_calculate_null_fields"));
    }
    var qset := new RawSugarQuerySet(model, None, source);
    r := Ok(qset);
  }

  /** `RawManagerMixin.from_queryset` with the null-field computation the
      source intends (`_set_target_model`): the derived source's null fields
      are exactly the model's columns it does not produce. */
  method FromQueryset(model: ModelMeta, qs: QuerySetInfo, translations: Option<Dict>, asSql: AsSql)
    returns (qset: RawSugarQuerySet)
    ensures fresh(qset) && qset.model == model && qset.query.Installed?
    ensures var s := qset.query.query.source;
            && s != null && s.kind == FromQuerySetKind
            && s.rawQuery == "(" + asSql(qs).0 + ")" && s.params == asSql(qs).1
            && s.translations == OrEmpty(translations)
            && NoDup(s.nullFields)
            && forall c :: c in s.nullFields <==> c in MissingColumns(Columns(model.fields), ProducedFields(qs, translations))
  {
    var source := FromQuerySet(qs, translations, asSql);
    var _ := source.SetTargetModel(model);
    qset := new RawSugarQuerySet(model, None, source);
  }

  /** What a manager's `get_queryset` returns: Django's default queryset, or
      a `RawSugarQuerySet`. */
  datatype ManagerQuerySet = DefaultQuerySet | SugarQuerySet(qs: RawSugarQuerySet)

  /** `RawManager`: a manager with a fixed `FromRaw` source, or none. */
  class RawManager {
    const model: ModelMeta
    var source: Obj

    constructor Create(model: ModelMeta, source: Obj)
      ensures this.model == model && this.source == source
    {
      this.model := model;
      this.source := source;
    }

    /** `RawManager.__init__(from_raw)`: only `None` or a `FromRaw` is accepted. */
    static method New(model: ModelMeta, fromRaw: Obj) returns (r: Result<RawManager>)
      ensures r.Ok? <==> fromRaw == NoneObj || IsFromRaw(fromRaw)
      ensures r.Err? ==> r.error == AssertionError(RawManagerSourceMessage)
      ensures r.Ok? ==> fresh(r.value) && r.value.model == model && r.value.source == fromRaw
    {
      if fromRaw != NoneObj && !IsFromRaw(fromRaw) {
        return Err(AssertionError(RawManagerSourceMessage));
      }
      var m := new RawManager.Create(model, fromRaw);
      r := Ok(m);
    }

    /** `RawManager.get_queryset`: a `RawSugarQuerySet` carrying the stored
        source when it is a `FromRaw`, Django's default queryset otherwise. */
    method GetQueryset() returns (r: ManagerQuerySet)
      ensures IsFromRaw(source) ==>
                r.SugarQuerySet? && fresh(r.qs) && r.qs.model == model
                && r.qs.query.Installed? && r.qs.query.query.source == source.source
      ensures !IsFromRaw(source) ==> r == DefaultQuerySet
    {
      if IsFromRaw(source) {
        var qs := new RawSugarQuerySet(model, None, source.source);
        return SugarQuerySet(qs);
      }
      r := DefaultQuerySet;
    }
  }

  /** The three attributes of a `DecoratedRawManager`. */
  datatype ManagerState = ManagerState(sourceFunc: Obj, isCallable: bool, setOnNextCall: bool)

  /** The assertion of `DecoratedRawManager.__init__` as written: unless the
      manager is in callable mode, the source function must be callable, even
      when it is only to be supplied by the next call. */
  function InitCheckAsWritten(st: ManagerState): (r: Outcome)
    ensures r == Pass <==> st.isCallable || Callable(st.sourceFunc)
    ensures r.Fail? ==> r.error == AssertionError("")
  {
    if !st.isCallable then (if Callable(st.sourceFunc) then Pass else Fail(AssertionError("")))
    else Pass
  }

  /** The assertion of `DecoratedRawManager.__init__` as intended: a
      non-callable-mode manager must be given a callable, unless the callable
      is to be supplied by the next call. */
  function InitCheck(st: ManagerState): (r: Outcome)
    ensures r == Pass <==> st.isCallable || st.setOnNextCall || Callable(st.sourceFunc)
    ensures r.Fail? ==> r.error == AssertionError("")
  {
    if !st.isCallable && !st.setOnNextCall then (if Callable(st.sourceFunc) then Pass else Fail(AssertionError("")))
    else Pass
  }

  /** The state `raw_manager(is_callable)` asks for: a function argument
      gives a manager holding it; a truthy flag gives callable mode waiting
      for its function; a falsy flag gives a manager only waiting for its
      function. */
  function DispatchState(isCallable: Obj): (st: ManagerState)
    ensures Callable(isCallable) ==> st == ManagerState(isCallable, false, false)
    ensures !Callable(isCallable) && Truthy(isCallable) ==> st == ManagerState(NoneObj, true, true)
    ensures !Callable(isCallable) && !Truthy(isCallable) ==> st == ManagerState(NoneObj, false, true)
  {
    if Callable(isCallable) then ManagerState(isCallable, false, false)
    else if Truthy(isCallable) then ManagerState(NoneObj, true, true)
    else ManagerState(NoneObj, false, true)
  }

  /** As written, `raw_manager(is_callable)` fails the constructor's
      assertion exactly when `is_callable` is neither callable nor truthy
      (`raw_manager()`, `raw_manager(False)`, `raw_manager(0)`, …). */
  lemma FalsyDispatchFailsAsWritten(isCallable: Obj)
    ensures InitCheckAsWritten(DispatchState(isCallable)).Fail? <==> !Callable(isCallable) && !Truthy(isCallable)
    ensures InitCheckAsWritten(DispatchState(isCallable)).Fail? ==>
              InitCheckAsWritten(DispatchState(isCallable)) == Fail(AssertionError(""))
  {
  }

  /** With the intended assertion, every branch of `raw_manager` builds a
      manager. */
  lemma DispatchNeverFails(isCallable: Obj)
    ensures InitCheck(DispatchState(isCallable)) == Pass
  {
  }

  /** What one `__call__` decides: return the manager itself, build a
      queryset from the source the function returned, or raise. */
  datatype CallOutcome = ReturnedSelf | UseSource(source: Source) | Raised(error: Error)

  datatype Step = Step(next: ManagerState, outcome: CallOutcome)

  /** `DecoratedRawManager.__call__` on the manager's attributes. In
      set-on-next-call mode the first positional argument becomes the source
      function (before it is checked to be callable) and the flag is cleared;
      in callable mode the function is called with the model and the
      arguments and must return a source; otherwise the call is a
      `TypeError`. */
  function CallStep(st: ManagerState, run: Invoke, model: ModelMeta, args: CallArgs): (s: Step)
    ensures s.next.isCallable == st.isCallable
    // waiting for the function
    ensures s.outcome == ReturnedSelf <==> st.setOnNextCall && |args.positional| > 0 && Callable(args.positional[0])
    ensures s.outcome == ReturnedSelf ==> s.next == ManagerState(args.positional[0], st.isCallable, false)
    ensures st.setOnNextCall && |args.positional| == 0 ==> s == Step(st, Raised(IndexError))
    ensures st.setOnNextCall && |args.positional| > 0 && !Callable(args.positional[0]) ==>
              s == Step(st.(sourceFunc := args.positional[0]), Raised(AssertionError("")))
    // set up
    ensures !st.setOnNextCall ==> s.next == st
    ensures !st.setOnNextCall && !st.isCallable ==> s.outcome == Raised(TypeError)
    ensures !st.setOnNextCall && st.isCallable && !Callable(st.sourceFunc) ==> s.outcome == Raised(TypeError)
    ensures s.outcome.UseSource? <==> !st.setOnNextCall && st.isCallable && Callable(st.sourceFunc)
                                      && run(st.sourceFunc.id, model, args).Returns?
                                      && run(st.sourceFunc.id, model, args).result.SourceObj?
    ensures s.outcome.UseSource? ==> run(st.sourceFunc.id, model, args) == Returns(SourceObj(s.outcome.source))
    ensures !st.setOnNextCall && st.isCallable && Callable(st.sourceFunc) ==>
              match run(st.sourceFunc.id, model, args)
              case Raises(e) => s.outcome == Raised(e)
              case Returns(o) => !o.SourceObj? ==> s.outcome == Raised(AssertionError(SourceTypeMessage))
  {
    if st.setOnNextCall then
      if |args.positional| == 0 then Step(st, Raised(IndexError))
      else
        var f := args.positional[0];
        if !Callable(f) then Step(st.(sourceFunc := f), Raised(AssertionError("")))
        else Step(st.(sourceFunc := f, setOnNextCall := false), ReturnedSelf)
    else if st.isCallable then
      if !Callable(st.sourceFunc) then Step(st, Raised(TypeError))
      else match run(st.sourceFunc.id, model, args)
        case Raises(e) => Step(st, Raised(e))
        case Returns(o) =>
          if CheckSourceType(o).Pass? then Step(st, UseSource(o.source))
          else Step(st, Raised(CheckSourceType(o).error))
    else Step(st, Raised(TypeError))
  }

  /** The outcomes of a sequence of calls made one after the other. */
  function RunCalls(st: ManagerState, run: Invoke, model: ModelMeta, calls: seq<CallArgs>): (outs: seq<CallOutcome>)
    ensures |outs| == |calls|
    decreases |calls|
  {
    if |calls| == 0 then []
    else
      var s := CallStep(st, run, model, calls[0]);
      [s.outcome] + RunCalls(s.next, run, model, calls[1..])
  }

  /** How many of the outcomes returned the manager itself. */
  function SelfReturns(outs: seq<CallOutcome>): nat {
    if |outs| == 0 then 0
    else (if outs[0] == ReturnedSelf then 1 else 0) + SelfReturns(outs[1..])
  }

  /** The source function is taken from a call at most once, and never when
      the manager was not waiting for it. */
  lemma {:induction false} SetupHappensAtMostOnce(st: ManagerState, run: Invoke, model: ModelMeta, calls: seq<CallArgs>)
    ensures SelfReturns(RunCalls(st, run, model, calls)) <= if st.setOnNextCall then 1 else 0
    decreases |calls|
  {
    if |calls| > 0 {
      var s := CallStep(st, run, model, calls[0]);
      var rest := RunCalls(s.next, run, model, calls[1..]);
      SetupHappensAtMostOnce(s.next, run, model, calls[1..]);
      assert RunCalls(st, run, model, calls) == [s.outcome] + rest;
      assert ([s.outcome] + rest)[1..] == rest;
    }
  }

  /** Once set up in non-callable mode, every call raises `TypeError`. */
  lemma {:induction false} NonCallableCallsRaise(st: ManagerState, run: Invoke, model: ModelMeta, calls: seq<CallArgs>)
    requires !st.setOnNextCall && !st.isCallable
    ensures forall i :: 0 <= i < |calls| ==> RunCalls(st, run, model, calls)[i] == Raised(TypeError)
    decreases |calls|
  {
    if |calls| > 0 {
      NonCallableCallsRaise(st, run, model, calls[1..]);
      assert RunCalls(st, run, model, calls) == [Raised(TypeError)] + RunCalls(st, run, model, calls[1..]);
    }
  }

  /** What `__call__` returns: the manager itself or a new queryset. */
  datatype CallResult = ReturnsSelf | ReturnsQuerySet(qs: RawSugarQuerySet)

  /** `DecoratedRawManager` */
  class DecoratedRawManager {
    const model: ModelMeta
    const run: Invoke
    var sourceFunc: Obj
    var sourceFuncIsCallable: bool
    var setSourceFuncOnNextCall: bool

    function State(): ManagerState
      reads this
    {
      ManagerState(sourceFunc, sourceFuncIsCallable, setSourceFuncOnNextCall)
    }

    constructor Create(model: ModelMeta, run: Invoke, st: ManagerState)
      ensures this.model == model && this.run == run && State() == st
    {
      this.model := model;
      this.run := run;
      this.sourceFunc := st.sourceFunc;
      this.sourceFuncIsCallable := st.isCallable;
      this.setSourceFuncOnNextCall := st.setOnNextCall;
    }

    /** `DecoratedRawManager.__init__`, with the intended assertion. */
    static method New(model: ModelMeta, run: Invoke, st: ManagerState) returns (r: Result<DecoratedRawManager>)
      ensures r.Ok? <==> InitCheck(st) == Pass
      ensures r.Err? ==> r.error == InitCheck(st).error
      ensures r.Ok? ==> fresh(r.value) && r.value.model == model && r.value.run == run && r.value.State() == st
    {
      var check := InitCheck(st);
      if check.Fail? {
        return Err(check.error);
      }
      var m := new DecoratedRawManager.Create(model, run, st);
      r := Ok(m);
    }

    /** The source object a call will complete (its null fields). */
    function CallFootprint(args: CallArgs): set<Source>
      reads this
    {
      match CallStep(State(), run, model, args).outcome
      case UseSource(s) => {s}
      case _ => {}
    }

    /** `DecoratedRawManager.__call__(*args, **kwargs)`: the attributes move
        as `CallStep` says; a `FromQuerySet` the function returned gets its
        null fields computed against the manager's model before a new
        `RawSugarQuerySet` carrying it is returned. */
    method Call(args: CallArgs) returns (r: Result<CallResult>)
      modifies this, CallFootprint(args)`nullFields
      ensures State() == CallStep(old(State()), run, model, args).next
      ensures forall x :: x in old(CallFootprint(args)) ==>
                && x.rawQuery == old(x.rawQuery) && x.params == old(x.params)
                && x.translations == old(x.translations) && x.querysetFields == old(x.querysetFields)
      ensures CallStep(old(State()), run, model, args).outcome == ReturnedSelf ==> r == Ok(ReturnsSelf)
      ensures CallStep(old(State()), run, model, args).outcome.Raised? ==>
                r == Err(CallStep(old(State()), run, model, args).outcome.error)
      ensures CallStep(old(State()), run, model, args).outcome.UseSource? ==>
                var s := CallStep(old(State()), run, model, args).outcome.source;
                && (s.kind == FromRawKind ==> s.nullFields == old(s.nullFields))
                && (s.kind == FromQuerySetKind && s.querysetFields.None? ==> r == Err(AttributeError("_queryset_fields")))
                && (s.kind == FromQuerySetKind && s.querysetFields.Some? ==>
                      NoDup(s.nullFields)
                      && forall c :: c in s.nullFields <==> c in MissingColumns(Columns(model.fields), s.querysetFields.value))
                && (r.Ok? || (s.kind == FromQuerySetKind && s.querysetFields.None?))
                && (r.Ok? ==> r.value.ReturnsQuerySet? && fresh(r.value.qs) && r.value.qs.model == model
                              && r.value.qs.query.Installed? && r.value.qs.query.query.source == s)
    {
      var step := CallStep(State(), run, model, args);
      sourceFunc, sourceFuncIsCallable, setSourceFuncOnNextCall :=
        step.next.sourceFunc, step.next.isCallable, step.next.setOnNextCall;
      match step.outcome {
        case ReturnedSelf =>
          r := Ok(ReturnsSelf);
        case Raised(e) =>
          r := Err(e);
        case UseSource(s) =>
          if s.kind == FromQuerySetKind {
            var done := s.SetTargetModel(model);
            if done.Fail? {
              return Err(done.error);
            }
          }
          var qs := new RawSugarQuerySet(model, None, s);
          r := Ok(ReturnsQuerySet(qs));
      }
    }

    /** `DecoratedRawManager.__call__` as written: the attributes move as
        `CallStep` says, but a returned `FromQuerySet` is asked for
        `_calculate_null_fields`, a method raw_sugar's sources do not have,
        so that call raises AttributeError; only a returned `FromRaw` gives
        a queryset. No source is changed. */
    method CallAsWritten(args: CallArgs) returns (r: Result<CallResult>)
      modifies this
      ensures State() == CallStep(old(State()), run, model, args).next
      ensures CallStep(old(State()), run, model, args).outcome == ReturnedSelf ==> r == Ok(ReturnsSelf)
      ensures CallStep(old(State()), run, model, args).outcome.Raised? ==>
                r == Err(CallStep(old(State()), run, model, args).outcome.error)
      ensures CallStep(old(State()), run, model, args).outcome.UseSource? ==>
                var s := CallStep(old(State()), run, model, args).outcome.source;
                && (s.kind == FromQuerySetKind ==> r == Err(AttributeError("_calculate_null_fields")))
                && (s.kind == FromRawKind ==>
                      r.Ok? && r.value.ReturnsQuerySet? && fresh(r.value.qs) && r.value.qs.model == model
                      && r.value.qs.query.Installed? && r.value.qs.query.query.source == s)
    {
      var step := CallStep(State(), run, model, args);
      sourceFunc, sourceFuncIsCallable, setSourceFuncOnNextCall :=
        step.next.sourceFunc, step.next.isCallable, step.next.setOnNextCall;
      match step.outcome {
        case ReturnedSelf =>
          r := Ok(ReturnsSelf);
        case Raised(e) =>
          r := Err(e);
        case UseSource(s) =>
          if s.kind == FromQuerySetKind && "_calculate_null_fields" !in SourceMethods(s.kind) {
            return Err(AttributeError("_calculate_null_fields"));
          }
          var qs := new RawSugarQuerySet(model, None, s);
          r := Ok(ReturnsQuerySet(qs));
      }
    }

    /** `DecoratedRawManager.get_queryset`: a callable-mode manager raises
        `TypeError`; otherwise the function is called with the model alone
        and must return a source, which a new `RawSugarQuerySet` carries
        (no null fields are computed here). */
    method GetQueryset() returns (r: Result<RawSugarQuerySet>)
      ensures sourceFuncIsCallable ==> r == Err(TypeError)
      ensures !sourceFuncIsCallable && !Callable(sourceFunc) ==> r == Err(TypeError)
      ensures !sourceFuncIsCallable && Callable(sourceFunc) ==>
                match run(sourceFunc.id, model, CallArgs([], []))
                case Raises(e) => r == Err(e)
                case Returns(o) =>
                  && (!o.SourceObj? ==> r == Err(AssertionError(SourceTypeMessage)))
                  && (o.SourceObj? ==> r.Ok? && fresh(r.value) && r.value.model == model
                                       && r.value.query.Installed? && r.value.query.query.source == o.source)
    {
      if sourceFuncIsCallable {
        return Err(TypeError);
      }
      if !Callable(sourceFunc) {
        return Err(TypeError);
      }
      match run(sourceFunc.id, model, CallArgs([], [])) {
        case Raises(e) =>
          r := Err(e);
        case Returns(o) =>
          var check := CheckSourceType(o);
          if check.Fail? {
            return Err(check.error);
          }
          var qs := new RawSugarQuerySet(model, None, o.source);
          r := Ok(qs);
      }
    }
  }

  /** `raw_manager(is_callable)` as written: the manager in the state
      `DispatchState` gives, unless the constructor's assertion fails, which
      it does exactly for a non-callable falsy `is_callable`. */
  method RawManagerDispatchAsWritten(model: ModelMeta, run: Invoke, isCallable: Obj) returns (r: Result<DecoratedRawManager>)
    ensures r.Err? <==> !Callable(isCallable) && !Truthy(isCallable)
    ensures r.Err? ==> r.error == AssertionError("")
    ensures r.Ok? ==> fresh(r.value) && r.value.model == model && r.value.run == run
                      && r.value.State() == DispatchState(isCallable)
  {
    var st := DispatchState(isCallable);
    var check := InitCheckAsWritten(st);
    if check.Fail? {
      return Err(check.error);
    }
    var m := new DecoratedRawManager.Create(model, run, st);
    r := Ok(m);
  }

  /** `raw_manager(is_callable)`, with the intended constructor assertion:
      it always builds a manager in the state `DispatchState` gives. */
  method RawManagerDispatch(model: ModelMeta, run: Invoke, isCallable: Obj) returns (m: DecoratedRawManager)
    ensures fresh(m) && m.model == model && m.run == run && m.State() == DispatchState(isCallable)
  {
    DispatchNeverFails(isCallable);
    var r := DecoratedRawManager.New(model, run, DispatchState(isCallable));
    m := r.value;
  }
}
