/** The small part of Python's semantics the SQL-rewriting engine relies on:
    bind values, the exceptions the code raises, truthiness, `str.format` of a
    possibly-`None` value, `str.join` and `str.split`. */
module Python {

  /** A positional bind value passed to the database driver. `OtherValue`
      stands for any other Python object (its identity only). */
  datatype Value = NoneValue | BoolValue(b: bool) | IntValue(i: int) | StrValue(s: string) | OtherValue(id: nat)

  /** The exceptions raised by the engine (an `assert` raises AssertionError). */
  datatype Error =
    | AssertionError(message: string)
    | AttributeError(attribute: string)
    | IndexError
    | TypeError
    | ValueError
    | Exception(message: string)
    | NotImplementedError

  datatype Option<+T> = None | Some(value: T)

  /** An instance attribute that may not have been assigned yet (reading it
      then raises AttributeError). */
  datatype Attr<+T> = Unset | Set(value: T)

  /** A value, or the exception that was raised instead. */
  datatype Result<+T> = Ok(value: T) | Err(error: Error)

  /** Completion of a statement that returns nothing. */
  datatype Outcome = Pass | Fail(error: Error)

  /** Truthiness of a `str` argument that may be `None`: `None` and `""` are falsy. */
  predicate TruthyStr(o: Option<string>) {
    o.Some? && o.value != ""
  }

  /** Truthiness of a bind value. */
  predicate TruthyValue(v: Value) {
    match v
    case NoneValue => false
    case BoolValue(b) => b
    case IntValue(i) => i != 0
    case StrValue(s) => s != ""
    case OtherValue(_) => true
  }

  /** Truthiness of a list or dict argument that may be `None`. */
  predicate TruthySeq<T>(o: Option<seq<T>>) {
    o.Some? && |o.value| > 0
  }

  /** `x or []` for a list or dict argument that may be `None`. */
  function OrEmpty<T>(o: Option<seq<T>>): (r: seq<T>)
    ensures TruthySeq(o) ==> r == o.value
    ensures !TruthySeq(o) ==> r == []
  {
    if o.Some? then o.value else []
  }

  /** What `'{}'.format(o)` writes for a `str` that may be `None`. */
  function Format(o: Option<string>): string {
    if o.Some? then o.value else "None"
  }

  /** `sep.join(parts)`. */
  function Join(parts: seq<string>, sep: string): string {
    if |parts| == 0 then ""
    else if |parts| == 1 then parts[0]
    else parts[0] + sep + Join(parts[1..], sep)
  }

  /** Number of occurrences of `c` in `s`. */
  function CountChar(s: string, c: char): nat {
    if |s| == 0 then 0 else (if s[0] == c then 1 else 0) + CountChar(s[1..], c)
  }

  /** `s.split(sep)` for a one-character separator: the pieces between the
      separators, one more piece than there are separators, none containing it. */
  function Split(s: string, sep: char): (parts: seq<string>)
    ensures |parts| == CountChar(s, sep) + 1
    ensures forall i :: 0 <= i < |parts| ==> sep !in parts[i]
  {
    if |s| == 0 then [""]
    else
      var rest := Split(s[1..], sep);
      if s[0] == sep then [""] + rest
      else [[s[0]] + rest[0]] + rest[1..]
  }

  /** Joining the pieces of a split with the separator gives back the string. */
  lemma {:induction false} JoinSplit(s: string, sep: char)
    ensures Join(Split(s, sep), [sep]) == s
  {
    if |s| > 0 {
      var rest := Split(s[1..], sep);
      JoinSplit(s[1..], sep);
      if s[0] == sep {
        assert Split(s, sep) == [""] + rest;
        assert ([""] + rest)[1..] == rest;
      } else {
        var parts := [[s[0]] + rest[0]] + rest[1..];
        assert Split(s, sep) == parts;
        if |rest| > 1 {
          assert parts[1..] == rest[1..];
          assert Join(rest, [sep]) == rest[0] + [sep] + Join(rest[1..], [sep]);
        }
      }
    }
  }

  /** Index of the first element satisfying `p`, as a `for ... break` finds it. */
  function FirstWhere<T>(s: seq<T>, p: T -> bool): (r: Option<nat>)
    ensures r.Some? ==> r.value < |s| && p(s[r.value]) && forall j :: 0 <= j < r.value ==> !p(s[j])
    ensures r.None? ==> forall j :: 0 <= j < |s| ==> !p(s[j])
  {
    if |s| == 0 then None
    else if p(s[0]) then Some(0)
    else match FirstWhere(s[1..], p)
      case None => None
      case Some(k) => Some(k + 1)
  }

  /** No element occurs twice. */
  predicate NoDup<T(==)>(s: seq<T>) {
    forall i, j :: 0 <= i < j < |s| ==> s[i] != s[j]
  }
}
