/** The Python values and exceptions the modelled code sees.  Configuration
    files and server JSON arrive as dynamically typed values; only the shapes
    the code distinguishes are kept. */
module Py {
  import opened Text

  datatype Option<+T> = None | Some(value: T)

  /** The exceptions the modelled code raises. `PlainException` is a bare
      `Exception(...)`.  `RuntimeError` carries its message, `KeyError` the
      missing key and `AttributeError` the missing attribute. */
  datatype PyError =
    | TypeError
    | ValueError
    | IndexError
    | KeyError(key: string)
    | AttributeError(name: string)
    | PlainException
    | RuntimeError(message: string)

  /** A value, or the exception that was raised instead. */
  datatype Result<+T> = Ok(value: T) | Err(error: PyError) {
    predicate IsFailure() { Err? }

    function PropagateFailure<U>(): Result<U>
      requires Err?
    {
      Err(error)
    }

    function Extract(): T
      requires Ok?
    {
      value
    }
  }

  /** A list comprehension over results computed in order: the values, or
      the first exception raised. */
  function Collect<T>(rs: seq<Result<T>>): (r: Result<seq<T>>)
    ensures r.Ok? ==> |r.value| == |rs|
  {
    if rs == [] then Ok([])
    else
      var x :- rs[0];
      var rest :- Collect(rs[1..]);
      Ok([x] + rest)
  }

  /** The comprehension raises exactly when an element raises, and then
      raises that element's exception. */
  lemma {:induction false} CollectErr<T>(rs: seq<Result<T>>)
    ensures Collect(rs).Err? <==> exists k :: 0 <= k < |rs| && rs[k].Err?
    ensures Collect(rs).Err? ==> exists k :: 0 <= k < |rs| && rs[k] == Err(Collect(rs).error)
  {
    if rs != [] && rs[0].Ok? {
      CollectErr(rs[1..]);
      if exists k :: 1 <= k < |rs| && rs[k].Err? {
        var k :| 1 <= k < |rs| && rs[k].Err?;
        assert rs[1..][k - 1] == rs[k];
      }
      if Collect(rs).Err? {
        var k :| 0 <= k < |rs[1..]| && rs[1..][k] == Err(Collect(rs[1..]).error);
        assert rs[k + 1] == Err(Collect(rs).error);
      }
    }
  }

  /** Otherwise it holds each element's value in place. */
  lemma {:induction false} CollectAt<T>(rs: seq<Result<T>>, k: int)
    requires 0 <= k < |rs| && Collect(rs).Ok?
    ensures rs[k].Ok? && Collect(rs).value[k] == rs[k].value
  {
    if k > 0 {
      CollectAt(rs[1..], k - 1);
      assert rs[1..][k - 1] == rs[k];
    }
  }

  /** A call that returns nothing, or raises. */
  datatype Outcome = Done | Raised(error: PyError)

  /** Scalar values: `None`, `bool`, `int`, `str`. */
  datatype Scalar = SNone | SBool(b: bool) | SInt(i: int) | SStr(s: string)

  /** Values as configuration and JSON deliver them: a scalar, a `list` or a
      `tuple` of scalars, or a `dict` of which only the size matters here. */
  datatype PyValue =
    | Atom(a: Scalar)
    | List(items: seq<Scalar>)
    | Tuple(items: seq<Scalar>)
    | Dict(size: nat)

  predicate IsStr(v: PyValue) { v.Atom? && v.a.SStr? }

  /** Python's `bool(v)`. */
  predicate Truthy(v: PyValue)
  {
    match v
    case Atom(SNone) => false
    case Atom(SBool(b)) => b
    case Atom(SInt(i)) => i != 0
    case Atom(SStr(s)) => s != ""
    case List(items) => items != []
    case Tuple(items) => items != []
    case Dict(size) => size != 0
  }

  /** Python's `str(x)` on a scalar. */
  function Str(x: Scalar): string
  {
    match x
    case SNone => "None"
    case SBool(b) => if b then "True" else "False"
    case SInt(i) => IntToStr(i)
    case SStr(s) => s
  }
}
