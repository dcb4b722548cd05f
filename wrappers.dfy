/** Results and the exception kinds raised by the engine (core/Exceptions.py and the
    Python built-in exceptions that escape from the core's code paths). */
module Wrappers {

  datatype Option<+T> = None | Some(value: T)

  /** The exception classes an operation can end in. */
  datatype ErrorKind =
    | DataTypeError
    | ConversionError          // a subclass of DataTypeError
    | NormalizationError
    | ValidationError
    | ValueError
    | TypeError
    | KeyError
    | IndexError
    | AttributeError
    | StopIteration
    | InvalidOperation         // decimal.InvalidOperation

  /** `isinstance(e, k)` for the exception hierarchy: ConversionError derives from DataTypeError. */
  predicate IsA(e: ErrorKind, k: ErrorKind)
  {
    e == k || (e == ConversionError && k == DataTypeError)
  }

  /** A value or the exception that ended the computation. */
  datatype Result<+T> = Ok(value: T) | Err(error: ErrorKind)
  {
    /** `except Exception as e: raise K(...)`: every failure becomes kind `k`. */
    function Rewrap(k: ErrorKind): (r: Result<T>)
      ensures r.Ok? == Ok?
      ensures r.Ok? ==> r.value == value
      ensures r.Err? ==> r.error == k
    {
      match this
      case Ok(v) => Ok(v)
      case Err(_) => Err(k)
    }
  }

  /** Evaluate a list comprehension whose elements may raise: the first failure, in order, wins. */
  function Sequence<T>(rs: seq<Result<T>>): (r: Result<seq<T>>)
    ensures r.Ok? <==> forall i :: 0 <= i < |rs| ==> rs[i].Ok?
    ensures r.Ok? ==> |r.value| == |rs| && forall i :: 0 <= i < |rs| ==> r.value[i] == rs[i].value
    ensures r.Err? ==> exists i :: 0 <= i < |rs| && rs[i] == Err(r.error) &&
                                   forall j :: 0 <= j < i ==> rs[j].Ok?
  {
    if rs == [] then Ok([])
    else if rs[0].Err? then Err(rs[0].error)
    else
      match Sequence(rs[1..])
      case Ok(tail) => Ok([rs[0].value] + tail)
      case Err(e) => Err(e)
  }

  /** A comprehension whose every element succeeds yields the elements' values. */
  lemma SequenceAllOk<T>(rs: seq<Result<T>>, vs: seq<T>)
    requires |rs| == |vs| && forall i :: 0 <= i < |rs| ==> rs[i] == Ok(vs[i])
    ensures Sequence(rs) == Ok(vs)
  {
    assert Sequence(rs).value == vs;
  }

  /** One more element of a comprehension that has succeeded so far. */
  lemma SequenceStep<T>(rs: seq<Result<T>>, i: nat, vs: seq<T>)
    requires i < |rs| && Sequence(rs[..i]) == Ok(vs) && rs[i].Ok?
    ensures Sequence(rs[..i + 1]) == Ok(vs + [rs[i].value])
  {
    SequenceAllOk(rs[..i + 1], vs + [rs[i].value]);
  }

  /** The first element that fails is the failure of the whole comprehension. */
  lemma SequenceStops<T>(rs: seq<Result<T>>, i: nat)
    requires i < |rs| && rs[i].Err? && Sequence(rs[..i]).Ok?
    ensures Sequence(rs) == Err(rs[i].error)
  {
    assert forall j :: 0 <= j < i ==> rs[..i][j] == rs[j];
  }
}
