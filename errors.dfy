/** The exceptions the modelled Python code raises, and the Option/Result
    wrappers the model uses in place of `None` returns and `raise`. */
module Errors {

  /** Why `jsonclass.load` raised `TranslationError`. */
  datatype Translation =
    | EmptyName            // 'Module name empty.'
    | InvalidCharacters    // 'Module name ... has invalid characters.'
    | UnknownClass         // 'Unknown class or module ...' (bare tag not registered)
    | ImportFailed         // 'Could not import ... from module ...' (dotted tag)
    | BadConstructorArgs   // 'Constructor args must be a dict or list.'

  /** The Python exception classes that can escape the core. */
  datatype Error =
    | TypeError
    | ValueError
    | AttributeError
    | KeyError
    | IndexError
    | RuntimeError
    | ProtocolError
    | TranslationError(reason: Translation)

  datatype Option<+T> = None | Some(value: T) {
    function GetOr(default: T): T {
      match this
      case Some(v) => v
      case None => default
    }
  }

  /** A value, or the exception that was raised instead of returning one. */
  datatype Result<+T> = Ok(value: T) | Err(error: Error) {
    predicate IsFailure() { Err? }
    function PropagateFailure<U>(): Result<U> requires Err? { Err(error) }
    function Extract(): T requires Ok? { value }
  }

  /** Evaluates a list of computations left to right, as a Python `for` loop
      that appends each result does: the first exception escapes, otherwise
      the list of values is returned. */
  function CollectSeq<T>(rs: seq<Result<T>>): (r: Result<seq<T>>)
    ensures r.Ok? <==> forall i :: 0 <= i < |rs| ==> rs[i].Ok?
    ensures r.Ok? ==> |r.value| == |rs| && forall i :: 0 <= i < |rs| ==> rs[i] == Ok(r.value[i])
    ensures r.Err? ==> exists i :: 0 <= i < |rs| && rs[i] == Err(r.error) && forall j :: 0 <= j < i ==> rs[j].Ok?
  {
    if rs == [] then Ok([])
    else if rs[0].Err? then Err(rs[0].error)
    else
      match CollectSeq(rs[1..])
      case Err(e) => Err(e)
      case Ok(vs) => Ok([rs[0].value] + vs)
  }

  /** Evaluates a dictionary of computations. Python visits a dictionary in
      insertion order, which a `map` does not record, so when several values
      fail the model reports the exception of one of them. */
  ghost function CollectMap<K, T>(rs: map<K, Result<T>>): (r: Result<map<K, T>>)
    ensures r.Ok? <==> forall k :: k in rs ==> rs[k].Ok?
    ensures r.Ok? ==> r.value.Keys == rs.Keys && forall k :: k in rs ==> rs[k] == Ok(r.value[k])
    ensures r.Err? ==> exists k :: k in rs && rs[k] == Err(r.error)
  {
    if exists k :: k in rs && rs[k].Err? then
      var k :| k in rs && rs[k].Err?;
      Err(rs[k].error)
    else
      Ok(map k | k in rs :: rs[k].value)
  }
}
