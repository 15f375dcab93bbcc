/** Outcomes of operations that the Python source can abort with an exception. */
module Results {

  datatype Option<+T> = None | Some(value: T)

  /** The exceptions the modelled code raises, named after the Python exception. */
  datatype Error =
    | AttributeError      // a method missing on the runtime type (`str.append`, `list.get`, ...)
    | KeyError            // a missing dictionary key
    | TypeError           // joining non-strings, iterating a non-iterable, `__str__` returning None
    | IndexError          // `schema[0]` of an empty list
    | ValueError          // `list.remove` of an absent member
    | AssertionError      // a failed `assert` (join type / relationship vocabularies)
    | InvalidValue        // `Exception('not a dict, list or string')`
    | UnsupportedFilename // `Exception("Unsupported filename ...")`
    | NotAddable          // `Exception(... ' cannot be added to View')`

  datatype Result<+T> = Ok(value: T) | Err(error: Error) {
    predicate IsFailure() { Err? }
    function PropagateFailure<U>(): Result<U>
      requires Err?
    {
      Err(error)
    }
    function Extract(): T
      requires Ok?
    {
      value
    }
  }

  /** A list of outcomes in order: all the values, or the first failure. */
  function Collect<T>(rs: seq<Result<T>>): (r: Result<seq<T>>)
    ensures r.Ok? <==> forall k :: 0 <= k < |rs| ==> rs[k].Ok?
    ensures r.Ok? ==> |r.value| == |rs| && forall k :: 0 <= k < |rs| ==> rs[k] == Ok(r.value[k])
    ensures r.Err? ==> exists k :: 0 <= k < |rs| && rs[k] == Err(r.error)
  {
    if rs == [] then Ok([])
    else if rs[0].Err? then Err(rs[0].error)
    else
      var rest := Collect(rs[1..]);
      if rest.Err? then
        assert forall k :: 1 <= k < |rs| ==> rs[1..][k - 1] == rs[k];
        Err(rest.error)
      else
        assert forall k :: 1 <= k < |rs| ==> rs[1..][k - 1] == rs[k];
        Ok([rs[0].value] + rest.value)
  }
}
