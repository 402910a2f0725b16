/** Option and Result types and the error values the routing layer returns. */
module Common {

  /** A pointer field that may be nil (`*string`, `*Identifier`, a nil map). */
  datatype Option<+T> = None | Some(value: T) {
    predicate IsFailure() { None? }

    function PropagateFailure<U>(): Option<U>
      requires None?
    {
      None
    }

    function Extract(): T
      requires Some?
    {
      value
    }
  }

  /** The `(value, err)` pair of a Go function, with `err == nil` as `Ok`. */
  datatype Result<+T> = Ok(value: T) | Err(error: Error) {
    predicate IsFailure() { Err? }

    function PropagateFailure<U>(): Result<U>
      requires Err?
    {
      Err(error)
    }

    function Extract(): T
      requires Ok?
    {
      value
    }
  }

  /**
   * The errors of the modelled code, one constructor per error site.
   * Messages from libraries that are not modelled (the JSON decoder,
   * the HTTP client, the websocket writer) are kept as opaque reasons.
   */
  datatype Error =
    | UnmarshalingFailed                            // "astibob: unmarshaling failed"
    | ParsingPayloadFailed(cause: Error)            // "index: parsing message payload failed"
    | InvalidTo                                     // "index: invalid to"
    | FromNameEmpty                                 // "index: from name is empty"
    | ClientNotFound(client: string)                // "index: client %s doesn't exist"
    | ExtendingConnectionFailed(reason: string)     // "index: extending connection failed"
    | WritingJSONFailed(reason: string)             // "worker: writing JSON message failed"
    | WorkerNotFound(worker: string)                // "worker: worker %s doesn't exist"
    | CreatingRequestFailed(reason: string)         // "worker: creating request failed"
    | SendingRequestFailed(reason: string)          // "worker: sending request failed"
    | ResponseErrorMessage(message: string)         // "worker: response error message is %s"
    | ResponseStatusCode(code: int)                 // "worker: response status code is %d"
    | SendingRequestToWorkerFailed(worker: string, cause: Error)
                                                    // "worker: sending request to worker %s failed"

  /** The elements of a sequence, as a set. */
  function Elements<T>(s: seq<T>): set<T>
  {
    set x | x in s
  }

  /** No element occurs twice. */
  predicate Distinct<T(==)>(s: seq<T>)
  {
    forall i, j :: 0 <= i < j < |s| ==> s[i] != s[j]
  }

  /** Appending an element adds it to the elements; it keeps them distinct when it is new. */
  lemma AppendElement<T>(s: seq<T>, x: T)
    ensures Elements(s + [x]) == Elements(s) + {x}
    ensures Distinct(s) && x !in Elements(s) ==> Distinct(s + [x])
  {
    assert forall y :: y in s + [x] <==> y in s || y == x;
  }
}
