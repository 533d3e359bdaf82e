/** Optional values, the Python exceptions the decoder can raise, and a
    failure-compatible Result carrying one of them. */
module Outcomes {

  datatype Option<+T> = None | Some(value: T)

  /** The exception classes the decoder code can raise. */
  datatype PyError =
    | AttributeError       // a layer whose `self_attn` attribute was never assigned
    | ValueError           // an unsupported self-attention type
    | TypeError            // `None` compared with an int, or used as a list index
    | IndexError           // a list or tensor index out of range
    | AssertionError       // a failed `assert`
    | NotImplementedError  // a configuration the language-model cache cannot hold
    | UnboundLocalError    // a loop variable read after a loop that never ran

  /** Either a value or the exception that ended the computation. */
  datatype Result<+T> = Ok(value: T) | Err(error: PyError) {

    predicate IsFailure() {
      Err?
    }

    function PropagateFailure<U>(): Result<U>
      requires Err?
    {
      Err(error)
    }

    function Extract(): T
      requires Ok?
    {
      value
    }
  }
}
