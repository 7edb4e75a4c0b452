/** Outcomes of the generator's operations: a value, or the exception the
    Python engine would raise instead. */
module Results {

  datatype Option<T> = None | Some(value: T)

  /** The exceptions the engine can raise, one constructor per cause. */
  datatype Error =
    | NoQueries          // QGenNoQueriesException: no template verb is allowed
    | NotImplemented     // NotImplementedError: the drawn verb is `insert`
    | EmptySequence      // IndexError: random.choice on an empty list
    | EmptyRow           // IndexError: first value of a row that has no columns
    | KeyError(key: string) // KeyError: a data type missing from the conversion table
    | NotIterable        // TypeError: iterating the output of a failed catalog query
    | Stop               // QGenStopException: a statement failed with halt_on_errors set
    | RetryUnresolved    // the random_value loop is still retrying when the supplied attempts end

  datatype Result<T> = Success(value: T) | Failure(error: Error)
}
