/** Outcomes of the operations of the client: a value, or the .NET exception
    the original code would throw instead. */
module Results {

  /** The exceptions that the modelled code can raise: those of the client's own
      steps, and those the network and the JSON lookup pass on to it. */
  datatype Exception =
    | FormatException               // string.Format on a malformed template or a missing argument
    | IndexOutOfRangeException      // indexing past the end of the array String.Split returned
    | JsonReaderException           // the response text is not JSON
    | HttpRequestException(statusCode: Option<int>)  // transport failure (None) or a non-2xx status
    | TaskCanceledException         // HttpClient.SendAsync past its timeout (100 seconds by default)
    | ArgumentException             // a JSON token cast to string that is an object or an array

  /** System.Byte. */
  type byte = x: int | 0 <= x < 256

  datatype Option<+T> = None | Some(value: T)

  datatype Result<+T> = Ok(value: T) | Err(error: Exception) {
    predicate IsFailure() { Err? }

    function PropagateFailure<U>(): Result<U>
      requires Err?
    {
      Err(error)
    }

    function Extract(): T
      requires Ok?
    {
      value
    }
  }
}
