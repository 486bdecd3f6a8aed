/** Option and Result, with the Java exceptions that the modelled code can
    raise named as a datatype, so that an error path says which exception
    the original throws. */
module Wrappers {

  datatype Option<+T> = None | Some(value: T) {
    function GetOr(default: T): T {
      match this
      case Some(v) => v
      case None => default
    }
  }

  /** The exceptions the modelled Java code raises (or lets through). */
  datatype Exception =
    | NullPointer                 // a member that is absent was used
    | IllegalState                // Gson: getAsJsonArray/getAsJsonObject on the wrong shape
    | UnsupportedOperation        // Gson: getAsString etc. on an object or JSON null
    | ClassCast                   // Gson: JsonObject.getAsJsonObject(name) on another shape
    | IndexOutOfBounds            // List.get / array index past the end
    | NumberFormat                // a number or boolean that cannot be read
    | JsonSyntax                  // a response body that is not JSON text
    | TransportFailure            // IOException / ExecutionException from an HTTP call
    | MalformedUrl                // java.net.URL refused the address
    | NotConnected                // the IOException raised when the liveness probe fails
    | HostFailure                 // an exception raised inside host (QuPath) code
    | Runtime(cause: Exception)   // RuntimeException wrapping another one

  datatype Result<+T> = Ok(value: T) | Err(error: Exception) {
    predicate IsFailure() {
      Err?
    }

    function PropagateFailure<U>(): Result<U>
      requires Err?
    {
      Err(error)
    }

    function Extract(): T
      requires Ok?
    {
      value
    }
  }
}
