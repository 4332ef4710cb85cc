/**
 * The values the front end handles: notes as the API returns them (any field may be missing)
 * and the outcome of an awaited API call.
 */
module ClientModel {

  import opened Wrappers

  /** A note object on the client; a field the server left out is `None`. */
  datatype ClientNote = ClientNote(id: string, title: Option<string>, content: Option<string>,
                                   status: Option<string>, tags: Option<seq<string>>,
                                   createdAt: string, updatedAt: string)

  /** An awaited API call: its value, or the `message` of the error it threw. */
  datatype ApiResult<T> = Success(value: T) | Failure(message: string)

  /** `prefix + (err.message || 'Error desconocido')`. */
  function ErrorText(prefix: string, message: string): (e: string)
    ensures message != "" ==> e == prefix + message
    ensures message == "" ==> e == prefix + "Error desconocido"
  {
    prefix + (if message != "" then message else "Error desconocido")
  }
}
