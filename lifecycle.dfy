/**
 * What the workflow resources share: the service's answer to a lookup or
 * a delete, the `CheckDeleted` rule that turns "not found" into "gone
 * from state", and the diagnostics every operation can report first.
 */
module Lifecycle {
  import opened Wrappers

  /** How a call to the service can fail. */
  datatype RemoteError = NotFound | Failure(cause: string)

  /** The resource's id after `CheckDeleted`, and the error it reports. */
  datatype DeletedCheck = DeletedCheck(id: string, err: Option<string>)

  /**
   * `CheckDeleted`: a 404 clears the id and is not an error; any other
   * failure keeps the id and is reported as "<msg> <id>: <cause>".
   */
  function CheckDeleted(id: string, err: RemoteError, msg: string): (r: DeletedCheck)
    ensures r.err.None? <==> err.NotFound?
    ensures err.NotFound? ==> r.id == ""
    ensures err.Failure? ==> r.id == id && r.err == Some(msg + " " + id + ": " + err.cause)
  {
    match err
    case NotFound => DeletedCheck("", None)
    case Failure(cause) => DeletedCheck(id, Some(msg + " " + id + ": " + cause))
  }

  function ClientError(cause: string): string {
    "Error creating OpenStack workflow client: " + cause
  }

  /**
   * The service's answer to a `Get` or `Delete` of `id`: a transport
   * failure if there is one, otherwise the object or "not found".
   */
  function Lookup<T>(remote: map<string, T>, id: string, failure: Option<string>): (r: Result<T, RemoteError>)
    ensures failure.Some? ==> r == Err(Failure(failure.value))
    ensures failure.None? ==> (r.Ok? <==> id in remote)
    ensures r.Ok? ==> id in remote && r.value == remote[id]
    ensures failure.None? && r.Err? ==> r.error == NotFound
  {
    if failure.Some? then Err(Failure(failure.value))
    else if id in remote then Ok(remote[id])
    else Err(NotFound)
  }

  /**
   * Under `CheckDeleted`, a read of an object the service no longer holds
   * clears the id and reports nothing.
   */
  lemma VanishedObjectIsDropped<T>(remote: map<string, T>, id: string, msg: string)
    requires id !in remote
    ensures Lookup(remote, id, None).Err?
    ensures CheckDeleted(id, Lookup(remote, id, None).error, msg) == DeletedCheck("", None)
  {
  }

  /**
   * Under `CheckDeleted`, deleting again after a successful delete finds
   * nothing and reports nothing: delete is idempotent.
   */
  lemma DeleteIsIdempotent<T>(remote: map<string, T>, id: string, msg: string)
    ensures Lookup(remote - {id}, id, None) == Err(NotFound)
    ensures CheckDeleted(id, NotFound, msg).err.None?
  {
  }
}
