/** Values shared by both stores: JavaScript's nullable values, the result of a
    call through the transport client, and the uniform result the store actions
    hand back to the views. */
module Api {

  datatype Option<+T> = None | Some(value: T) {
    function GetOr(default: T): T {
      match this
      case Some(v) => v
      case None => default
    }
  }

  /** JavaScript truthiness of a nullable string: `null` and `""` are falsy. */
  predicate Truthy(s: Option<string>) {
    s.Some? && s.value != ""
  }

  /** An error as the stores see it: `error.response?.status` (0 when the request
      got no response at all) and `error.response?.data?.message`. */
  datatype Failure = Failure(status: int, message: Option<string>)

  /** What one awaited call on the transport client produced. */
  datatype Outcome<+T> = Ok(value: T) | Err(failure: Failure) {
    /** The error this call would throw, if any. */
    function Thrown(): (e: Option<Failure>)
      ensures e.Some? <==> Err?
    {
      match this
      case Ok(_) => None
      case Err(f) => Some(f)
    }
  }

  /** `error.response?.status === 401` */
  predicate Unauthorized(f: Failure) {
    f.status == 401
  }

  /** `error.response?.data?.message || fallback` */
  function MessageOr(f: Failure, fallback: string): (m: string)
    ensures fallback != "" ==> m != ""
    ensures Truthy(f.message) ==> m == f.message.value
    ensures !Truthy(f.message) ==> m == fallback
  {
    if Truthy(f.message) then f.message.value else fallback
  }

  /** The `{ success, ... }` object returned by actions that never throw. */
  datatype ActionResult<+T> = Success(data: T) | Failed(message: string)

  /** One request sent through the transport client (method and endpoint). */
  datatype Request =
    | GetFolders
    | PostFolders
    | PutFolders(folderId: string)
    | DeleteFolders(folderId: string)
    | GetLinks(folderId: string)
    | PostLinks(folderId: string)
    | PutLinks(linkId: string)
    | DeleteLinks(linkId: string)
    | PostLogin
    | PostRegister
    | GetProfile
}
