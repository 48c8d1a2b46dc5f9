/** Values shared by both authentication gates and the todo router: the
    optional-value wrapper, the identity provider's answer, the JSON replies
    and the Express request object that the gates annotate. */
module Http {

  datatype Option<+T> = None | Some(value: T)

  datatype Result<+T, +E> = Ok(value: T) | Err(error: E)

  /** The identity provider's opaque user identifier. */
  type UserId = string

  /** The user record the identity provider returns for a valid token. */
  datatype User = User(id: UserId, email: string)

  /** What `supabase.auth.getUser(token)` resolves to: either an `error`, or
      `data` whose `user` may be missing. */
  datatype Lookup = Failed | Data(user: Option<User>)

  /** The identity oracle: the external "get user for token" service. */
  type Verifier = string -> Lookup

  /** The user a lookup yields, if any (`error || !data?.user` rejects). */
  function UserOf(l: Lookup): (u: Option<User>)
    ensures u.Some? <==> l.Data? && l.user.Some?
    ensures u.Some? ==> l == Data(u)
  {
    match l
    case Failed => None
    case Data(user) => user
  }

  /** One stored todo item as the router returns it: its id and its columns. */
  datatype Todo = Todo(name: string, description: string, completed: bool, userId: UserId)
  datatype Row = Row(id: int, todo: Todo)

  /** The JSON bodies the backend sends.
      Failure:   `{ success: false, message }`   (the router)
      ErrorBody: `{ error }`                      (the token middleware)
      TodoList:  `{ success: true, todos }`
      TodoRef:   `{ success: true, todo: id }` */
  datatype Body =
    | Failure(message: string)
    | ErrorBody(error: string)
    | TodoList(todos: seq<Row>)
    | TodoRef(id: int)

  datatype Response = Response(status: int, body: Body)

  /** Wording both gates use when the identity provider rejects the token. */
  const InvalidOrExpiredToken := "Invalid or expired token"

  /** A gate's verdict on a request: let it through as `user`, or answer it. */
  datatype Decision = Accept(user: User) | Reject(response: Response)

  /** What an Express middleware did: called `next()` once, or sent a response. */
  datatype GateResult = Next | Halt(response: Response)

  /** The part of an Express request the core looks at: the `Authorization`
      header (absent or a string) and the `user` field the gates assign. */
  class Request {
    const authorization: Option<string>
    var user: Option<User>

    constructor (authorization: Option<string>)
      ensures this.authorization == authorization && user == None
    {
      this.authorization := authorization;
      user := None;
    }
  }
}
