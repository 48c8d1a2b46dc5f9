/** backend/routes/todos.js: the router's own bearer-token gate and its four
    handlers over the todo table. The table is the `Todo` relation keyed by
    an autoincremented integer id; every handler reads or writes one row. */
module TodoRoutes {
  import opened Http
  import opened JsString

  const BearerPrefix := "Bearer "
  const MissingOrInvalidHeader := "Missing or invalid Authorization header"
  const NotFoundOrUnauthorized := "Todo not found or unauthorized"
  const TodoNotFound := "Todo not found"
  const Unauthorized := "Unauthorized"
  const CannotDeleteIncomplete := "Cannot delete an incomplete todo"

  // ---------------------------------------------------------------------
  // The router's gate, `authenticate`
  // ---------------------------------------------------------------------

  /** The token the router's gate looks up: only for a header that starts
      with `Bearer `, and then the text after it up to the next space. */
  function BearerToken(authorization: Option<string>): (r: Option<string>)
    ensures r.Some? <==> authorization.Some? && StartsWith(authorization.value, BearerPrefix)
    ensures r.Some? ==> ' ' !in r.value && StartsWith(authorization.value, BearerPrefix + r.value)
    ensures r.Some? ==> var n := |BearerPrefix + r.value|;
              n == |authorization.value| || authorization.value[n] == ' '
  {
    if authorization.None? || !StartsWith(authorization.value, BearerPrefix) then None
    else
      var h := authorization.value;
      var rest := h[|BearerPrefix|..];
      assert h == "Bearer" + " " + rest;
      SplitPrefix("Bearer", rest);
      Piece(h, 1)
  }

  /** The gate's verdict, given the identity oracle. */
  function AuthenticateDecision(authorization: Option<string>, getUser: Verifier): (r: Decision)
    ensures r.Reject? ==> r.response.status == 401
    ensures BearerToken(authorization).None? ==> r == Reject(Response(401, Failure(MissingOrInvalidHeader)))
    ensures BearerToken(authorization).Some? && UserOf(getUser(BearerToken(authorization).value)).None? ==>
              r == Reject(Response(401, Failure(InvalidOrExpiredToken)))
    ensures r.Accept? <==> BearerToken(authorization).Some? && UserOf(getUser(BearerToken(authorization).value)).Some?
    ensures r.Accept? ==> getUser(BearerToken(authorization).value) == Data(Some(r.user))
  {
    match BearerToken(authorization)
    case None => Reject(Response(401, Failure(MissingOrInvalidHeader)))
    case Some(token) =>
      match UserOf(getUser(token))
      case None => Reject(Response(401, Failure(InvalidOrExpiredToken)))
      case Some(u) => Accept(u)
  }

  /** A missing header, or one in another scheme, is refused whatever the
      oracle would have said: the identity provider is not consulted. */
  lemma NoBearerIgnoresVerifier(authorization: Option<string>, g1: Verifier, g2: Verifier)
    requires authorization.None? || !StartsWith(authorization.value, BearerPrefix)
    ensures AuthenticateDecision(authorization, g1) == AuthenticateDecision(authorization, g2)
    ensures AuthenticateDecision(authorization, g1) == Reject(Response(401, Failure(MissingOrInvalidHeader)))
  {
  }

  /** `authenticate`: on acceptance it stores the provider's user on the
      request and calls `next()` once; otherwise it answers 401 and leaves the
      request as it was. */
  method Authenticate(req: Request, getUser: Verifier) returns (g: GateResult)
    modifies req`user
    ensures AuthenticateDecision(req.authorization, getUser).Accept? ==>
              g == Next && req.user == Some(AuthenticateDecision(req.authorization, getUser).user)
    ensures AuthenticateDecision(req.authorization, getUser).Reject? ==>
              g == Halt(AuthenticateDecision(req.authorization, getUser).response) && req.user == old(req.user)
  {
    var header := req.authorization;
    if header.None? || !StartsWith(header.value, BearerPrefix) {
      return Halt(Response(401, Failure(MissingOrInvalidHeader)));
    }
    assert header.value == "Bearer" + " " + header.value[|BearerPrefix|..];
    SplitPrefix("Bearer", header.value[|BearerPrefix|..]);
    var token := Piece(header.value, 1);
    var lookup := getUser(token.value);
    if lookup.Failed? || lookup.user.None? {
      return Halt(Response(401, Failure(InvalidOrExpiredToken)));
    }
    req.user := lookup.user;
    g := Next;
  }

  // ---------------------------------------------------------------------
  // The todo table and the four handlers, as functions of the table
  // ---------------------------------------------------------------------

  /** The table: its rows by id, and the next id the autoincrement hands out. */
  datatype Store = Store(todos: map<int, Todo>, nextId: int)

  /** Autoincrement ids start at 1 and every stored id was handed out already. */
  predicate WellFormed(s: Store) {
    s.nextId >= 1 && forall id :: id in s.todos ==> 1 <= id < s.nextId
  }

  /** A handler's effect: the table afterwards and the reply. */
  datatype Outcome = Outcome(store: Store, response: Response)

  /** The rows with ids in [1, hi) owned by `caller`, highest id first. */
  function ListRows(todos: map<int, Todo>, caller: UserId, hi: int): (r: seq<Row>)
    ensures forall k :: 0 <= k < |r| ==>
              1 <= r[k].id < hi && r[k].id in todos && todos[r[k].id] == r[k].todo && r[k].todo.userId == caller
    ensures forall j, k :: 0 <= j < k < |r| ==> r[j].id > r[k].id
    ensures forall id :: 1 <= id < hi && id in todos && todos[id].userId == caller ==> Row(id, todos[id]) in r
    decreases hi
  {
    if hi <= 1 then []
    else
      var below := ListRows(todos, caller, hi - 1);
      if hi - 1 in todos && todos[hi - 1].userId == caller then [Row(hi - 1, todos[hi - 1])] + below
      else below
  }

  /** GET `/`: every row the caller owns, newest (highest id) first, and no
      other row. */
  function ListTodos(s: Store, caller: UserId): (r: Response)
    requires WellFormed(s)
    ensures r.status == 200 && r.body.TodoList?
    ensures forall k :: 0 <= k < |r.body.todos| ==>
              var row := r.body.todos[k]; row.id in s.todos && s.todos[row.id] == row.todo && row.todo.userId == caller
    ensures forall j, k :: 0 <= j < k < |r.body.todos| ==> r.body.todos[j].id > r.body.todos[k].id
    ensures forall id :: id in s.todos && s.todos[id].userId == caller ==> Row(id, s.todos[id]) in r.body.todos
  {
    Response(200, TodoList(ListRows(s.todos, caller, s.nextId)))
  }

  /** POST `/`: a fresh id whose row holds the given name and description,
      is not completed and belongs to the caller; every other row is kept. */
  function CreateTodo(s: Store, caller: UserId, name: string, description: string): (r: Outcome)
    requires WellFormed(s)
    ensures WellFormed(r.store)
    ensures r.response.status == 201 && r.response.body.TodoRef?
    ensures var id := r.response.body.id;
              id !in s.todos && r.store.todos == s.todos[id := Todo(name, description, false, caller)]
  {
    var id := s.nextId;
    Outcome(Store(s.todos[id := Todo(name, description, false, caller)], id + 1), Response(201, TodoRef(id)))
  }

  /** Whether the caller owns row `id` (a missing row is owned by nobody). */
  predicate Owns(s: Store, caller: UserId, id: int) {
    id in s.todos && s.todos[id].userId == caller
  }

  /** Everything about a row but its completion flag is the same. */
  predicate SameButCompletion(a: Todo, b: Todo) {
    a.name == b.name && a.description == b.description && a.userId == b.userId
  }

  /** PUT `/:todoId/completed`: one 403 for a missing row and for another
      user's row alike; for the owner, the row is completed and nothing else
      changes. */
  function CompleteTodo(s: Store, caller: UserId, id: int): (r: Outcome)
    ensures !Owns(s, caller, id) ==> r == Outcome(s, Response(403, Failure(NotFoundOrUnauthorized)))
    ensures Owns(s, caller, id) ==>
              && r.response == Response(200, TodoRef(id))
              && r.store.nextId == s.nextId
              && r.store.todos.Keys == s.todos.Keys
              && r.store.todos[id].completed
              && SameButCompletion(s.todos[id], r.store.todos[id])
              && (forall other :: other in s.todos && other != id ==> r.store.todos[other] == s.todos[other])
    ensures Owns(s, caller, id) && s.todos[id].completed ==> r.store == s
  {
    if id !in s.todos || s.todos[id].userId != caller then
      Outcome(s, Response(403, Failure(NotFoundOrUnauthorized)))
    else
      Outcome(s.(todos := s.todos[id := s.todos[id].(completed := true)]), Response(200, TodoRef(id)))
  }

  /** DELETE `/:todoId`: 404 for a missing row, then 403 for another user's
      row, then 400 for an incomplete one, the table unchanged; otherwise
      exactly that row is removed. */
  function DeleteTodo(s: Store, caller: UserId, id: int): (r: Outcome)
    ensures id !in s.todos ==> r == Outcome(s, Response(404, Failure(TodoNotFound)))
    ensures id in s.todos && s.todos[id].userId != caller ==> r == Outcome(s, Response(403, Failure(Unauthorized)))
    ensures Owns(s, caller, id) && !s.todos[id].completed ==>
              r == Outcome(s, Response(400, Failure(CannotDeleteIncomplete)))
    ensures r.response.status == 200 <==> Owns(s, caller, id) && s.todos[id].completed
    ensures r.response.status == 200 ==>
              && r.response.body == TodoRef(id)
              && r.store.nextId == s.nextId
              && id !in r.store.todos
              && r.store.todos.Keys == s.todos.Keys - {id}
              && (forall other :: other in r.store.todos ==> r.store.todos[other] == s.todos[other])
  {
    if id !in s.todos then Outcome(s, Response(404, Failure(TodoNotFound)))
    else if s.todos[id].userId != caller then Outcome(s, Response(403, Failure(Unauthorized)))
    else if !s.todos[id].completed then Outcome(s, Response(400, Failure(CannotDeleteIncomplete)))
    else Outcome(s.(todos := s.todos - {id}), Response(200, TodoRef(id)))
  }

  /** The router's four routes, with the ids already parsed. */
  datatype Route =
    | GetAll
    | Post(name: string, description: string)
    | PutCompleted(id: int)
    | DeleteOne(id: int)

  /** How one row may change between two moments: name, description and owner
      are fixed, and completion never goes back. */
  predicate Evolves(a: Todo, b: Todo) {
    SameButCompletion(a, b) && (a.completed ==> b.completed)
  }

  /** One authenticated request reaching the router. */
  function Handle(s: Store, caller: UserId, route: Route): (r: Outcome)
    requires WellFormed(s)
    ensures WellFormed(r.store) && r.store.nextId >= s.nextId
    ensures r.response.status != 200 && r.response.status != 201 ==> r.store == s
    ensures forall id :: id in s.todos && id !in r.store.todos ==>
              s.todos[id].completed && s.todos[id].userId == caller
    ensures forall id :: id in s.todos && id in r.store.todos ==> Evolves(s.todos[id], r.store.todos[id])
    ensures forall id :: id in s.todos && id in r.store.todos && r.store.todos[id] != s.todos[id] ==>
              s.todos[id].userId == caller
    ensures forall id :: id in r.store.todos && id !in s.todos ==>
              id >= s.nextId && r.store.todos[id].userId == caller && !r.store.todos[id].completed
  {
    match route
    case GetAll => Outcome(s, ListTodos(s, caller))
    case Post(name, description) => CreateTodo(s, caller, name, description)
    case PutCompleted(id) => CompleteTodo(s, caller, id)
    case DeleteOne(id) => DeleteTodo(s, caller, id)
  }

  // ---------------------------------------------------------------------
  // The table as the handlers use it: one shared object updated in place
  // ---------------------------------------------------------------------

  class TodoTable {
    var todos: map<int, Todo>
    var nextId: int

    function State(): Store
      reads this
    {
      Store(todos, nextId)
    }

    ghost predicate Valid()
      reads this
    {
      WellFormed(State())
    }

    /** An empty table whose first id will be 1. */
    constructor ()
      ensures Valid() && todos == map[] && nextId == 1
    {
      todos := map[];
      nextId := 1;
    }

    /** GET `/`: reads the table and changes nothing. */
    method List(caller: UserId) returns (resp: Response)
      requires Valid()
      ensures resp == ListTodos(State(), caller)
    {
      resp := Response(200, TodoList(ListRows(todos, caller, nextId)));
    }

    /** POST `/`: inserts one row. */
    method Create(caller: UserId, name: string, description: string) returns (resp: Response)
      requires Valid()
      modifies this
      ensures Valid()
      ensures Outcome(State(), resp) == CreateTodo(old(State()), caller, name, description)
    {
      var id := nextId;
      todos := todos[id := Todo(name, description, false, caller)];
      nextId := nextId + 1;
      resp := Response(201, TodoRef(id));
    }

    /** PUT `/:todoId/completed`: loads the row, checks its owner, updates it. */
    method Complete(caller: UserId, id: int) returns (resp: Response)
      requires Valid()
      modifies this
      ensures Valid()
      ensures Outcome(State(), resp) == CompleteTodo(old(State()), caller, id)
    {
      if id !in todos || todos[id].userId != caller {
        return Response(403, Failure(NotFoundOrUnauthorized));
      }
      todos := todos[id := todos[id].(completed := true)];
      resp := Response(200, TodoRef(id));
    }

    /** DELETE `/:todoId`: loads the row, checks existence, owner and
        completion in that order, and removes it. */
    method Delete(caller: UserId, id: int) returns (resp: Response)
      requires Valid()
      modifies this
      ensures Valid()
      ensures Outcome(State(), resp) == DeleteTodo(old(State()), caller, id)
    {
      if id !in todos {
        return Response(404, Failure(TodoNotFound));
      }
      var todo := todos[id];
      if todo.userId != caller {
        return Response(403, Failure(Unauthorized));
      }
      if !todo.completed {
        return Response(400, Failure(CannotDeleteIncomplete));
      }
      todos := todos - {id};
      resp := Response(200, TodoRef(id));
    }

    /** The router behind its gate: one authenticated request. */
    method Dispatch(caller: UserId, route: Route) returns (resp: Response)
      requires Valid()
      modifies this
      ensures Valid()
      ensures Outcome(State(), resp) == Handle(old(State()), caller, route)
    {
      match route
      case GetAll => resp := List(caller);
      case Post(name, description) => resp := Create(caller, name, description);
      case PutCompleted(id) => resp := Complete(caller, id);
      case DeleteOne(id) => resp := Delete(caller, id);
    }
  }
}
