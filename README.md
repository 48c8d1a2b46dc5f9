# Todo backend: ownership and lifecycle gate, in Dafny

This project models the server core of a small multi-user todo application
(an Express backend over a Prisma `Todo` table, with identity delegated to
Supabase). A request to `/todos…` passes two bearer-token gates in turn:

* the middleware `verifyToken` (backend/middleware/auth.js), mounted by
  backend/server.js:19 in front of the router, and
* the router's own `authenticate` (backend/routes/todos.js).

Only then does one of four handlers run on the caller's behalf:

* List returns the caller's items, newest first.
* Create inserts an item that is not completed and belongs to the caller.
* Complete marks an item the caller owns as completed.
* Delete removes an item the caller owns, and only once it is completed.

Modules, one per source file plus shared values:

* `Http` (http.dfy): the identity provider's answer (`Lookup`), users,
  todo rows, the JSON replies (`Response`, `Body`), a gate's verdict, and
  the `Request` object whose `user` field the gates assign.
* `JsString` (jsstring.dfy): JavaScript's `split(" ")` and `startsWith`.
  `Split` keeps empty pieces. It is proved to be undone by `Join` and to
  undo `Join` of space-free pieces.
* `Auth` (auth.dfy, for backend/middleware/auth.js): the module-load check of the environment, token
  extraction (`TokenOf`), the middleware's verdict (`VerifyDecision`) and
  the middleware itself (`VerifyToken`, which assigns `req.user`).
* `TodoRoutes` (todos.dfy, for backend/routes/todos.js): the router's gate (`BearerToken`,
  `AuthenticateDecision`, `Authenticate`) and the table.
  * The table is specified as a value `Store`: a `map<int, Todo>` plus the
    autoincrement counter. Each handler has a function over it:
    `ListTodos`, `CreateTodo`, `CompleteTodo`, `DeleteTodo`, and `Handle`
    dispatches on the route.
  * The table is implemented as the class `TodoTable`, whose `todos` map is
    updated in place by one method per route. Each method is proved equal to
    its function.
* `TodoLifecycle` (lifecycle.dfy): properties over any sequence of
  requests by any users. Ids are never reused. Items only move from not
  completed to completed. Name, description and owner never change. Other
  users can neither change nor remove an item. It also holds a worked
  scenario for two users.
* `Server` (server.dfy): the composition of both gates and the handler.
  * `Serve` states that a request refused by either gate gets 401 and leaves
    the table unchanged.
  * An admitted request is handled for the user the identity provider
    returns for its token.
  * `HandleRequest` runs this on the request object and the shared table.

The identity provider's "get user for token" call is an oracle parameter
`getUser: string -> Lookup`. `Failed` stands for a reported `error` and
`Data(None)` for a response without a user. Being a function, the oracle
gives the same answer to both gates when they ask about the same token.

Behaviours of the code worth noting, which the model keeps:

* Complete answers 403 "Todo not found or unauthorized" both for a missing
  item and for another user's item. It never answers 404.
* Create does not check that `name` is non-empty.
* The middleware accepts any scheme word before the token, not only
  `Bearer`; the router's own gate requires `Bearer `.
* The middleware's 401 replies have the shape `{ error }`, while the
  router's gate and handlers reply `{ success: false, message }`.

## Model

| member | source | states |
|---|---|---|
| `Http.UserOf` | backend/middleware/auth.js:36 | a lookup yields a user exactly when it has no error and its data holds a user, and then it is that user |
| `JsString.Split` | backend/middleware/auth.js:25 | `split(" ")` gives at least one piece; no piece holds a space; it gives one piece iff there is no space; the first piece is the prefix of the string ended by its end or by a space |
| `JsString.Piece` | backend/middleware/auth.js:25 | `split(" ")[i]` is defined exactly when there are more than `i` pieces, and holds no space |
| `JsString.JoinSplit` | backend/middleware/auth.js:25 | joining the pieces of `split(" ")` with single spaces gives back the string |
| `JsString.SplitJoin` | backend/middleware/auth.js:25 | splitting the single-space join of space-free pieces gives back the pieces |
| `JsString.SplitPrefix` | backend/middleware/auth.js:25 | a space-free word followed by a space is split off as the first piece, and the rest splits on its own |
| `Auth.CreateVerifierClient` | backend/middleware/auth.js:8-20 | loading succeeds iff both the URL and the service role key are set and non-empty, and the client then holds both; otherwise it fails with the missing-variables message |
| `Auth.TokenOf` | backend/middleware/auth.js:25 | a token exists iff there is a header and it contains a space; the token holds no space |
| `Auth.TokenIsSecondField` | backend/middleware/auth.js:25 | for any scheme word, the token is the text between the first and the second space; the scheme is not checked |
| `Auth.BasicSchemeYieldsToken` | backend/middleware/auth.js:25 | the header `Basic abc` yields the token `abc` |
| `Auth.NoTokenCases` | backend/middleware/auth.js:25-30 | a missing header, a header with no space, and a header ending right after its first space carry no token |
| `Auth.VerifyDecision` | backend/middleware/auth.js:25-41 | no token gives 401 "No token provided"; a provider error or no user gives 401 "Invalid or expired token"; it accepts iff there is a token for which the provider returns a user, and accepts that user; every rejection is 401 |
| `Auth.NoTokenIgnoresVerifier` | backend/middleware/auth.js:27-33 | without a token the verdict is a rejection and is the same for every oracle, so the provider is not consulted |
| `Auth.VerifyToken` | backend/middleware/auth.js:23-45 | on acceptance `req.user` is the provider's user and `next` is called; on rejection the 401 reply is sent and `req.user` is unchanged |
| `TodoRoutes.BearerToken` | backend/routes/todos.js:17-24 | a token exists iff the header is present and starts with `Bearer `; it is then the space-free text right after `Bearer `, ended by the end of the header or a space |
| `TodoRoutes.AuthenticateDecision` | backend/routes/todos.js:13-38 | a missing or non-`Bearer ` header gives 401 "Missing or invalid Authorization header"; a provider error or no user gives 401 "Invalid or expired token"; it accepts iff the provider returns a user for the bearer token, and accepts that user |
| `TodoRoutes.NoBearerIgnoresVerifier` | backend/routes/todos.js:17-22 | without a `Bearer ` header the verdict is the same 401 for every oracle, so the provider is not consulted |
| `TodoRoutes.Authenticate` | backend/routes/todos.js:13-39 | on acceptance `req.user` is the provider's user and `next` is called; on rejection the 401 reply is sent and `req.user` is unchanged |
| `TodoRoutes.ListRows` | backend/routes/todos.js:44-47 | the rows with ids below the bound that the caller owns, each equal to the stored row, in strictly descending id order, and every such row is included |
| `TodoRoutes.ListTodos` | backend/routes/todos.js:42-52 | 200 with exactly the caller's rows, as stored, in strictly descending id order; no other user's row appears |
| `TodoRoutes.CreateTodo` | backend/routes/todos.js:63-79 | 201 with an id not yet in the table; the table gains exactly that row, with the given name and description, not completed, owned by the caller; every other row is kept; the table invariant holds |
| `TodoRoutes.CompleteTodo` | backend/routes/todos.js:90-114 | a missing row and another user's row both give the same 403 with the table unchanged; for the owner, 200 with the id, that row completed with its other fields kept, every other row unchanged; completing a completed row changes nothing |
| `TodoRoutes.DeleteTodo` | backend/routes/todos.js:125-163 | checks in order: missing gives 404, another owner gives 403, not completed gives 400, each with the table unchanged; it succeeds (200 with the id) iff the caller owns the row and it is completed, and then exactly that row is removed |
| `TodoRoutes.Handle` | backend/routes/todos.js:42-171 | any route keeps the table invariant; a non-success reply leaves the table unchanged; a removed row was completed and owned by the caller; a surviving row keeps name, description and owner, and its completion never goes back; only the owner changes a row; a new row has a fresh id, belongs to the caller and is not completed |
| `TodoRoutes.TodoTable.List` | backend/routes/todos.js:42-52 | the in-place table answers GET as `ListTodos` and changes nothing |
| `TodoRoutes.TodoTable.Create` | backend/routes/todos.js:63-79 | the insert leaves the table and the reply as `CreateTodo` describes |
| `TodoRoutes.TodoTable.Complete` | backend/routes/todos.js:90-114 | the load, owner check and update leave the table and the reply as `CompleteTodo` describes |
| `TodoRoutes.TodoTable.Delete` | backend/routes/todos.js:125-163 | the load, the three checks and the delete leave the table and the reply as `DeleteTodo` describes |
| `TodoRoutes.TodoTable.Dispatch` | backend/routes/todos.js:42-171 | routing one authenticated request to its handler has the effect `Handle` describes |
| `TodoLifecycle.Run` | backend/routes/todos.js:42-171 | any sequence of requests keeps the table invariant and never lowers the next id |
| `TodoLifecycle.GoneStaysGone` | backend/routes/todos.js:67-79 | an id that was handed out and is no longer present never comes back, whatever requests follow |
| `TodoLifecycle.ItemsOnlyEvolve` | backend/routes/todos.js:99-114 | over any requests by anyone, an item keeps name, description and owner, and once completed stays completed |
| `TodoLifecycle.OthersCannotTouch` | backend/routes/todos.js:99-146 | requests only by other users leave an item present and unchanged |
| `TodoLifecycle.RemovalNeedsOwner` | backend/routes/todos.js:141-158 | an item that disappears over a run was removed during a run that contains a request by its owner |
| `TodoLifecycle.Scenario` | backend/routes/todos.js:63-163 | for two users: create gives id 1; the owner lists it uncompleted and the other user lists nothing; deleting it uncompleted gives 400, and by the other user 403; completing by the other user gives 403; completing by the owner gives 200 and lists it completed; deleting then gives 200 and the list is empty |
| `Server.GatesAgreeOnBearer` | backend/server.js:19 | once the header starts with `Bearer `, the middleware and the router's gate look up the same token |
| `Server.Serve` | backend/server.js:19 | the middleware runs first: a request it refuses gets the middleware's reply; one it accepts but the router's gate refuses gets the router's gate's reply; either way the status is 401 and the table is unchanged; a request both accept (a `Bearer ` header, a non-empty token, a user from the provider) is handled for that user |
| `Server.OtherSchemeStopsAtRouter` | backend/routes/todos.js:17-22 | `Basic abc` with a token the provider accepts passes the middleware, is refused by the router's gate with 401, and the table is unchanged |
| `Server.EmptyBearerStopsAtMiddleware` | backend/middleware/auth.js:28-30 | the header `Bearer ` is refused by the middleware with 401 "No token provided", whatever the oracle |
| `Server.HandleRequest` | backend/server.js:19 | the request path on the shared table and request object has the effect `Serve` describes, and an admitted request carries the provider's user in `req.user`; a request the middleware refuses leaves `req.user` as it was, and one the middleware accepts (even if the router's gate then refuses) carries the middleware's user |

## Left out

- The `catch` branches answering 500 are not modelled (backend/routes/todos.js:53-58, 80-86, 115-121, 164-169). The table here cannot fail, so storage errors and their generic messages do not arise.
- Console logging is not modelled, including the environment report at backend/middleware/auth.js:4-5.
- Route ids are taken as already-parsed integers. `Number(req.params.todoId)`, and the `NaN` it gives for a non-numeric path segment, are not modelled.
- Create's `name` and `description` are taken as strings. A request body that omits them leaves `undefined` values for the database to accept or refuse. The database schema that decides this is not part of this model.
- The identity provider is a pure function of the token. The source calls it once per gate. A provider whose answer changes between the two calls, or that times out, is not modelled.
- The race between two concurrent requests that load the same row before either writes is not modelled. Requests are served one at a time, as `TodoLifecycle.Run` does.
- The router module creates its own identity-provider client from the environment without checking it (backend/routes/todos.js:7-10). Only the middleware's check is modelled, as `Auth.CreateVerifierClient`.
- The user record is reduced to its id and email. The other fields the provider returns are passed through untouched by the source and play no part in any decision.
- HTTP header handling is not modelled: the case of header names, repeated headers, and JSON serialisation of replies.
- Express wiring in backend/server.js is not modelled: CORS, the body parser and listening on port 8080. Only the order of the two gates is kept.
- backend/routes/todo.js is not part of this model. The server never mounts it, since it imports backend/routes/todos.js.
- The browser client (frontend/src) is not part of this model.
