/** backend/server.js mounts the token middleware in front of the todo
    router (`app.use("/todos", verifyToken, todoRouter)`), and every route of
    the router runs its own `authenticate` gate first: a request reaches a
    handler only when both gates accept it. */
module Server {
  import opened Http
  import opened JsString
  import opened Auth
  import opened TodoRoutes

  /** Both gates read the same token once the header starts with `Bearer `. */
  lemma GatesAgreeOnBearer(authorization: Option<string>)
    requires BearerToken(authorization).Some?
    ensures TokenOf(authorization) == BearerToken(authorization)
  {
  }

  /** The requests both gates let through: a `Bearer ` header with a
      non-empty token that the identity provider maps to a user. */
  predicate Admitted(authorization: Option<string>, getUser: Verifier) {
    && BearerToken(authorization).Some?
    && BearerToken(authorization).value != ""
    && UserOf(getUser(BearerToken(authorization).value)).Some?
  }

  /** The user an admitted request acts for. */
  function Caller(authorization: Option<string>, getUser: Verifier): User
    requires Admitted(authorization, getUser)
  {
    UserOf(getUser(BearerToken(authorization).value)).value
  }

  /** One request to `/todos…`: the middleware, then the router's gate, then
      the handler. A request refused by a gate gets that gate's 401 reply,
      the middleware answering first, and the table is untouched; an
      admitted one is handled for the provider's user. */
  function Serve(s: Store, authorization: Option<string>, getUser: Verifier, route: Route): (r: Outcome)
    requires WellFormed(s)
    ensures !Admitted(authorization, getUser) ==> r.store == s && r.response.status == 401
    ensures VerifyDecision(authorization, getUser).Reject? ==>
              r == Outcome(s, VerifyDecision(authorization, getUser).response)
    ensures VerifyDecision(authorization, getUser).Accept? && AuthenticateDecision(authorization, getUser).Reject? ==>
              r == Outcome(s, AuthenticateDecision(authorization, getUser).response)
    ensures Admitted(authorization, getUser) ==> r == Handle(s, Caller(authorization, getUser).id, route)
  {
    match VerifyDecision(authorization, getUser)
    case Reject(resp) => Outcome(s, resp)
    case Accept(_) =>
      match AuthenticateDecision(authorization, getUser)
      case Reject(resp) => Outcome(s, resp)
      case Accept(u) =>
        GatesAgreeOnBearer(authorization);
        Handle(s, u.id, route)
  }

  /** The two gates disagree on the scheme word: `Basic abc` with a token the
      provider accepts passes the middleware but is refused by the router's
      gate, so it never reaches a handler. */
  lemma OtherSchemeStopsAtRouter(s: Store, getUser: Verifier, u: User, route: Route)
    requires WellFormed(s)
    requires getUser("abc") == Data(Some(u))
    ensures VerifyDecision(Some("Basic abc"), getUser) == Accept(u)
    ensures AuthenticateDecision(Some("Basic abc"), getUser) == Reject(Response(401, Failure(MissingOrInvalidHeader)))
    ensures Serve(s, Some("Basic abc"), getUser, route) == Outcome(s, Response(401, Failure(MissingOrInvalidHeader)))
  {
    BasicSchemeYieldsToken();
    assert "Basic abc"[..|BearerPrefix|] != BearerPrefix by {
      assert "Basic abc"[1] != BearerPrefix[1];
    }
  }

  /** A `Bearer ` header with an empty token passes the router's gate's
      prefix test but is refused by the middleware before any lookup. */
  lemma EmptyBearerStopsAtMiddleware(s: Store, g1: Verifier, g2: Verifier, route: Route)
    requires WellFormed(s)
    ensures Serve(s, Some("Bearer "), g1, route) == Outcome(s, Response(401, ErrorBody(NoTokenProvided)))
    ensures Serve(s, Some("Bearer "), g1, route) == Serve(s, Some("Bearer "), g2, route)
  {
  }

  /** The request path as the server runs it, on the shared table and the
      request object: the middleware, then `authenticate`, then the handler
      for the user `authenticate` stored on the request. */
  method HandleRequest(req: Request, table: TodoTable, getUser: Verifier, route: Route) returns (resp: Response)
    requires table.Valid()
    modifies req`user, table
    ensures table.Valid()
    ensures Outcome(table.State(), resp) == Serve(old(table.State()), req.authorization, getUser, route)
    ensures Admitted(req.authorization, getUser) ==> req.user == Some(Caller(req.authorization, getUser))
    ensures VerifyDecision(req.authorization, getUser).Reject? ==> req.user == old(req.user)
    ensures VerifyDecision(req.authorization, getUser).Accept? ==>
              req.user == Some(VerifyDecision(req.authorization, getUser).user)
  {
    var g := VerifyToken(req, getUser);
    if g.Halt? {
      return g.response;
    }
    g := Authenticate(req, getUser);
    if g.Halt? {
      return g.response;
    }
    GatesAgreeOnBearer(req.authorization);
    resp := table.Dispatch(req.user.value.id, route);
  }
}
