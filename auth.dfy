/** backend/middleware/auth.js: the token middleware mounted in front of the
    todo router. It takes the second space-separated field of the
    `Authorization` header as the token, whatever the scheme word, asks the
    identity provider for its user and either answers 401 or stores the user
    on the request and calls `next()`. */
module Auth {
  import opened Http
  import opened JsString

  const NoTokenProvided := "No token provided"
  const MissingEnvironment := "Missing SUPABASE_URL or SUPABASE_SERVICE_ROLE_KEY environment variables"

  /** The identity-provider client built once, when the module is loaded. */
  datatype Client = Client(url: string, serviceRoleKey: string)

  /** JavaScript truthiness of an environment variable: set and non-empty. */
  predicate Truthy(v: Option<string>) {
    v.Some? && v.value != ""
  }

  /** Module initialisation: loading fails unless both the project URL and the
      service role key are set to non-empty strings. */
  function CreateVerifierClient(url: Option<string>, serviceRoleKey: Option<string>): (r: Result<Client, string>)
    ensures r.Ok? <==> Truthy(url) && Truthy(serviceRoleKey)
    ensures r.Ok? ==> r.value.url == url.value && r.value.serviceRoleKey == serviceRoleKey.value
    ensures r.Err? ==> r.error == MissingEnvironment
  {
    if !Truthy(url) || !Truthy(serviceRoleKey) then Err(MissingEnvironment)
    else Ok(Client(url.value, serviceRoleKey.value))
  }

  /** `req.headers.authorization?.split(' ')[1]`: the text between the first
      and the second space of the header, or nothing when the header is
      absent or has no space. */
  function TokenOf(authorization: Option<string>): (r: Option<string>)
    ensures r.Some? <==> authorization.Some? && ' ' in authorization.value
    ensures r.Some? ==> ' ' !in r.value
  {
    match authorization
    case None => None
    case Some(h) => Piece(h, 1)
  }

  /** The scheme word is never looked at: any space-free word, a single
      space and a space-free token, optionally followed by a space and more,
      yields that token. */
  lemma TokenIsSecondField(scheme: string, token: string, rest: string)
    requires ' ' !in scheme && ' ' !in token
    requires rest == [] || rest[0] == ' '
    ensures TokenOf(Some(scheme + " " + token + rest)) == Some(token)
  {
    assert scheme + " " + token + rest == scheme + " " + (token + rest);
    SplitPrefix(scheme, token + rest);
    FirstPiece(token, rest);
  }

  /** A header in another scheme, such as `Basic abc`, still yields a token. */
  lemma BasicSchemeYieldsToken()
    ensures TokenOf(Some("Basic abc")) == Some("abc")
  {
    TokenIsSecondField("Basic", "abc", "");
    assert "Basic" + " " + "abc" + "" == "Basic abc";
  }

  /** Whether the header carries a token this middleware will look up. */
  predicate HasToken(authorization: Option<string>) {
    TokenOf(authorization).Some? && TokenOf(authorization).value != ""
  }

  /** The middleware's verdict, given the identity oracle. */
  function VerifyDecision(authorization: Option<string>, getUser: Verifier): (r: Decision)
    ensures r.Reject? ==> r.response.status == 401
    ensures !HasToken(authorization) ==> r == Reject(Response(401, ErrorBody(NoTokenProvided)))
    ensures HasToken(authorization) && UserOf(getUser(TokenOf(authorization).value)).None? ==>
              r == Reject(Response(401, ErrorBody(InvalidOrExpiredToken)))
    ensures r.Accept? <==> HasToken(authorization) && UserOf(getUser(TokenOf(authorization).value)).Some?
    ensures r.Accept? ==> getUser(TokenOf(authorization).value) == Data(Some(r.user))
  {
    if !HasToken(authorization) then Reject(Response(401, ErrorBody(NoTokenProvided)))
    else
      match UserOf(getUser(TokenOf(authorization).value))
      case None => Reject(Response(401, ErrorBody(InvalidOrExpiredToken)))
      case Some(u) => Accept(u)
  }

  /** Without a token the verdict is the same whatever the oracle would have
      said: the identity provider is not consulted. */
  lemma NoTokenIgnoresVerifier(authorization: Option<string>, g1: Verifier, g2: Verifier)
    requires !HasToken(authorization)
    ensures VerifyDecision(authorization, g1) == VerifyDecision(authorization, g2)
    ensures VerifyDecision(authorization, g1).Reject?
  {
  }

  /** A missing header, one with no space, and one that ends right after its
      first space (`"Bearer "`) all carry no token. */
  lemma NoTokenCases(h: string)
    ensures !HasToken(None)
    ensures ' ' !in h ==> !HasToken(Some(h))
    ensures ' ' !in h ==> !HasToken(Some(h + " "))
  {
    if ' ' !in h {
      SplitPrefix(h, "");
      assert h + " " + "" == h + " ";
    }
  }

  /** The middleware itself: on acceptance it stores the provider's user on
      the request and calls `next()` once; otherwise it answers and leaves the
      request as it was. */
  method VerifyToken(req: Request, getUser: Verifier) returns (g: GateResult)
    modifies req`user
    ensures VerifyDecision(req.authorization, getUser).Accept? ==>
              g == Next && req.user == Some(VerifyDecision(req.authorization, getUser).user)
    ensures VerifyDecision(req.authorization, getUser).Reject? ==>
              g == Halt(VerifyDecision(req.authorization, getUser).response) && req.user == old(req.user)
  {
    var token := TokenOf(req.authorization);
    if token.None? || token.value == "" {
      return Halt(Response(401, ErrorBody(NoTokenProvided)));
    }
    var lookup := getUser(token.value);
    if lookup.Failed? || lookup.user.None? {
      return Halt(Response(401, ErrorBody(InvalidOrExpiredToken)));
    }
    req.user := lookup.user;
    g := Next;
  }
}
