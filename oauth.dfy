/** The OAuth handlers of server.js: the authorization-code grant of
    section 4.1 of RFC 6749 with PKCE (RFC 7636), kept in a per-browser
    session record. The token endpoint is a parameter of the callback: a
    function from the request the server sends to the outcome it gets. */
module OAuth {
  import opened Common
  import opened Pkce

  const RedirectUri := "http://localhost:3000/auth/notion/callback"
  const AuthorizeEndpoint := "https://api.notion.com/v1/oauth/authorize"
  const TokenEndpoint := "https://api.notion.com/v1/oauth/token"
  const MissingCredentialText := "Codice o code verifier mancante."
  const ExchangeFailedText := "Errore durante l'autenticazione."
  const UnauthenticatedText := "Non autenticato"

  /** What a handler sends back. */
  datatype Response =
    | Redirect(location: string, query: seq<(string, string)>)   // res.redirect(location?query)
    | Text(status: int, body: string)                            // res.status(status).send(body)
    | JsonError(status: int, error: string)                      // res.status(status).json({ error })

  /** The body and Basic credentials of the POST to the token endpoint. */
  datatype TokenRequest = TokenRequest(
    endpoint: string,
    grantType: string,
    code: string,
    redirectUri: string,
    codeVerifier: string,
    username: string,
    password: string)

  /** What the POST yields: the token response's three fields, or any
      failure (network error, non-2xx status). */
  datatype TokenOutcome =
    | Granted(accessToken: string, workspaceId: string, workspaceName: string)
    | Failed

  /** What `ensureAuthenticated` does with a request: pass it on, or answer. */
  datatype Admission = Next | Refused(response: Response)

  /** `params.get(name)`: the first value under `name`. */
  function QueryValue(query: seq<(string, string)>, name: string): (v: Option<string>)
    ensures v.Some? <==> exists i :: 0 <= i < |query| && query[i].0 == name
  {
    if |query| == 0 then None
    else if query[0].0 == name then Some(query[0].1)
    else QueryValue(query[1..], name)
  }

  /** `get` returns the value of the first pair carrying the name. */
  lemma {:induction false} QueryValueFirst(query: seq<(string, string)>, name: string, i: int)
    requires 0 <= i < |query| && query[i].0 == name
    requires forall j :: 0 <= j < i ==> query[j].0 != name
    ensures QueryValue(query, name) == Some(query[i].1)
  {
    if i > 0 {
      QueryValueFirst(query[1..], name, i - 1);
    }
  }

  /** The query string of the authorization request, in the order the
      source lists its parameters. */
  function AuthorizeQuery(clientId: string, challenge: string, state: string): (q: seq<(string, string)>)
    ensures QueryValue(q, "client_id") == Some(clientId)
    ensures QueryValue(q, "response_type") == Some("code")
    ensures QueryValue(q, "redirect_uri") == Some(RedirectUri)
    ensures QueryValue(q, "scope") == Some("email")
    ensures QueryValue(q, "code_challenge") == Some(challenge)
    ensures QueryValue(q, "code_challenge_method") == Some("S256")
    ensures QueryValue(q, "state") == Some(state)
  {
    var q := [("client_id", clientId),
              ("response_type", "code"),
              ("redirect_uri", RedirectUri),
              ("scope", "email"),
              ("code_challenge", challenge),
              ("code_challenge_method", "S256"),
              ("state", state)];
    var names := ["client_id", "response_type", "redirect_uri", "scope",
                  "code_challenge", "code_challenge_method", "state"];
    assert forall j :: 0 <= j < 7 ==> q[j].0 == names[j];
    // The names differ pairwise: by length, or else by a character.
    assert forall a, b :: 0 <= a < b < 7 ==> names[a] != names[b] by {
      assert names[1][2] != names[2][2];
      assert names[4][0] != names[6][0] && names[4][1] != names[2][1];
    }
    QueryValueFirst(q, names[0], 0);
    QueryValueFirst(q, names[1], 1);
    QueryValueFirst(q, names[2], 2);
    QueryValueFirst(q, names[3], 3);
    QueryValueFirst(q, names[4], 4);
    QueryValueFirst(q, names[5], 5);
    QueryValueFirst(q, names[6], 6);
    q
  }

  /** `req.session`: the fields the handlers read and write. */
  class Session {
    var codeVerifier: Option<string>
    var accessToken: Option<string>
    var notionWorkspaceId: Option<string>
    var notionWorkspaceName: Option<string>
    /** The code challenge sent by the most recent authorization request. */
    ghost var sentChallenge: Option<string>
    /** The token request whose answer set the access token. */
    ghost var grantedBy: Option<TokenRequest>

    /** A new, empty session (what a browser gets on its first request and
        after its session is destroyed). */
    constructor ()
      ensures codeVerifier == None && accessToken == None
      ensures notionWorkspaceId == None && notionWorkspaceName == None
      ensures sentChallenge == None && grantedBy == None
    {
      codeVerifier, accessToken := None, None;
      notionWorkspaceId, notionWorkspaceName := None, None;
      sentChallenge, grantedBy := None, None;
    }
  }

  /** The server's configuration: client credentials and the hash. */
  class Server {
    const clientId: string
    const clientSecret: string
    const sha256: Sha256

    constructor (id: string, secret: string, hash: Sha256)
      ensures clientId == id && clientSecret == secret && sha256 == hash
    {
      clientId, clientSecret, sha256 := id, secret, hash;
    }

    /** The session invariant: a stored verifier is a valid RFC 7636
        verifier whose challenge is the one last sent; the token and the
        workspace fields are set together, and only by a grant answering an
        authorization-code request that carried a valid verifier. */
    ghost predicate Valid(s: Session)
      reads s
    {
      && (s.codeVerifier.Some? <==> s.sentChallenge.Some?)
      && (s.codeVerifier.Some? ==>
            ValidVerifier(s.codeVerifier.value) && IsAscii(s.codeVerifier.value)
            && s.sentChallenge.value == CodeChallenge(sha256, s.codeVerifier.value))
      && (s.accessToken.Some? <==> s.notionWorkspaceId.Some?)
      && (s.accessToken.Some? <==> s.notionWorkspaceName.Some?)
      && (s.accessToken.Some? <==> s.grantedBy.Some?)
      && (s.grantedBy.Some? ==>
            s.grantedBy.value.grantType == "authorization_code"
            && s.grantedBy.value.redirectUri == RedirectUri
            && ValidVerifier(s.grantedBy.value.codeVerifier))
    }

    /** GET /auth/notion: store a fresh verifier (replacing any earlier
        one) and redirect to the authorization endpoint with its challenge. */
    method StartAuthorization(s: Session, verifierBytes: seq<Byte>, stateBytes: seq<Byte>)
      returns (res: Response)
      requires |verifierBytes| == 64 && |stateBytes| == 16
      requires Valid(s)
      modifies s
      ensures Valid(s)
      ensures s.codeVerifier == Some(CodeVerifier(verifierBytes))
      ensures s.sentChallenge == Some(CodeChallenge(sha256, s.codeVerifier.value))
      ensures res == Redirect(AuthorizeEndpoint,
                              AuthorizeQuery(clientId, s.sentChallenge.value, Hex(stateBytes)))
      ensures s.accessToken == old(s.accessToken) && s.grantedBy == old(s.grantedBy)
      ensures s.notionWorkspaceId == old(s.notionWorkspaceId)
      ensures s.notionWorkspaceName == old(s.notionWorkspaceName)
    {
      var verifier := CodeVerifier(verifierBytes);
      var challenge := CodeChallenge(sha256, verifier);
      s.codeVerifier := Some(verifier);
      s.sentChallenge := Some(challenge);
      res := Redirect(AuthorizeEndpoint, AuthorizeQuery(clientId, challenge, Hex(stateBytes)));
    }

    /** GET /auth/notion/callback?code=...: without a code or a stored
        verifier answer 400 and send nothing; otherwise send one token
        request carrying the stored verifier, store the token fields on a
        grant and redirect to '/', or answer 500 and change nothing. The
        `state` query parameter is not read. */
    method Callback(s: Session, code: Option<string>, tokenEndpoint: TokenRequest -> TokenOutcome)
      returns (res: Response, request: Option<TokenRequest>)
      requires Valid(s)
      modifies s
      ensures Valid(s)
      ensures s.codeVerifier == old(s.codeVerifier) && s.sentChallenge == old(s.sentChallenge)
      ensures !Truthy(code) || !Truthy(old(s.codeVerifier)) ==>
                && res == Text(400, MissingCredentialText) && request == None
                && s.accessToken == old(s.accessToken) && s.grantedBy == old(s.grantedBy)
                && s.notionWorkspaceId == old(s.notionWorkspaceId)
                && s.notionWorkspaceName == old(s.notionWorkspaceName)
      ensures Truthy(code) && Truthy(old(s.codeVerifier)) ==>
                request == Some(TokenRequest(TokenEndpoint, "authorization_code", code.value,
                                             RedirectUri, old(s.codeVerifier).value, clientId, clientSecret))
      ensures request.Some? && tokenEndpoint(request.value).Granted? ==>
                var grant := tokenEndpoint(request.value);
                && res == Redirect("/", [])
                && s.accessToken == Some(grant.accessToken)
                && s.notionWorkspaceId == Some(grant.workspaceId)
                && s.notionWorkspaceName == Some(grant.workspaceName)
                && s.grantedBy == request
      ensures request.Some? && tokenEndpoint(request.value).Failed? ==>
                && res == Text(500, ExchangeFailedText)
                && s.accessToken == old(s.accessToken) && s.grantedBy == old(s.grantedBy)
                && s.notionWorkspaceId == old(s.notionWorkspaceId)
                && s.notionWorkspaceName == old(s.notionWorkspaceName)
    {
      var verifier := s.codeVerifier;
      if !Truthy(code) || !Truthy(verifier) {
        return Text(400, MissingCredentialText), None;
      }
      var req := TokenRequest(TokenEndpoint, "authorization_code", code.value,
                              RedirectUri, verifier.value, clientId, clientSecret);
      request := Some(req);
      match tokenEndpoint(req)
      case Granted(token, workspaceId, workspaceName) =>
        s.accessToken := Some(token);
        s.notionWorkspaceId := Some(workspaceId);
        s.notionWorkspaceName := Some(workspaceName);
        s.grantedBy := request;
        res := Redirect("/", []);
      case Failed =>
        res := Text(500, ExchangeFailedText);
    }

    /** GET /logout: destroy the session; the next request finds an empty one. */
    method Logout(s: Session) returns (res: Response)
      modifies s
      ensures Valid(s)
      ensures s.codeVerifier == None && s.accessToken == None
      ensures s.notionWorkspaceId == None && s.notionWorkspaceName == None
      ensures s.sentChallenge == None && s.grantedBy == None
      ensures res == Redirect("/", [])
    {
      s.codeVerifier, s.accessToken := None, None;
      s.notionWorkspaceId, s.notionWorkspaceName := None, None;
      s.sentChallenge, s.grantedBy := None, None;
      res := Redirect("/", []);
    }

    /** `ensureAuthenticated`: pass the request on iff the session holds a
        non-empty access token, else answer 401 with a JSON error. */
    method EnsureAuthenticated(s: Session) returns (admission: Admission)
      ensures admission == Next <==> Truthy(s.accessToken)
      ensures admission != Next ==> admission == Refused(JsonError(401, UnauthenticatedText))
    {
      if Truthy(s.accessToken) {
        return Next;
      }
      admission := Refused(JsonError(401, UnauthenticatedText));
    }
  }

  /** A token endpoint that grants `token` exactly for an authorization-code
      request carrying `code`, the registered redirect URI and a verifier
      whose S256 challenge is the one it was shown. */
  function Provider(sha256: Sha256, shownChallenge: string, code: string, token: string,
                    workspaceId: string, workspaceName: string): TokenRequest -> TokenOutcome
  {
    (r: TokenRequest) =>
      if r.grantType == "authorization_code" && r.code == code && r.redirectUri == RedirectUri
         && IsAscii(r.codeVerifier) && CodeChallenge(sha256, r.codeVerifier) == shownChallenge
      then Granted(token, workspaceId, workspaceName)
      else Failed
  }

  /** A whole sign-in on a new session against a provider that checks the
      PKCE binding: the gate refuses first; a callback before any
      authorization request is refused with 400 and sends nothing; the one
      token request sent carries the redirect URI of the authorization
      request and the verifier whose S256 challenge that request carried;
      the gate then admits, and after logout it refuses again. */
  method SignInAndOut(srv: Server, verifierBytes: seq<Byte>, stateBytes: seq<Byte>,
                      code: string, token: string, workspaceId: string, workspaceName: string)
    returns (before: Admission, early: Response, earlyRequest: Option<TokenRequest>,
             authorize: Response, exchange: Option<TokenRequest>,
             signedIn: Admission, afterLogout: Admission)
    requires |verifierBytes| == 64 && |stateBytes| == 16
    requires code != "" && token != ""
    ensures before == Refused(JsonError(401, UnauthenticatedText))
    ensures early == Text(400, MissingCredentialText) && earlyRequest == None
    ensures authorize.Redirect? && authorize.location == AuthorizeEndpoint
    ensures exchange.Some? && exchange.value.code == code
    ensures IsAscii(exchange.value.codeVerifier)
    ensures QueryValue(authorize.query, "code_challenge") == Some(CodeChallenge(srv.sha256, exchange.value.codeVerifier))
    ensures QueryValue(authorize.query, "code_challenge_method") == Some("S256")
    ensures QueryValue(authorize.query, "redirect_uri") == Some(exchange.value.redirectUri)
    ensures signedIn == Next
    ensures afterLogout == Refused(JsonError(401, UnauthenticatedText))
  {
    var s := new Session();
    before := srv.EnsureAuthenticated(s);
    authorize := srv.StartAuthorization(s, verifierBytes, stateBytes);
    var shown := QueryValue(authorize.query, "code_challenge").value;
    var provider := Provider(srv.sha256, shown, code, token, workspaceId, workspaceName);
    // A callback on a second, new session: no verifier is stored there.
    var other := new Session();
    early, earlyRequest := srv.Callback(other, Some(code), provider);
    var res;
    res, exchange := srv.Callback(s, Some(code), provider);
    assert exchange.Some? && provider(exchange.value).Granted?;
    signedIn := srv.EnsureAuthenticated(s);
    var bye := srv.Logout(s);
    afterLogout := srv.EnsureAuthenticated(s);
  }

  /** Two authorization requests on one session: the second verifier wins,
      so a callback answered by a provider that was shown the first
      challenge fails with 500 unless the two challenges coincide, and the
      session stays signed out. */
  method SupersededAuthorization(srv: Server, first: seq<Byte>, second: seq<Byte>,
                                 stateBytes: seq<Byte>, code: string, token: string)
    returns (request: Option<TokenRequest>, res: Response, admission: Admission)
    requires |first| == 64 && |second| == 64 && |stateBytes| == 16
    requires code != ""
    ensures request.Some? && request.value.codeVerifier == CodeVerifier(second)
    ensures CodeChallenge(srv.sha256, CodeVerifier(first)) != CodeChallenge(srv.sha256, CodeVerifier(second)) ==>
              res == Text(500, ExchangeFailedText) && admission != Next
  {
    var s := new Session();
    var r1 := srv.StartAuthorization(s, first, stateBytes);
    var shown := QueryValue(r1.query, "code_challenge").value;
    var r2 := srv.StartAuthorization(s, second, stateBytes);
    var provider := Provider(srv.sha256, shown, code, token, "", "");
    res, request := srv.Callback(s, Some(code), provider);
    admission := srv.EnsureAuthenticated(s);
  }
}
