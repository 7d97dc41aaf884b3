/** `AuthServiceImpl` of the wallet tree: PIN login against the newest
    stored credential of the user, and the exchange of a refresh token for
    a fresh token pair. The password encoder and the token service are
    functions supplied by the caller; the login event is recorded as the
    user id it is published for. */
module Auth {
  import opened Wrappers
  import opened ErrorHandling
  import opened Jwt

  const ACCESS_TOKEN_SECONDS := 900
  const TOKEN_TYPE := "Bearer"

  const INVALID_USER := ApiException(UNAUTHORIZED, "INVALID_USER", "USER ID is incorrect.")
  const INVALID_PIN := ApiException(UNAUTHORIZED, "INVALID_PIN", "Invalid credentials.")
  const INVALID_TOKEN_TYPE := ApiException(BAD_REQUEST, "INVALID_REQUEST", "Invalid token type")

  datatype LoginRequest = LoginRequest(userId: string, pin: string)

  datatype RefreshRequest = RefreshRequest(refreshToken: string)

  datatype TokenResponse = TokenResponse(accessToken: string, refreshToken: string, expiresIn: int, tokenType: string)

  /** A row of `user_credentials`; `updatedAt` orders a user's rows. */
  datatype Credential = Credential(userId: string, secretHash: string, updatedAt: int)

  /** `findTopByUserIdOrderByUpdatedAtDesc`: a credential of the user
      with the latest update time, or none when the user has no row. Among
      rows with the same time the earliest in table order is taken. */
  function LatestCredential(rows: seq<Credential>, userId: string): (c: Option<Credential>)
    ensures c.None? <==> forall i :: 0 <= i < |rows| ==> rows[i].userId != userId
    ensures c.Some? ==> c.value in rows && c.value.userId == userId
    ensures c.Some? ==> forall i :: 0 <= i < |rows| && rows[i].userId == userId ==> rows[i].updatedAt <= c.value.updatedAt
  {
    if |rows| == 0 then None
    else
      var rest := LatestCredential(rows[1..], userId);
      assert forall i :: 1 <= i < |rows| ==> rows[i] == rows[1..][i - 1];
      if rows[0].userId != userId then rest
      else if rest.Some? && rest.value.updatedAt > rows[0].updatedAt then rest
      else Some(rows[0])
  }

  /** The token pair handed out for a user. */
  function Tokens(jwt: JwtService, userId: string): (t: TokenResponse)
    ensures t.expiresIn == ACCESS_TOKEN_SECONDS && t.tokenType == TOKEN_TYPE
  {
    TokenResponse(jwt.mintAccessToken(userId), jwt.mintRefreshToken(userId), ACCESS_TOKEN_SECONDS, TOKEN_TYPE)
  }

  /** A successful login: the tokens returned and the user id the login
      event is published for. */
  datatype LoginSuccess = LoginSuccess(tokens: TokenResponse, published: string)

  /** `login`: an unknown user is refused with INVALID_USER before the PIN
      is looked at; a PIN that does not match the stored hash is refused
      with INVALID_PIN; otherwise the event goes out for the credential's
      user id and tokens are minted for the requested user id. */
  function LoginOutcome(rows: seq<Credential>, matches: (string, string) -> bool, jwt: JwtService,
                        req: LoginRequest): (r: Result<LoginSuccess, Exception>)
    ensures LatestCredential(rows, req.userId).None? ==> r == Failure(INVALID_USER)
    ensures LatestCredential(rows, req.userId).Some? ==>
              var cred := LatestCredential(rows, req.userId).value;
              if matches(req.pin, cred.secretHash) then r == Success(LoginSuccess(Tokens(jwt, req.userId), cred.userId))
              else r == Failure(INVALID_PIN)
  {
    match LatestCredential(rows, req.userId)
    case None => Failure(INVALID_USER)
    case Some(cred) =>
      if !matches(req.pin, cred.secretHash) then Failure(INVALID_PIN)
      else Success(LoginSuccess(Tokens(jwt, req.userId), cred.userId))
  }

  /** A login succeeds exactly when the user has a credential and the PIN
      matches the newest one, and then the event names the user who
      logged in. */
  lemma LoginSucceedsIffPinMatches(rows: seq<Credential>, matches: (string, string) -> bool, jwt: JwtService, req: LoginRequest)
    ensures var r := LoginOutcome(rows, matches, jwt, req);
            r.Success? <==> (exists i :: 0 <= i < |rows| && rows[i].userId == req.userId)
                            && matches(req.pin, LatestCredential(rows, req.userId).value.secretHash)
    ensures var r := LoginOutcome(rows, matches, jwt, req);
            r.Success? ==> r.value.published == req.userId && r.value.tokens == Tokens(jwt, req.userId)
  {
  }

  /** An unknown user is refused the same way whatever PIN is sent. */
  lemma UnknownUserIgnoresPin(rows: seq<Credential>, matches: (string, string) -> bool, jwt: JwtService,
                              userId: string, pin1: string, pin2: string)
    requires forall i :: 0 <= i < |rows| ==> rows[i].userId != userId
    ensures LoginOutcome(rows, matches, jwt, LoginRequest(userId, pin1)) == Failure(INVALID_USER)
    ensures LoginOutcome(rows, matches, jwt, LoginRequest(userId, pin2)) == Failure(INVALID_USER)
  {
  }

  /** `refresh`: a token that does not parse fails with the parser's own
      exception; one whose type is anything but exactly "refresh" (an
      access token, or no type at all) is refused with INVALID_REQUEST;
      otherwise a new pair is minted for the token's subject. */
  function Refresh(jwt: JwtService, req: RefreshRequest): (r: Result<TokenResponse, Exception>)
    ensures jwt.parseAndValidate(req.refreshToken).Failure? ==>
              r == Failure(jwt.parseAndValidate(req.refreshToken).error)
    ensures jwt.parseAndValidate(req.refreshToken).Success? ==>
              var parsed := jwt.parseAndValidate(req.refreshToken).value;
              r == if parsed.typ == Some(REFRESH) then Success(Tokens(jwt, parsed.userId)) else Failure(INVALID_TOKEN_TYPE)
  {
    var parsed :- jwt.parseAndValidate(req.refreshToken);
    if parsed.typ != Some(REFRESH) then Failure(INVALID_TOKEN_TYPE)
    else Success(Tokens(jwt, parsed.userId))
  }

  /** Login and refresh fit together: with a service that parses what it
      mints, the refresh token from a login is exchanged for the same
      user's pair, while the access token from that login is refused. */
  lemma LoginTokensRefresh(rows: seq<Credential>, matches: (string, string) -> bool, jwt: JwtService, req: LoginRequest)
    requires ParsesWhatItMints(jwt)
    requires LoginOutcome(rows, matches, jwt, req).Success?
    ensures var t := LoginOutcome(rows, matches, jwt, req).value.tokens;
            && Refresh(jwt, RefreshRequest(t.refreshToken)) == Success(Tokens(jwt, req.userId))
            && Refresh(jwt, RefreshRequest(t.accessToken)) == Failure(INVALID_TOKEN_TYPE)
  {
    var t := LoginOutcome(rows, matches, jwt, req).value.tokens;
    assert jwt.parseAndValidate(jwt.mintRefreshToken(req.userId)) == Success(JwtParsed(req.userId, Some(REFRESH)));
    assert jwt.parseAndValidate(jwt.mintAccessToken(req.userId)) == Success(JwtParsed(req.userId, Some(ACCESS)));
  }

  /** The service with its collaborators; `published` lists the user ids
      of the login events sent so far. */
  class AuthService {
    const credentials: seq<Credential>
    const matches: (string, string) -> bool
    const jwtService: JwtService
    var published: seq<string>

    constructor(credentials: seq<Credential>, matches: (string, string) -> bool, jwtService: JwtService)
      ensures this.credentials == credentials && this.matches == matches && this.jwtService == jwtService
      ensures published == []
    {
      this.credentials := credentials;
      this.matches := matches;
      this.jwtService := jwtService;
      published := [];
    }

    /** `login`: answers as `LoginOutcome` says, and publishes one event
        exactly when the login succeeds. */
    method Login(req: LoginRequest) returns (r: Result<TokenResponse, Exception>)
      modifies this
      ensures var outcome := LoginOutcome(credentials, matches, jwtService, req);
              && (outcome.Success? ==> r == Success(outcome.value.tokens) && published == old(published) + [outcome.value.published])
              && (outcome.Failure? ==> r == Failure(outcome.error) && published == old(published))
    {
      var cred := LatestCredential(credentials, req.userId);
      if cred.None? {
        return Failure(INVALID_USER);
      }
      if !matches(req.pin, cred.value.secretHash) {
        return Failure(INVALID_PIN);
      }
      published := published + [cred.value.userId];
      r := Success(Tokens(jwtService, req.userId));
    }
  }
}
