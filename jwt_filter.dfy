/** The JSON Web Token service as the rest of the wallet sees it. Signing,
    expiry and the key are not modelled: minting and parsing are
    functions supplied by the caller, and a token that fails signature or
    expiry checks is a parse that fails with an exception. */
module Jwt {
  import opened Wrappers
  import ErrorHandling

  const ACCESS := "access"
  const REFRESH := "refresh"

  /** The subject and the "typ" claim of a valid token; the claim may be
      absent. */
  datatype JwtParsed = JwtParsed(userId: string, typ: Option<string>)

  datatype JwtService = JwtService(
    mintAccessToken: string -> string,
    mintRefreshToken: string -> string,
    parseAndValidate: string -> Result<JwtParsed, ErrorHandling.Exception>)

  /** A service whose tokens parse back to the subject they were minted
      for and to the type they were minted with. */
  ghost predicate ParsesWhatItMints(jwt: JwtService) {
    && (forall u :: jwt.parseAndValidate(jwt.mintAccessToken(u)) == Success(JwtParsed(u, Some(ACCESS))))
    && (forall u :: jwt.parseAndValidate(jwt.mintRefreshToken(u)) == Success(JwtParsed(u, Some(REFRESH))))
  }
}

/** `JwtAuthFilter.doFilterInternal` of the wallet tree: a request that
    carries a valid access token in its Authorization header is
    authenticated as the token's subject with the single authority
    ROLE_USER; every request goes on down the filter chain. */
module JwtFilter {
  import opened Wrappers
  import opened JavaText
  import opened Jwt

  const BEARER_PREFIX := "Bearer "
  const ROLE_USER := "ROLE_USER"

  /** `UsernamePasswordAuthenticationToken(userId, null, [ROLE_USER])`. */
  datatype Authentication = Authentication(principal: string, authorities: seq<string>)

  /** The token in an Authorization header: the text after an exact,
      case-sensitive "Bearer " prefix with surrounding blanks trimmed, and
      no token when the header is missing or has another scheme. */
  function BearerToken(header: Option<string>): (token: Option<string>)
    ensures token.Some? <==> header.Some? && StartsWith(header.value, BEARER_PREFIX)
    ensures token.Some? ==> header.value == BEARER_PREFIX + header.value[|BEARER_PREFIX|..]
                            && token.value == Trim(header.value[|BEARER_PREFIX|..])
  {
    if header.Some? && StartsWith(header.value, BEARER_PREFIX)
    then Some(Trim(header.value[|BEARER_PREFIX|..]))
    else None
  }

  /** The authentication the filter sets for a request, if any: only a
      token that parses and whose type is exactly "access". A parse
      failure is swallowed and sets nothing. */
  function Decide(header: Option<string>, jwt: JwtService): (auth: Option<Authentication>)
    ensures auth.Some? <==>
              && BearerToken(header).Some?
              && jwt.parseAndValidate(BearerToken(header).value).Success?
              && jwt.parseAndValidate(BearerToken(header).value).value.typ == Some(ACCESS)
    ensures auth.Some? ==>
              auth.value == Authentication(jwt.parseAndValidate(BearerToken(header).value).value.userId, [ROLE_USER])
  {
    match BearerToken(header)
    case None => None
    case Some(token) =>
      match jwt.parseAndValidate(token)
      case Failure(_) => None
      case Success(parsed) =>
        if parsed.typ == Some(ACCESS) then Some(Authentication(parsed.userId, [ROLE_USER])) else None
  }

  /** With a service that parses what it mints, the header carrying a
      freshly minted access token authenticates its user, and the one
      carrying a refresh token for the same user authenticates nobody. */
  lemma AccessTokenAuthenticates(jwt: JwtService, userId: string)
    requires ParsesWhatItMints(jwt)
    requires Trim(jwt.mintAccessToken(userId)) == jwt.mintAccessToken(userId)
    requires Trim(jwt.mintRefreshToken(userId)) == jwt.mintRefreshToken(userId)
    ensures Decide(Some(BEARER_PREFIX + jwt.mintAccessToken(userId)), jwt) == Some(Authentication(userId, [ROLE_USER]))
    ensures Decide(Some(BEARER_PREFIX + jwt.mintRefreshToken(userId)), jwt).None?
  {
    var a := BEARER_PREFIX + jwt.mintAccessToken(userId);
    var r := BEARER_PREFIX + jwt.mintRefreshToken(userId);
    assert a[..|BEARER_PREFIX|] == BEARER_PREFIX && a[|BEARER_PREFIX|..] == jwt.mintAccessToken(userId);
    assert r[..|BEARER_PREFIX|] == BEARER_PREFIX && r[|BEARER_PREFIX|..] == jwt.mintRefreshToken(userId);
  }

  /** The scheme is matched exactly: "bearer " in lower case, or the
      prefix without its space, carries no token. */
  lemma SchemeIsCaseSensitive(rest: string)
    ensures BearerToken(Some("bearer " + rest)).None?
    ensures BearerToken(Some("Bearer")).None?
  {
    assert ("bearer " + rest)[0] == 'b';
  }

  /** The security context of the current request. */
  class SecurityContext {
    var authentication: Option<Authentication>

    constructor()
      ensures authentication.None?
    {
      authentication := None;
    }
  }

  /** The rest of the filter chain; only the number of times it is
      invoked is observed. */
  class FilterChain {
    var calls: nat

    constructor()
      ensures calls == 0
    {
      calls := 0;
    }

    method DoFilter()
      modifies this
      ensures calls == old(calls) + 1
    {
      calls := calls + 1;
    }
  }

  class JwtAuthFilter {
    const jwtService: JwtService

    constructor(jwtService: JwtService)
      ensures this.jwtService == jwtService
    {
      this.jwtService := jwtService;
    }

    /** `doFilterInternal`: sets the authentication exactly when `Decide`
        gives one, leaves the context as it was otherwise, and calls the
        chain once on every path. */
    method DoFilterInternal(authorization: Option<string>, context: SecurityContext, chain: FilterChain)
      modifies context, chain
      ensures context.authentication ==
                (if Decide(authorization, jwtService).Some? then Decide(authorization, jwtService)
                 else old(context.authentication))
      ensures chain.calls == old(chain.calls) + 1
    {
      if authorization.Some? && StartsWith(authorization.value, BEARER_PREFIX) {
        var token := Trim(authorization.value[|BEARER_PREFIX|..]);
        var parsed := jwtService.parseAndValidate(token);
        if parsed.Success? {
          if parsed.value.typ == Some(ACCESS) {
            context.authentication := Some(Authentication(parsed.value.userId, [ROLE_USER]));
          }
        }
      }
      chain.DoFilter();
    }
  }
}
