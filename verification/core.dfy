/**
  The per-request context (core.go) and the session attached to it
  (session.go).

  A Core carries the request, the configuration, the identifier of the
  request and the append-only trail of operations; its session is anonymous
  or logged in. Tokens carry the registered claims of section 4.1 of
  RFC 7519; the Authorization header follows the Bearer scheme of section
  2.1 of RFC 6750.

  The JWT library (signing and parsing with a secret) is a pair of function
  values, the clock a parameter counting nanoseconds since the Unix epoch,
  and the response's Set-Cookie writes the sequence Core.cookies.
*/
module Core {
  import opened Wrappers
  import Strconv
  import Strings
  import Config
  import Errors

  const AccessTokenKey := "access_token"
  const RefreshTokenKey := "refresh_token"
  const AuthorizationHeader := "Authorization"
  const BearerPrefix := "Bearer "
  const BearerMessage := "Authorization header must begin with 'Bearer' followed by the access token. (eg 'Bearer {access_token}')"
  const NanosPerSecond := 1_000_000_000

  /** What the core reads from an http.Request: its cookies, its (canonically named) headers and its query parameters. */
  datatype Request = Request(cookies: map<string, string>, headers: map<string, string>, query: map<string, string>)
  {
    /** Header.Get: the value, or the empty string when the header is absent. */
    function HeaderValue(name: string): (v: string)
      ensures name !in headers ==> v == ""
      ensures name in headers ==> v == headers[name]
    {
      if name in headers then headers[name] else ""
    }

    /** URL.Query().Get: the value, or the empty string when the parameter is absent. */
    function QueryValue(name: string): (v: string)
      ensures name !in query ==> v == ""
      ensures name in query ==> v == query[name]
    {
      if name in query then query[name] else ""
    }
  }

  datatype SameSite = SameSiteDefaultMode | SameSiteLaxMode | SameSiteStrictMode | SameSiteNoneMode

  /** A Set-Cookie written to the response. */
  datatype Cookie = Cookie(name: string, value: string, maxAge: int, secure: bool, httpOnly: bool, sameSite: SameSite)

  /** The registered claims of a token: jti, aud, exp, iat, iss, nbf and sub. */
  datatype Claims = Claims(id: string, audience: string, expiresAt: int, issuedAt: int,
                           issuer: string, notBefore: int, subject: string)

  datatype Token = Token(claims: Claims, valid: bool)

  /**
    The JWT library: signing claims with HS256 and a secret (None when it
    fails), and parsing and verifying a token string with a secret (on
    failure the bits and text of the *jwt.ValidationError it returns).
  */
  datatype JwtLib = JwtLib(sign: (Claims, string) -> Option<string>,
                           parse: (string, string) -> Result<Claims, (nat, string)>)

  /** How StartSession ends: the error it returns and the session it leaves. */
  datatype SessionStart = SessionStart(err: Errors.Cause, token: Option<Token>, tokenString: string)

  /** time.Time.Unix: whole seconds, rounded toward negative infinity. */
  function UnixSeconds(nanos: int): (s: int)
    ensures s * NanosPerSecond <= nanos < (s + 1) * NanosPerSecond
  {
    nanos / NanosPerSecond
  }

  /** int(d.Seconds()): a duration in whole seconds, truncated toward zero. */
  function TruncSeconds(d: int): (s: int)
    ensures d >= 0 ==> s >= 0 && s * NanosPerSecond <= d < (s + 1) * NanosPerSecond
    ensures d < 0 ==> s <= 0 && (s - 1) * NanosPerSecond < d <= s * NanosPerSecond
  {
    if d >= 0 then d / NanosPerSecond else -((-d) / NanosPerSecond)
  }

  /**
    The access token string a request carries, looked up in this order: the
    access_token cookie, then the Authorization header (which must be
    "Bearer " followed by the token), then the access_token query parameter.
    The empty string means there is none.
  */
  function GetAccessTokenString(req: Request, d: Errors.Detailer): (r: Result<string, Errors.Error>)
    ensures AccessTokenKey in req.cookies ==> r == Ok(req.cookies[AccessTokenKey])
    ensures AccessTokenKey !in req.cookies && req.HeaderValue(AuthorizationHeader) != "" ==>
              if Strings.HasPrefix(req.HeaderValue(AuthorizationHeader), BearerPrefix)
                 && |req.HeaderValue(AuthorizationHeader)| > |BearerPrefix|
              then r.Ok? && r.value != "" && BearerPrefix + r.value == req.HeaderValue(AuthorizationHeader)
              else r == Err(InvalidBearerError(d))
    ensures AccessTokenKey !in req.cookies && req.HeaderValue(AuthorizationHeader) == "" ==>
              r == Ok(req.QueryValue(AccessTokenKey))
  {
    if AccessTokenKey in req.cookies then Ok(req.cookies[AccessTokenKey])
    else
      var auth := req.HeaderValue(AuthorizationHeader);
      if auth != "" then
        if !Strings.HasPrefix(auth, BearerPrefix) || |auth| < 8 then Err(InvalidBearerError(d))
        else
          assert auth == BearerPrefix + auth[7..];
          Ok(auth[7..])
      else Ok(req.QueryValue(AccessTokenKey))
  }

  /** The error for a malformed Authorization header. */
  function InvalidBearerError(d: Errors.Detailer): Errors.Error {
    Errors.NewErrorValue(d, Errors.KindCause(Errors.KindInvalidJwt), [Errors.StringOverride(BearerMessage)])
  }

  /** A request that carries its token only as a Bearer header yields exactly that token. */
  lemma BearerRoundTrip(token: string, d: Errors.Detailer)
    requires token != ""
    ensures GetAccessTokenString(Request(map[], map[AuthorizationHeader := BearerPrefix + token], map[]), d) == Ok(token)
  {
    var auth := BearerPrefix + token;
    assert Strings.HasPrefix(auth, BearerPrefix);
    assert auth[7..] == token;
  }

  /**
    The cookie takes precedence over the header, although the comment on
    StartSession ranks the header first and the cookie last.
  */
  lemma CookieBeatsHeader(cookieToken: string, headerToken: string, d: Errors.Detailer)
    requires cookieToken != headerToken
    ensures var req := Request(map[AccessTokenKey := cookieToken], map[AuthorizationHeader := BearerPrefix + headerToken],
                               map[AccessTokenKey := headerToken]);
            GetAccessTokenString(req, d) == Ok(cookieToken) != Ok(headerToken)
  {
  }

  /** Under the default detailer a malformed header is an InvalidJwt error (401) carrying the Bearer message. */
  lemma InvalidBearerIsUnauthorized()
    ensures var e := InvalidBearerError(Errors.DefaultDetailer);
            e.kind == Errors.KindInvalidJwt && e.Text() == BearerMessage && e.HttpStatus() == 401 && e.details == []
  {
    var c := Errors.KindCause(Errors.KindInvalidJwt);
    var os := [Errors.StringOverride(BearerMessage)];
    assert os[..0] == [];
    assert Errors.Overridden(c, os).message == BearerMessage;
    Errors.KindWithoutKindOverride(c, os);
  }

  /**
    The outcome StartSession reaches: no token gives an anonymous session
    and no error; a token that cannot be selected or parsed gives its error
    and leaves the anonymous session; a parsed token is kept with its string.
  */
  function SessionOutcome(req: Request, cfg: Config.Config, jwt: JwtLib, d: Errors.Detailer): (o: SessionStart)
    ensures o.err != Errors.Nil ==> o.token.None? && o.tokenString == ""
    ensures o.err == Errors.Nil && o.token.None? <==> GetAccessTokenString(req, d) == Ok("")
    ensures o.token.Some? ==> o.token.value.valid && o.tokenString != ""
                              && GetAccessTokenString(req, d) == Ok(o.tokenString)
    ensures o.token.Some? ==> jwt.parse(o.tokenString, cfg.server.jwt.accessToken.secret).Ok?
                              && o.token.value == Token(jwt.parse(o.tokenString, cfg.server.jwt.accessToken.secret).value, true)
    ensures GetAccessTokenString(req, d).Err? ==> o.err == Errors.CoreError(GetAccessTokenString(req, d).error)
    ensures GetAccessTokenString(req, d).Ok? && GetAccessTokenString(req, d).value != "" ==>
              (o.token.Some? <==> jwt.parse(GetAccessTokenString(req, d).value, cfg.server.jwt.accessToken.secret).Ok?)
    ensures var t := GetAccessTokenString(req, d);
            t.Ok? && t.value != "" && jwt.parse(t.value, cfg.server.jwt.accessToken.secret).Err? ==>
              var ve := jwt.parse(t.value, cfg.server.jwt.accessToken.secret).error;
              o.err == Errors.JwtValidationError(ve.0, ve.1)
  {
    match GetAccessTokenString(req, d)
    case Err(e) => SessionStart(Errors.CoreError(e), None, "")
    case Ok(s) =>
      if s == "" then SessionStart(Errors.Nil, None, "")
      else match jwt.parse(s, cfg.server.jwt.accessToken.secret)
        case Err(ve) => SessionStart(Errors.JwtValidationError(ve.0, ve.1), None, "")
        case Ok(claims) => SessionStart(Errors.Nil, Some(Token(claims, true)), s)
  }

  /** The request context. */
  class Core {
    const id: string
    const config: Config.Config
    const request: Request
    const jwt: JwtLib
    const detailer: Errors.Detailer
    /** The operation trail, oldest first. */
    var operations: seq<string>
    var session: Session?
    /** The Set-Cookie headers written to the response, in order. */
    var cookies: seq<Cookie>
    /** Fields attached to the request's logger. */
    var logFields: map<string, string>

    constructor (id: string, config: Config.Config, request: Request, jwt: JwtLib, detailer: Errors.Detailer, operation: string)
      ensures this.id == id && this.config == config && this.request == request
      ensures this.jwt == jwt && this.detailer == detailer
      ensures operations == [operation] && session == null && cookies == [] && logFields == map[]
    {
      this.id := id;
      this.config := config;
      this.request := request;
      this.jwt := jwt;
      this.detailer := detailer;
      operations := [operation];
      session := null;
      cookies := [];
      logFields := map[];
    }

    /** Appends one operation to the trail; nothing else changes. */
    method AddOp(operation: string)
      modifies this`operations
      ensures operations == old(operations) + [operation]
      ensures |operations| == |old(operations)| + 1 && operations[..|old(operations)|] == old(operations)
    {
      operations := operations + [operation];
    }

    /** The extensions of the response: the request id under "id", and nothing else. */
    function Extensions(): (m: map<string, string>)
      ensures m.Keys == {"id"} && m["id"] == id
    {
      map["id" := id]
    }

    /** The extensions of an Error raised in this request. */
    function ErrorExtensions(e: Errors.Error): map<string, Errors.ExtValue>
      reads this
    {
      e.Extensions(config.env, operations)
    }

    /**
      Attaches an anonymous session, then looks for an access token; when one
      is found and parses, the session is replaced by one holding the token
      and the string it came from.
    */
    method StartSession() returns (err: Errors.Cause)
      modifies this`session
      ensures session != null && fresh(session) && session.core == this
      ensures err == SessionOutcome(request, config, jwt, detailer).err
      ensures session.accessToken == SessionOutcome(request, config, jwt, detailer).token
      ensures session.accessTokenString == SessionOutcome(request, config, jwt, detailer).tokenString
    {
      session := new Session(this);
      var r := GetAccessTokenString(request, detailer);
      if r.Err? {
        return Errors.CoreError(r.error);
      }
      var tokenString := r.value;
      if tokenString != "" {
        var parsed := jwt.parse(tokenString, config.server.jwt.accessToken.secret);
        if parsed.Err? {
          return Errors.JwtValidationError(parsed.error.0, parsed.error.1);
        }
        session := new Session.WithToken(this, Token(parsed.value, true), tokenString);
      }
      return Errors.Nil;
    }
  }

  /**
    The token generateToken builds for a user at time now, from the access
    or the refresh token configuration.
  */
  function GenerateToken(c: Core, userId: int, isRefreshToken: bool, now: int): (t: Token)
    requires isRefreshToken ==> c.config.server.jwt.refreshToken.Some?
    ensures t.valid && Strconv.Atoi(t.claims.subject) == Some(userId)
    ensures t.claims.id == c.id && t.claims.issuedAt == UnixSeconds(now)
    ensures var cfg := TokenConfigFor(c, isRefreshToken);
            t.claims.issuer == cfg.issuer
            && t.claims.audience == Strings.Join(cfg.audience, ',')
            && t.claims.expiresAt == UnixSeconds(now + cfg.expiresAt)
            && t.claims.notBefore == UnixSeconds(now + cfg.notBefore)
            && (cfg.notBefore >= 0 ==> t.claims.issuedAt <= t.claims.notBefore)
            && (cfg.expiresAt >= cfg.notBefore ==> t.claims.notBefore <= t.claims.expiresAt)
  {
    var cfg := TokenConfigFor(c, isRefreshToken);
    Strconv.AtoiItoa(userId);
    Token(Claims(c.id, Strings.Join(cfg.audience, ','), UnixSeconds(now + cfg.expiresAt), UnixSeconds(now),
                 cfg.issuer, UnixSeconds(now + cfg.notBefore), Strconv.Itoa(userId)), true)
  }

  function TokenConfigFor(c: Core, isRefreshToken: bool): Config.TokenConfig
    requires isRefreshToken ==> c.config.server.jwt.refreshToken.Some?
  {
    if isRefreshToken then c.config.server.jwt.refreshToken.value else c.config.server.jwt.accessToken
  }

  /**
    The refresh_token cookie setRefreshToken writes: the signed token with
    the refresh expiry in seconds as MaxAge, or, for no token or a failed
    signature, an empty value that expires the cookie at once.
  */
  function RefreshCookie(c: Core, t: Option<Token>): (cookie: Cookie)
    requires t.Some? ==> c.config.server.jwt.refreshToken.Some?
    ensures cookie.name == RefreshTokenKey && cookie.httpOnly && cookie.sameSite == SameSiteLaxMode
    ensures cookie.secure <==> c.config.env != Config.EnvDevelopment
    ensures t.None? ==> cookie.value == "" && cookie.maxAge == -1
    ensures t.Some? && SignRefresh(c, t.value).Some? ==>
              cookie.value == SignRefresh(c, t.value).value
              && cookie.maxAge == TruncSeconds(c.config.server.jwt.refreshToken.value.expiresAt)
    ensures t.Some? && SignRefresh(c, t.value).None? ==> cookie.value == "" && cookie.maxAge == -1
  {
    var signed := if t.Some? then SignRefresh(c, t.value) else None;
    Cookie(RefreshTokenKey,
           signed.GetOr(""),
           if signed.Some? then TruncSeconds(c.config.server.jwt.refreshToken.value.expiresAt) else -1,
           c.config.env != Config.EnvDevelopment,
           true,
           SameSiteLaxMode)
  }

  function SignRefresh(c: Core, t: Token): Option<string>
    requires c.config.server.jwt.refreshToken.Some?
  {
    c.jwt.sign(t.claims, c.config.server.jwt.refreshToken.value.secret)
  }

  /** setRefreshToken: writes one refresh_token cookie to the response. */
  method SetRefreshToken(c: Core, t: Option<Token>)
    requires t.Some? ==> c.config.server.jwt.refreshToken.Some?
    modifies c`cookies
    ensures c.cookies == old(c.cookies) + [RefreshCookie(c, t)]
  {
    var value := "";
    var maxAge := -1;
    if t.Some? {
      var signed := c.jwt.sign(t.value.claims, c.config.server.jwt.refreshToken.value.secret);
      if signed.Some? {
        value := signed.value;
        maxAge := TruncSeconds(c.config.server.jwt.refreshToken.value.expiresAt);
      }
    }
    c.cookies := c.cookies + [Cookie(RefreshTokenKey, value, maxAge, c.config.env != Config.EnvDevelopment, true, SameSiteLaxMode)];
  }

  /** The claims of the refresh_token cookie, when there is one and it parses. */
  function RefreshClaims(c: Core): Option<Claims>
    requires RefreshTokenKey in c.request.cookies ==> c.config.server.jwt.refreshToken.Some?
  {
    if RefreshTokenKey !in c.request.cookies then None
    else match c.jwt.parse(c.request.cookies[RefreshTokenKey], c.config.server.jwt.refreshToken.value.secret)
      case Ok(claims) => Some(claims)
      case Err(_) => None
  }

  /**
    getRefreshToken: the parsed refresh_token cookie. A cookie that does not
    parse is cleared; a missing one leaves the response untouched.
  */
  method GetRefreshToken(c: Core) returns (t: Option<Token>)
    requires RefreshTokenKey in c.request.cookies ==> c.config.server.jwt.refreshToken.Some?
    modifies c`cookies
    ensures t == (if RefreshClaims(c).Some? then Some(Token(RefreshClaims(c).value, true)) else None)
    ensures RefreshTokenKey !in c.request.cookies || RefreshClaims(c).Some? ==> c.cookies == old(c.cookies)
    ensures RefreshTokenKey in c.request.cookies && RefreshClaims(c).None? ==>
              c.cookies == old(c.cookies) + [RefreshCookie(c, None)]
  {
    if RefreshTokenKey !in c.request.cookies {
      return None;
    }
    var parsed := c.jwt.parse(c.request.cookies[RefreshTokenKey], c.config.server.jwt.refreshToken.value.secret);
    if parsed.Err? {
      SetRefreshToken(c, None);
      return None;
    }
    return Some(Token(parsed.value, true));
  }

  /** The session of a request: anonymous, or logged in with a valid access token. */
  class Session {
    const core: Core
    var accessToken: Option<Token>
    /** The signed form of accessToken, or the empty string when it has not been signed yet. */
    var accessTokenString: string

    /** An anonymous session. */
    constructor (core: Core)
      ensures this.core == core && accessToken == None && accessTokenString == ""
    {
      this.core := core;
      accessToken := None;
      accessTokenString := "";
    }

    /** A session holding a token that arrived with the request, with its original string. */
    constructor WithToken(core: Core, token: Token, tokenString: string)
      ensures this.core == core && accessToken == Some(token) && accessTokenString == tokenString
    {
      this.core := core;
      accessToken := Some(token);
      accessTokenString := tokenString;
    }

    /** Logged in: the session holds an access token and that token is valid. */
    predicate IsLoggedIn()
      reads this
      ensures IsLoggedIn() ==> accessToken.Some? && accessToken.value.valid
      ensures accessToken.Some? && accessToken.value.valid ==> IsLoggedIn()
    {
      accessToken.Some? && accessToken.value.valid
    }

    predicate IsAnonymous()
      reads this
      ensures IsAnonymous() <==> !IsLoggedIn()
    {
      !IsLoggedIn()
    }

    /** The id of the logged-in user, parsed from the subject of the token; 0 when anonymous or unparsable. */
    function UserId(): (id: int)
      reads this
      ensures IsAnonymous() ==> id == 0
      ensures IsLoggedIn() && Strconv.Atoi(accessToken.value.claims.subject).Some? ==>
                Strconv.Atoi(accessToken.value.claims.subject) == Some(id)
      ensures IsLoggedIn() && Strconv.Atoi(accessToken.value.claims.subject).None? ==> id == 0
    {
      if IsAnonymous() then 0
      else Strconv.Atoi(accessToken.value.claims.subject).GetOr(0)
    }

    /**
      The signed access token: empty when anonymous; otherwise the cached
      string, signing the token first when nothing is cached yet (a failed
      signature caches the empty string).
    */
    method AccessToken() returns (s: string)
      modifies this`accessTokenString
      ensures IsAnonymous() ==> s == "" && accessTokenString == old(accessTokenString)
      ensures IsLoggedIn() && old(accessTokenString) != "" ==> s == old(accessTokenString) == accessTokenString
      ensures IsLoggedIn() && old(accessTokenString) == "" ==>
                s == accessTokenString == core.jwt.sign(accessToken.value.claims, core.config.server.jwt.accessToken.secret).GetOr("")
    {
      if IsAnonymous() {
        return "";
      }
      if accessTokenString == "" {
        var signed := core.jwt.sign(accessToken.value.claims, core.config.server.jwt.accessToken.secret);
        accessTokenString := signed.GetOr("");
      }
      return accessTokenString;
    }

    /**
      Logs a user in: writes a refresh cookie when refresh tokens are
      configured, and replaces the session by one holding a fresh access token.
    */
    method Login(userId: int, now: int)
      modifies this, core`cookies
      ensures IsLoggedIn() && UserId() == userId && accessTokenString == ""
      ensures accessToken == Some(GenerateToken(core, userId, false, now))
      ensures core.cookies == old(core.cookies)
                + (if core.config.server.jwt.refreshToken.Some?
                   then [RefreshCookie(core, Some(GenerateToken(core, userId, true, now)))]
                   else [])
    {
      if core.config.server.jwt.refreshToken.Some? {
        var refreshToken := GenerateToken(core, userId, true, now);
        SetRefreshToken(core, Some(refreshToken));
      }
      accessToken := Some(GenerateToken(core, userId, false, now));
      accessTokenString := "";
      UserIdOfGenerated(userId, now);
    }

    lemma UserIdOfGenerated(userId: int, now: int)
      requires accessToken == Some(GenerateToken(core, userId, false, now))
      ensures UserId() == userId
    {
      Strconv.AtoiItoa(userId);
    }

    /** Logs out: expires the refresh cookie; the access token in memory is kept. */
    method Logout()
      modifies core`cookies
      ensures core.cookies == old(core.cookies) + [RefreshCookie(core, None)]
      ensures RefreshCookie(core, None).value == "" && RefreshCookie(core, None).maxAge == -1
    {
      SetRefreshToken(core, None);
    }

    /**
      Replaces the access token by one generated from the refresh cookie.
      Without a usable refresh cookie the session is unchanged and false is
      returned. A subject that is not an integer clears the refresh cookie
      and the new token is issued for user 0.
    */
    method RefreshAccessToken(now: int) returns (ok: bool)
      requires RefreshTokenKey in core.request.cookies ==> core.config.server.jwt.refreshToken.Some?
      modifies this, core`cookies
      ensures ok <==> RefreshClaims(core).Some?
      ensures !ok ==> accessToken == old(accessToken) && accessTokenString == old(accessTokenString)
      ensures !ok && RefreshTokenKey !in core.request.cookies ==> core.cookies == old(core.cookies)
      ensures !ok && RefreshTokenKey in core.request.cookies ==> core.cookies == old(core.cookies) + [RefreshCookie(core, None)]
      ensures ok ==>
                var userId := Strconv.Atoi(RefreshClaims(core).value.subject).GetOr(0);
                IsLoggedIn() && UserId() == userId && accessTokenString == ""
                && accessToken == Some(GenerateToken(core, userId, false, now))
                && core.cookies == old(core.cookies)
                   + (if Strconv.Atoi(RefreshClaims(core).value.subject).Some? then [] else [RefreshCookie(core, None)])
    {
      var refreshToken := GetRefreshToken(core);
      if refreshToken.None? {
        return false;
      }
      var parsed := Strconv.Atoi(refreshToken.value.claims.subject);
      var userId := parsed.GetOr(0);
      if parsed.None? {
        SetRefreshToken(core, None);
      }
      accessToken := Some(GenerateToken(core, userId, false, now));
      accessTokenString := "";
      UserIdOfGenerated(userId, now);
      return true;
    }
  }
}
