/** The Keycloak integration: the authorization URL, bearer-token parsing,
    token validation through introspection and user info with a short-lived
    cache keyed by the token's first sixteen characters, the required-role
    check and logout. The answers of the Keycloak server are outcomes given
    to the model; times are whole seconds. */
module Keycloak {
  import opened Wrappers
  import opened Text

  /** The loaded configuration. `cacheDuration` is None when the lookup
      `config['authentication']['keycloak']['cache_duration']` fails on a
      missing `keycloak` section, whose KeyError text is `'keycloak'`; a
      missing `authentication` section or `cache_duration` key would name
      that key instead, and those two cases are not told apart here. */
  datatype KeycloakConfig = KeycloakConfig(
    enabled: bool,
    serverUrl: string,
    realm: string,
    clientId: string,
    redirectUri: Option<string>,
    requiredRoles: seq<string>,
    cacheDuration: Option<int>,
    authMethod: string)

  /** What a failed configuration load falls back to. It has no redirect
      URI, no cache duration and no required roles. */
  const FallbackConfig := KeycloakConfig(false, "http://localhost:8080", "planner-ddf",
    "deployer-ddf-mod-llm-models", None, [], None, "api_token")

  /** The fields of a userinfo answer the integration reads; `realmRoles` is
      `realm_access.roles` when present. */
  datatype UserInfo = UserInfo(preferredUsername: Option<string>, email: Option<string>, realmRoles: Option<seq<string>>)

  datatype CacheEntry = CacheEntry(userInfo: UserInfo, expiresAt: int)

  /** The server's answers for one validation: an exception message, or the
      status and body of the reply. */
  datatype Introspection = Introspection(status: int, active: bool)
  datatype UserInfoReply = UserInfoReply(status: int, info: UserInfo)
  datatype Remote = Remote(introspect: Result<Introspection>, userinfo: Result<UserInfoReply>)

  datatype Validation = Validation(result: Result<UserInfo>, cache: map<string, CacheEntry>)

  datatype KeycloakUser = KeycloakUser(userId: Option<string>, email: Option<string>, roles: seq<string>, authMethod: string)

  // ---------------------------------------------------------------- URLs

  function AuthUrl(cfg: KeycloakConfig): string {
    cfg.serverUrl + "/auth/realms/" + cfg.realm + "/protocol/openid-connect/auth"
  }

  /** The query parameters `get_auth_url` sends, in order; a state is sent
      only when it is given and not empty. */
  function AuthParams(clientId: string, redirectUri: string, state: Option<string>): (ps: seq<string>)
    ensures |ps| == if state.Some? && state.value != "" then 5 else 4
  {
    ["client_id=" + clientId, "redirect_uri=" + redirectUri, "response_type=code", "scope=openid profile email"]
      + if state.Some? && state.value != "" then ["state=" + state.value] else []
  }

  /** `get_auth_url`; without a redirect URI in the configuration the lookup
      raises. */
  function GetAuthUrl(cfg: KeycloakConfig, state: Option<string>): (r: Result<string>)
    ensures r.Err? <==> cfg.redirectUri.None?
    ensures r.Ok? ==> StartsWith(r.value, AuthUrl(cfg) + "?")
  {
    match cfg.redirectUri
    case None => Err("KeyError: 'redirect_uri'")
    case Some(uri) => Ok(AuthUrl(cfg) + "?" + JoinChar(AuthParams(cfg.clientId, uri, state), '&'))
  }

  /** When no value holds a `&` and the base URL holds no `?`, the query of
      the URL splits back into the parameters in order. */
  lemma AuthUrlQuery(cfg: KeycloakConfig, state: Option<string>)
    requires cfg.redirectUri.Some?
    requires '?' !in AuthUrl(cfg)
    requires '&' !in cfg.clientId && '&' !in cfg.redirectUri.value
    requires state.Some? ==> '&' !in state.value
    ensures GetAuthUrl(cfg, state).Ok?
    ensures var url := GetAuthUrl(cfg, state).value;
      '?' in url && SplitChar(AfterFirst(url, '?'), '&') == AuthParams(cfg.clientId, cfg.redirectUri.value, state)
  {
    var ps := AuthParams(cfg.clientId, cfg.redirectUri.value, state);
    var query := JoinChar(ps, '&');
    AfterFirstPrefix(AuthUrl(cfg), '?', query);
    forall k | 0 <= k < |ps|
      ensures '&' !in ps[k]
    {
      NoCharAfterPrefix(ps[k], k, cfg.clientId, cfg.redirectUri.value, state);
    }
    SplitJoinChar(ps, '&');
  }

  lemma NoCharAfterPrefix(p: string, k: nat, clientId: string, redirectUri: string, state: Option<string>)
    requires '&' !in clientId && '&' !in redirectUri
    requires state.Some? ==> '&' !in state.value
    requires k < |AuthParams(clientId, redirectUri, state)| && p == AuthParams(clientId, redirectUri, state)[k]
    ensures '&' !in p
  {
    if k == 0 {
      assert p == "client_id=" + clientId;
    } else if k == 1 {
      assert p == "redirect_uri=" + redirectUri;
    } else if k == 4 {
      assert p == "state=" + state.value;
    }
  }

  // ---------------------------------------------------------------- roles

  function UserRoles(info: UserInfo): seq<string> {
    info.realmRoles.GetOr([])
  }

  /** No required roles, or at least one of them among the user's realm roles. */
  predicate HasRequiredRoles(required: seq<string>, info: UserInfo) {
    required == [] || exists i :: 0 <= i < |required| && required[i] in UserRoles(info)
  }

  // ---------------------------------------------------------------- cache

  /** `"token_" + token[:16]`, the key the source caches under. */
  function CacheKey(token: string): (k: string)
    ensures |k| <= 22
  {
    "token_" + Take(token, 16)
  }

  /** Two tokens share a cache entry exactly when their first sixteen
      characters agree. */
  lemma CacheKeyShared(a: string, b: string)
    ensures CacheKey(a) == CacheKey(b) <==> Take(a, 16) == Take(b, 16)
  {
    if CacheKey(a) == CacheKey(b) {
      assert Take(a, 16) == CacheKey(a)[6..];
    }
  }

  /** The key the cache evidently means: the whole token. */
  function FullCacheKey(token: string): (k: string)
    ensures |k| == |token| + 6
  {
    "token_" + token
  }

  lemma FullCacheKeyInjective(a: string, b: string)
    ensures FullCacheKey(a) == FullCacheKey(b) <==> a == b
  {
    if FullCacheKey(a) == FullCacheKey(b) {
      assert a == FullCacheKey(a)[6..];
    }
  }

  predicate CacheHit(cache: map<string, CacheEntry>, key: string, now: int) {
    key in cache && now < cache[key].expiresAt
  }

  /** The cache once a stale entry under `key` has been deleted. */
  function Evicted(cache: map<string, CacheEntry>, key: string): map<string, CacheEntry> {
    map k | k in cache && k != key :: cache[k]
  }

  /** The body of `validate_token` for a token cached under `key`: a live
      cache entry answers at once; otherwise the stale entry goes, and the
      token is checked by introspection, user info and the role check, and
      only a full success is cached. */
  function ValidateWithKey(cfg: KeycloakConfig, cache: map<string, CacheEntry>, key: string, now: int, remote: Remote): (r: Validation)
    ensures r.result.Err? ==> r.cache == Evicted(cache, key)
  {
    if CacheHit(cache, key, now) then Validation(Ok(cache[key].userInfo), cache)
    else
      var rest := Evicted(cache, key);
      match remote.introspect
      case Err(e) => Validation(Err("Token validation error: " + e), rest)
      case Ok(i) =>
        if i.status != 200 then Validation(Err("Token introspection failed: " + IntToString(i.status)), rest)
        else if !i.active then Validation(Err("Token is not active"), rest)
        else match remote.userinfo
          case Err(e) => Validation(Err("Token validation error: " + e), rest)
          case Ok(u) =>
            if u.status != 200 then Validation(Err("Failed to get user info"), rest)
            else if !HasRequiredRoles(cfg.requiredRoles, u.info) then Validation(Err("Insufficient permissions"), rest)
            else match cfg.cacheDuration
              case None => Validation(Err("Token validation error: 'keycloak'"), rest)
              case Some(d) => Validation(Ok(u.info), rest[key := CacheEntry(u.info, now + d)])
  }

  /** `validate_token` as written, caching under the first sixteen characters. */
  function ValidateTokenAsWritten(cfg: KeycloakConfig, cache: map<string, CacheEntry>, token: string, now: int, remote: Remote): (r: Validation)
    ensures r.result.Err? ==> r.cache == Evicted(cache, CacheKey(token))
  {
    ValidateWithKey(cfg, cache, CacheKey(token), now, remote)
  }

  /** `validate_token` with the whole token as its cache key. */
  function ValidateTokenStep(cfg: KeycloakConfig, cache: map<string, CacheEntry>, token: string, now: int, remote: Remote): (r: Validation)
    ensures r.result.Err? ==> r.cache == Evicted(cache, FullCacheKey(token))
  {
    ValidateWithKey(cfg, cache, FullCacheKey(token), now, remote)
  }

  /** The server's answers for a token that is active and whose user holds the roles. */
  predicate Accepts(cfg: KeycloakConfig, remote: Remote) {
    remote.introspect == Ok(Introspection(200, true)) && remote.userinfo.Ok? && remote.userinfo.value.status == 200
    && HasRequiredRoles(cfg.requiredRoles, remote.userinfo.value.info)
  }

  /** As written, once one token is accepted, any other token with the same
      first sixteen characters is accepted as the same user until the entry
      expires, whatever the server would say about it. */
  lemma PrefixTokenAccepted(cfg: KeycloakConfig, cache: map<string, CacheEntry>, a: string, b: string,
                            now: int, later: int, good: Remote, other: Remote)
    requires Take(a, 16) == Take(b, 16)
    requires !CacheHit(cache, CacheKey(a), now) && Accepts(cfg, good)
    requires cfg.cacheDuration.Some? && now <= later < now + cfg.cacheDuration.value
    ensures var first := ValidateTokenAsWritten(cfg, cache, a, now, good);
      && first.result == Ok(good.userinfo.value.info)
      && ValidateTokenAsWritten(cfg, first.cache, b, later, other).result == first.result
  {
    CacheKeyShared(a, b);
  }

  /** Two distinct tokens with a common sixteen-character head, as every
      token signed with the same JOSE header has. */
  lemma PrefixCollisionExample()
    ensures var a := "eyJhbGciOiJSUzI1NiJ9.alice";
      var b := "eyJhbGciOiJSUzI1NiJ9.forged";
      a != b && Take(a, 16) == Take(b, 16)
  {
    var a := "eyJhbGciOiJSUzI1NiJ9.alice";
    var b := "eyJhbGciOiJSUzI1NiJ9.forged";
    assert a[21] != b[21];
    assert a[..16] == b[..16];
  }

  /** With whole-token keys, accepting one token never answers for another:
      a token not cached before still goes to the server, and succeeds only
      when the server accepts it. */
  lemma OtherTokenAsksServer(cfg: KeycloakConfig, cache: map<string, CacheEntry>, a: string, b: string,
                             now: int, later: int, first: Remote, second: Remote)
    requires a != b && FullCacheKey(b) !in cache
    ensures var v := ValidateTokenStep(cfg, cache, a, now, first);
      && !CacheHit(v.cache, FullCacheKey(b), later)
      && (ValidateTokenStep(cfg, v.cache, b, later, second).result.Ok? ==> Accepts(cfg, second))
  {
    FullCacheKeyInjective(a, b);
    var v := ValidateTokenStep(cfg, cache, a, now, first);
    assert FullCacheKey(b) !in v.cache;
    FreshValidation(cfg, v.cache, b, later, second);
  }

  /** A live cache entry is returned as it is, whatever the server would say,
      and the cache stays as it was. */
  lemma CacheHitAnswers(cfg: KeycloakConfig, cache: map<string, CacheEntry>, token: string, now: int, r1: Remote, r2: Remote)
    requires CacheHit(cache, FullCacheKey(token), now)
    ensures ValidateTokenStep(cfg, cache, token, now, r1) == ValidateTokenStep(cfg, cache, token, now, r2)
    ensures ValidateTokenStep(cfg, cache, token, now, r1) == Validation(Ok(cache[FullCacheKey(token)].userInfo), cache)
  {
  }

  /** Without a live entry, a validation succeeds exactly when the token is
      active, the user info is returned and the roles suffice (and a cache
      duration is configured); a success is then cached for that long, and
      no other entry changes. */
  lemma FreshValidation(cfg: KeycloakConfig, cache: map<string, CacheEntry>, token: string, now: int, remote: Remote)
    requires !CacheHit(cache, FullCacheKey(token), now)
    ensures var r := ValidateTokenStep(cfg, cache, token, now, remote);
      && (r.result.Ok? <==> Accepts(cfg, remote) && cfg.cacheDuration.Some?)
      && (r.result.Ok? ==>
          r.result.value == remote.userinfo.value.info
          && r.cache == Evicted(cache, FullCacheKey(token))[FullCacheKey(token) := CacheEntry(r.result.value, now + cfg.cacheDuration.value)])
  {
  }

  /** Every cached user has the required roles. */
  predicate CacheSound(cfg: KeycloakConfig, cache: map<string, CacheEntry>) {
    forall k :: k in cache ==> HasRequiredRoles(cfg.requiredRoles, cache[k].userInfo)
  }

  /** Validation keeps the cache sound, so every accepted token belongs to a
      user with the required roles, and a stale entry is never returned. */
  lemma ValidationKeepsCacheSound(cfg: KeycloakConfig, cache: map<string, CacheEntry>, token: string, now: int, remote: Remote)
    requires CacheSound(cfg, cache)
    ensures var r := ValidateTokenStep(cfg, cache, token, now, remote);
      && CacheSound(cfg, r.cache)
      && (r.result.Ok? ==> HasRequiredRoles(cfg.requiredRoles, r.result.value))
      && (!CacheHit(cache, FullCacheKey(token), now) && FullCacheKey(token) in r.cache ==> r.result.Ok?)
  {
    if !CacheHit(cache, FullCacheKey(token), now) {
      FreshValidation(cfg, cache, token, now, remote);
    }
  }

  // ---------------------------------------------------------------- requests

  /** `authenticate_request` given the validation the token received. */
  function UserFrom(info: UserInfo): (u: KeycloakUser)
    ensures u.authMethod == "keycloak" && u.roles == UserRoles(info)
  {
    KeycloakUser(info.preferredUsername, info.email, UserRoles(info), "keycloak")
  }

  const BearerPrefix := "Bearer "

  /** The token of a bearer header: the text after its first space. */
  function BearerToken(header: string): (t: Option<string>)
  {
    if StartsWith(header, BearerPrefix) then
      assert header[6] == ' ';
      Some(AfterFirst(header, ' '))
    else None
  }

  /** A bearer header carries exactly the text after `"Bearer "`. */
  lemma BearerTokenIsRest(token: string)
    ensures BearerToken(BearerPrefix + token) == Some(token)
  {
    assert BearerPrefix + token == "Bearer" + [' '] + token;
    AfterFirstPrefix("Bearer", ' ', token);
  }

  /** A header not opening with `"Bearer "` carries no token. */
  lemma NoBearerNoToken(header: string)
    requires !StartsWith(header, BearerPrefix)
    ensures BearerToken(header).None?
  {
  }

  /** The `Authorization` header, empty when the request has none. */
  function AuthorizationHeader(headers: map<string, string>): string {
    if "Authorization" in headers then headers["Authorization"] else ""
  }

  /** The answer of `authenticate_request` once its token has been validated:
      the user built from the user info, or the validation's error. */
  function RequestOutcome(v: Validation): (r: (Result<KeycloakUser>, map<string, CacheEntry>))
    ensures r.1 == v.cache
    ensures r.0.Ok? <==> v.result.Ok?
    ensures r.0.Ok? ==> r.0.value == UserFrom(v.result.value)
    ensures r.0.Err? ==> r.0.error == v.result.error
  {
    if v.result.Ok? then (Ok(UserFrom(v.result.value)), v.cache) else (Err(v.result.error), v.cache)
  }

  /** `authenticate_request`, validating with the whole-token cache key. */
  function AuthenticateStep(cfg: KeycloakConfig, cache: map<string, CacheEntry>, headers: map<string, string>, now: int, remote: Remote): (r: (Result<KeycloakUser>, map<string, CacheEntry>))
    ensures r.0.Ok? ==> r.0.value.authMethod == "keycloak"
    ensures BearerToken(AuthorizationHeader(headers)).None? ==>
      r == (Err("Missing or invalid Authorization header"), cache)
    ensures BearerToken(AuthorizationHeader(headers)).Some? ==>
      r == RequestOutcome(ValidateTokenStep(cfg, cache, BearerToken(AuthorizationHeader(headers)).value, now, remote))
  {
    match BearerToken(AuthorizationHeader(headers))
    case None => (Err("Missing or invalid Authorization header"), cache)
    case Some(token) => RequestOutcome(ValidateTokenStep(cfg, cache, token, now, remote))
  }

  /** `authenticate_request` as written, validating through the
      sixteen-character cache key. */
  function AuthenticateStepAsWritten(cfg: KeycloakConfig, cache: map<string, CacheEntry>, headers: map<string, string>, now: int, remote: Remote): (r: (Result<KeycloakUser>, map<string, CacheEntry>))
    ensures r.0.Ok? ==> r.0.value.authMethod == "keycloak"
    ensures BearerToken(AuthorizationHeader(headers)).None? ==>
      r == (Err("Missing or invalid Authorization header"), cache)
    ensures BearerToken(AuthorizationHeader(headers)).Some? ==>
      r == RequestOutcome(ValidateTokenAsWritten(cfg, cache, BearerToken(AuthorizationHeader(headers)).value, now, remote))
  {
    match BearerToken(AuthorizationHeader(headers))
    case None => (Err("Missing or invalid Authorization header"), cache)
    case Some(token) => RequestOutcome(ValidateTokenAsWritten(cfg, cache, token, now, remote))
  }

  /** As written, a request whose bearer token shares its first sixteen
      characters with an accepted one is authenticated as that token's user
      until the entry expires, whatever the server would say about it. */
  lemma PrefixRequestAccepted(cfg: KeycloakConfig, cache: map<string, CacheEntry>, a: string, b: string,
                              h1: map<string, string>, h2: map<string, string>,
                              now: int, later: int, good: Remote, other: Remote)
    requires AuthorizationHeader(h1) == BearerPrefix + a && AuthorizationHeader(h2) == BearerPrefix + b
    requires Take(a, 16) == Take(b, 16)
    requires !CacheHit(cache, CacheKey(a), now) && Accepts(cfg, good)
    requires cfg.cacheDuration.Some? && now <= later < now + cfg.cacheDuration.value
    ensures var first := AuthenticateStepAsWritten(cfg, cache, h1, now, good);
      && first.0 == Ok(UserFrom(good.userinfo.value.info))
      && AuthenticateStepAsWritten(cfg, first.1, h2, later, other).0 == first.0
  {
    BearerTokenIsRest(a);
    BearerTokenIsRest(b);
    PrefixTokenAccepted(cfg, cache, a, b, now, later, good, other);
  }

  /** `logout_user`: without a refresh token there is nothing to revoke and
      the server is not asked; otherwise only a 204 answer counts. */
  function LogoutUser(refreshToken: Option<string>, reply: Result<int>): (ok: bool)
    ensures (refreshToken.None? || refreshToken.value == "") ==> ok
    ensures refreshToken.Some? && refreshToken.value != "" ==> (ok <==> reply == Ok(204))
  {
    if refreshToken.None? || refreshToken.value == "" then true
    else match reply
      case Ok(status) => status == 204
      case Err(_) => false
  }

  // ---------------------------------------------------------------- object

  class KeycloakAuth {
    const config: KeycloakConfig
    var tokenCache: map<string, CacheEntry>

    constructor (config: KeycloakConfig)
      ensures this.config == config && tokenCache == map[]
    {
      this.config := config;
      tokenCache := map[];
    }

    /** `_check_required_roles`: a scan of the required roles, stopping at
        the first the user holds. */
    method CheckRequiredRoles(info: UserInfo) returns (ok: bool)
      ensures ok == HasRequiredRoles(config.requiredRoles, info)
    {
      var required := config.requiredRoles;
      if required == [] {
        return true;
      }
      var userRoles := UserRoles(info);
      var i := 0;
      while i < |required|
        invariant 0 <= i <= |required|
        invariant forall j :: 0 <= j < i ==> required[j] !in userRoles
      {
        if required[i] in userRoles {
          return true;
        }
        i := i + 1;
      }
      ok := false;
    }

    method ValidateToken(token: string, now: int, remote: Remote) returns (r: Result<UserInfo>)
      modifies this
      ensures Validation(r, tokenCache) == ValidateTokenStep(config, old(tokenCache), token, now, remote)
    {
      var key := FullCacheKey(token);
      if key in tokenCache {
        if now < tokenCache[key].expiresAt {
          return Ok(tokenCache[key].userInfo);
        }
        tokenCache := map k | k in tokenCache && k != key :: tokenCache[k];
      }
      assert tokenCache == Evicted(old(tokenCache), key);
      if remote.introspect.Err? {
        return Err("Token validation error: " + remote.introspect.error);
      }
      var introspection := remote.introspect.value;
      if introspection.status != 200 {
        return Err("Token introspection failed: " + IntToString(introspection.status));
      }
      if !introspection.active {
        return Err("Token is not active");
      }
      if remote.userinfo.Err? {
        return Err("Token validation error: " + remote.userinfo.error);
      }
      var reply := remote.userinfo.value;
      if reply.status != 200 {
        return Err("Failed to get user info");
      }
      var permitted := CheckRequiredRoles(reply.info);
      if !permitted {
        return Err("Insufficient permissions");
      }
      if config.cacheDuration.None? {
        return Err("Token validation error: 'keycloak'");
      }
      tokenCache := tokenCache[key := CacheEntry(reply.info, now + config.cacheDuration.value)];
      r := Ok(reply.info);
    }

    method AuthenticateRequest(headers: map<string, string>, now: int, remote: Remote) returns (r: Result<KeycloakUser>)
      modifies this
      ensures (r, tokenCache) == AuthenticateStep(config, old(tokenCache), headers, now, remote)
    {
      var header := AuthorizationHeader(headers);
      if !StartsWith(header, BearerPrefix) {
        return Err("Missing or invalid Authorization header");
      }
      var token := BearerToken(header).value;
      var valid := ValidateToken(token, now, remote);
      if valid.Ok? {
        return Ok(UserFrom(valid.value));
      }
      r := Err(valid.error);
    }
  }
}
