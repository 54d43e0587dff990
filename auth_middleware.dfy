/** The API authentication middleware: a sliding-window rate limiter over
    per-client request times, an in-memory API-token store with expiry and a
    usage counter, the IAM role check, and the dispatch on the configured
    method. Times are whole seconds on one clock; the STS identity lookup is
    an outcome given to the model. */
module AuthMiddleware {
  import opened Wrappers
  import opened Text

  /** The parts of the authentication configuration the middleware reads. */
  datatype AuthConfig = AuthConfig(
    authMethod: string,
    rateLimiting: bool,
    windowMinutes: int,
    maxRequests: int,
    tokenPrefix: string,
    tokenLength: int,
    expirationHours: int,
    roleArn: string)

  /** What a failed configuration load falls back to: no authentication and
      no rate limiting. */
  const FallbackConfig := AuthConfig("none", false, 0, 0, "", 0, 0, "")

  datatype TokenData = TokenData(userId: string, createdAt: int, expiresAt: int, requestsCount: nat)

  /** The user information a successful authentication yields. */
  datatype AuthUser = AuthUser(userId: string, authMethod: string)

  datatype RateCheck = RateCheck(verdict: Result<()>, limits: map<string, seq<int>>)
  datatype TokenCheck = TokenCheck(verdict: Result<()>, tokens: map<string, TokenData>)
  datatype AuthState = AuthState(tokens: map<string, TokenData>, rateLimits: map<string, seq<int>>)
  datatype AuthOutcome = AuthOutcome(result: Result<AuthUser>, state: AuthState)

  const DefaultUser := "deployer-ddf-mod-llm-models"
  const RoleMarker := "deployer-ddf-mod-llm-models"

  // ---------------------------------------------------------------- rate limit

  /** `r` holds the times of `ts` strictly after `start`, each as often as it
      occurs there, and no other time. */
  ghost predicate KeepsExactlyAfter(r: seq<int>, ts: seq<int>, start: int) {
    && (forall t :: t in r <==> t in ts && t > start)
    && forall t :: multiset(r)[t] == if t > start then multiset(ts)[t] else 0
  }

  /** The request times strictly after `start`, in their order. */
  function Recent(ts: seq<int>, start: int): (r: seq<int>)
    ensures |r| <= |ts|
    ensures KeepsExactlyAfter(r, ts, start)
  {
    if ts == [] then []
    else
      var head := if ts[0] > start then [ts[0]] else [];
      assert ts == [ts[0]] + ts[1..];
      head + Recent(ts[1..], start)
  }

  /** Pruning distributes over concatenation, so the kept times keep their order. */
  lemma {:induction false} RecentAppend(a: seq<int>, b: seq<int>, start: int)
    ensures Recent(a + b, start) == Recent(a, start) + Recent(b, start)
  {
    if a != [] {
      assert (a + b)[0] == a[0];
      assert (a + b)[1..] == a[1..] + b;
      RecentAppend(a[1..], b, start);
    } else {
      assert a + b == b;
    }
  }

  /** Pruning at a later window start subsumes pruning at an earlier one. */
  lemma {:induction false} RecentTwice(ts: seq<int>, a: int, b: int)
    requires a <= b
    ensures Recent(Recent(ts, a), b) == Recent(ts, b)
  {
    if ts != [] {
      RecentTwice(ts[1..], a, b);
      var head := if ts[0] > a then [ts[0]] else [];
      RecentAppend(head, Recent(ts[1..], a), b);
    }
  }

  function RateLimitMessage(cfg: AuthConfig): string {
    "Rate limit exceeded: " + IntToString(cfg.maxRequests) + " requests per "
      + IntToString(cfg.windowMinutes) + " minutes"
  }

  function WindowSeconds(cfg: AuthConfig): int {
    cfg.windowMinutes * 60
  }

  /** `check_rate_limit`: with limiting on, the client's times are pruned to
      the window, the request is refused when the window is already full, and
      otherwise recorded. */
  function RateLimitStep(cfg: AuthConfig, limits: map<string, seq<int>>, client: string, now: int): (r: RateCheck)
    ensures !cfg.rateLimiting ==> r == RateCheck(Ok(()), limits)
    ensures cfg.rateLimiting ==> client in r.limits
    ensures forall c :: c != client ==> (c in r.limits <==> c in limits)
    ensures forall c :: c != client && c in limits ==> r.limits[c] == limits[c]
    ensures cfg.rateLimiting ==>
      var kept := if client in limits then Recent(limits[client], now - WindowSeconds(cfg)) else [];
      && (r.verdict.Err? <==> |kept| >= cfg.maxRequests)
      && (r.verdict.Err? ==> r.verdict.error == RateLimitMessage(cfg) && r.limits[client] == kept)
      && (r.verdict.Ok? ==> r.limits[client] == kept + [now])
  {
    if !cfg.rateLimiting then RateCheck(Ok(()), limits)
    else
      var kept := if client in limits then Recent(limits[client], now - WindowSeconds(cfg)) else [];
      if |kept| >= cfg.maxRequests then RateCheck(Err(RateLimitMessage(cfg)), limits[client := kept])
      else RateCheck(Ok(()), limits[client := kept + [now]])
  }

  /** A succession of requests from one client at the given times: the final
      store and the times of the requests that were let through. */
  function RateRun(cfg: AuthConfig, limits: map<string, seq<int>>, client: string, times: seq<int>): (r: (map<string, seq<int>>, seq<int>))
  {
    if times == [] then (limits, [])
    else
      var prev := RateRun(cfg, limits, client, times[..|times| - 1]);
      var now := times[|times| - 1];
      var step := RateLimitStep(cfg, prev.0, client, now);
      (step.limits, prev.1 + if step.verdict.Ok? then [now] else [])
  }

  predicate NonDecreasing(times: seq<int>) {
    forall i, j :: 0 <= i < j < |times| ==> times[i] <= times[j]
  }

  /** The times a client's entry holds before a step: none when it has no entry. */
  function Stored(limits: map<string, seq<int>>, client: string): seq<int> {
    if client in limits then limits[client] else []
  }

  /** One limiter step keeps the client's entry equal to the accepted times of
      the window, the later window start subsuming the earlier one. */
  lemma StepKeepsWindow(cfg: AuthConfig, limits: map<string, seq<int>>, client: string, accepted: seq<int>, prevStart: int, now: int)
    requires cfg.rateLimiting && cfg.windowMinutes > 0 && cfg.maxRequests >= 0
    requires Stored(limits, client) == Recent(accepted, prevStart) && |Stored(limits, client)| <= cfg.maxRequests
    requires prevStart <= now - WindowSeconds(cfg)
    ensures var step := RateLimitStep(cfg, limits, client, now);
      var accepted' := accepted + if step.verdict.Ok? then [now] else [];
      && client in step.limits
      && step.limits[client] == Recent(accepted', now - WindowSeconds(cfg))
      && |step.limits[client]| <= cfg.maxRequests
  {
    var start := now - WindowSeconds(cfg);
    RecentTwice(accepted, prevStart, start);
    StepOnStored(cfg, limits, client, now);
    var step := RateLimitStep(cfg, limits, client, now);
    if step.verdict.Ok? {
      RecentSnoc(accepted, now, start);
    } else {
      assert accepted + [] == accepted;
    }
  }

  /** The limiter step in terms of the client's stored times. */
  lemma StepOnStored(cfg: AuthConfig, limits: map<string, seq<int>>, client: string, now: int)
    requires cfg.rateLimiting
    ensures var step := RateLimitStep(cfg, limits, client, now);
      var kept := Recent(Stored(limits, client), now - WindowSeconds(cfg));
      && client in step.limits
      && (step.verdict.Ok? <==> |kept| < cfg.maxRequests)
      && step.limits[client] == if step.verdict.Ok? then kept + [now] else kept
  {
    if client !in limits {
      assert Recent([], now - WindowSeconds(cfg)) == [];
    }
  }

  /** A time after the window start is kept at the end. */
  lemma RecentSnoc(ts: seq<int>, t: int, start: int)
    requires t > start
    ensures Recent(ts + [t], start) == Recent(ts, start) + [t]
  {
    RecentAppend(ts, [t], start);
    assert Recent([t], start) == [t] by {
      assert [t][1..] == [];
    }
  }

  /** After a request at `now`, the client's entry holds exactly the accepted
      times of the window ending at `now`, and no more of them than the limit. */
  predicate WindowHolds(cfg: AuthConfig, r: (map<string, seq<int>>, seq<int>), client: string, now: int) {
    var start := now - WindowSeconds(cfg);
    client in r.0 && r.0[client] == Recent(r.1, start) && |Recent(r.1, start)| <= cfg.maxRequests
  }

  lemma HoldsStored(cfg: AuthConfig, r: (map<string, seq<int>>, seq<int>), client: string, now: int)
    requires WindowHolds(cfg, r, client, now)
    ensures Stored(r.0, client) == Recent(r.1, now - WindowSeconds(cfg))
    ensures |Stored(r.0, client)| <= cfg.maxRequests
  {
  }

  /** A later request keeps the window guarantee. */
  lemma StepHolds(cfg: AuthConfig, prev: (map<string, seq<int>>, seq<int>), client: string, prevNow: int, now: int)
    requires cfg.rateLimiting && cfg.windowMinutes > 0 && cfg.maxRequests >= 0
    requires WindowHolds(cfg, prev, client, prevNow) && prevNow <= now
    ensures var step := RateLimitStep(cfg, prev.0, client, now);
      WindowHolds(cfg, (step.limits, prev.1 + if step.verdict.Ok? then [now] else []), client, now)
  {
    HoldsStored(cfg, prev, client, prevNow);
    StepKeepsWindow(cfg, prev.0, client, prev.1, prevNow - WindowSeconds(cfg), now);
  }

  /** The first request of a new client establishes the window guarantee. */
  lemma FirstStepHolds(cfg: AuthConfig, limits: map<string, seq<int>>, client: string, now: int)
    requires cfg.rateLimiting && cfg.windowMinutes > 0 && cfg.maxRequests >= 0
    requires client !in limits
    ensures var step := RateLimitStep(cfg, limits, client, now);
      WindowHolds(cfg, (step.limits, if step.verdict.Ok? then [now] else []), client, now)
  {
    StepKeepsWindow(cfg, limits, client, [], now - WindowSeconds(cfg), now);
    var step := RateLimitStep(cfg, limits, client, now);
    assert [] + (if step.verdict.Ok? then [now] else []) == if step.verdict.Ok? then [now] else [];
  }

  /** The sliding-window guarantee: for a new client making requests in time
      order, the store holds exactly the accepted requests of the last
      window, and there are never more of them than the limit. */
  lemma {:induction false} SlidingWindow(cfg: AuthConfig, limits: map<string, seq<int>>, client: string, times: seq<int>)
    requires cfg.rateLimiting && cfg.windowMinutes > 0 && cfg.maxRequests >= 0
    requires client !in limits
    requires times != [] && NonDecreasing(times)
    ensures WindowHolds(cfg, RateRun(cfg, limits, client, times), client, times[|times| - 1])
  {
    var now := times[|times| - 1];
    var init := times[..|times| - 1];
    var prev := RateRun(cfg, limits, client, init);
    var step := RateLimitStep(cfg, prev.0, client, now);
    assert RateRun(cfg, limits, client, times) == (step.limits, prev.1 + if step.verdict.Ok? then [now] else []);
    if init == [] {
      assert prev == (limits, []);
      FirstStepHolds(cfg, limits, client, now);
      assert prev.1 + (if step.verdict.Ok? then [now] else []) == if step.verdict.Ok? then [now] else [];
    } else {
      NonDecreasingInit(times);
      SlidingWindow(cfg, limits, client, init);
      StepHolds(cfg, prev, client, init[|init| - 1], now);
    }
  }

  lemma NonDecreasingInit(times: seq<int>)
    requires |times| >= 2 && NonDecreasing(times)
    ensures NonDecreasing(times[..|times| - 1])
    ensures times[..|times| - 1][|times| - 2] <= times[|times| - 1]
  {
    var init := times[..|times| - 1];
    forall i, j | 0 <= i < j < |init| ensures init[i] <= init[j] {
      assert init[i] == times[i] && init[j] == times[j];
    }
  }

  // ---------------------------------------------------------------- tokens

  /** The entry `generate_api_token` stores for a fresh token. */
  function NewToken(cfg: AuthConfig, userId: string, now: int): (d: TokenData)
    ensures d.userId == userId && d.requestsCount == 0
    ensures d.expiresAt - d.createdAt == cfg.expirationHours * 3600
  {
    TokenData(userId, now, now + cfg.expirationHours * 3600, 0)
  }

  /** `validate_api_token`: an unknown token is refused, an expired one is
      refused and forgotten, a live one has its use counted. */
  function ValidateToken(tokens: map<string, TokenData>, token: string, now: int): (r: TokenCheck)
    ensures r.verdict.Ok? <==> token in tokens && now <= tokens[token].expiresAt
    ensures token !in tokens ==> r == TokenCheck(Err("Invalid token"), tokens)
    ensures token in tokens && now > tokens[token].expiresAt ==>
      r == TokenCheck(Err("Token expired"), map k | k in tokens && k != token :: tokens[k])
    ensures r.verdict.Ok? ==>
      r.tokens == tokens[token := tokens[token].(requestsCount := tokens[token].requestsCount + 1)]
  {
    if token !in tokens then TokenCheck(Err("Invalid token"), tokens)
    else if now > tokens[token].expiresAt then
      TokenCheck(Err("Token expired"), map k | k in tokens && k != token :: tokens[k])
    else TokenCheck(Ok(()), tokens[token := tokens[token].(requestsCount := tokens[token].requestsCount + 1)])
  }

  /** Validations of one token at the given times, in order. */
  function ValidateRun(tokens: map<string, TokenData>, token: string, times: seq<int>): (r: map<string, TokenData>)
  {
    if times == [] then tokens
    else ValidateToken(ValidateRun(tokens, token, times[..|times| - 1]), token, times[|times| - 1]).tokens
  }

  /** Every validation up to the expiry succeeds, and the counter records
      each of them and nothing else changes. */
  lemma {:induction false} UsesCounted(tokens: map<string, TokenData>, token: string, times: seq<int>)
    requires token in tokens
    requires forall i :: 0 <= i < |times| ==> times[i] <= tokens[token].expiresAt
    ensures var r := ValidateRun(tokens, token, times);
      && token in r
      && r[token] == tokens[token].(requestsCount := tokens[token].requestsCount + |times|)
      && (forall k :: k != token ==> (k in r <==> k in tokens))
      && (forall k :: k in tokens && k != token ==> r[k] == tokens[k])
  {
    if times != [] {
      var init := times[..|times| - 1];
      UsesCounted(tokens, token, init);
    }
  }

  /** A fresh token is valid through its expiry instant, and after it the
      token is expired once and unknown from then on. */
  lemma FreshTokenLifetime(cfg: AuthConfig, tokens: map<string, TokenData>, token: string, userId: string, issued: int, t: int, later: int)
    requires t > issued + cfg.expirationHours * 3600
    ensures var issuedStore := tokens[token := NewToken(cfg, userId, issued)];
      && ValidateToken(issuedStore, token, issued + cfg.expirationHours * 3600).verdict.Ok?
      && ValidateToken(issuedStore, token, t).verdict == Err("Token expired")
      && ValidateToken(ValidateToken(issuedStore, token, t).tokens, token, later).verdict == Err("Invalid token")
  {
  }

  // ---------------------------------------------------------------- IAM

  /** `validate_iam_role`, given what the identity lookup returned: the ARN
      (empty when the answer had none) or the error it raised. */
  function IamCheck(cfg: AuthConfig, identity: Result<string>): (r: Result<()>)
    ensures r.Ok? <==> identity.Ok? && (Contains(identity.value, RoleMarker) || identity.value == cfg.roleArn)
    ensures identity.Err? ==> r == Err("IAM authentication error: " + identity.error)
    ensures identity.Ok? && r.Err? ==> r == Err("Unauthorized role: " + identity.value)
  {
    match identity
    case Err(e) => Err("IAM authentication error: " + e)
    case Ok(arn) =>
      if Contains(arn, RoleMarker) || arn == cfg.roleArn then Ok(()) else Err("Unauthorized role: " + arn)
  }

  // ---------------------------------------------------------------- dispatch

  function Header(headers: map<string, string>, name: string): string {
    if name in headers then headers[name] else ""
  }

  /** `authenticate_request`: the rate limit first, then the configured
      method. */
  function Authenticate(cfg: AuthConfig, s: AuthState, client: string, headers: map<string, string>, now: int, identity: Result<string>): (r: AuthOutcome)
    ensures r.result.Ok? ==> r.result.value.authMethod == cfg.authMethod
    ensures r.result.Ok? ==> cfg.authMethod in {"none", "api_token", "iam_role"}
  {
    var rate := RateLimitStep(cfg, s.rateLimits, client, now);
    var s1 := s.(rateLimits := rate.limits);
    if rate.verdict.Err? then AuthOutcome(Err(rate.verdict.error), s1)
    else if cfg.authMethod == "none" then AuthOutcome(Ok(AuthUser("anonymous", "none")), s1)
    else if cfg.authMethod == "api_token" then
      var header := Header(headers, "Authorization");
      if !StartsWith(header, cfg.tokenPrefix + " ") then
        AuthOutcome(Err("Missing or invalid Authorization header"), s1)
      else
        assert header[|cfg.tokenPrefix|] == ' ';
        var token := AfterFirst(header, ' ');
        var check := ValidateToken(s.tokens, token, now);
        var s2 := s1.(tokens := check.tokens);
        if check.verdict.Ok? then AuthOutcome(Ok(AuthUser(check.tokens[token].userId, "api_token")), s2)
        else AuthOutcome(Err(check.verdict.error), s2)
    else if cfg.authMethod == "iam_role" then
      if Header(headers, "X-AWS-Access-Key-Id") == "" || Header(headers, "X-AWS-Secret-Access-Key") == "" then
        AuthOutcome(Err("Missing AWS credentials in headers"), s1)
      else
        var iam := IamCheck(cfg, identity);
        if iam.Ok? then AuthOutcome(Ok(AuthUser("aws-role", "iam_role")), s1)
        else AuthOutcome(Err(iam.error), s1)
    else if cfg.authMethod == "mtls" then
      AuthOutcome(Err("mTLS authentication not implemented in this context"), s1)
    else AuthOutcome(Err("Unknown authentication method: " + cfg.authMethod), s1)
  }

  /** A request the rate limiter refuses gets its message and touches no token. */
  lemma RateCheckedFirst(cfg: AuthConfig, s: AuthState, client: string, headers: map<string, string>, now: int, identity: Result<string>)
    requires RateLimitStep(cfg, s.rateLimits, client, now).verdict.Err?
    ensures var r := Authenticate(cfg, s, client, headers, now, identity);
      && r.result == Err(RateLimitMessage(cfg))
      && r.state == AuthState(s.tokens, RateLimitStep(cfg, s.rateLimits, client, now).limits)
  {
  }

  /** With a prefix free of spaces, a bearer-style header authenticates
      exactly when the text after `prefix + " "` is a live token, as its
      owner; the counter of that token goes up by one. */
  lemma ApiTokenAccepted(cfg: AuthConfig, s: AuthState, client: string, headers: map<string, string>, now: int, identity: Result<string>, token: string)
    requires cfg.authMethod == "api_token" && ' ' !in cfg.tokenPrefix
    requires RateLimitStep(cfg, s.rateLimits, client, now).verdict.Ok?
    requires Header(headers, "Authorization") == cfg.tokenPrefix + " " + token
    ensures var r := Authenticate(cfg, s, client, headers, now, identity);
      && (r.result.Ok? <==> token in s.tokens && now <= s.tokens[token].expiresAt)
      && (r.result.Ok? ==> r.result.value == AuthUser(s.tokens[token].userId, "api_token"))
      && r.state.tokens == ValidateToken(s.tokens, token, now).tokens
  {
    var header := cfg.tokenPrefix + " " + token;
    assert StartsWith(header, cfg.tokenPrefix + " ");
    AfterFirstPrefix(cfg.tokenPrefix, ' ', token);
  }

  /** A header that does not open with the prefix and a space is refused
      before any token is looked at. */
  lemma ApiTokenNeedsPrefix(cfg: AuthConfig, s: AuthState, client: string, headers: map<string, string>, now: int, identity: Result<string>)
    requires cfg.authMethod == "api_token"
    requires RateLimitStep(cfg, s.rateLimits, client, now).verdict.Ok?
    requires !StartsWith(Header(headers, "Authorization"), cfg.tokenPrefix + " ")
    ensures Authenticate(cfg, s, client, headers, now, identity).result == Err("Missing or invalid Authorization header")
    ensures Authenticate(cfg, s, client, headers, now, identity).state.tokens == s.tokens
  {
  }

  /** IAM authentication needs both key headers, and then succeeds exactly
      when the role check does. */
  lemma IamNeedsBothKeys(cfg: AuthConfig, s: AuthState, client: string, headers: map<string, string>, now: int, identity: Result<string>)
    requires cfg.authMethod == "iam_role"
    requires RateLimitStep(cfg, s.rateLimits, client, now).verdict.Ok?
    ensures var r := Authenticate(cfg, s, client, headers, now, identity);
      r.result.Ok? <==>
        Header(headers, "X-AWS-Access-Key-Id") != "" && Header(headers, "X-AWS-Secret-Access-Key") != ""
        && IamCheck(cfg, identity).Ok?
  {
  }

  /** The fallback configuration lets every request through anonymously. */
  lemma FallbackIsAnonymous(s: AuthState, client: string, headers: map<string, string>, now: int, identity: Result<string>)
    ensures var r := Authenticate(FallbackConfig, s, client, headers, now, identity);
      r.result == Ok(AuthUser("anonymous", "none")) && r.state == s
  {
  }

  // ---------------------------------------------------------------- object

  class Middleware {
    const config: AuthConfig
    var tokens: map<string, TokenData>
    var rateLimits: map<string, seq<int>>

    constructor (config: AuthConfig)
      ensures this.config == config && tokens == map[] && rateLimits == map[]
    {
      this.config := config;
      tokens := map[];
      rateLimits := map[];
    }

    function State(): AuthState
      reads this
    {
      AuthState(tokens, rateLimits)
    }

    /** `generate_api_token`, with the random token given. */
    method GenerateApiToken(userId: string, token: string, now: int) returns (r: string)
      modifies this
      ensures r == token
      ensures tokens == old(tokens)[token := NewToken(config, userId, now)]
      ensures rateLimits == old(rateLimits)
    {
      tokens := tokens[token := TokenData(userId, now, now + config.expirationHours * 3600, 0)];
      r := token;
    }

    method ValidateApiToken(token: string, now: int) returns (r: Result<()>)
      modifies this
      ensures TokenCheck(r, tokens) == ValidateToken(old(tokens), token, now)
      ensures rateLimits == old(rateLimits)
    {
      if token !in tokens {
        return Err("Invalid token");
      }
      var data := tokens[token];
      if now > data.expiresAt {
        tokens := map k | k in tokens && k != token :: tokens[k];
        return Err("Token expired");
      }
      tokens := tokens[token := data.(requestsCount := data.requestsCount + 1)];
      r := Ok(());
    }

    method CheckRateLimit(clientId: string, now: int) returns (r: Result<()>)
      modifies this`rateLimits
      ensures RateCheck(r, rateLimits) == RateLimitStep(config, old(rateLimits), clientId, now)
    {
      if !config.rateLimiting {
        return Ok(());
      }
      var windowStart := now - WindowSeconds(config);
      ghost var kept := if clientId in rateLimits then Recent(rateLimits[clientId], windowStart) else [];
      if clientId in rateLimits {
        rateLimits := rateLimits[clientId := Recent(rateLimits[clientId], windowStart)];
      } else {
        rateLimits := rateLimits[clientId := []];
      }
      assert rateLimits == old(rateLimits)[clientId := kept];
      if |rateLimits[clientId]| >= config.maxRequests {
        assert RateLimitStep(config, old(rateLimits), clientId, now) == RateCheck(Err(RateLimitMessage(config)), rateLimits);
        return Err(RateLimitMessage(config));
      }
      rateLimits := rateLimits[clientId := rateLimits[clientId] + [now]];
      assert RateLimitStep(config, old(rateLimits), clientId, now) == RateCheck(Ok(()), old(rateLimits)[clientId := kept + [now]]);
      r := Ok(());
    }

    method AuthenticateRequest(clientId: string, headers: map<string, string>, now: int, identity: Result<string>)
      returns (r: Result<AuthUser>)
      modifies this
      ensures AuthOutcome(r, State()) == Authenticate(config, old(State()), clientId, headers, now, identity)
    {
      var rate := CheckRateLimit(clientId, now);
      if rate.Err? {
        return Err(rate.error);
      }
      if config.authMethod == "none" {
        return Ok(AuthUser("anonymous", "none"));
      } else if config.authMethod == "api_token" {
        var header := Header(headers, "Authorization");
        if !StartsWith(header, config.tokenPrefix + " ") {
          return Err("Missing or invalid Authorization header");
        }
        assert header[|config.tokenPrefix|] == ' ';
        var token := AfterFirst(header, ' ');
        var valid := ValidateApiToken(token, now);
        if valid.Ok? {
          return Ok(AuthUser(tokens[token].userId, "api_token"));
        }
        return Err(valid.error);
      } else if config.authMethod == "iam_role" {
        if Header(headers, "X-AWS-Access-Key-Id") == "" || Header(headers, "X-AWS-Secret-Access-Key") == "" {
          return Err("Missing AWS credentials in headers");
        }
        var iam := IamCheck(config, identity);
        if iam.Ok? {
          return Ok(AuthUser("aws-role", "iam_role"));
        }
        return Err(iam.error);
      } else if config.authMethod == "mtls" {
        return Err("mTLS authentication not implemented in this context");
      }
      r := Err("Unknown authentication method: " + config.authMethod);
    }
  }
}
