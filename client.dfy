/**
 * The generated JavaScript client: a `SkyAPI` object that holds one access token,
 * fetches a new one with the OAuth 2.0 client-credentials grant (section 4.4 of
 * RFC 6749, sent as JSON) when none is held or the held one has expired, and turns
 * each `request({method, path, query, body})` into one HTTP request carrying the
 * token as a Bearer credential (section 2.1 of RFC 6750).
 *
 * Nothing here performs I/O.  The clock, the token endpoint's replies, `jws.decode`,
 * `qs.stringify` and `JSON.stringify` are inputs (an `Io` record), and a request
 * yields the plan of what is sent; `Settle` gives the outcome for a response.
 */
module Client {
  import opened Js
  import opened GeneratedMethod

  /** The options the client is created from. */
  datatype Config = Config(
    origin: Value, auth0: Value, key: Value, secret: Value, audience: Value, token: Value, version: Value)

  /** `SkyAPI({origin, auth0, key, secret, audience, token, version})`: destructuring null or undefined throws. */
  function Configure(options: Value): (r: Result<Config>)
    ensures r.Ok? <==> !Nullish(options)
    ensures r.Ok? ==> r.value.token == Get(options, "token") && r.value.origin == Get(options, "origin")
  {
    if Nullish(options) then Throw(TypeError)
    else Ok(Config(
      Get(options, "origin"), Get(options, "auth0"), Get(options, "key"), Get(options, "secret"),
      Get(options, "audience"), Get(options, "token"), Get(options, "version")))
  }

  /** What the outside world contributes to one `request` call. */
  datatype Io = Io(
    now: int,                       // `Date.now()`, in milliseconds
    grant: nat -> Value,            // the parsed reply to the n-th token request of this call (counting from 0)
    decode: Value -> Value,         // `jws.decode` (null for text that is not a JWS)
    encodeQuery: Fields -> string,  // `qs.stringify`
    encodeJson: Value -> string)    // `JSON.stringify`

  /** An HTTP request as handed to `fetch`. */
  datatype HttpRequest = HttpRequest(url: string, verb: string, headers: Fields, body: Option<string>)

  /** What one `request` call sends: `refreshes` token requests, then the request itself. */
  datatype Dispatch = Dispatch(refreshes: nat, request: HttpRequest)

  // ---------------------------------------------------------------------------
  // refresh

  /** The JSON body of the token request: the client-credentials grant, as the object literal builds it. */
  function GrantBody(config: Config): Value {
    Obj([("grant_type", Str("client_credentials")), ("client_id", config.key),
         ("client_secret", config.secret), ("audience", config.audience)])
  }

  /**
   * The grant names the client-credentials grant type and carries the configured
   * key as client id, the secret as client secret and the audience, in that order.
   */
  lemma GrantBodyMeaning(config: Config)
    ensures KeysOf(GrantBody(config).fields) == ["grant_type", "client_id", "client_secret", "audience"]
    ensures Get(GrantBody(config), "grant_type") == Str("client_credentials")
    ensures Get(GrantBody(config), "client_id") == config.key
    ensures Get(GrantBody(config), "client_secret") == config.secret
    ensures Get(GrantBody(config), "audience") == config.audience
  {
    GrantKeysDiffer();
    var f := GrantBody(config).fields;
    assert Lookup(f, "client_id") == Lookup(f[1..], "client_id") == config.key;
    assert Lookup(f, "client_secret") == Lookup(f[1..], "client_secret") == Lookup(f[2..], "client_secret");
    assert Lookup(f, "audience") == Lookup(f[1..], "audience") == Lookup(f[2..], "audience");
    assert Lookup(f[2..], "audience") == Lookup(f[3..], "audience");
  }

  lemma GrantKeysDiffer()
    ensures "grant_type" != "client_id" && "grant_type" != "client_secret" && "grant_type" != "audience"
    ensures "client_id" != "client_secret" && "client_id" != "audience" && "client_secret" != "audience"
  {
    assert "grant_type"[0] != "client_id"[0] && "grant_type"[0] != "audience"[0] && "client_id"[0] != "audience"[0];
    assert "client_id"[7] != "client_secret"[7];
  }

  /** The request `refresh` sends: a JSON POST of the grant to `<auth0>/oauth/token`. */
  function TokenRequest(config: Config, io: Io): (req: HttpRequest)
    ensures req.verb == "POST" && req.url == ToStr(config.auth0) + "/oauth/token"
    ensures req.headers == [("Content-Type", Str("application/json"))]
    ensures req.body == Some(io.encodeJson(GrantBody(config)))
  {
    HttpRequest(ToStr(config.auth0) + "/oauth/token", "POST",
      [("Content-Type", Str("application/json"))], Some(io.encodeJson(GrantBody(config))))
  }

  /** What `refresh` resolves to for a parsed reply: `json.access_token`. */
  function AccessToken(reply: Value): (r: Result<Value>)
    ensures r.Throw? <==> Nullish(reply)
    ensures r.Ok? ==> r.value == Get(reply, "access_token")
  {
    Member(reply, "access_token")
  }

  // ---------------------------------------------------------------------------
  // Expiry

  /** The value of a non-empty run of decimal digits. */
  function DigitsValue(s: string): (n: nat)
    requires forall i :: 0 <= i < |s| ==> '0' <= s[i] <= '9'
  {
    if s == [] then 0 else DigitsValue(s[..|s| - 1]) * 10 + (s[|s| - 1] as int - '0' as int)
  }

  /**
   * ToNumber, as `exp * 1000` applies it; `None` is NaN.  Only the empty string and
   * strings of decimal digits are read as numbers.
   */
  function ToNumber(v: Value): Option<int> {
    match v
    case Undefined => None
    case Null => Some(0)
    case Bool(b) => Some(if b then 1 else 0)
    case Num(n) => Some(n)
    case Str(s) =>
      if forall i :: 0 <= i < |s| ==> '0' <= s[i] <= '9' then Some(DigitsValue(s)) else None
    case _ => None
  }

  /**
   * `const {payload: {exp}} = decoded; Date.now() >= exp * 1000`: `exp` is a JWT
   * NumericDate in seconds, the clock counts milliseconds, and a comparison with NaN
   * is false.
   */
  function Expired(decoded: Value, now: int): Result<bool> {
    var payload :- Member(decoded, "payload");
    var exp :- Member(payload, "exp");
    var seconds := ToNumber(exp);
    Ok(seconds.Some? && now >= seconds.value * 1000)
  }

  /**
   * A token whose payload carries a numeric `exp` has expired exactly from
   * `exp * 1000` milliseconds on; one without `exp` never expires; a token that does
   * not decode to a payload makes the check throw.
   */
  lemma ExpiredMeaning(decoded: Value, now: int)
    ensures Nullish(decoded) || Nullish(Get(decoded, "payload")) <==> Expired(decoded, now).Throw?
    ensures Get(Get(decoded, "payload"), "exp").Num? && !Nullish(decoded) ==>
      Expired(decoded, now) == Ok(now >= Get(Get(decoded, "payload"), "exp").n * 1000)
    ensures !Nullish(decoded) && Get(decoded, "payload").Obj? && Get(Get(decoded, "payload"), "exp").Undefined? ==>
      Expired(decoded, now) == Ok(false)
  {
  }

  /** Once expired, a token stays expired as the clock moves on. */
  lemma ExpiredIsMonotone(decoded: Value, now: int, later: int)
    requires now <= later
    ensures Expired(decoded, now) == Ok(true) ==> Expired(decoded, later) == Ok(true)
  {
  }

  // ---------------------------------------------------------------------------
  // The token held across calls

  /** The token held after the refresh steps of one `request`, and how many refreshes ran (or what was thrown). */
  datatype Authorized = Authorized(token: Value, outcome: Result<nat>)

  /** `if (Date.now() >= exp * 1000) token = await refresh()`, with `n` refreshes already made. */
  function CheckExpiry(t: Value, n: nat, io: Io): Authorized {
    match Expired(io.decode(t), io.now)
    case Throw(e) => Authorized(t, Throw(e))
    case Ok(expired) =>
      if !expired then Authorized(t, Ok(n))
      else
        match AccessToken(io.grant(n))
        case Throw(e) => Authorized(t, Throw(e))
        case Ok(renewed) => Authorized(renewed, Ok(n + 1))
  }

  /** `if (!token) token = await refresh()`, then the expiry check. */
  function Authorize(held: Value, io: Io): Authorized {
    if Truthy(held) then CheckExpiry(held, 0, io)
    else
      match AccessToken(io.grant(0))
      case Throw(e) => Authorized(held, Throw(e))
      case Ok(renewed) => CheckExpiry(renewed, 1, io)
  }

  /**
   * At most two refreshes per call; two only when no token was held and the renewed
   * one had already expired; at least one when no token was held.
   */
  lemma AuthorizeRefreshes(held: Value, io: Io)
    ensures var a := Authorize(held, io);
      a.outcome.Ok? ==>
        && a.outcome.value <= 2
        && (a.outcome.value == 2 ==> !Truthy(held))
        && (!Truthy(held) ==> a.outcome.value >= 1)
        && (a.outcome.value == 0 ==> a.token == held && Truthy(held))
  {
  }

  /** A held token that has not expired is kept, and nothing is refreshed. */
  lemma LiveTokenKept(held: Value, io: Io)
    requires Truthy(held) && Expired(io.decode(held), io.now) == Ok(false)
    ensures Authorize(held, io) == Authorized(held, Ok(0))
  {
  }

  /** A held token that has expired is replaced by the first reply's `access_token`. */
  lemma ExpiredTokenReplaced(held: Value, io: Io)
    requires Truthy(held) && Expired(io.decode(held), io.now) == Ok(true)
    requires !Nullish(io.grant(0))
    ensures Authorize(held, io) == Authorized(Get(io.grant(0), "access_token"), Ok(1))
  {
  }

  /** With no token held, the first reply's token is stored and used if it is live. */
  lemma MissingTokenFetched(held: Value, io: Io)
    requires !Truthy(held) && !Nullish(io.grant(0))
    requires Expired(io.decode(Get(io.grant(0), "access_token")), io.now) == Ok(false)
    ensures Authorize(held, io) == Authorized(Get(io.grant(0), "access_token"), Ok(1))
  {
  }

  /**
   * The token stored by one call is the one the next call starts from: if it is
   * truthy and still live then, the next call makes no refresh and keeps it.
   */
  lemma TokenPersists(held: Value, first: Io, second: Io)
    requires Authorize(held, first).outcome.Ok?
    requires Truthy(Authorize(held, first).token)
    requires Expired(second.decode(Authorize(held, first).token), second.now) == Ok(false)
    ensures Authorize(Authorize(held, first).token, second) == Authorized(Authorize(held, first).token, Ok(0))
  {
    LiveTokenKept(Authorize(held, first).token, second);
  }

  // ---------------------------------------------------------------------------
  // request

  /**
   * The HTTP request for `{method, path, query, body}` once `token` is settled: the
   * query is appended to the path only when it has a key, and a body (with its
   * content type) only when it has one.
   */
  function Compose(config: Config, token: Value, args: RequestArgs, io: Io): HttpRequest {
    var headers := [("authorization", Str("Bearer " + ToStr(token)))];
    var path := if |args.query| > 0 then args.path + "?" + io.encodeQuery(args.query) else args.path;
    var text := io.encodeJson(Obj(args.body));
    var headers := if |args.body| > 0 then Define(headers, "content-type", Str("application/json")) else headers;
    var body := if |args.body| > 0 && |text| > 0 then Some(text) else None;
    HttpRequest(ToStr(config.origin) + path, args.verb, headers, body)
  }

  /**
   * Every request carries the Bearer header for `token`, and the JSON content type
   * exactly when the body has a key.
   */
  lemma ComposeHeaders(config: Config, token: Value, args: RequestArgs, io: Io)
    ensures var req := Compose(config, token, args, io);
      && Lookup(req.headers, "authorization") == Str("Bearer " + ToStr(token))
      && KeysOf(req.headers) == (if |args.body| > 0 then ["authorization", "content-type"] else ["authorization"])
      && (|args.body| > 0 ==> Lookup(req.headers, "content-type") == Str("application/json"))
  {
    var headers := [("authorization", Str("Bearer " + ToStr(token)))];
    assert KeysOf(headers) == ["authorization"];
    assert "authorization"[0] != "content-type"[0];
  }

  /**
   * The URL is the origin, the path and `?query` exactly when the query has a key;
   * the encoded body is sent exactly when the body has a key and encodes to
   * non-empty text.
   */
  lemma ComposeTarget(config: Config, token: Value, args: RequestArgs, io: Io)
    ensures var req := Compose(config, token, args, io);
      && req.verb == args.verb
      && req.url == ToStr(config.origin) + args.path + (if |args.query| > 0 then "?" + io.encodeQuery(args.query) else "")
      && (req.body.Some? <==> |args.body| > 0 && io.encodeJson(Obj(args.body)) != "")
      && (req.body.Some? ==> req.body.value == io.encodeJson(Obj(args.body)))
  {
    var origin := ToStr(config.origin);
    if |args.query| > 0 {
      assert origin + (args.path + "?" + io.encodeQuery(args.query)) == origin + args.path + ("?" + io.encodeQuery(args.query));
    } else {
      assert origin + args.path == origin + args.path + "";
    }
  }

  /** The token stored and what is sent (or thrown) by one `request` call. */
  function Plan(config: Config, held: Value, args: RequestArgs, io: Io): (Value, Result<Dispatch>) {
    var a := Authorize(held, io);
    match a.outcome
    case Throw(e) => (a.token, Throw(e))
    case Ok(n) => (a.token, Ok(Dispatch(n, Compose(config, a.token, args, io))))
  }

  /** `/^(4|5)/.test(res.status)`: a status whose decimal text starts with 4 or 5 throws with the response text. */
  function Settle(status: nat, text: string, json: Value): Result<Value> {
    var digits := NatToDecimal(status);
    if digits[0] == '4' || digits[0] == '5' then Throw(Error(text)) else Ok(json)
  }

  /** The leading digit of a three-digit number is its hundreds. */
  lemma LeadingDigit(n: nat)
    requires 100 <= n <= 999
    ensures NatToDecimal(n)[0] == DigitChar(n / 100)
  {
    assert NatToDecimal(n) == NatToDecimal(n / 10) + [DigitChar(n % 10)];
    assert NatToDecimal(n / 10) == NatToDecimal(n / 10 / 10) + [DigitChar(n / 10 % 10)];
    assert n / 10 / 10 == n / 100;
  }

  /**
   * For a three-digit HTTP status, the response is an error carrying the response
   * text exactly for the client and server error classes 400 to 599; otherwise the
   * parsed JSON is the result.
   */
  lemma SettleMeaning(status: nat, text: string, json: Value)
    requires 100 <= status <= 999
    ensures Settle(status, text, json) == if 400 <= status <= 599 then Throw(Error(text)) else Ok(json)
  {
    LeadingDigit(status);
  }

  // ---------------------------------------------------------------------------
  // The generated operations' arguments

  /** `version || 2`. */
  function VersionOr2(version: Value): Value {
    if Truthy(version) then version else Num(2)
  }

  /** A declared parameter record after tagging: its name, its location and the flag named by it. */
  function Tagged(name: string, location: string): Value {
    Obj([(location, Bool(true)), ("name", Str(name))])
  }

  /** The parameter records `createDataset` was rendered from. */
  const DatasetParameters: seq<Value> := [Tagged("token", "query"), Tagged("userId", "query"), Tagged("name", "body")]

  lemma LocationsDiffer()
    ensures "query" != "body" && "query" != "name" && "body" != "name"
  {
    assert "query"[0] != "body"[0] && "query"[0] != "name"[0] && "body"[0] != "name"[0];
  }

  /** A tagged record renders its name and is flagged for its own location only. */
  lemma TaggedFlags(name: string, location: string, other: string)
    requires location != "name" && other != location && other != "name"
    ensures RenderedName(Tagged(name, location)) == name
    ensures Flagged(Get(Tagged(name, location), location))
    ensures !Flagged(Get(Tagged(name, location), other))
  {
    var fields := Tagged(name, location).fields;
    assert Lookup(fields, "name") == Lookup(fields[1..], "name");
    assert Lookup(fields, other) == Lookup(fields[1..], other);
  }


  /** The arguments `createDataset(params)` hands to `request`. */
  function CreateDatasetArgs(version: Value, params: Value): Result<RequestArgs> {
    if Nullish(params) then Throw(TypeError)
    else Ok(RequestArgs("POST", "/v" + ToStr(VersionOr2(version)) + "/datasets", DatasetQueryOf(params), DatasetBodyOf(params)))
  }

  /** `createDataset`'s query: `token`, then `userId`, each only when defined. */
  function DatasetQueryOf(params: Value): Fields {
    var query := if Get(params, "token").Undefined? then [] else Define([], "token", Get(params, "token"));
    if Get(params, "userId").Undefined? then query else Define(query, "userId", Get(params, "userId"))
  }

  /** `createDataset`'s body: `name` only when defined. */
  function DatasetBodyOf(params: Value): Fields {
    if Get(params, "name").Undefined? then [] else Define([], "name", Get(params, "name"))
  }

  /**
   * `createDataset` is the method template rendered for a POST with two query
   * parameters (`token`, `userId`) and one body parameter (`name`), so everything
   * proved of generated methods holds of it.
   */
  lemma CreateDatasetIsGenerated(version: Value, params: Value)
    ensures CreateDatasetArgs(version, params) ==
      Generated("post", "/v" + ToStr(VersionOr2(version)) + "/datasets", DatasetParameters, params)
  {
    assert Upper("post") == "POST";
    if Nullish(params) {
      LocationsDiffer();
      TaggedFlags("token", "query", "body");
      GeneratedThrows("post", "/v" + ToStr(VersionOr2(version)) + "/datasets", DatasetParameters, params);
      assert FlaggedEither(DatasetParameters[0]);
    } else {
      DatasetQuery(params);
      DatasetBody(params);
    }
  }

  lemma DatasetQuery(params: Value)
    requires !Nullish(params)
    ensures PlaceAll(DatasetParameters, params, "query") == Ok(DatasetQueryOf(params))
  {
    var ps := DatasetParameters;
    LocationsDiffer();
    TaggedFlags("token", "query", "body");
    TaggedFlags("userId", "query", "body");
    TaggedFlags("name", "body", "query");
    assert [] + [ps[0]] == ps[..1] && ps[..1] + [ps[1]] == ps[..2] && ps[..2] + [ps[2]] == ps;
    PlaceAllSnoc([], ps[0], params, "query");
    PlaceAllSnoc(ps[..1], ps[1], params, "query");
    PlaceAllSnoc(ps[..2], ps[2], params, "query");
  }

  lemma DatasetBody(params: Value)
    requires !Nullish(params)
    ensures PlaceAll(DatasetParameters, params, "body") == Ok(DatasetBodyOf(params))
  {
    var ps := DatasetParameters;
    LocationsDiffer();
    TaggedFlags("token", "query", "body");
    TaggedFlags("userId", "query", "body");
    TaggedFlags("name", "body", "query");
    assert [] + [ps[0]] == ps[..1] && ps[..1] + [ps[1]] == ps[..2] && ps[..2] + [ps[2]] == ps;
    PlaceAllSnoc([], ps[0], params, "body");
    PlaceAllSnoc(ps[..1], ps[1], params, "body");
    PlaceAllSnoc(ps[..2], ps[2], params, "body");
  }

  /** The arguments `createProcessingJob(params)` hands to `request`. */
  function CreateProcessingJobArgs(version: Value, params: Value): Result<RequestArgs> {
    var path := "/v" + ToStr(VersionOr2(version)) + "/datasets/{id}/processes";
    var id :- Member(params, "id");
    var path := if id.Undefined? then path else ReplaceFirst(path, "{id}", ToStr(id));
    Ok(RequestArgs("POST", path, [], []))
  }

  /** `s.replace(pat, rep)` on `a + pat + b` replaces the marked occurrence when `a` cannot hold an earlier one. */
  lemma ReplaceFirstAt(a: string, pat: string, b: string, rep: string)
    requires pat != [] && pat[0] !in a
    ensures ReplaceFirst(a + pat + b, pat, rep) == a + rep + b
  {
    var s := a + pat + b;
    assert OccursAt(s, pat, |a|) by {
      assert s[|a|..|a| + |pat|] == pat;
    }
    forall i: nat | i < |a|
      ensures !OccursAt(s, pat, i)
    {
      assert s[i] == a[i];
    }
    var j := IndexOf(s, pat, 0);
    assert j == |a|;
    assert s[..j] == a && s[j + |pat|..] == b;
  }

  /**
   * `createProcessingJob` POSTs with an empty query and body; its path has the
   * dataset id in place of `{id}` when `params.id` is defined (and the version text
   * holds no `{`), and keeps `{id}` otherwise.
   */
  lemma CreateProcessingJobMeaning(version: Value, params: Value)
    ensures CreateProcessingJobArgs(version, params).Throw? <==> Nullish(params)
    ensures var r := CreateProcessingJobArgs(version, params);
      var prefix := "/v" + ToStr(VersionOr2(version)) + "/datasets/";
      r.Ok? ==>
        && r.value.verb == "POST" && r.value.query == [] && r.value.body == []
        && (Get(params, "id").Undefined? ==> r.value.path == prefix + "{id}/processes")
        && ('{' !in prefix && !Get(params, "id").Undefined? ==>
              r.value.path == prefix + ToStr(Get(params, "id")) + "/processes")
  {
    var prefix := "/v" + ToStr(VersionOr2(version)) + "/datasets/";
    assert "/v" + ToStr(VersionOr2(version)) + "/datasets/{id}/processes" == prefix + "{id}" + "/processes";
    if !Nullish(params) && '{' !in prefix && !Get(params, "id").Undefined? {
      ReplaceFirstAt(prefix, "{id}", "/processes", ToStr(Get(params, "id")));
    }
  }

  /** The arguments `getProcessingResults({puuid, layers})` hands to `request`. */
  function ProcessingResultsArgs(arg: Value): (r: Result<RequestArgs>)
    ensures r.Throw? <==> Nullish(arg)
    ensures r.Ok? ==> r.value.verb == "GET" && r.value.body == []
    ensures r.Ok? ==> r.value.path == "/v1/processes/" + ToStr(Get(arg, "puuid")) + "/result"
    ensures r.Ok? ==> (r.value.query == [("layers", Bool(true))] <==> Truthy(Get(arg, "layers")))
    ensures r.Ok? ==> (r.value.query == [] <==> !Truthy(Get(arg, "layers")))
  {
    if Nullish(arg) then Throw(TypeError)
    else
      var query := if Truthy(Get(arg, "layers")) then [("layers", Bool(true))] else [];
      Ok(RequestArgs("GET", "/v1/processes/" + ToStr(Get(arg, "puuid")) + "/result", query, []))
  }

  // ---------------------------------------------------------------------------
  // The client object

  /** The object `SkyAPI(options)` returns; `token` is the one piece of state its methods share. */
  class SkyApi {
    const config: Config
    var token: Value

    constructor(config: Config)
      ensures this.config == config && token == config.token
    {
      this.config := config;
      token := config.token;
    }

    /** `refresh()`: what is sent, and the token it resolves to; the held token is left alone. */
    method Refresh(io: Io) returns (sent: HttpRequest, r: Result<Value>)
      ensures sent == TokenRequest(config, io)
      ensures r == AccessToken(io.grant(0))
    {
      sent := TokenRequest(config, io);
      var reply := io.grant(0);
      r := Member(reply, "access_token");
    }

    /**
     * `request({method, path, query, body})`: settles the token (storing every token
     * it fetches, even when a later step throws) and composes the HTTP request.
     */
    method Request(args: RequestArgs, io: Io) returns (r: Result<Dispatch>)
      modifies this
      ensures (token, r) == Plan(config, old(token), args, io)
    {
      var refreshes := 0;
      if !Truthy(token) {
        var renewed :- AccessToken(io.grant(0));
        token := renewed;
        refreshes := 1;
      }
      var expired :- Expired(io.decode(token), io.now);
      if expired {
        var renewed :- AccessToken(io.grant(refreshes));
        token := renewed;
        refreshes := refreshes + 1;
      }
      var headers: Fields := [("authorization", Str("Bearer " + ToStr(token)))];
      var path := args.path;
      if |args.query| > 0 {
        path := path + "?" + io.encodeQuery(args.query);
      }
      var body: Option<string> := None;
      if |args.body| > 0 {
        var text := io.encodeJson(Obj(args.body));
        headers := Define(headers, "content-type", Str("application/json"));
        if |text| > 0 {
          body := Some(text);
        }
      }
      var url := ToStr(config.origin) + path;
      r := Ok(Dispatch(refreshes, HttpRequest(url, args.verb, headers, body)));
    }

    /** `createDataset(params)`. */
    method CreateDataset(params: Value, io: Io) returns (r: Result<Dispatch>)
      modifies this
      ensures CreateDatasetArgs(config.version, params).Throw? ==> r == Throw(TypeError) && token == old(token)
      ensures CreateDatasetArgs(config.version, params).Ok? ==>
        (token, r) == Plan(config, old(token), CreateDatasetArgs(config.version, params).value, io)
    {
      var verb := Upper("post");
      var path := "/v" + ToStr(VersionOr2(config.version)) + "/datasets";
      var query: Fields := [];
      var body: Fields := [];
      if Nullish(params) {
        return Throw(TypeError);
      }
      if Get(params, "token") != Undefined {
        query := Define(query, "token", Get(params, "token"));
      }
      if Get(params, "userId") != Undefined {
        query := Define(query, "userId", Get(params, "userId"));
      }
      if Get(params, "name") != Undefined {
        body := Define(body, "name", Get(params, "name"));
      }
      assert verb == "POST";
      r := Request(RequestArgs(verb, path, query, body), io);
    }

    /** `createProcessingJob(params)`. */
    method CreateProcessingJob(params: Value, io: Io) returns (r: Result<Dispatch>)
      modifies this
      ensures CreateProcessingJobArgs(config.version, params).Throw? ==> r == Throw(TypeError) && token == old(token)
      ensures CreateProcessingJobArgs(config.version, params).Ok? ==>
        (token, r) == Plan(config, old(token), CreateProcessingJobArgs(config.version, params).value, io)
    {
      var verb := Upper("post");
      var path := "/v" + ToStr(VersionOr2(config.version)) + "/datasets/{id}/processes";
      if Nullish(params) {
        return Throw(TypeError);
      }
      if Get(params, "id") != Undefined {
        path := ReplaceFirst(path, "{id}", ToStr(Get(params, "id")));
      }
      assert verb == "POST";
      r := Request(RequestArgs(verb, path, [], []), io);
    }

    /** `getProcessingResults({puuid, layers})`. */
    method GetProcessingResults(arg: Value, io: Io) returns (r: Result<Dispatch>)
      modifies this
      ensures ProcessingResultsArgs(arg).Throw? ==> r == Throw(TypeError) && token == old(token)
      ensures ProcessingResultsArgs(arg).Ok? ==>
        (token, r) == Plan(config, old(token), ProcessingResultsArgs(arg).value, io)
    {
      if Nullish(arg) {
        return Throw(TypeError);
      }
      var path := "/v1/processes/" + ToStr(Get(arg, "puuid")) + "/result";
      var query: Fields := [];
      if Truthy(Get(arg, "layers")) {
        query := Define(query, "layers", Bool(true));
      }
      r := Request(RequestArgs("GET", path, query, []), io);
    }
  }
}
