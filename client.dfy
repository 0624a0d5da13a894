/**
 * The client object: its construction check, its default options, and the
 * requests its operations hand to the dispatcher.
 */
module Client {
  import opened Wrappers
  import opened Http
  import Routes

  /** Connection settings: host, version prefix and the 429 retry ceiling. */
  datatype ClientOptions = ClientOptions(baseURL: string, version: string, maxRetries: int)

  /** The settings a client gets when it is constructed without options. */
  const DefaultOptions := ClientOptions("https://unbelievaboat.com/api", "v1", 3)

  /** The token argument as JavaScript sees it: a string, or a value of any other type. */
  datatype TokenArgument = StringToken(text: string) | NonStringToken

  const TokenMessage := "The API token must be a string"

  /** The error the constructor throws. */
  datatype TypeError = TypeError(message: string)

  /** A constructed client: the token is kept as given. */
  datatype UnbClient = UnbClient(token: string, options: ClientOptions)

  /**
   * `new UnbCLient(token, options?)`: refuses a token that is falsy or not a
   * string, and otherwise keeps the token and the options, or the defaults.
   */
  function NewClient(token: TokenArgument, options: Option<ClientOptions>): (r: Result<UnbClient, TypeError>)
    ensures r.Success? <==> token.StringToken? && token.text != ""
    ensures r.Failure? ==> r.error == TypeError(TokenMessage)
    ensures r.Success? ==> r.value.token == token.text
    ensures r.Success? && options.Some? ==> r.value.options == options.value
    ensures r.Success? && options.None? ==>
      r.value.options.baseURL == "https://unbelievaboat.com/api" &&
      r.value.options.version == "v1" && r.value.options.maxRetries == 3
  {
    if token.NonStringToken? || token.text == "" then Failure(TypeError(TokenMessage))
    else Success(UnbClient(token.text, options.GetOr(DefaultOptions)))
  }

  /** The arguments of one `RequestHandler.request` call. */
  datatype RequestArgs = RequestArgs(m: Method, endpoint: string, body: Body, attempts: int)

  /** `_request(method, endpoint, body = {})`: passes its arguments on, starting at attempt 0. */
  function PrivateRequest(m: Method, endpoint: string, body: Option<Body>): (r: RequestArgs)
    ensures r.m == m && r.endpoint == endpoint && r.attempts == 0
    ensures body.Some? ==> r.body == body.value
    ensures body.None? ==> r.body == map[]
  {
    RequestArgs(m, endpoint, body.GetOr(map[]), 0)
  }

  const DefaultReason := "@chikoshidori/unb-api did this."

  /** The body sent when `editUserBalance` is called without data. */
  const DefaultBalanceData: Body := map["reason" := Text(DefaultReason)]

  function BalanceEndpoint(guildId: string, userId: string): string {
    "guilds/" + guildId + "/users/" + userId
  }

  /** `editUserBalance(guildId, userId, data?)`: a PATCH of the member's balance endpoint. */
  function EditUserBalance(guildId: string, userId: string, data: Option<Body>): (r: RequestArgs)
    ensures r.m == Patch && r.endpoint == BalanceEndpoint(guildId, userId) && r.attempts == 0
    ensures data.Some? ==> r.body == data.value
    ensures data.None? ==> r.body == DefaultBalanceData && r.body["reason"] == Text(DefaultReason)
  {
    PrivateRequest(Patch, BalanceEndpoint(guildId, userId), Some(data.GetOr(DefaultBalanceData)))
  }

  /**
   * Every guild member gets a bucket of its own: the balance route keys of
   * two members are equal exactly when guild and user agree (guild ids hold no '/').
   */
  lemma BalanceBucketsPerMember(g1: string, u1: string, g2: string, u2: string)
    requires '/' !in g1 && '/' !in g2
    ensures Routes.RouteKey(Patch, BalanceEndpoint(g1, u1)) == Routes.RouteKey(Patch, BalanceEndpoint(g2, u2))
        <==> g1 == g2 && u1 == u2
  {
    Routes.RouteKeyInjective(Patch, BalanceEndpoint(g1, u1), Patch, BalanceEndpoint(g2, u2));
    var prefix := "guilds/";
    var tail1, tail2 := "users/" + u1, "users/" + u2;
    assert BalanceEndpoint(g1, u1) == prefix + (g1 + "/" + tail1);
    assert BalanceEndpoint(g2, u2) == prefix + (g2 + "/" + tail2);
    if BalanceEndpoint(g1, u1) == BalanceEndpoint(g2, u2) {
      var e := BalanceEndpoint(g1, u1);
      assert e[|prefix|..] == g1 + "/" + tail1 && e[|prefix|..] == g2 + "/" + tail2;
      Routes.SplitAtFirstSlash(g1, tail1, g2, tail2);
      assert u1 == tail1[6..] && u2 == tail2[6..];
    }
  }

  /** With the default options, a balance edit fetches `https://unbelievaboat.com/api/v1/guilds/<g>/users/<u>`. */
  lemma DefaultBalanceUrl(token: string, guildId: string, userId: string)
    requires token != ""
    ensures NewClient(StringToken(token), None).Success?
    ensures var c := NewClient(StringToken(token), None).value;
      Routes.Url(c.options.baseURL, c.options.version, EditUserBalance(guildId, userId, None).endpoint)
        == "https://unbelievaboat.com/api/v1/guilds/" + guildId + "/users/" + userId
  {
  }
}
