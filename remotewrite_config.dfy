/** The remote-write publisher's settings and their check
    (internal/remotewrite/configuration.go). URL parsing and duration
    parsing belong to Go's `net/url` and `time` packages; they are passed in
    as functions: `scheme` gives the scheme of a URL or the parse error, and
    `duration` the nanoseconds a duration string denotes or the parse error. */
module RemoteWriteConfig {
  import opened Wrappers

  datatype BasicAuth = BasicAuth(username: string, password: string)

  /** `Configuration`. `topicPrefix` is the field the application's defaults
      fill in. */
  datatype Configuration = Configuration(
    enabled: bool,
    url: string,
    timeout: string,
    basicAuth: Option<BasicAuth>,
    bearerToken: string,
    headers: map<string, string>,
    topicPrefix: string)

  /** One second, in nanoseconds (`time.Second`). */
  const Second: int := 1_000_000_000
  const DefaultTimeout: int := 30 * Second

  /** What a valid configuration is, rule by rule. */
  predicate Acceptable(c: Configuration, scheme: string -> Result<string>, duration: string -> Result<int>)
  {
    !c.enabled ||
    (c.url != [] &&
     scheme(c.url).Ok? && (scheme(c.url).value == "http" || scheme(c.url).value == "https") &&
     (c.timeout != [] ==> duration(c.timeout).Ok?) &&
     !(c.basicAuth.Some? && c.bearerToken != []) &&
     (c.basicAuth.Some? ==> c.basicAuth.value.username != [] && c.basicAuth.value.password != []))
  }

  /** The URL rules hold: present, parseable, and http or https. */
  predicate Addressed(c: Configuration, scheme: string -> Result<string>)
  {
    c.url != [] && scheme(c.url).Ok? && scheme(c.url).value in {"http", "https"}
  }

  /** The timeout rule holds: absent, or a duration. */
  predicate Timed(c: Configuration, duration: string -> Result<int>)
  {
    c.timeout == [] || duration(c.timeout).Ok?
  }

  /** `Validate`: a disabled configuration passes; otherwise the rules are
      checked in order and the first one broken names the error. */
  function Validate(c: Configuration, scheme: string -> Result<string>, duration: string -> Result<int>): (r: Outcome<string>)
    ensures !c.enabled ==> r.Pass?
  {
    if !c.enabled then Pass
    else if c.url == [] then Fail("remoteWrite.url is required when enabled")
    else if scheme(c.url).Err? then Fail("remoteWrite.url is invalid: " + scheme(c.url).error)
    else if scheme(c.url).value != "http" && scheme(c.url).value != "https" then
      Fail("remoteWrite.url must use http or https scheme")
    else if c.timeout != [] && duration(c.timeout).Err? then
      Fail("remoteWrite.timeout is invalid: " + duration(c.timeout).error)
    else if c.basicAuth.Some? && c.bearerToken != [] then
      Fail("remoteWrite.basicAuth and remoteWrite.bearerToken are mutually exclusive")
    else if c.basicAuth.Some? && c.basicAuth.value.username == [] then
      Fail("remoteWrite.basicAuth.username is required when basicAuth is configured")
    else if c.basicAuth.Some? && c.basicAuth.value.password == [] then
      Fail("remoteWrite.basicAuth.password is required when basicAuth is configured")
    else Pass
  }

  /** The rules are checked in order and the first one broken names the
      error: first the URL rules. */
  lemma ValidateOrder(c: Configuration, scheme: string -> Result<string>, duration: string -> Result<int>)
    ensures c.enabled && c.url == [] ==> Validate(c, scheme, duration) == Fail("remoteWrite.url is required when enabled")
    ensures c.enabled && c.url != [] && scheme(c.url).Err? ==>
      Validate(c, scheme, duration) == Fail("remoteWrite.url is invalid: " + scheme(c.url).error)
    ensures c.enabled && c.url != [] && scheme(c.url).Ok? && scheme(c.url).value != "http" && scheme(c.url).value != "https" ==>
      Validate(c, scheme, duration) == Fail("remoteWrite.url must use http or https scheme")
  {
  }

  /** Once the URL rules hold, the timeout is checked, then the exclusive
      choice of authentication. */
  lemma ValidateOrderAfterUrl(c: Configuration, scheme: string -> Result<string>, duration: string -> Result<int>)
    ensures c.enabled && Addressed(c, scheme) && c.timeout != [] && duration(c.timeout).Err? ==>
      Validate(c, scheme, duration) == Fail("remoteWrite.timeout is invalid: " + duration(c.timeout).error)
    ensures c.enabled && Addressed(c, scheme) && Timed(c, duration) && c.basicAuth.Some? && c.bearerToken != [] ==>
      Validate(c, scheme, duration) == Fail("remoteWrite.basicAuth and remoteWrite.bearerToken are mutually exclusive")
  {
  }

  /** With basic authentication alone, its username is checked before its
      password. */
  lemma ValidateOrderCredentials(c: Configuration, scheme: string -> Result<string>, duration: string -> Result<int>)
    ensures c.enabled && Addressed(c, scheme) && Timed(c, duration) && c.basicAuth.Some? && c.bearerToken == [] ==>
      (c.basicAuth.value.username == [] ==> Validate(c, scheme, duration) == Fail("remoteWrite.basicAuth.username is required when basicAuth is configured")) &&
      (c.basicAuth.value.username != [] && c.basicAuth.value.password == [] ==>
         Validate(c, scheme, duration) == Fail("remoteWrite.basicAuth.password is required when basicAuth is configured"))
  {
  }

  /** A configuration passes exactly when it keeps every rule. */
  lemma ValidateAccepts(c: Configuration, scheme: string -> Result<string>, duration: string -> Result<int>)
    ensures Validate(c, scheme, duration).Pass? <==> Acceptable(c, scheme, duration)
  {
  }

  /** The topic prefix plays no part in validation. */
  lemma ValidateIgnoresPrefix(c: Configuration, prefix: string, scheme: string -> Result<string>, duration: string -> Result<int>)
    ensures Validate(c.(topicPrefix := prefix), scheme, duration) == Validate(c, scheme, duration)
  {
  }

  /** `GetTimeout`: thirty seconds unless a timeout is given and parses. */
  function GetTimeout(c: Configuration, duration: string -> Result<int>): (d: int)
    ensures c.timeout == [] || duration(c.timeout).Err? ==> d == DefaultTimeout
    ensures c.timeout != [] && duration(c.timeout).Ok? ==> d == duration(c.timeout).value
  {
    if c.timeout == [] then DefaultTimeout
    else if duration(c.timeout).Err? then DefaultTimeout
    else duration(c.timeout).value
  }

  /** After a passing `Validate` of an enabled configuration, the fallback in
      `GetTimeout` is only taken when no timeout was given. */
  lemma ValidatedTimeout(c: Configuration, scheme: string -> Result<string>, duration: string -> Result<int>)
    requires c.enabled && Validate(c, scheme, duration).Pass?
    ensures c.timeout != [] ==> GetTimeout(c, duration) == duration(c.timeout).value
    ensures c.timeout == [] ==> GetTimeout(c, duration) == DefaultTimeout
  {
  }

  /** The two ways of authenticating never both pass validation. */
  lemma AuthExclusive(c: Configuration, scheme: string -> Result<string>, duration: string -> Result<int>)
    requires c.enabled && Validate(c, scheme, duration).Pass?
    ensures c.basicAuth.None? || c.bearerToken == []
  {
  }
}
