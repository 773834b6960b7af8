/**
 * The apache receiver's factory (receiver/apachereceiver/factory.go): the
 * default configuration, the server name and port derived from the status
 * endpoint, and the creation of the metrics receiver.
 *
 * URL parsing is not part of this model: a `UrlParser` maps the endpoint to
 * the parsed URL's scheme, hostname and port, or to the parse error. The
 * scraper and the receiver built around it are recorded as plain values; the
 * errors the scraper helper may return are parameters.
 */
module ApacheFactory {
  import opened Wrappers

  const TypeStr: string := "apache"
  const HttpDefaultPort: string := "80"
  const HttpsDefaultPort: string := "443"

  /** time.Duration, in nanoseconds. */
  type Duration = nat

  const Second: Duration := 1_000_000_000

  /** The parts of the apache receiver's Config this factory reads or sets. */
  datatype ApacheConfig = ApacheConfig(
    receiverType: string,
    collectionInterval: Duration,
    endpoint: string,
    timeout: Duration)

  /** What the source reads from a successfully parsed URL: u.Scheme, u.Hostname(), u.Port(). */
  datatype Url = Url(scheme: string, hostname: string, port: string)

  /** url.Parse, reduced to its observable result. */
  type UrlParser = string -> Result<Url, string>

  /** The server name and port the scraper reports as resource attributes. */
  datatype ServerAddress = ServerAddress(serverName: string, port: string)

  datatype ApacheScraper = ApacheScraper(cfg: ApacheConfig, address: ServerAddress)

  datatype MetricsReceiver = MetricsReceiver(collectionInterval: Duration, scraper: ApacheScraper)

  // ---------------------------------------------------------------------
  // createDefaultConfig
  // ---------------------------------------------------------------------

  /** createDefaultConfig; the default endpoint is defined outside this file and is a parameter. */
  function CreateDefaultConfig(defaultEndpoint: string): (cfg: ApacheConfig)
    ensures cfg.receiverType == TypeStr
    ensures cfg.collectionInterval == 10 * Second
    ensures cfg.timeout == 10 * Second
    ensures cfg.endpoint == defaultEndpoint
  {
    ApacheConfig(TypeStr, 10 * Second, defaultEndpoint, 10 * Second)
  }

  // ---------------------------------------------------------------------
  // parseResourseAttributes
  // ---------------------------------------------------------------------

  /** The port of a parsed URL, defaulted from the scheme when the URL has none. */
  function DefaultPort(u: Url): (port: string)
    ensures u.port != "" ==> port == u.port
    ensures u.port == "" && u.scheme in SchemePorts ==> port == SchemePorts[u.scheme]
    ensures port == "" <==> u.port == "" && u.scheme !in SchemePorts
  {
    if u.port == "" then
      if u.scheme == "https" then HttpsDefaultPort
      else if u.scheme == "http" then HttpDefaultPort
      else ""
    else
      u.port
  }

  /** The ports the two known schemes imply. */
  const SchemePorts: map<string, string> := map["http" := HttpDefaultPort, "https" := HttpsDefaultPort]

  /**
   * An explicit port wins; otherwise https gives 443, http gives 80, and any
   * other scheme leaves the port empty.
   */
  lemma DefaultPortCases(u: Url)
    ensures u.port != "" ==> DefaultPort(u) == u.port
    ensures u.port == "" && u.scheme == "https" ==> DefaultPort(u) == "443"
    ensures u.port == "" && u.scheme == "http" ==> DefaultPort(u) == "80"
    ensures u.port == "" && u.scheme !in SchemePorts ==> DefaultPort(u) == ""
    ensures DefaultPort(u) == "" <==> u.port == "" && u.scheme !in SchemePorts
  {
  }

  /** Defaulting is idempotent: a URL that already carries the defaulted port keeps it. */
  lemma DefaultPortIdempotent(u: Url)
    ensures DefaultPort(u.(port := DefaultPort(u))) == DefaultPort(u)
  {
  }

  /** The scheme only matters when the URL has no port. */
  lemma SchemeIrrelevantWithPort(u: Url, scheme: string)
    requires u.port != ""
    ensures DefaultPort(u.(scheme := scheme)) == DefaultPort(u)
  {
  }

  /** How a Go call ends: it returns its results, or it dereferences a nil pointer. */
  datatype ParseOutcome = Returned(address: ServerAddress, err: Option<string>) | NilDereference

  /**
   * parseResourseAttributes as written. On a parse error url.Parse returns a
   * nil URL, and the `u.Hostname()` call that follows dereferences it before
   * the error can be returned.
   */
  function ParseResourceAttributesAsWritten(parsed: Result<Url, string>): (r: ParseOutcome)
    ensures r.Returned? <==> parsed.Success?
  {
    match parsed
    case Failure(_) => NilDereference
    case Success(u) => Returned(ServerAddress(u.hostname, DefaultPort(u)), None)
  }

  /** As written, the function never hands a parse error back to its caller. */
  lemma AsWrittenNeverReturnsParseError(parsed: Result<Url, string>)
    ensures ParseResourceAttributesAsWritten(parsed).Returned? ==> ParseResourceAttributesAsWritten(parsed).err.None?
    ensures parsed.Failure? ==> ParseResourceAttributesAsWritten(parsed).NilDereference?
  {
  }

  /**
   * parseResourseAttributes as evidently intended: the parse error is
   * returned, and otherwise the hostname and the defaulted port.
   */
  function ParseResourceAttributes(parsed: Result<Url, string>): (r: Result<ServerAddress, string>)
    ensures parsed.Failure? ==> r == Failure(parsed.error)
    ensures parsed.Success? ==> r.Success? && r.value.serverName == parsed.value.hostname
    ensures parsed.Success? && parsed.value.port != "" ==> r.Success? && r.value.port == parsed.value.port
    ensures r.Success? ==> r.value.port == DefaultPort(parsed.value)
  {
    match parsed
    case Failure(e) => Failure(e)
    case Success(u) => Success(ServerAddress(u.hostname, DefaultPort(u)))
  }

  /** On every successful parse the corrected and the as-written functions agree. */
  lemma CorrectedAgreesOnSuccess(parsed: Result<Url, string>)
    requires parsed.Success?
    ensures ParseResourceAttributesAsWritten(parsed) == Returned(ParseResourceAttributes(parsed).value, None)
  {
  }

  // ---------------------------------------------------------------------
  // createMetricsReceiver
  // ---------------------------------------------------------------------

  /**
   * createMetricsReceiver with the corrected parseResourseAttributes: a parse error is returned and no scraper is built;
   * otherwise the scraper gets the endpoint's server name and port, and the
   * errors of the scraper helper (`scraperErr`, `controllerErr`) are passed on.
   */
  function CreateMetricsReceiver(cfg: ApacheConfig, parse: UrlParser,
                                 scraperErr: Option<string>, controllerErr: Option<string>)
    : (r: Result<MetricsReceiver, string>)
    ensures parse(cfg.endpoint).Failure? ==> r == Failure(parse(cfg.endpoint).error)
    ensures parse(cfg.endpoint).Success? && scraperErr.Some? ==> r == Failure(scraperErr.value)
    ensures r.Success? <==> parse(cfg.endpoint).Success? && scraperErr.None? && controllerErr.None?
    ensures r.Success? ==>
      && r.value.scraper.address.serverName == parse(cfg.endpoint).value.hostname
      && r.value.scraper.address.port == DefaultPort(parse(cfg.endpoint).value)
      && r.value.scraper.cfg == cfg
      && r.value.collectionInterval == cfg.collectionInterval
  {
    match ParseResourceAttributes(parse(cfg.endpoint))
    case Failure(e) => Failure(e)
    case Success(address) =>
      if scraperErr.Some? then Failure(scraperErr.value)
      else if controllerErr.Some? then Failure(controllerErr.value)
      else Success(MetricsReceiver(cfg.collectionInterval, ApacheScraper(cfg, address)))
  }

  /** How creating the receiver ends as written: it returns its results, or it panics. */
  datatype ReceiverOutcome = Created(result: Result<MetricsReceiver, string>) | ReceiverPanics

  /**
   * createMetricsReceiver as written: parseResourseAttributes dereferences the
   * nil URL of a failed parse, so the call panics before its parse-error branch.
   */
  function CreateMetricsReceiverAsWritten(cfg: ApacheConfig, parse: UrlParser,
                                          scraperErr: Option<string>, controllerErr: Option<string>)
    : (r: ReceiverOutcome)
    ensures r.ReceiverPanics? <==> parse(cfg.endpoint).Failure?
    ensures parse(cfg.endpoint).Success? ==>
      r == Created(CreateMetricsReceiver(cfg, parse, scraperErr, controllerErr))
    ensures r.Created? && r.result.Failure? ==> Some(r.result.error) == scraperErr || Some(r.result.error) == controllerErr
  {
    match ParseResourceAttributesAsWritten(parse(cfg.endpoint))
    case NilDereference => ReceiverPanics
    case Returned(_, Some(e)) => Created(Failure(e))
    case Returned(address, None) =>
      if scraperErr.Some? then Created(Failure(scraperErr.value))
      else if controllerErr.Some? then Created(Failure(controllerErr.value))
      else Created(Success(MetricsReceiver(cfg.collectionInterval, ApacheScraper(cfg, address))))
  }
}
