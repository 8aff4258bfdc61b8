/** The SDK's service configuration record (package `aws`, type `Config`):
    twelve independently optional options, a shallow copy, and the layering
    of an override record onto a base record. */
module AwsConfig {
  import opened Wrappers

  /** Opaque references to objects of other packages. Only their identity
      matters here: a copy or a merge shares the object, it never clones it. */
  datatype CredentialsRef = CredentialsRef(id: nat)   // *credentials.Credentials
  datatype HttpClientRef = HttpClientRef(id: nat)     // *http.Client
  datatype WriterRef = WriterRef(id: nat)             // io.Writer

  /** The default number of retries; -1 defers to the service's own default. */
  const DEFAULT_RETRIES: int := -1

  /** A configuration record. None stands for a nil field. */
  datatype Config = Config(
    credentials: Option<CredentialsRef>,
    endpoint: Option<string>,
    region: Option<string>,
    disableSSL: Option<bool>,
    httpClient: Option<HttpClientRef>,
    logHTTPBody: Option<bool>,
    logLevel: Option<int>,
    logger: Option<WriterRef>,
    maxRetries: Option<int>,
    disableParamValidation: Option<bool>,
    disableComputeChecksums: Option<bool>,
    s3ForcePathStyle: Option<bool>)

  /** The names of the twelve fields, so that properties can be stated once
      for every field. */
  datatype Field =
    | CredentialsField
    | EndpointField
    | RegionField
    | DisableSSLField
    | HttpClientField
    | LogHTTPBodyField
    | LogLevelField
    | LoggerField
    | MaxRetriesField
    | DisableParamValidationField
    | DisableComputeChecksumsField
    | S3ForcePathStyleField

  /** The content of one field, tagged with its type. */
  datatype FieldValue =
    | CredentialsValue(credentials: Option<CredentialsRef>)
    | StringValue(str: Option<string>)
    | BoolValue(flag: Option<bool>)
    | HttpClientValue(client: Option<HttpClientRef>)
    | IntValue(num: Option<int>)
    | WriterValue(writer: Option<WriterRef>)

  /** Field `f` of `c`. */
  function Get(c: Config, f: Field): FieldValue {
    match f
    case CredentialsField => CredentialsValue(c.credentials)
    case EndpointField => StringValue(c.endpoint)
    case RegionField => StringValue(c.region)
    case DisableSSLField => BoolValue(c.disableSSL)
    case HttpClientField => HttpClientValue(c.httpClient)
    case LogHTTPBodyField => BoolValue(c.logHTTPBody)
    case LogLevelField => IntValue(c.logLevel)
    case LoggerField => WriterValue(c.logger)
    case MaxRetriesField => IntValue(c.maxRetries)
    case DisableParamValidationField => BoolValue(c.disableParamValidation)
    case DisableComputeChecksumsField => BoolValue(c.disableComputeChecksums)
    case S3ForcePathStyleField => BoolValue(c.s3ForcePathStyle)
  }

  /** Whether a field is non-nil. */
  predicate IsSet(v: FieldValue) {
    match v
    case CredentialsValue(o) => o.Some?
    case StringValue(o) => o.Some?
    case BoolValue(o) => o.Some?
    case HttpClientValue(o) => o.Some?
    case IntValue(o) => o.Some?
    case WriterValue(o) => o.Some?
  }

  /** A field that is present but holds its type's zero value. */
  predicate IsFalsy(v: FieldValue) {
    v == StringValue(Some("")) || v == BoolValue(Some(false)) || v == IntValue(Some(0))
  }

  /** Go's zero `Config{}`: every field nil. */
  function Empty(): (r: Config)
    ensures forall f: Field :: !IsSet(Get(r, f))
  {
    Config(None, None, None, None, None, None, None, None, None, None, None, None)
  }

  /** `Config.Copy`: a shallow copy. Every field, the three references
      included, is the receiver's own, so the referenced objects are shared. */
  function Copy(c: Config): (d: Config)
    ensures forall f: Field :: Get(d, f) == Get(c, f)
  {
    c
  }

  /** The per-field rule of `Config.Merge`: a nil override leaves a copy of
      the receiver; otherwise each field is the override's when it is non-nil
      and the receiver's when it is nil. */
  function Merged(c: Config, newcfg: Option<Config>): (r: Config)
    ensures newcfg.None? ==> r == c
  {
    match newcfg
    case None => Copy(c)
    case Some(n) =>
      c.(credentials := Layer(c.credentials, n.credentials),
         endpoint := Layer(c.endpoint, n.endpoint),
         region := Layer(c.region, n.region),
         disableSSL := Layer(c.disableSSL, n.disableSSL),
         httpClient := Layer(c.httpClient, n.httpClient),
         logHTTPBody := Layer(c.logHTTPBody, n.logHTTPBody),
         logLevel := Layer(c.logLevel, n.logLevel),
         logger := Layer(c.logger, n.logger),
         maxRetries := Layer(c.maxRetries, n.maxRetries),
         disableParamValidation := Layer(c.disableParamValidation, n.disableParamValidation),
         disableComputeChecksums := Layer(c.disableComputeChecksums, n.disableComputeChecksums),
         s3ForcePathStyle := Layer(c.s3ForcePathStyle, n.s3ForcePathStyle))
  }

  /** Twelve field values, each chosen by the per-field rule, make up
      `Merged(c, Some(n))`. */
  lemma MergedFromFields(c: Config, n: Config,
      credentials: Option<CredentialsRef>,
      endpoint: Option<string>,
      region: Option<string>,
      disableSSL: Option<bool>,
      httpClient: Option<HttpClientRef>,
      logHTTPBody: Option<bool>,
      logLevel: Option<int>,
      logger: Option<WriterRef>,
      maxRetries: Option<int>,
      disableParamValidation: Option<bool>,
      disableComputeChecksums: Option<bool>,
      s3ForcePathStyle: Option<bool>)
    requires credentials == if n.credentials.Some? then n.credentials else c.credentials
    requires endpoint == if n.endpoint.Some? then n.endpoint else c.endpoint
    requires region == if n.region.Some? then n.region else c.region
    requires disableSSL == if n.disableSSL.Some? then n.disableSSL else c.disableSSL
    requires httpClient == if n.httpClient.Some? then n.httpClient else c.httpClient
    requires logHTTPBody == if n.logHTTPBody.Some? then n.logHTTPBody else c.logHTTPBody
    requires logLevel == if n.logLevel.Some? then n.logLevel else c.logLevel
    requires logger == if n.logger.Some? then n.logger else c.logger
    requires maxRetries == if n.maxRetries.Some? then n.maxRetries else c.maxRetries
    requires disableParamValidation == if n.disableParamValidation.Some? then n.disableParamValidation else c.disableParamValidation
    requires disableComputeChecksums == if n.disableComputeChecksums.Some? then n.disableComputeChecksums else c.disableComputeChecksums
    requires s3ForcePathStyle == if n.s3ForcePathStyle.Some? then n.s3ForcePathStyle else c.s3ForcePathStyle
    ensures Config(credentials, endpoint, region, disableSSL, httpClient, logHTTPBody, logLevel, logger, maxRetries, disableParamValidation, disableComputeChecksums, s3ForcePathStyle) == Merged(c, Some(n))
  {
  }

  /** `Config.Merge`, as the source writes it: start from a copy of the
      receiver and overwrite it one non-nil override field at a time. The
      local copy is held field by field: twelve successive updates of one
      datatype variable make the proof too expensive for the solver, while
      separate variables keep it small. The receiver and the override are
      only read. */
  method Merge(c: Config, newcfg: Option<Config>) returns (cfg: Config)
    ensures cfg == Merged(c, newcfg)
  {
    cfg := Copy(c);
    if newcfg.None? {
      return;
    }
    var n := newcfg.value;
    var credentials, endpoint, region, disableSSL, httpClient, logHTTPBody, logLevel, logger, maxRetries, disableParamValidation, disableComputeChecksums, s3ForcePathStyle :=
      cfg.credentials, cfg.endpoint, cfg.region, cfg.disableSSL, cfg.httpClient, cfg.logHTTPBody, cfg.logLevel, cfg.logger, cfg.maxRetries, cfg.disableParamValidation, cfg.disableComputeChecksums, cfg.s3ForcePathStyle;
    if n.credentials.Some? {
      credentials := n.credentials;
    }
    if n.endpoint.Some? {
      endpoint := n.endpoint;
    }
    if n.region.Some? {
      region := n.region;
    }
    if n.disableSSL.Some? {
      disableSSL := n.disableSSL;
    }
    if n.httpClient.Some? {
      httpClient := n.httpClient;
    }
    if n.logHTTPBody.Some? {
      logHTTPBody := n.logHTTPBody;
    }
    if n.logLevel.Some? {
      logLevel := n.logLevel;
    }
    if n.logger.Some? {
      logger := n.logger;
    }
    if n.maxRetries.Some? {
      maxRetries := n.maxRetries;
    }
    if n.disableParamValidation.Some? {
      disableParamValidation := n.disableParamValidation;
    }
    if n.disableComputeChecksums.Some? {
      disableComputeChecksums := n.disableComputeChecksums;
    }
    if n.s3ForcePathStyle.Some? {
      s3ForcePathStyle := n.s3ForcePathStyle;
    }
    MergedFromFields(c, n, credentials, endpoint, region, disableSSL, httpClient, logHTTPBody, logLevel, logger, maxRetries, disableParamValidation, disableComputeChecksums, s3ForcePathStyle);
    cfg := Config(credentials, endpoint, region, disableSSL, httpClient, logHTTPBody, logLevel, logger, maxRetries, disableParamValidation, disableComputeChecksums, s3ForcePathStyle);
  }

  /** `DefaultConfig`, with what the source obtains from its environment
      passed in: the value of AWS_REGION (empty when unset), the default
      credential chain, the default HTTP client and standard output. */
  function DefaultConfig(region: string, chain: CredentialsRef, client: HttpClientRef, stdout: WriterRef): (r: Config)
    ensures forall f: Field :: IsSet(Get(r, f))
    ensures r.region == Some(region)
    ensures r.credentials == Some(chain) && r.httpClient == Some(client) && r.logger == Some(stdout)
    ensures r.endpoint == Some("") && r.logLevel == Some(0) && r.maxRetries == Some(DEFAULT_RETRIES)
    ensures forall f: Field :: Get(r, f).BoolValue? ==> Get(r, f) == BoolValue(Some(false))
  {
    Config(
      credentials := Some(chain),
      endpoint := Some(""),
      region := Some(region),
      disableSSL := Some(false),
      httpClient := Some(client),
      logHTTPBody := Some(false),
      logLevel := Some(0),
      logger := Some(stdout),
      maxRetries := Some(DEFAULT_RETRIES),
      disableParamValidation := Some(false),
      disableComputeChecksums := Some(false),
      s3ForcePathStyle := Some(false))
  }
}
