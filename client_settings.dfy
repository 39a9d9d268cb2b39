/**
 * ODataClientSettings: the configuration a client and its session read. The
 * interesting behaviour is the BaseUri property, which combines an HttpClient's
 * BaseAddress with a stored relative URI and refuses an absolute one when a
 * BaseAddress exists, the argument checks of the HttpClient constructor, the
 * defaulting of NameMatchResolver and AdapterFactory, and what the
 * copy-from-session constructor copies.
 *
 * A URI is modelled by whether it is absolute and its text; the System.Uri
 * constructor that resolves a relative URI against a base is a function the
 * settings are given (Platform.combine), as are the built-in resolver and
 * adapter factory the settings fall back to.
 */
module ClientSettings {
  import opened Wrappers
  import opened Exceptions
  import opened Protocol

  /** A System.Uri: absolute or relative, and its text. */
  datatype Uri = Uri(isAbsolute: bool, text: string)

  /** Uri.AbsoluteUri, which a relative URI does not support. */
  function AbsoluteUri(u: Uri): (r: Result<string, Exception>)
    ensures r.Success? <==> u.isAbsolute
    ensures r.Success? ==> r.value == u.text
  {
    if u.isAbsolute then Success(u.text)
    else Failure(InvalidOperation("This operation is not supported for a relative URI."))
  }

  /** The part of System.Net.Http.HttpClient the settings read. */
  class HttpClient {
    var baseAddress: Option<Uri>

    constructor (baseAddress: Option<Uri>)
      ensures this.baseAddress == baseAddress
    {
      this.baseAddress := baseAddress;
    }
  }

  /** The ITypeCache TypeCaches hands out for a service URI and a name resolver. */
  datatype TypeCache = TypeCache(uri: string, nameMatchResolver: object)

  /** What an adapter loader produces: the adapter's protocol family and its default payload format. */
  datatype AdapterDescription = AdapterDescription(adapterVersion: AdapterVersion, defaultPayloadFormat: PayloadFormat)

  /** IODataAdapterFactory, by the loader CreateAdapterLoader returns for a metadata document and a type cache. */
  datatype AdapterFactory = AdapterFactory(createAdapterLoader: (string, TypeCache) -> Result<AdapterDescription, Exception>)

  /** What the settings take from the platform: Uri resolution and the built-in resolver and adapter factory. */
  datatype Platform = Platform(
    /** new Uri(baseUri, relativeUri) */
    combine: (Uri, Uri) -> Uri,
    defaultNameMatchResolver: object,
    defaultAdapterFactory: AdapterFactory)

  /** BatchPayloadUriOption. */
  datatype BatchPayloadUriOption = AbsoluteUriOption | AbsoluteUriUsingHostHeader | RelativeUriOption

  /** ValidationKinds.All: every flag set (~0). */
  const ValidationKindsAll := -1

  /** The BaseUri getter over a client's BaseAddress and the stored URI. */
  function ResolvedBaseUri(baseAddress: Option<Uri>, stored: Option<Uri>, combine: (Uri, Uri) -> Uri): (r: Option<Uri>)
    ensures baseAddress.None? ==> r == stored
    ensures baseAddress.Some? && stored.None? ==> r == baseAddress
    ensures baseAddress.Some? && stored.Some? ==> r == Some(combine(baseAddress.value, stored.value))
  {
    if baseAddress.Some? then
      if stored.Some? then Some(combine(baseAddress.value, stored.value)) else baseAddress
    else stored
  }

  /**
   * Resolving the resolved URI again changes nothing when the BaseAddress is
   * absolute and resolution keeps absolute URIs and yields absolute ones from
   * an absolute base, as System.Uri's does.
   */
  lemma ResolveTwice(baseAddress: Option<Uri>, stored: Option<Uri>, combine: (Uri, Uri) -> Uri)
    requires baseAddress.Some? ==> baseAddress.value.isAbsolute
    requires forall b: Uri, u: Uri :: u.isAbsolute ==> combine(b, u) == u
    requires forall b: Uri, u: Uri :: b.isAbsolute ==> combine(b, u).isAbsolute
    ensures ResolvedBaseUri(baseAddress, ResolvedBaseUri(baseAddress, stored, combine), combine)
         == ResolvedBaseUri(baseAddress, stored, combine)
  {
    if baseAddress.Some? {
      var b := baseAddress.value;
      var once := ResolvedBaseUri(baseAddress, stored, combine);
      assert once.value.isAbsolute by {
        if stored.Some? {
          assert combine(b, stored.value).isAbsolute;
        }
      }
      assert combine(b, once.value) == once.value;
    }
  }

  class ODataClientSettings {
    const platform: Platform
    var httpClient: HttpClient?
    /** _baseOrRelativeUri. */
    var baseOrRelativeUri: Option<Uri>
    var credentials: object?
    var payloadFormat: PayloadFormat
    /** RequestTimeout, in ticks. */
    var requestTimeout: int
    var includeAnnotationsInResults: bool
    var ignoreResourceNotFoundException: bool
    var ignoreUnmappedProperties: bool
    /** PreferredUpdateMethod, TraceFilter, WebRequestExceptionMessageSource: enum values. */
    var preferredUpdateMethod: int
    var metadataDocument: Option<string>
    var renewHttpConnection: bool
    var unqualifiedNameCall: bool
    var enumPrefixFree: bool
    /** _nameMatchResolver and _adapterFactory: the assigned values, if any. */
    var nameMatchResolver: Option<object>
    var adapterFactory: Option<AdapterFactory>
    /** The callbacks, by reference. */
    var onCreateMessageHandler: object?
    var onApplyClientHandler: object?
    var requestExecutor: object?
    var beforeRequest: object?
    var beforeRequestAsync: object?
    var afterResponse: object?
    var afterResponseAsync: object?
    var onTrace: object?
    var traceFilter: int
    var useAbsoluteReferenceUris: bool
    var readUntypedAsString: bool
    var batchPayloadUriOption: BatchPayloadUriOption
    var webRequestExceptionMessageSource: int
    var validations: int

    /**
     * The property initialisers, then the HttpClient, the stored BaseUri and
     * the Credentials the public constructors assign.
     */
    constructor Init(platform: Platform, httpClient: HttpClient?, baseOrRelativeUri: Option<Uri>, credentials: object?)
      ensures this.platform == platform && Defaults()
      ensures this.httpClient == httpClient && this.baseOrRelativeUri == baseOrRelativeUri && this.credentials == credentials
    {
      this.platform := platform;
      this.httpClient := httpClient;
      this.baseOrRelativeUri := baseOrRelativeUri;
      this.credentials := credentials;
      payloadFormat := Unspecified;
      requestTimeout := 0;
      includeAnnotationsInResults := false;
      ignoreResourceNotFoundException := false;
      ignoreUnmappedProperties := false;
      preferredUpdateMethod := 0;
      metadataDocument := None;
      renewHttpConnection := false;
      unqualifiedNameCall := false;
      enumPrefixFree := false;
      nameMatchResolver := None;
      adapterFactory := None;
      onCreateMessageHandler := null;
      onApplyClientHandler := null;
      requestExecutor := null;
      beforeRequest := null;
      beforeRequestAsync := null;
      afterResponse := null;
      afterResponseAsync := null;
      onTrace := null;
      traceFilter := 0;
      useAbsoluteReferenceUris := false;
      readUntypedAsString := true;
      batchPayloadUriOption := AbsoluteUriOption;
      webRequestExceptionMessageSource := 0;
      validations := ValidationKindsAll;
    }

    /** The defaults of every property other than HttpClient, BaseUri and Credentials. */
    ghost predicate Defaults()
      reads this
    {
      && payloadFormat == Unspecified && requestTimeout == 0
      && !includeAnnotationsInResults && !ignoreResourceNotFoundException && !ignoreUnmappedProperties
      && preferredUpdateMethod == 0 && metadataDocument.None?
      && !renewHttpConnection && !unqualifiedNameCall && !enumPrefixFree
      && nameMatchResolver.None? && adapterFactory.None?
      && onCreateMessageHandler == null && onApplyClientHandler == null && requestExecutor == null
      && beforeRequest == null && beforeRequestAsync == null && afterResponse == null && afterResponseAsync == null
      && onTrace == null && traceFilter == 0 && !useAbsoluteReferenceUris
      && readUntypedAsString && batchPayloadUriOption == AbsoluteUriOption
      && webRequestExceptionMessageSource == 0 && validations == ValidationKindsAll
    }

    /**
     * The copy-from-session constructor: every listed setting is read from the
     * session's settings. BaseUri is assigned through its setter before
     * HttpClient, so the resolved URI is stored, and Validations is not copied.
     */
    constructor FromSession(settings: ODataClientSettings)
      ensures platform == settings.platform
      ensures baseOrRelativeUri == settings.BaseUri() && httpClient == settings.httpClient
      ensures credentials == settings.credentials && payloadFormat == settings.payloadFormat
      ensures requestTimeout == settings.requestTimeout
      ensures includeAnnotationsInResults == settings.includeAnnotationsInResults
      ensures ignoreResourceNotFoundException == settings.ignoreResourceNotFoundException
      ensures ignoreUnmappedProperties == settings.ignoreUnmappedProperties
      ensures preferredUpdateMethod == settings.preferredUpdateMethod && metadataDocument == settings.metadataDocument
      ensures renewHttpConnection == settings.renewHttpConnection && unqualifiedNameCall == settings.unqualifiedNameCall
      ensures enumPrefixFree == settings.enumPrefixFree
      ensures nameMatchResolver == Some(settings.NameMatchResolver()) && adapterFactory == Some(settings.AdapterFactory())
      ensures onCreateMessageHandler == settings.onCreateMessageHandler && onApplyClientHandler == settings.onApplyClientHandler
      ensures requestExecutor == settings.requestExecutor
      ensures beforeRequest == settings.beforeRequest && beforeRequestAsync == settings.beforeRequestAsync
      ensures afterResponse == settings.afterResponse && afterResponseAsync == settings.afterResponseAsync
      ensures onTrace == settings.onTrace && traceFilter == settings.traceFilter
      ensures useAbsoluteReferenceUris == settings.useAbsoluteReferenceUris
      ensures readUntypedAsString == settings.readUntypedAsString
      ensures webRequestExceptionMessageSource == settings.webRequestExceptionMessageSource
      ensures batchPayloadUriOption == settings.batchPayloadUriOption
      ensures validations == ValidationKindsAll
    {
      platform := settings.platform;
      baseOrRelativeUri := settings.BaseUri();
      credentials := settings.credentials;
      payloadFormat := settings.payloadFormat;
      requestTimeout := settings.requestTimeout;
      includeAnnotationsInResults := settings.includeAnnotationsInResults;
      ignoreResourceNotFoundException := settings.ignoreResourceNotFoundException;
      ignoreUnmappedProperties := settings.ignoreUnmappedProperties;
      preferredUpdateMethod := settings.preferredUpdateMethod;
      metadataDocument := settings.metadataDocument;
      renewHttpConnection := settings.renewHttpConnection;
      unqualifiedNameCall := settings.unqualifiedNameCall;
      enumPrefixFree := settings.enumPrefixFree;
      nameMatchResolver := Some(settings.NameMatchResolver());
      adapterFactory := Some(settings.AdapterFactory());
      onCreateMessageHandler := settings.onCreateMessageHandler;
      onApplyClientHandler := settings.onApplyClientHandler;
      httpClient := settings.httpClient;
      requestExecutor := settings.requestExecutor;
      beforeRequest := settings.beforeRequest;
      beforeRequestAsync := settings.beforeRequestAsync;
      afterResponse := settings.afterResponse;
      afterResponseAsync := settings.afterResponseAsync;
      onTrace := settings.onTrace;
      traceFilter := settings.traceFilter;
      useAbsoluteReferenceUris := settings.useAbsoluteReferenceUris;
      readUntypedAsString := settings.readUntypedAsString;
      webRequestExceptionMessageSource := settings.webRequestExceptionMessageSource;
      batchPayloadUriOption := settings.batchPayloadUriOption;
      validations := ValidationKindsAll;
    }

    /** The BaseAddress of the HttpClient, or null when there is no client. */
    function BaseAddress(): Option<Uri>
      reads this, httpClient
    {
      if httpClient != null then httpClient.baseAddress else None
    }

    /** The BaseUri getter: the stored URI resolved against the client's BaseAddress when there is one. */
    function BaseUri(): (r: Option<Uri>)
      reads this, httpClient
      ensures r == ResolvedBaseUri(BaseAddress(), baseOrRelativeUri, platform.combine)
    {
      if httpClient != null && httpClient.baseAddress.Some? then
        if baseOrRelativeUri.Some? then Some(platform.combine(httpClient.baseAddress.value, baseOrRelativeUri.value))
        else httpClient.baseAddress
      else baseOrRelativeUri
    }

    /** The BaseUri setter: an absolute URI is refused when the client has a BaseAddress; anything else is stored. */
    method SetBaseUri(value: Option<Uri>) returns (outcome: Outcome<Exception>)
      modifies this`baseOrRelativeUri
      ensures outcome.Fail? <==> value.Some? && value.value.isAbsolute && BaseAddress().Some?
      ensures outcome.Fail? ==>
        outcome.error == InvalidOperation("Unable to set BaseUri when BaseAddress is specified on HttpClient.")
        && baseOrRelativeUri == old(baseOrRelativeUri)
      ensures outcome.Pass? ==> baseOrRelativeUri == value
    {
      if value.Some? && value.value.isAbsolute && httpClient != null && httpClient.baseAddress.Some? {
        return Fail(InvalidOperation("Unable to set BaseUri when BaseAddress is specified on HttpClient."));
      }
      baseOrRelativeUri := value;
      return Pass;
    }

    /** The NameMatchResolver getter: the assigned resolver, else the built-in one. */
    function NameMatchResolver(): (resolver: object)
      reads this
      ensures nameMatchResolver.Some? ==> resolver == nameMatchResolver.value
      ensures nameMatchResolver.None? ==> resolver == platform.defaultNameMatchResolver
    {
      if nameMatchResolver.Some? then nameMatchResolver.value else platform.defaultNameMatchResolver
    }

    method SetNameMatchResolver(resolver: object)
      modifies this`nameMatchResolver
      ensures nameMatchResolver == Some(resolver) && NameMatchResolver() == resolver
    {
      nameMatchResolver := Some(resolver);
    }

    /** The AdapterFactory getter: the assigned factory, else the built-in one. */
    function AdapterFactory(): (factory: AdapterFactory)
      reads this
      ensures adapterFactory.Some? ==> factory == adapterFactory.value
      ensures adapterFactory.None? ==> factory == platform.defaultAdapterFactory
    {
      if adapterFactory.Some? then adapterFactory.value else platform.defaultAdapterFactory
    }

    method SetAdapterFactory(factory: AdapterFactory)
      modifies this`adapterFactory
      ensures adapterFactory == Some(factory) && AdapterFactory() == factory
    {
      adapterFactory := Some(factory);
    }

    /** The TypeCache getter: refused without a BaseUri, else the cache of its absolute URI. */
    function TypeCacheOf(): (r: Result<TypeCache, Exception>)
      reads this, httpClient
      ensures BaseUri().None? ==> r == Failure(InvalidOperation("Assign BaseUri before accessing TypeCache"))
      ensures r.Success? <==> BaseUri().Some? && BaseUri().value.isAbsolute
      ensures r.Success? ==> r.value == TypeCache(BaseUri().value.text, NameMatchResolver())
    {
      var baseUri := BaseUri();
      if baseUri.None? then Failure(InvalidOperation("Assign BaseUri before accessing TypeCache"))
      else
        var absolute := AbsoluteUri(baseUri.value);
        if absolute.Failure? then Failure(absolute.error)
        else Success(TypeCache(absolute.value, NameMatchResolver()))
    }
  }

  /** The parameterless constructor: every property at its default, no HttpClient, no BaseUri. */
  method DefaultSettings(platform: Platform) returns (settings: ODataClientSettings)
    ensures fresh(settings) && settings.platform == platform && settings.Defaults()
    ensures settings.httpClient == null && settings.BaseUri().None? && settings.credentials == null
  {
    settings := new ODataClientSettings.Init(platform, null, None, null);
  }

  /** The constructor from a Uri: without an HttpClient the assignment of BaseUri cannot be refused. */
  method SettingsWithBaseUri(platform: Platform, baseUri: Option<Uri>, credentials: object?) returns (settings: ODataClientSettings)
    ensures fresh(settings) && settings.platform == platform && settings.Defaults()
    ensures settings.httpClient == null && settings.BaseUri() == baseUri && settings.credentials == credentials
  {
    settings := new ODataClientSettings.Init(platform, null, None, credentials);
    var stored := settings.SetBaseUri(baseUri);
  }

  /**
   * The constructor from an HttpClient and an optional relative URI, with its
   * argument checks in order: a null client, a relative BaseAddress, an
   * absolute relativeUri, and a relativeUri without a BaseAddress.
   */
  method FromHttpClient(platform: Platform, httpClient: HttpClient?, relativeUri: Option<Uri>, credentials: object?)
      returns (r: Result<ODataClientSettings, Exception>)
    ensures httpClient == null ==> r == Failure(ArgumentNull("httpClient"))
    ensures httpClient != null && httpClient.baseAddress.Some? && !httpClient.baseAddress.value.isAbsolute ==>
      r == Failure(Argument("HttpClient BaseAddress must be an absolute URI", "httpClient"))
    ensures httpClient != null && !(httpClient.baseAddress.Some? && !httpClient.baseAddress.value.isAbsolute)
            && relativeUri.Some? && relativeUri.value.isAbsolute ==>
      r == Failure(Argument("Must be a relative URI", "relativeUri"))
    ensures httpClient != null && httpClient.baseAddress.None? && relativeUri.Some? && !relativeUri.value.isAbsolute ==>
      r == Failure(Argument("Must not specify relative URI when HttpClient has no BaseAddress", "relativeUri"))
    ensures r.Success? <==> (
      && httpClient != null
      && (httpClient.baseAddress.Some? ==> httpClient.baseAddress.value.isAbsolute)
      && (relativeUri.Some? ==> !relativeUri.value.isAbsolute && httpClient.baseAddress.Some?))
    ensures r.Success? ==> (
      && fresh(r.value) && r.value.platform == platform && r.value.Defaults()
      && r.value.httpClient == httpClient && r.value.baseOrRelativeUri == relativeUri
      && r.value.credentials == credentials
      && r.value.BaseUri() == ResolvedBaseUri(httpClient.baseAddress, relativeUri, platform.combine))
  {
    if httpClient == null {
      return Failure(ArgumentNull("httpClient"));
    }
    if httpClient.baseAddress.Some? && !httpClient.baseAddress.value.isAbsolute {
      return Failure(Argument("HttpClient BaseAddress must be an absolute URI", "httpClient"));
    }
    if relativeUri.Some? && relativeUri.value.isAbsolute {
      return Failure(Argument("Must be a relative URI", "relativeUri"));
    }
    if httpClient.baseAddress.None? && relativeUri.Some? {
      return Failure(Argument("Must not specify relative URI when HttpClient has no BaseAddress", "relativeUri"));
    }
    var settings := new ODataClientSettings.Init(platform, httpClient, relativeUri, credentials);
    return Success(settings);
  }

  /**
   * A copy made from a session's settings reports the same BaseUri as the
   * original, given System.Uri's resolution rules and an absolute BaseAddress:
   * the resolved URI it stores resolves to itself.
   */
  method CopyKeepsBaseUri(settings: ODataClientSettings) returns (copy: ODataClientSettings)
    requires settings.BaseAddress().Some? ==> settings.BaseAddress().value.isAbsolute
    requires forall b: Uri, u: Uri :: u.isAbsolute ==> settings.platform.combine(b, u) == u
    requires forall b: Uri, u: Uri :: b.isAbsolute ==> settings.platform.combine(b, u).isAbsolute
    ensures fresh(copy) && copy.BaseUri() == settings.BaseUri()
  {
    copy := new ODataClientSettings.FromSession(settings);
    ResolveTwice(settings.BaseAddress(), settings.baseOrRelativeUri, settings.platform.combine);
  }
}
