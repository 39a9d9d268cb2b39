/**
 * Session: the per-client state that is filled lazily. Its metadata cache entry
 * and its adapter are each either absent or set; Initialize fills whichever is
 * absent, ClearMetadataCache empties both and evicts the entry, and the HTTP
 * connection is created on first use and dropped by Dispose.
 *
 * Locks and semaphores are left out: each method is its sequential effect. The
 * metadata request is I/O: its outcome is the `fetched` parameter.
 */
module SessionState {
  import opened Wrappers
  import opened Exceptions
  import opened Text
  import opened Protocol
  import opened ClientSettings
  import opened Metadata

  const NoUriMessage := "Unable to create client session with no URI specified."

  /** An HttpConnection, by whether it has been disposed. */
  class HttpConnection {
    const settings: ODataClientSettings
    var disposed: bool

    constructor (settings: ODataClientSettings)
      ensures this.settings == settings && !disposed
    {
      this.settings := settings;
      disposed := false;
    }

    method Dispose()
      modifies this`disposed
      ensures disposed
    {
      disposed := true;
    }
  }

  /** The constructor's check: a BaseUri whose AbsoluteUri is not empty (AbsoluteUri itself throws on a relative URI). */
  function ServiceUriCheck(baseUri: Option<Uri>): (outcome: Outcome<Exception>)
    ensures outcome.Pass? <==> baseUri.Some? && baseUri.value.isAbsolute && baseUri.value.text != []
    ensures baseUri.None? ==> outcome == Fail(InvalidOperation(NoUriMessage))
    ensures baseUri.Some? && baseUri.value.isAbsolute && baseUri.value.text == [] ==>
      outcome == Fail(InvalidOperation(NoUriMessage))
    ensures baseUri.Some? && !baseUri.value.isAbsolute ==> outcome == Fail(AbsoluteUri(baseUri.value).error)
  {
    if baseUri.None? then Fail(InvalidOperation(NoUriMessage))
    else
      var absolute := AbsoluteUri(baseUri.value);
      if absolute.Failure? then Fail(absolute.error)
      else if IsNullOrEmpty(Some(absolute.value)) then Fail(InvalidOperation(NoUriMessage))
      else Pass
  }

  /** Settings.BaseUri.AbsoluteUri: the key both static and fetched metadata are cached under. */
  function CacheKey(baseUri: Option<Uri>): (r: Result<string, Exception>)
    ensures r.Success? <==> baseUri.Some? && baseUri.value.isAbsolute
    ensures r.Success? ==> r.value == baseUri.value.text
    ensures baseUri.None? ==> r == Failure(NullReference)
  {
    if baseUri.None? then Failure(NullReference) else AbsoluteUri(baseUri.value)
  }

  /** ResolveMetadataAsync: the settings' document when it is not empty; only otherwise the fetched one. */
  function ResolveMetadata(metadataDocument: Option<string>, fetched: Result<string, Exception>): (r: Result<string, Exception>)
    ensures !IsNullOrEmpty(metadataDocument) ==> r == Success(metadataDocument.value)
    ensures IsNullOrEmpty(metadataDocument) ==> r == fetched
  {
    if !IsNullOrEmpty(metadataDocument) then Success(metadataDocument.value) else fetched
  }

  /** CreateMdc: the entry for a key and a resolved document, with the type cache of that key. */
  function CreateMdc(key: string, metadata: Result<string, Exception>, nameMatchResolver: object)
    : (r: Result<EdmMetadataCache, Exception>)
    ensures metadata.Failure? ==> r == Failure(metadata.error)
    ensures metadata.Success? ==> r == NewEdmMetadataCache(Some(key), Some(metadata.value), TypeCache(key, nameMatchResolver))
    ensures r.Success? ==> r.value.key == key && ValidEntry(r.value)
  {
    if metadata.Failure? then Failure(metadata.error)
    else NewEdmMetadataCache(Some(key), Some(metadata.value), TypeCache(key, nameMatchResolver))
  }

  class Session {
    const settings: ODataClientSettings
    var adapter: ODataAdapter?
    var httpConnection: HttpConnection?
    var metadataCache: Option<EdmMetadataCache>
    /** _metadataCacheFactory: null until the constructor assigns it. */
    var metadataCacheFactory: EdmMetadataCacheFactory?

    /** The object before its constructor body runs: only Settings is set. */
    constructor Allocate(settings: ODataClientSettings)
      ensures this.settings == settings
      ensures adapter == null && httpConnection == null && metadataCache.None? && metadataCacheFactory == null
    {
      this.settings := settings;
      adapter := null;
      httpConnection := null;
      metadataCache := None;
      metadataCacheFactory := null;
    }

    /** A constructed session has its cache factory, and an adapter only together with a metadata entry. */
    ghost predicate Valid()
      reads this
    {
      metadataCacheFactory != null && (adapter != null ==> metadataCache.Some?)
    }

    /** The Adapter getter: the adapter once set; else a new one from the metadata entry, which must be there. */
    method Adapter() returns (r: Result<ODataAdapter, Exception>)
      requires Valid()
      modifies this`adapter
      ensures Valid()
      ensures old(adapter) != null ==> r == Success(old(adapter)) && adapter == old(adapter)
      ensures old(adapter) == null && metadataCache.None? ==> r == Failure(NullReference) && adapter == null
      ensures old(adapter) == null && metadataCache.Some? ==>
        (r.Success? <==> LoadedAdapter(metadataCache.value, settings).Success?)
        && (r.Success? ==> fresh(r.value))
        && (r.Failure? ==> r.error == LoadedAdapter(metadataCache.value, settings).error && adapter == null)
      ensures old(adapter) == null && metadataCache.Some? && r.Success? ==>
        && r.value.adapterVersion == LoadedAdapter(metadataCache.value, settings).value.adapterVersion
        && r.value.defaultPayloadFormat == LoadedAdapter(metadataCache.value, settings).value.defaultPayloadFormat
      ensures r.Success? ==> adapter == r.value
    {
      if adapter == null {
        if metadataCache.None? {
          return Failure(NullReference);
        }
        var created := GetODataAdapter(metadataCache.value, settings);
        if created.Failure? {
          return Failure(created.error);
        }
        adapter := created.value;
      }
      return Success(adapter);
    }

    /**
     * The first stage of Initialize: the session's entry if it has one; else
     * the entry under Settings.BaseUri.AbsoluteUri, taken from the shared
     * dictionary when it is there and created by CreateMdc when it is not.
     */
    ghost function EntryStage(fetched: Result<string, Exception>): Result<EdmMetadataCache, Exception>
      requires metadataCacheFactory != null
      reads this, settings, settings.httpClient, metadataCacheFactory.instances
    {
      if metadataCache.Some? then Success(metadataCache.value)
      else
        var key := CacheKey(settings.BaseUri());
        if key.Failure? then Failure(key.error)
        else if key.value in metadataCacheFactory.instances.entries then Success(metadataCacheFactory.instances.entries[key.value])
        else CreateMdc(key.value, ResolveMetadata(settings.metadataDocument, fetched), settings.NameMatchResolver())
    }

    /** Whether Initialize goes through the factory's loader: no entry, a key, and nothing stored under it. */
    ghost predicate LoadsEntry()
      requires metadataCacheFactory != null
      reads this, settings, settings.httpClient, metadataCacheFactory.instances
    {
      && metadataCache.None?
      && CacheKey(settings.BaseUri()).Success?
      && CacheKey(settings.BaseUri()).value !in metadataCacheFactory.instances.entries
    }

    /**
     * Initialize: the metadata entry is loaded through the cache factory under
     * Settings.BaseUri.AbsoluteUri only if there is none, and the adapter
     * created only if there is none; a session that has both is left as it is.
     * The first failing stage (the key, the document, CreateMdc, the adapter
     * loader) gives the outcome, and the entries of other keys are untouched.
     */
    method Initialize(fetched: Result<string, Exception>) returns (outcome: Outcome<Exception>)
      requires Valid()
      modifies this`metadataCache, this`adapter, metadataCacheFactory.instances
      ensures Valid()
      ensures old(EntryStage(fetched)).Failure? ==>
        && outcome == Fail(old(EntryStage(fetched)).error)
        && metadataCache == old(metadataCache) && adapter == old(adapter)
      ensures old(EntryStage(fetched)).Success? ==> metadataCache == Some(old(EntryStage(fetched)).value)
      ensures old(LoadsEntry()) && metadataCache.Some? ==>
        metadataCacheFactory.instances.entries
        == old(metadataCacheFactory.instances.entries)[old(CacheKey(settings.BaseUri())).value := metadataCache.value]
      ensures !old(LoadsEntry()) || metadataCache.None? ==>
        metadataCacheFactory.instances.entries == old(metadataCacheFactory.instances.entries)
      ensures old(LoadsEntry()) ==> !metadataCacheFactory.instances.semaphoreTaken
      ensures !old(LoadsEntry()) ==> metadataCacheFactory.instances.semaphoreTaken == old(metadataCacheFactory.instances.semaphoreTaken)
      ensures old(adapter) != null ==> adapter == old(adapter)
      ensures old(EntryStage(fetched)).Success? && old(adapter) != null ==> outcome == Pass
      ensures old(EntryStage(fetched)).Success? && old(adapter) == null ==>
        (outcome.Pass? <==> LoadedAdapter(metadataCache.value, settings).Success?)
      ensures old(EntryStage(fetched)).Success? && old(adapter) == null && outcome.Pass? ==>
        && fresh(adapter)
        && adapter.adapterVersion == LoadedAdapter(metadataCache.value, settings).value.adapterVersion
        && adapter.defaultPayloadFormat == LoadedAdapter(metadataCache.value, settings).value.defaultPayloadFormat
      ensures old(EntryStage(fetched)).Success? && old(adapter) == null && outcome.Fail? ==>
        outcome.error == LoadedAdapter(metadataCache.value, settings).error && adapter == null
      ensures outcome.Pass? ==> metadataCache.Some? && adapter != null
      ensures old(metadataCacheFactory.instances.KeyedByOwnKey()) ==> metadataCacheFactory.instances.KeyedByOwnKey()
      ensures old(metadataCacheFactory.instances.KeyedByOwnKey()) && old(metadataCache).None? && metadataCache.Some? ==>
        old(CacheKey(settings.BaseUri())).Success? && metadataCache.value.key == old(CacheKey(settings.BaseUri())).value
    {
      if metadataCache.None? {
        var key := CacheKey(settings.BaseUri());
        if key.Failure? {
          return Fail(key.error);
        }
        var metadata := ResolveMetadata(settings.metadataDocument, fetched);
        var resolver := settings.NameMatchResolver();
        var loaded, _ := metadataCacheFactory.GetOrAddAsync(key.value, uri => CreateMdc(uri, metadata, resolver), None, None);
        if loaded.Failure? {
          return Fail(loaded.error);
        }
        metadataCache := Some(loaded.value);
      }
      if adapter == null {
        var created := GetODataAdapter(metadataCache.value, settings);
        if created.Failure? {
          return Fail(created.error);
        }
        adapter := created.value;
      }
      return Pass;
    }

    /** ClearMetadataCache: evict the entry's key from the factory and drop the entry and the adapter; nothing without an entry. */
    method ClearMetadataCache()
      requires Valid()
      modifies this`metadataCache, this`adapter, metadataCacheFactory.instances`entries
      ensures Valid()
      ensures old(metadataCache).Some? ==>
        metadataCache.None? && adapter == null
        && metadataCacheFactory.instances.entries == old(metadataCacheFactory.instances.entries) - {old(metadataCache).value.key}
      ensures old(metadataCache).None? ==>
        metadataCache.None? && adapter == old(adapter)
        && metadataCacheFactory.instances.entries == old(metadataCacheFactory.instances.entries)
    {
      if metadataCache.Some? {
        metadataCacheFactory.Clear(metadataCache.value.key);
        metadataCache := None;
        adapter := null;
      }
    }

    /** ResolveAdapterAsync: Initialize, then an Unspecified payload format becomes the adapter's default. */
    method ResolveAdapterAsync(fetched: Result<string, Exception>) returns (r: Result<ODataAdapter, Exception>)
      requires Valid()
      modifies this`metadataCache, this`adapter, metadataCacheFactory.instances, settings`payloadFormat
      ensures Valid()
      ensures r.Success? ==> adapter == r.value && metadataCache.Some?
      ensures r.Success? && old(settings.payloadFormat) == Unspecified ==> settings.payloadFormat == r.value.defaultPayloadFormat
      ensures !(r.Success? && old(settings.payloadFormat) == Unspecified) ==> settings.payloadFormat == old(settings.payloadFormat)
      ensures old(metadataCache).Some? && old(adapter) != null ==> r == Success(old(adapter))
      ensures old(EntryStage(fetched)).Failure? ==> r == Failure(old(EntryStage(fetched)).error)
      ensures old(EntryStage(fetched)).Success? ==> metadataCache == Some(old(EntryStage(fetched)).value)
      ensures old(EntryStage(fetched)).Success? && old(adapter) != null ==> r == Success(old(adapter))
      ensures old(EntryStage(fetched)).Success? && old(adapter) == null ==>
        (r.Success? <==> old(LoadedAdapter(EntryStage(fetched).value, settings)).Success?)
      ensures old(EntryStage(fetched)).Success? && old(adapter) == null && r.Success? ==>
        && fresh(r.value)
        && r.value.adapterVersion == old(LoadedAdapter(EntryStage(fetched).value, settings)).value.adapterVersion
        && r.value.defaultPayloadFormat == old(LoadedAdapter(EntryStage(fetched).value, settings)).value.defaultPayloadFormat
      ensures old(EntryStage(fetched)).Success? && old(adapter) == null && r.Failure? ==>
        r.error == old(LoadedAdapter(EntryStage(fetched).value, settings)).error
      ensures old(LoadsEntry()) && metadataCache.Some? ==>
        metadataCacheFactory.instances.entries
        == old(metadataCacheFactory.instances.entries)[old(CacheKey(settings.BaseUri())).value := metadataCache.value]
      ensures !old(LoadsEntry()) || metadataCache.None? ==>
        metadataCacheFactory.instances.entries == old(metadataCacheFactory.instances.entries)
    {
      var initialized := Initialize(fetched);
      if initialized.Fail? {
        return Failure(initialized.error);
      }
      if settings.payloadFormat == Unspecified {
        var current := Adapter();
        settings.payloadFormat := current.value.defaultPayloadFormat;
      }
      r := Adapter();
    }

    /** GetHttpConnection: the same connection until Dispose drops it. */
    method GetHttpConnection() returns (connection: HttpConnection)
      modifies this`httpConnection
      ensures old(httpConnection) != null ==> connection == old(httpConnection)
      ensures old(httpConnection) == null ==> fresh(connection) && connection.settings == settings && !connection.disposed
      ensures httpConnection == connection
    {
      if httpConnection == null {
        httpConnection := new HttpConnection(settings);
      }
      connection := httpConnection;
    }

    /** Dispose: the connection, if any, is disposed and dropped. */
    method Dispose()
      modifies this`httpConnection, httpConnection
      ensures httpConnection == null
      ensures old(httpConnection) != null ==> old(httpConnection).disposed
    {
      if httpConnection != null {
        httpConnection.Dispose();
        httpConnection := null;
      }
    }
  }

  /**
   * The Session constructor as written: the static metadata document is loaded
   * through _metadataCacheFactory before that field is assigned, so every
   * session given a metadata document fails with a NullReferenceException.
   */
  method FromSettings(settings: ODataClientSettings, cacheFactory: EdmMetadataCacheFactory?, instances: CacheInstances)
      returns (r: Result<Session, Exception>)
    ensures ServiceUriCheck(settings.BaseUri()).Fail? ==> r == Failure(ServiceUriCheck(settings.BaseUri()).error)
    ensures ServiceUriCheck(settings.BaseUri()).Pass? && !IsNullOrEmpty(settings.metadataDocument) ==> r == Failure(NullReference)
    ensures r.Success? <==> ServiceUriCheck(settings.BaseUri()).Pass? && IsNullOrEmpty(settings.metadataDocument)
    ensures r.Success? ==> (
      && fresh(r.value) && r.value.Valid() && r.value.settings == settings
      && r.value.metadataCache.None? && r.value.adapter == null && r.value.httpConnection == null
      && r.value.metadataCacheFactory.instances == (if cacheFactory != null then cacheFactory.instances else instances))
  {
    var check := ServiceUriCheck(settings.BaseUri());
    if check.Fail? {
      return Failure(check.error);
    }
    var session := new Session.Allocate(settings);
    if !IsNullOrEmpty(settings.metadataDocument) {
      if session.metadataCacheFactory == null {
        return Failure(NullReference);
      }
    }
    if cacheFactory != null {
      session.metadataCacheFactory := cacheFactory;
    } else {
      session.metadataCacheFactory := new EdmMetadataCacheFactory(instances);
    }
    return Success(session);
  }

  /**
   * The Session constructor with the cache factory assigned first: a static
   * metadata document is loaded at once through the factory's GetOrAdd under
   * Settings.BaseUri.AbsoluteUri, or the entry already stored there is reused.
   */
  method FromSettingsFixed(settings: ODataClientSettings, cacheFactory: EdmMetadataCacheFactory?, instances: CacheInstances)
      returns (r: Result<Session, Exception>)
    requires cacheFactory != null ==> cacheFactory.instances == instances
    modifies instances`entries
    ensures ServiceUriCheck(settings.BaseUri()).Fail? ==>
      r == Failure(ServiceUriCheck(settings.BaseUri()).error) && instances.entries == old(instances.entries)
    ensures ServiceUriCheck(settings.BaseUri()).Pass? && IsNullOrEmpty(settings.metadataDocument) ==>
      r.Success? && r.value.metadataCache.None? && instances.entries == old(instances.entries)
    ensures ServiceUriCheck(settings.BaseUri()).Pass? && !IsNullOrEmpty(settings.metadataDocument) ==>
      var key := settings.BaseUri().value.text;
      var created := CreateMdc(key, Success(settings.metadataDocument.value), settings.NameMatchResolver());
      && (key in old(instances.entries) ==> r.Success? && r.value.metadataCache == Some(old(instances.entries)[key]))
      && (key !in old(instances.entries) ==> (r.Success? <==> created.Success?))
      && (key !in old(instances.entries) && r.Success? ==> r.value.metadataCache == Some(created.value))
      && (r.Success? ==> key in instances.entries && r.value.metadataCache == Some(instances.entries[key]))
    ensures r.Success? ==> (
      && fresh(r.value) && r.value.Valid() && r.value.settings == settings
      && r.value.adapter == null && r.value.httpConnection == null
      && r.value.metadataCacheFactory.instances == instances)
    ensures old(instances.KeyedByOwnKey()) ==> instances.KeyedByOwnKey()
  {
    var check := ServiceUriCheck(settings.BaseUri());
    if check.Fail? {
      return Failure(check.error);
    }
    var session := new Session.Allocate(settings);
    if cacheFactory != null {
      session.metadataCacheFactory := cacheFactory;
    } else {
      session.metadataCacheFactory := new EdmMetadataCacheFactory(instances);
    }
    if !IsNullOrEmpty(settings.metadataDocument) {
      var key := settings.BaseUri().value.text;
      var metadata := settings.metadataDocument.value;
      var resolver := settings.NameMatchResolver();
      var loaded := session.metadataCacheFactory.GetOrAdd(key, uri => CreateMdc(uri, Success(metadata), resolver));
      if loaded.Failure? {
        return Failure(loaded.error);
      }
      session.metadataCache := Some(loaded.value);
    }
    return Success(session);
  }

  /** GetHttpConnection keeps its connection until Dispose, after which a new one is created. */
  method ConnectionRenewedAfterDispose(session: Session) returns (first: HttpConnection, again: HttpConnection, renewed: HttpConnection)
    modifies session`httpConnection, session.httpConnection
    ensures first == again && first.disposed
    ensures fresh(renewed) && renewed != first && !renewed.disposed
  {
    first := session.GetHttpConnection();
    again := session.GetHttpConnection();
    session.Dispose();
    renewed := session.GetHttpConnection();
  }
}
