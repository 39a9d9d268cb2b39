/**
 * The metadata cache: EdmMetadataCache, a validated entry holding a service's
 * metadata document under its key, and EdmMetadataCacheFactory, whose
 * process-wide dictionary of entries every factory instance shares.
 *
 * The dictionary is a static field in the program; here it is one
 * CacheInstances object that every factory is built over. Of concurrent
 * callers only their effect on the entry being loaded is modelled: what another
 * caller stores under the same key while GetOrAddAsync waits is a parameter.
 */
module Metadata {
  import opened Wrappers
  import opened Exceptions
  import opened Text
  import opened Protocol
  import opened ClientSettings

  /** An EdmMetadataCache: its key, its metadata document and the type cache it loads adapters with. */
  datatype EdmMetadataCache = EdmMetadataCache(key: string, metadataDocument: string, typeCache: TypeCache)

  /** What the constructor guarantees of every entry: neither key nor document is blank. */
  predicate ValidEntry(c: EdmMetadataCache)
  {
    !IsNullOrWhiteSpace(Some(c.key)) && !IsNullOrWhiteSpace(Some(c.metadataDocument))
  }

  /** The EdmMetadataCache constructor: a blank key is refused first, then a blank document. */
  function NewEdmMetadataCache(key: Option<string>, metadataDocument: Option<string>, typeCache: TypeCache)
    : (r: Result<EdmMetadataCache, Exception>)
    ensures IsNullOrWhiteSpace(key) ==> r == Failure(ArgumentNull("key"))
    ensures !IsNullOrWhiteSpace(key) && IsNullOrWhiteSpace(metadataDocument) ==> r == Failure(ArgumentNull("metadataDocument"))
    ensures r.Success? <==> !IsNullOrWhiteSpace(key) && !IsNullOrWhiteSpace(metadataDocument)
    ensures r.Success? ==>
      r.value.key == key.value && r.value.metadataDocument == metadataDocument.value && r.value.typeCache == typeCache
  {
    if IsNullOrWhiteSpace(key) then Failure(ArgumentNull("key"))
    else if IsNullOrWhiteSpace(metadataDocument) then Failure(ArgumentNull("metadataDocument"))
    else Success(EdmMetadataCache(key.value, metadataDocument.value, typeCache))
  }

  /** Exactly the valid entries are built by the constructor from their own Key and MetadataDocument. */
  lemma EntryRebuilds(c: EdmMetadataCache)
    ensures NewEdmMetadataCache(Some(c.key), Some(c.metadataDocument), c.typeCache) == Success(c) <==> ValidEntry(c)
    ensures forall k, d :: NewEdmMetadataCache(k, d, c.typeCache).Success? ==> ValidEntry(NewEdmMetadataCache(k, d, c.typeCache).value)
  {
  }

  /** An IODataAdapter, by what the session reads of it. */
  class ODataAdapter {
    const adapterVersion: AdapterVersion
    const defaultPayloadFormat: PayloadFormat

    constructor (description: AdapterDescription)
      ensures adapterVersion == description.adapterVersion && defaultPayloadFormat == description.defaultPayloadFormat
    {
      adapterVersion := description.adapterVersion;
      defaultPayloadFormat := description.defaultPayloadFormat;
    }
  }

  /** What the loader the settings' AdapterFactory gives for an entry's document and type cache yields. */
  function LoadedAdapter(c: EdmMetadataCache, settings: ODataClientSettings): Result<AdapterDescription, Exception>
    reads settings
  {
    settings.AdapterFactory().createAdapterLoader(c.metadataDocument, c.typeCache)
  }

  /**
   * GetODataAdapter: a new adapter from the loader of the session's
   * AdapterFactory, on every call; nothing is cached in the entry.
   */
  method GetODataAdapter(c: EdmMetadataCache, settings: ODataClientSettings) returns (r: Result<ODataAdapter, Exception>)
    ensures r.Success? <==> LoadedAdapter(c, settings).Success?
    ensures r.Success? ==> fresh(r.value)
    ensures r.Success? ==> r.value.adapterVersion == LoadedAdapter(c, settings).value.adapterVersion
    ensures r.Success? ==> r.value.defaultPayloadFormat == LoadedAdapter(c, settings).value.defaultPayloadFormat
    ensures r.Failure? ==> r.error == LoadedAdapter(c, settings).error
  {
    var loaded := settings.AdapterFactory().createAdapterLoader(c.metadataDocument, c.typeCache);
    if loaded.Failure? {
      return Failure(loaded.error);
    }
    var adapter := new ODataAdapter(loaded.value);
    return Success(adapter);
  }

  /** The static _instances dictionary. */
  class CacheInstances {
    var entries: map<string, EdmMetadataCache>
    /** Whether the static semaphore of GetOrAddAsync is taken. */
    var semaphoreTaken: bool

    constructor ()
      ensures entries == map[] && !semaphoreTaken
    {
      entries := map[];
      semaphoreTaken := false;
    }

    /** Every entry is stored under its own Key. */
    ghost predicate KeyedByOwnKey()
      reads this
    {
      forall k :: k in entries ==> entries[k].key == k
    }
  }

  /** The static Clear(): every entry of every factory is gone. */
  method ClearAll(instances: CacheInstances)
    modifies instances`entries
    ensures instances.entries == map[]
    ensures instances.KeyedByOwnKey()
  {
    instances.entries := map[];
  }

  class EdmMetadataCacheFactory {
    /** The dictionary every factory shares. */
    const instances: CacheInstances

    constructor (instances: CacheInstances)
      ensures this.instances == instances
    {
      this.instances := instances;
    }

    /** Clear(key): only that key is removed; an absent key is no change. */
    method Clear(key: string)
      modifies instances`entries
      ensures instances.entries == old(instances.entries) - {key}
      ensures key !in old(instances.entries) ==> instances.entries == old(instances.entries)
      ensures old(instances.KeyedByOwnKey()) ==> instances.KeyedByOwnKey()
    {
      instances.entries := instances.entries - {key};
    }

    /** GetOrAdd: the stored entry, or the factory's entry stored under the key; a failing factory stores nothing. */
    method GetOrAdd(key: string, valueFactory: string -> Result<EdmMetadataCache, Exception>)
        returns (r: Result<EdmMetadataCache, Exception>)
      modifies instances`entries
      ensures key in old(instances.entries) ==>
        r == Success(old(instances.entries)[key]) && instances.entries == old(instances.entries)
      ensures key !in old(instances.entries) ==> r == valueFactory(key)
      ensures key !in old(instances.entries) && r.Success? ==> instances.entries == old(instances.entries)[key := r.value]
      ensures r.Failure? ==> instances.entries == old(instances.entries)
      ensures r.Success? ==> key in instances.entries && instances.entries[key] == r.value
    {
      if key in instances.entries {
        return Success(instances.entries[key]);
      }
      r := valueFactory(key);
      if r.Success? {
        instances.entries := instances.entries[key := r.value];
      }
    }

    /**
     * GetOrAddAsync. A present key is answered at once, without the semaphore
     * or the factory. Otherwise the key is checked again under the semaphore
     * (`storedWhileWaiting` is what another caller stored meanwhile), the
     * factory runs only if it is still absent, and the loaded entry is added
     * unless another caller stored one while it loaded (`storedWhileLoading`),
     * in which case that one is returned. The semaphore is released on every
     * path that took it.
     */
    method GetOrAddAsync(key: string, valueFactory: string -> Result<EdmMetadataCache, Exception>,
                         storedWhileWaiting: Option<EdmMetadataCache>, storedWhileLoading: Option<EdmMetadataCache>)
        returns (r: Result<EdmMetadataCache, Exception>, factoryCalled: bool)
      modifies instances
      ensures key in old(instances.entries) ==>
        r == Success(old(instances.entries)[key]) && !factoryCalled && instances.entries == old(instances.entries)
        && instances.semaphoreTaken == old(instances.semaphoreTaken)
      ensures key !in old(instances.entries) ==> !instances.semaphoreTaken
      ensures factoryCalled <==> key !in old(instances.entries) && storedWhileWaiting.None?
      ensures key !in old(instances.entries) && storedWhileWaiting.Some? ==>
        r == Success(storedWhileWaiting.value) && instances.entries == old(instances.entries)[key := storedWhileWaiting.value]
      ensures factoryCalled && valueFactory(key).Failure? ==>
        r == Failure(valueFactory(key).error)
        && instances.entries == if storedWhileLoading.Some? then old(instances.entries)[key := storedWhileLoading.value]
                                else old(instances.entries)
      ensures factoryCalled && valueFactory(key).Success? ==>
        r == Success(if storedWhileLoading.Some? then storedWhileLoading.value else valueFactory(key).value)
      ensures r.Success? ==> key in instances.entries && instances.entries[key] == r.value
      ensures forall k :: k != key ==> (k in instances.entries <==> k in old(instances.entries))
      ensures forall k :: k != key && k in instances.entries ==> instances.entries[k] == old(instances.entries)[k]
    {
      if key in instances.entries {
        return Success(instances.entries[key]), false;
      }
      instances.semaphoreTaken := true;
      if storedWhileWaiting.Some? {
        instances.entries := instances.entries[key := storedWhileWaiting.value];
      }
      if key in instances.entries {
        instances.semaphoreTaken := false;
        return Success(instances.entries[key]), false;
      }
      factoryCalled := true;
      var found := valueFactory(key);
      if storedWhileLoading.Some? {
        instances.entries := instances.entries[key := storedWhileLoading.value];
      }
      if found.Failure? {
        instances.semaphoreTaken := false;
        return Failure(found.error), factoryCalled;
      }
      if key !in instances.entries {
        instances.entries := instances.entries[key := found.value];
      }
      r := Success(instances.entries[key]);
      instances.semaphoreTaken := false;
    }
  }

  /**
   * A load that fails stores nothing, so the next caller for the same key runs
   * its factory and its entry is stored.
   */
  method FailedLoadIsRetried(factory: EdmMetadataCacheFactory, key: string,
                             failing: string -> Result<EdmMetadataCache, Exception>,
                             succeeding: string -> Result<EdmMetadataCache, Exception>)
      returns (first: Result<EdmMetadataCache, Exception>, second: Result<EdmMetadataCache, Exception>, retried: bool)
    requires key !in factory.instances.entries
    requires failing(key).Failure? && succeeding(key).Success?
    modifies factory.instances
    ensures first == Failure(failing(key).error)
    ensures retried && second == succeeding(key)
    ensures factory.instances.entries == old(factory.instances.entries)[key := succeeding(key).value]
  {
    var called;
    first, called := factory.GetOrAddAsync(key, failing, None, None);
    second, retried := factory.GetOrAddAsync(key, succeeding, None, None);
  }
}
