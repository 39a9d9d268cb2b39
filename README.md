# Simple.OData.Client core, modelled in Dafny

This project models the query-building core of Simple.OData.Client, a C# client for OData services, and proves properties of that model. It covers seven parts:

- **Filter partitioning** (`FilterPartition`). `ODataExpression.ProcessFilter` walks a filter expression and files its fragments into per-entity buckets. A top-level `and` is split into its sides. Every other fragment goes, whole, into one bucket: the single entity its references reach through a collection-valued navigation property, or else the root collection. `GetEntityPath` resolves a reference hop by hop against the metadata and, past a collection hop, shortens the node's reference (except under the V3 adapter).
- **Command state** (`CommandState`). `CommandDetails` holds two filter dictionaries. The expression one merges new filters with `&&`; the text one is last write wins. Its two constructors differ in what they copy and what they share by reference.
- **V3 clause formatting** (`CommandFormatterV3`). It covers literal conversion, the clause order, which filters attach to expanded associations, and the `P/any(P:V)` lambda filter (section 10.2.3.1 of OData Version 3.0 Part 2, URL Conventions). The V3 formatter's `FunctionFormat` is the constant `FunctionFormatV3 = Query`.
- **Metadata cache** (`Metadata`). `EdmMetadataCache` is a validated entry. `EdmMetadataCacheFactory` keeps one process-wide dictionary of entries, shared by every factory instance, with `GetOrAdd`, `GetOrAddAsync` and the two `Clear` operations.
- **Session** (`SessionState`). The session validates its URI at construction. It lazily creates the metadata cache entry, the adapter and the HTTP connection, and it can clear or dispose them.
- **Protocol-version selection** (`AdapterSelection`). `AdapterFactory` reads the advertised versions from the `DataServiceVersion` / `OData-Version` headers (section 8.1.5 of OData Version 4.0 Part 1) or from the metadata document. It offers them first to a custom loader and then to the built-in V3/V4 adapters.
- **Settings** (`ClientSettings`). `ODataClientSettings` covers:
  - the `BaseUri` getter and setter, over an HttpClient's `BaseAddress`;
  - the HttpClient constructor's checks;
  - the defaulted `NameMatchResolver` and `AdapterFactory`;
  - the `TypeCache` guard;
  - the copy-from-session constructor.
- **One-shot invoker** (`ActionProvider`). `ActionInvokable` captures the result of a service action exactly once.

`Wrappers` and `Exceptions` hold the `Option`/`Result`/`Outcome` types and the exceptions the program throws. `Text` holds `string.Split`/`string.Join` with their round trips, the blank-string tests and ordinal comparison. `Expressions` holds the expression tree, whose reference nodes carry a mutable path.

Every thrown exception is modelled as a `Failure`/`Fail` value carrying the exception and its message. Collaborators outside the core are parameters or function-typed fields:

- the metadata queries;
- `Utils.TryConvert`, `ODataUriUtils.ConvertToUriLiteral`, `Uri.EscapeDataString` and `ODataExpression.AsString`;
- the base formatter's `FormatClause`/`FormatNavigationPath`;
- URI combination;
- XML reading and reflection;
- the adapter loader.

The effect of a concurrent caller on a key being loaded is also a parameter.

## Model

| member | source | states |
|---|---|---|
| FilterPartition.CollectionHopIsFirst | src/Simple.OData.Client.Core/Expressions/ODataExpression.Filter.cs:127-146 | the hop GetEntityPath stops at is i exactly when i is before the last segment, every earlier segment is a single-entity navigation property and segment i is collection-valued |
| FilterPartition.LastSegmentIgnored | src/Simple.OData.Client.Core/Expressions/ODataExpression.Filter.cs:131 | the last segment of a reference is never examined: replacing it leaves the hop unchanged |
| FilterPartition.EntityPathRejoins | src/Simple.OData.Client.Core/Expressions/ODataExpression.Filter.cs:137-146 | with no collection hop the entity is the root collection and the reference is kept; under V3 the reference is kept; otherwise entity + "/" + new reference is the original reference |
| FilterPartition.GetEntityPath | src/Simple.OData.Client.Core/Expressions/ODataExpression.Filter.cs:125-147 | the loop returns the entity path and leaves in the node the reference that EntityPath specifies for the node's old reference |
| FilterPartition.Appended | src/Simple.OData.Client.Core/Expressions/ODataExpression.Filter.cs:79-85 | adding a fragment creates the bucket if missing, appends the fragment at its end, keeps its earlier contents and leaves every other bucket unchanged |
| FilterPartition.FilterEntity | src/Simple.OData.Client.Core/Expressions/ODataExpression.Filter.cs:78 | the bucket is the set's single element when it has exactly one, else the root collection |
| FilterPartition.AddFilter | src/Simple.OData.Client.Core/Expressions/ODataExpression.Filter.cs:74-89 | at top level the fragment is appended to the chosen bucket and null is returned; otherwise no bucket changes and the set is returned |
| FilterPartition.ProcessValue | src/Simple.OData.Client.Core/Expressions/ODataExpression.Filter.cs:120-123 | a value leaves the entity set unchanged |
| FilterPartition.ProcessReference | src/Simple.OData.Client.Core/Expressions/ODataExpression.Filter.cs:113-118 | the set, created if null, gains exactly the reference's entity path, and only that node's reference is rewritten |
| FilterPartition.ProcessNode | src/Simple.OData.Client.Core/Expressions/ODataExpression.Filter.cs:18-72 | the walk on any node leaves the buckets and reference paths, and returns the set or the exception, that Analysis specifies |
| FilterPartition.ProcessLeaf | src/Simple.OData.Client.Core/Expressions/ODataExpression.Filter.cs:26-33 | a reference, function or value node is processed and then filed by AddFilter, as Analysis specifies |
| FilterPartition.ProcessConversion | src/Simple.OData.Client.Core/Expressions/ODataExpression.Filter.cs:34-50 | a conversion replaces a plain inner value by the rewrapped enum or the converted value, and processes the inner node off top level, as Analysis specifies |
| FilterPartition.ProcessUnary | src/Simple.OData.Client.Core/Expressions/ODataExpression.Filter.cs:51-55 | Not/Negate thread the set through their operand and then file the node, as Analysis specifies |
| FilterPartition.ProcessBinary | src/Simple.OData.Client.Core/Expressions/ODataExpression.Filter.cs:56-71 | a top-level And/AndAlso processes both sides as fresh top-level fragments and returns null; any other binary node threads the set left then right and is filed, as Analysis specifies |
| FilterPartition.ProcessExpression | src/Simple.OData.Client.Core/Expressions/ODataExpression.Filter.cs:91-101 | a null operand returns the set unchanged; any other is walked as Analysis specifies |
| FilterPartition.ProcessFunction | src/Simple.OData.Client.Core/Expressions/ODataExpression.Filter.cs:103-111 | the set is threaded through the caller and then each argument in order, as CallAnalysis specifies |
| FilterPartition.ProcessFilter | src/Simple.OData.Client.Core/Expressions/ODataExpression.Filter.cs:11-16 | from an empty dictionary outside a query option, the walk never throws, and its buckets and reference paths are those Analysis specifies |
| FilterPartition.OutsideQueryOptionAlwaysProcessed | src/Simple.OData.Client.Core/Expressions/ODataExpression.Filter.cs:20-24 | outside a custom query option no node raises the invalid-query-option error |
| FilterPartition.QueryOptionShapeDecides | src/Simple.OData.Client.Core/Expressions/ODataExpression.Filter.cs:20-24 | in a query option, a conversion-free expression is processed exactly when every node in it uses no operator, And or Equal; otherwise the error is raised |
| FilterPartition.CallFailureSticks | src/Simple.OData.Client.Core/Expressions/ODataExpression.Filter.cs:105-109 | once an argument of a function raises the error, the later arguments do not change the outcome |
| FilterPartition.OffBaseKeepsBuckets | src/Simple.OData.Client.Core/Expressions/ODataExpression.Filter.cs:26-89 | a fragment processed off top level never touches a bucket |
| FilterPartition.TopLevelConversionDropped | src/Simple.OData.Client.Core/Expressions/ODataExpression.Filter.cs:49 | a top-level value conversion is processed with isBase false, so no bucket changes |
| FilterPartition.Merged | src/Simple.OData.Client.Core/Expressions/ODataExpression.Filter.cs:115 | merging two entity sets gives null exactly when both are null, and otherwise their union |
| FilterPartition.OffBaseAccumulates | src/Simple.OData.Client.Core/Expressions/ODataExpression.Filter.cs:51-123 | off top level, the set a fragment returns is the incoming set united with what the fragment adds from a null set |
| FilterPartition.BaseFilesWholeNode | src/Simple.OData.Client.Core/Expressions/ODataExpression.Filter.cs:26-71 | at top level a node other than a conversion or And/AndAlso is processed as off top level and then filed whole by AddFilter |
| FilterPartition.BaseAppendsConjuncts | src/Simple.OData.Client.Core/Expressions/ODataExpression.Filter.cs:58-63 | a top-level walk appends exactly the conjuncts of the top-level And chain, in order, one to a bucket each, and nothing else |
| FilterPartition.AppendAllConcat | src/Simple.OData.Client.Core/Expressions/ODataExpression.Filter.cs:60-61 | filing two runs of fragments is filing the first and then the second |
| CommandState.Combined | src/Simple.OData.Client.Core/Fluent/CommandDetails.cs:39-41 | with no stored expression the new one is stored; otherwise `old && new`, old on the left |
| CommandState.CombinedConjuncts | src/Simple.OData.Client.Core/Fluent/CommandDetails.cs:37-42 | filters added one by one reach the partitioning walk as their conjuncts, in the order they were added |
| CommandState.CommandDetails.GetFilterExpression | src/Simple.OData.Client.Core/Fluent/CommandDetails.cs:44-49 | the stored expression for the entity, or none when absent |
| CommandState.CommandDetails.AddFilterExpression | src/Simple.OData.Client.Core/Fluent/CommandDetails.cs:37-42 | the entity's expression becomes the combination of its old one and the new one; only the expression dictionary may change, and every other entity's expression is unchanged |
| CommandState.CommandDetails.GetFilter | src/Simple.OData.Client.Core/Fluent/CommandDetails.cs:57-62 | the stored filter text for the entity, or none when absent |
| CommandState.CommandDetails.SetFilter | src/Simple.OData.Client.Core/Fluent/CommandDetails.cs:52-55 | last write wins: the entity's text becomes the new one, only the text dictionary and its order may change, every other entity's text is unchanged, and a new key goes last in dictionary order |
| CommandState.CommandDetails.constructor | src/Simple.OData.Client.Core/Fluent/CommandDetails.cs:67-78 | skip and top are -1, the expand/select/orderby/media lists are fresh and empty, both filter maps are empty and session, parent and batch entries are the arguments |
| CommandState.CommandDetails.Copy | src/Simple.OData.Client.Core/Fluent/CommandDetails.cs:80-112 | both filter maps are new dictionaries with equal contents; the lists and the other fields are shared or copied; the entities map starts empty |
| CommandFormatterV3.EnumConvertsAsInt32 | src/Simple.OData.Client.V3.Adapter/CommandFormatter.cs:24-25 | an enum converts exactly as its Int32 value does, and one outside the Int32 range overflows |
| CommandFormatterV3.ExpressionBypassesConverter | src/Simple.OData.Client.V3.Adapter/CommandFormatter.cs:26-27 | an expression is rendered by AsString alone, whatever the converter and the escape flag |
| CommandFormatterV3.EscapingWrapsLiteral | src/Simple.OData.Client.V3.Adapter/CommandFormatter.cs:29-34 | with escaping, the result is the unescaped literal passed through EscapeDataString once |
| CommandFormatterV3.LambdaRoundTrip | src/Simple.OData.Client.V3.Adapter/CommandFormatter.cs:50-58 | a rendered filter `P/any(P:V)` gives back the navigation path P and the filter text V |
| CommandFormatterV3.ExpandFiltersSelect | src/Simple.OData.Client.V3.Adapter/CommandFormatter.cs:40-45 | a filter goes into the expand filter clause exactly when it is stored and its key names an expand association |
| CommandFormatterV3.MapFilter | src/Simple.OData.Client.V3.Adapter/CommandFormatter.cs:50-58 | each attached filter renders as FormatFilterItem of its key and text, in order |
| CommandFormatterV3.CommandClauses.FormatExpandSelectOrderby | src/Simple.OData.Client.V3.Adapter/CommandFormatter.cs:37-48 | clauses are appended in the order expand, the attached filters, select, orderby |
| CommandFormatterV3.CommandClauses.FormatInlineCount | src/Simple.OData.Client.V3.Adapter/CommandFormatter.cs:60-63 | exactly one clause, `$inlinecount=allpages`, is appended |
| Metadata.NewEdmMetadataCache | src/Simple.OData.Client.Core/Metadata/EdmMetadataCache.cs:9-24 | a blank key is refused first, then a blank document, each with ArgumentNullException; otherwise the entry holds the arguments |
| Metadata.EntryRebuilds | src/Simple.OData.Client.Core/Metadata/EdmMetadataCache.cs:9-27 | an entry is rebuilt from its own Key and MetadataDocument exactly when it is valid, and every constructed entry is valid |
| Metadata.GetODataAdapter | src/Simple.OData.Client.Core/Metadata/EdmMetadataCache.cs:29-32 | every call returns a new adapter from the settings' loader, or that loader's error |
| Metadata.ClearAll | src/Simple.OData.Client.Core/Metadata/EdmMetadataCacheFactory.cs:14-19 | the shared dictionary is empty |
| Metadata.EdmMetadataCacheFactory.Clear | src/Simple.OData.Client.Core/Metadata/EdmMetadataCacheFactory.cs:21-24 | only that key is removed; an absent key changes nothing |
| Metadata.EdmMetadataCacheFactory.GetOrAdd | src/Simple.OData.Client.Core/Metadata/EdmMetadataCacheFactory.cs:26-29 | a present key returns its entry without the factory; an absent key stores and returns the factory's entry; a failing factory stores nothing |
| Metadata.EdmMetadataCacheFactory.GetOrAddAsync | src/Simple.OData.Client.Core/Metadata/EdmMetadataCacheFactory.cs:31-60 | a present key returns at once without the semaphore; the factory runs only when the key is still absent under the semaphore; an entry stored first wins; the semaphore is released; other keys are unchanged |
| Metadata.FailedLoadIsRetried | src/Simple.OData.Client.Core/Metadata/EdmMetadataCacheFactory.cs:44-59 | after a failing load the next call for the key runs its factory and stores the entry |
| SessionState.ServiceUriCheck | src/Simple.OData.Client.Core/Session.cs:24-27 | construction is refused with InvalidOperationException for a missing URI or an empty absolute URI; a relative URI fails when AbsoluteUri is read |
| SessionState.CacheKey | src/Simple.OData.Client.Core/Session.cs:165-182 | entries are keyed by the absolute text of the settings' BaseUri |
| SessionState.ResolveMetadata | src/Simple.OData.Client.Core/Session.cs:184-194 | a non-empty MetadataDocument is used; only otherwise is the fetched document used |
| SessionState.CreateMdc | src/Simple.OData.Client.Core/Session.cs:196-199 | a valid entry under the given key, with the type cache of that key and the settings' resolver, or the constructor's or the fetch's error |
| SessionState.Session.Adapter | src/Simple.OData.Client.Core/Session.cs:40-57 | a set adapter is returned unchanged; without one and without an entry, NullReferenceException; otherwise a fresh adapter with the loader's version and default payload format is kept and returned, or the loader's error is |
| SessionState.Session.Initialize | src/Simple.OData.Client.Core/Session.cs:81-103 | the first failing stage gives the error (the cache key, the document or CreateMdc, the adapter loader); a missing entry becomes the stored one under the key, else the one CreateMdc builds and stores, other keys unchanged; a missing adapter becomes a fresh one with the loader's version and default payload format; a session with both is left as it is |
| SessionState.Session.ClearMetadataCache | src/Simple.OData.Client.Core/Session.cs:110-119 | with an entry, its key is evicted and entry and adapter become null; without one nothing changes |
| SessionState.Session.ResolveAdapterAsync | src/Simple.OData.Client.Core/Session.cs:121-131 | succeeds exactly when Initialize's stages do, with the stage's error otherwise; returns the set adapter, or the fresh one with the loader's version and format; PayloadFormat takes the adapter's default only when it was Unspecified |
| SessionState.Session.GetHttpConnection | src/Simple.OData.Client.Core/Session.cs:133-147 | repeated calls return the same connection; a missing one is created over the settings |
| SessionState.Session.Dispose | src/Simple.OData.Client.Core/Session.cs:67-77 | the connection, if any, is disposed and dropped |
| SessionState.ConnectionRenewedAfterDispose | src/Simple.OData.Client.Core/Session.cs:133-147 | after Dispose the next GetHttpConnection creates a new, undisposed connection |
| SessionState.FromSettings | src/Simple.OData.Client.Core/Session.cs:22-38 | as written: the URI check, then with a static metadata document a null dereference of the unassigned cache factory |
| SessionState.FromSettingsFixed | src/Simple.OData.Client.Core/Session.cs:22-38 | with the factory assigned first, a static document is stored under the cache key and becomes the session's entry |
| AdapterSelection.LoadInternalAdapter | Simple.OData.Client.Core/Adapter/AdapterFactory.cs:148-162 | V1–V3 load the V3 adapter type, V4 the V4 type, any other version is NotSupportedException with the version in the message |
| AdapterSelection.Instantiate | Simple.OData.Client.Core/Adapter/AdapterFactory.cs:164-185 | a type that cannot be instantiated gives InvalidOperationException naming the assembly |
| AdapterSelection.LoadAdapter | Simple.OData.Client.Core/Adapter/AdapterFactory.cs:133-146 | the custom loader is used when present and accepting the version; otherwise the internal adapter |
| AdapterSelection.FirstAccepted | Simple.OData.Client.Core/Adapter/AdapterFactory.cs:42-56 | the first advertised version a loader accepts, or none |
| AdapterSelection.CustomLoaderFirst | Simple.OData.Client.Core/Adapter/AdapterFactory.cs:39-49 | if the custom loader accepts any advertised version, a custom adapter is loaded, whatever the internal loader accepts |
| AdapterSelection.NoVersionSupported | Simple.OData.Client.Core/Adapter/AdapterFactory.cs:59 | with no loadable version, NotSupportedException lists every advertised version joined by "," |
| AdapterSelection.VersionListRoundTrip | Simple.OData.Client.Core/Adapter/AdapterFactory.cs:59 | the listed versions split on "," give back the advertised versions |
| AdapterSelection.SelectAdapter | Simple.OData.Client.Core/Adapter/AdapterFactory.cs:39-59 | the two loops give the custom adapter for the first version the loader accepts, else the internal adapter for the first loadable version, else the error |
| AdapterSelection.FirstElement | Simple.OData.Client.Core/Adapter/AdapterFactory.cs:93-95 | the position of the first element node after the root, or none |
| AdapterSelection.GetMetadataProtocolVersion | Simple.OData.Client.Core/Adapter/AdapterFactory.cs:82-109 | the loop returns MetadataProtocolVersion of the document |
| AdapterSelection.MetadataVersionNeverLower | Simple.OData.Client.Core/Adapter/AdapterFactory.cs:87-108 | for a root version V1–V3 the result is the root version or an ordinally greater one; any other root version is returned as it is |
| AdapterSelection.OnlyFirstElementRead | Simple.OData.Client.Core/Adapter/AdapterFactory.cs:93-104 | nodes after the first element never change the result |
| AdapterSelection.MetadataVersionExamples | Simple.OData.Client.Core/Adapter/AdapterFactory.cs:97-101 | MaxDataServiceVersion is preferred and adopted only when greater; a V4 root is kept |
| AdapterSelection.Tokens | Simple.OData.Client.Core/Adapter/AdapterFactory.cs:117 | header values split on ';' with empty tokens dropped: every token is non-empty and holds no ';' |
| AdapterSelection.TokensRoundTrip | Simple.OData.Client.Core/Adapter/AdapterFactory.cs:117 | non-empty tokens joined with ';' are split back into the same tokens |
| AdapterSelection.GetSupportedProtocolVersions | Simple.OData.Client.Core/Adapter/AdapterFactory.cs:111-131 | the header tokens, else the metadata version, else InvalidOperationException |
| AdapterSelection.HeaderPrecedence | Simple.OData.Client.Core/Adapter/AdapterFactory.cs:114-117 | with a version header the document is never read, and DataServiceVersion wins over OData-Version |
| AdapterSelection.DocumentFallback | Simple.OData.Client.Core/Adapter/AdapterFactory.cs:119-130 | without a version header the metadata version is the only candidate, or InvalidOperationException when the document cannot be read; only that case fails |
| AdapterSelection.CreateAdapterAsync | Simple.OData.Client.Core/Adapter/AdapterFactory.cs:35-60 | the advertised versions, or their error, and then the selection loops |
| AdapterSelection.CreateAdapter | Simple.OData.Client.Core/Adapter/AdapterFactory.cs:29-33 | the adapter LoadAdapter gives for the document's protocol version |
| ClientSettings.AbsoluteUri | src/Simple.OData.Client.Core/Session.cs:24 | AbsoluteUri of a relative URI is InvalidOperationException; of an absolute one, its text |
| ClientSettings.ResolvedBaseUri | src/Simple.OData.Client.Core/ODataClientSettings.cs:35-52 | BaseAddress combined with the stored URI, BaseAddress alone when none is stored, and the stored value without a BaseAddress |
| ClientSettings.ResolveTwice | src/Simple.OData.Client.Core/ODataClientSettings.cs:35-61 | storing the resolved BaseUri back gives the same BaseUri again |
| ClientSettings.ODataClientSettings.BaseUri | src/Simple.OData.Client.Core/ODataClientSettings.cs:35-52 | the getter resolves the stored URI against the HttpClient's BaseAddress |
| ClientSettings.ODataClientSettings.SetBaseUri | src/Simple.OData.Client.Core/ODataClientSettings.cs:53-61 | an absolute URI while the HttpClient has a BaseAddress is refused, with the stored value kept; any other value is stored |
| ClientSettings.ODataClientSettings.NameMatchResolver | src/Simple.OData.Client.Core/ODataClientSettings.cs:175-179 | the assigned resolver, else the built-in default |
| ClientSettings.ODataClientSettings.SetNameMatchResolver | src/Simple.OData.Client.Core/ODataClientSettings.cs:178 | the assigned resolver is what the getter returns |
| ClientSettings.ODataClientSettings.AdapterFactory | src/Simple.OData.Client.Core/ODataClientSettings.cs:184-188 | the assigned adapter factory, else the built-in default |
| ClientSettings.ODataClientSettings.SetAdapterFactory | src/Simple.OData.Client.Core/ODataClientSettings.cs:187 | the assigned factory is what the getter returns |
| ClientSettings.ODataClientSettings.TypeCacheOf | src/Simple.OData.Client.Core/ODataClientSettings.cs:132-143 | with no BaseUri, InvalidOperationException; otherwise the type cache of the absolute BaseUri and the resolver |
| ClientSettings.ODataClientSettings.Init | src/Simple.OData.Client.Core/ODataClientSettings.cs:279-320 | a new settings object has the defaults: ReadUntypedAsString true, BatchPayloadUriOption AbsoluteUri, Validations All |
| ClientSettings.ODataClientSettings.FromSession | src/Simple.OData.Client.Core/ODataClientSettings.cs:381-411 | every listed setting is copied from the session's settings, the URI as the resolved BaseUri; Validations keeps its default |
| ClientSettings.DefaultSettings | src/Simple.OData.Client.Core/ODataClientSettings.cs:318-320 | the parameterless constructor: defaults, no HttpClient, no BaseUri |
| ClientSettings.SettingsWithBaseUri | src/Simple.OData.Client.Core/ODataClientSettings.cs:341-347 | the Uri constructor: defaults, the given BaseUri and credentials |
| ClientSettings.FromHttpClient | src/Simple.OData.Client.Core/ODataClientSettings.cs:355-379 | a null client, a relative BaseAddress, an absolute relativeUri and a relativeUri without a BaseAddress are refused in that order; otherwise BaseUri resolves the relativeUri against the BaseAddress |
| ClientSettings.CopyKeepsBaseUri | src/Simple.OData.Client.Core/ODataClientSettings.cs:383 | a settings object copied from a session has the same BaseUri as the original |
| ActionProvider.ActionInvokable.constructor | src/ActionProviderImplementation/ActionInvokable.cs:14-22 | a new invokable has not run and holds no result |
| ActionProvider.ActionInvokable.CaptureResult | src/ActionProviderImplementation/ActionInvokable.cs:23-32 | the first capture stores the value; a second fails and keeps the stored result; afterwards the invokable has run |
| ActionProvider.ActionInvokable.GetResult | src/ActionProviderImplementation/ActionInvokable.cs:33-41 | the captured value once run, an error before |
| ActionProvider.ActionInvokable.Invoke | src/ActionProviderImplementation/ActionInvokable.cs:42-52 | succeeds exactly when the action succeeds on a fresh invokable; any failure is DataServiceException(500) naming the action and changes nothing |
| ActionProvider.InvokeTwice | src/ActionProviderImplementation/ActionInvokable.cs:23-52 | before a run GetResult fails; the first run's value is kept and the second run fails |

## Left out

- Concurrency: locks, the semaphores and ConcurrentDictionary thread safety are not modelled. Each method is sequential. Another caller's effect on the key being loaded in `GetOrAddAsync` is a parameter; the session passes none.
- HttpClientExtensions and the internals of HttpConnection (HttpClient and handler construction) are not part of this model. A connection is an object over the settings with a disposed flag.
- The string-typed `ODataClientSettings(string, ICredentials)` constructor is left out: it parses a URI, and URIs are abstract here (`isAbsolute`, `text`, an uninterpreted combine).
- XML parsing and reflection are abstracted:
  - a metadata document is its root `Version` attribute and the nodes after it;
  - a reader failure anywhere counts as a failure of the whole read;
  - the raw XML exceptions `CreateAdapter` would let escape are not modelled;
  - adapter instantiation is a predicate on assembly and type name.
- Exceptions thrown by a custom loader's `CanLoadForVersion`/`LoadAdapter` are not modelled: the custom loader always succeeds.
- HTTP header names are matched exactly; the case-insensitive lookup of HttpResponseHeaders is not modelled.
- `OrdinalLess` compares characters by code point. For characters outside the Basic Multilingual Plane this differs from .NET's UTF-16 ordinal comparison.
- TypeCaches and `DictionaryExtensions.ClearCache` are outside this model. A type cache is the pair of URI text and resolver, and the static `Clear()` only empties the dictionary.
- `Enum.Parse` of the OData version string in `ConvertValueToUriLiteral` is folded into the abstract literal converter.
- The literal constants of ODataLiteral, HttpLiteral and ODataProtocolVersion are written out as `$expand`, `$filter`, `$select`, `$orderby`, `$inlinecount`, `allpages`, `DataServiceVersion`, `OData-Version`, `MaxDataServiceVersion` and "1.0"–"4.0", because those classes are not part of this model.
- `ValidationKinds.All` is the constant -1. The other enum-typed settings are integers.
- `CommandState.Combined` is the And node that `ODataExpression`'s `&&` operator builds; that operator is not part of this model.
- `ExpressionContext(session).IsQueryOption` is false for the public `ProcessFilter`, as that constructor is not part of this model. The query-option case is reachable through `ProcessNode` with the flag set.
- The HashSet threaded through the filter walk is a value. Its in-place `Add` is indistinguishable here, because every caller replaces its set with the returned one.
- Dictionary enumeration order is modelled as insertion order (the `filterOrder` of CommandDetails); .NET does not promise that order after removals.
- ODataExpandOptions values are opaque objects.
- The source files come from different revisions:
  - `settings.MetadataCacheFactory`, which the Session constructor reads, is a parameter;
  - `AdapterFactory.CreateAdapterLoader`, which `EdmMetadataCache.GetODataAdapter` calls, is an abstract loader on the settings.
- Only the built-in EdmMetadataCacheFactory is modelled; a settings-supplied factory is assumed to share the same dictionary.
- These Session members are not modelled:
  - `FromMetadata` and the `Session(Uri, string)` constructor;
  - the `TypeCache` and `Metadata` properties;
  - `Trace`;
  - `SendMetadataRequestAsync`, whose network fetch is the `fetched` parameter.
- The ActionInvokable constructor's parameter marshalling and `AssertAvailable` check are left out, and so is the reflective call of the action method: its outcome is a parameter of `Invoke`.
- V4 formatting, the request writers, the response readers and the sample servers are not part of this model.

## Findings

| source | as written | input that shows it | evidently intended | confidence | as-written member | corrected member |
|---|---|---|---|---|---|---|
| src/Simple.OData.Client.Core/Session.cs:34-37 | the constructor calls InitializeStaticMetadata, which reads `_metadataCacheFactory` (line 167), before that field is assigned on line 37 | settings with an absolute BaseUri and a non-empty MetadataDocument: construction fails with NullReferenceException | assign the cache factory first, so the static document is cached under the BaseUri and becomes the session's MetadataCache | not executed | SessionState.FromSettings | SessionState.FromSettingsFixed |
