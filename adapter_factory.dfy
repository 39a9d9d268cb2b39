/**
 * AdapterFactory: which OData adapter a service gets. The protocol versions a
 * service advertises come from the DataServiceVersion or OData-Version response
 * header (section 8.1.5 of OData Version 4.0 Part 1, Protocol) or, failing
 * both, from the Version attributes of its metadata document; the first version
 * a custom loader accepts wins, then the first version the built-in V3 or V4
 * adapter handles.
 *
 * Reading XML and finding a constructor by reflection are not part of this
 * model: a metadata document is given as the attributes the reader would see,
 * and whether a type can be instantiated is a parameter.
 */
module AdapterSelection {
  import opened Wrappers
  import opened Exceptions
  import opened Text

  /** A protocol version string as read from a header or an attribute; None is null. */
  type Version = Option<string>

  const V1 := "1.0"
  const V2 := "2.0"
  const V3 := "3.0"
  const V4 := "4.0"

  const AdapterV3AssemblyName := "Simple.OData.Client.V3.Adapter"
  const AdapterV3TypeName := "Simple.OData.Client.V3.Adapter.ODataAdapter"
  const AdapterV4AssemblyName := "Simple.OData.Client.V4.Adapter"
  const AdapterV4TypeName := "Simple.OData.Client.V4.Adapter.ODataAdapter"

  const DataServiceVersionHeader := "DataServiceVersion"
  const ODataVersionHeader := "OData-Version"
  const MaxDataServiceVersionAttribute := "m:MaxDataServiceVersion"
  const DataServiceVersionAttribute := "m:DataServiceVersion"

  /** An adapter as LoadAdapter produces it: from the custom loader, or an internal type built by reflection. */
  datatype LoadedAdapter =
    | CustomAdapter(protocolVersion: Version)
    | InternalAdapter(assemblyName: string, typeName: string, protocolVersion: Version)

  /** The custom IAdapterFactory of the settings, by the versions it accepts. */
  datatype CustomLoader = CustomLoader(canLoadForVersion: Version -> bool)

  /** The text string.Format gives a version: a null one formats as empty. */
  function VersionText(v: Version): string
  {
    if v.Some? then v.value else ""
  }

  /** CanLoadForVersion: the built-in adapters handle V1 to V4. */
  predicate CanLoadForVersion(v: Version)
  {
    v == Some(V1) || v == Some(V2) || v == Some(V3) || v == Some(V4)
  }

  /** LoadInternalAdapter: V1-V3 load the V3 adapter, V4 the V4 adapter; reflection failure and other versions throw. */
  function LoadInternalAdapter(v: Version, canInstantiate: (string, string) -> bool): (r: Result<LoadedAdapter, Exception>)
    ensures r.Success? ==> CanLoadForVersion(v) && r.value.InternalAdapter? && r.value.protocolVersion == v
    ensures r.Success? ==> (r.value.typeName == AdapterV4TypeName <==> v == Some(V4))
    ensures !CanLoadForVersion(v) ==> r == Failure(NotSupported("OData protocol " + VersionText(v) + " is not supported"))
  {
    if v == Some(V1) || v == Some(V2) || v == Some(V3) then
      Instantiate(AdapterV3AssemblyName, AdapterV3TypeName, v, canInstantiate)
    else if v == Some(V4) then
      Instantiate(AdapterV4AssemblyName, AdapterV4TypeName, v, canInstantiate)
    else
      Failure(NotSupported("OData protocol " + VersionText(v) + " is not supported"))
  }

  /** The reflective LoadInternalAdapter overload: any failure becomes InvalidOperationException. */
  function Instantiate(assemblyName: string, typeName: string, v: Version, canInstantiate: (string, string) -> bool): (r: Result<LoadedAdapter, Exception>)
    ensures r.Success? <==> canInstantiate(assemblyName, typeName)
    ensures r.Success? ==> r.value == InternalAdapter(assemblyName, typeName, v)
    ensures r.Failure? ==> r.error == InvalidOperation("Unable to load OData adapter from assembly " + assemblyName)
  {
    if canInstantiate(assemblyName, typeName) then Success(InternalAdapter(assemblyName, typeName, v))
    else Failure(InvalidOperation("Unable to load OData adapter from assembly " + assemblyName))
  }

  /** LoadAdapter: the custom loader when there is one and it accepts the version, else the internal adapter. */
  function LoadAdapter(v: Version, loader: Option<CustomLoader>, canInstantiate: (string, string) -> bool): (r: Result<LoadedAdapter, Exception>)
    ensures loader.Some? && loader.value.canLoadForVersion(v) ==> r == Success(CustomAdapter(v))
    ensures !(loader.Some? && loader.value.canLoadForVersion(v)) ==> r == LoadInternalAdapter(v, canInstantiate)
  {
    if loader.Some? && loader.value.canLoadForVersion(v) then Success(CustomAdapter(v))
    else LoadInternalAdapter(v, canInstantiate)
  }

  /** The index of the first version `accepts` holds for. */
  function FirstAccepted(versions: seq<Version>, accepts: Version -> bool): (i: Option<nat>)
    ensures i.Some? ==> i.value < |versions| && accepts(versions[i.value])
    ensures i.Some? ==> forall j :: 0 <= j < i.value ==> !accepts(versions[j])
    ensures i.None? ==> forall j :: 0 <= j < |versions| ==> !accepts(versions[j])
  {
    if |versions| == 0 then None
    else if accepts(versions[0]) then Some(0)
    else
      var rest := FirstAccepted(versions[1..], accepts);
      if rest.Some? then Some(rest.value + 1) else None
  }

  /** The adapter CreateAdapterAsync picks from the advertised versions. */
  function AdapterFor(versions: seq<Version>, loader: Option<CustomLoader>, canInstantiate: (string, string) -> bool): Result<LoadedAdapter, Exception>
  {
    var custom := if loader.Some? then FirstAccepted(versions, loader.value.canLoadForVersion) else None;
    if custom.Some? then Success(CustomAdapter(versions[custom.value]))
    else
      var internal := FirstAccepted(versions, CanLoadForVersion);
      if internal.Some? then LoadInternalAdapter(versions[internal.value], canInstantiate)
      else Failure(NotSupported("OData protocols " + Join(VersionTexts(versions), ',') + " are not supported"))
  }

  function VersionTexts(versions: seq<Version>): (texts: seq<string>)
    ensures |texts| == |versions| && forall i :: 0 <= i < |versions| ==> texts[i] == VersionText(versions[i])
  {
    if |versions| == 0 then [] else [VersionText(versions[0])] + VersionTexts(versions[1..])
  }

  /**
   * Any version the custom loader accepts beats every version it does not,
   * whatever their order: the built-in adapters are tried only when the
   * loader accepts none of them.
   */
  lemma CustomLoaderFirst(versions: seq<Version>, loader: CustomLoader, canInstantiate: (string, string) -> bool, k: nat)
    requires k < |versions| && loader.canLoadForVersion(versions[k])
    ensures AdapterFor(versions, Some(loader), canInstantiate).Success?
    ensures AdapterFor(versions, Some(loader), canInstantiate).value.CustomAdapter?
  {
  }

  /** With no acceptable version the error lists the advertised versions joined by ','. */
  lemma NoVersionSupported(versions: seq<Version>, loader: Option<CustomLoader>, canInstantiate: (string, string) -> bool)
    requires forall i :: 0 <= i < |versions| ==> !CanLoadForVersion(versions[i])
    requires loader.Some? ==> forall i :: 0 <= i < |versions| ==> !loader.value.canLoadForVersion(versions[i])
    ensures AdapterFor(versions, loader, canInstantiate)
         == Failure(NotSupported("OData protocols " + Join(VersionTexts(versions), ',') + " are not supported"))
  {
  }

  /** When no version contains ',' the list in that error splits back into exactly the advertised versions, in order. */
  lemma VersionListRoundTrip(versions: seq<Version>)
    requires |versions| >= 1
    requires forall i :: 0 <= i < |versions| ==> ',' !in VersionText(versions[i])
    ensures Split(Join(VersionTexts(versions), ','), ',') == VersionTexts(versions)
  {
    SplitJoin(VersionTexts(versions), ',');
  }

  /** CreateAdapterAsync's two selection loops: the custom loader over all versions, then the built-in adapters. */
  method SelectAdapter(versions: seq<Version>, loader: Option<CustomLoader>, canInstantiate: (string, string) -> bool)
      returns (r: Result<LoadedAdapter, Exception>)
    ensures r == AdapterFor(versions, loader, canInstantiate)
  {
    if loader.Some? {
      for i := 0 to |versions|
        invariant forall j :: 0 <= j < i ==> !loader.value.canLoadForVersion(versions[j])
      {
        if loader.value.canLoadForVersion(versions[i]) {
          return Success(CustomAdapter(versions[i]));
        }
      }
    }
    for i := 0 to |versions|
      invariant forall j :: 0 <= j < i ==> !CanLoadForVersion(versions[j])
    {
      if CanLoadForVersion(versions[i]) {
        return LoadInternalAdapter(versions[i], canInstantiate);
      }
    }
    return Failure(NotSupported("OData protocols " + Join(VersionTexts(versions), ',') + " are not supported"));
  }

  // ---------------------------------------------------------------------------
  // Versions from the metadata document

  /** A node the XmlReader visits after the root: an element with its attributes, or anything else. */
  datatype XmlNode = Element(attributes: map<string, string>) | OtherNode

  /** The root element's Version attribute and the nodes that follow it. */
  datatype MetadataXml = MetadataXml(rootVersion: Version, following: seq<XmlNode>)

  /** GetAttribute: the attribute's value, or null. */
  function Attribute(node: XmlNode, name: string): Version
    requires node.Element?
  {
    if name in node.attributes then Some(node.attributes[name]) else None
  }

  /** The first element after the root, if any. */
  function FirstElement(nodes: seq<XmlNode>): (first: Option<nat>)
    ensures first.Some? ==>
      first.value < |nodes| && nodes[first.value].Element? && forall j :: 0 <= j < first.value ==> !nodes[j].Element?
    ensures first.None? ==> forall j :: 0 <= j < |nodes| ==> !nodes[j].Element?
  {
    if |nodes| == 0 then None
    else if nodes[0].Element? then Some(0)
    else
      var rest := FirstElement(nodes[1..]);
      if rest.Some? then Some(rest.value + 1) else None
  }

  /** The version an element declares: MaxDataServiceVersion, or DataServiceVersion when that is null or empty. */
  function DeclaredVersion(node: XmlNode): Version
    requires node.Element?
  {
    var max := Attribute(node, MaxDataServiceVersionAttribute);
    if IsNullOrEmpty(max) then Attribute(node, DataServiceVersionAttribute) else max
  }

  /** The protocol version GetMetadataProtocolVersion reads from a document. */
  function MetadataProtocolVersion(xml: MetadataXml): Version
  {
    var root := xml.rootVersion;
    if root == Some(V1) || root == Some(V2) || root == Some(V3) then
      var first := FirstElement(xml.following);
      if first.None? then root
      else
        var declared := DeclaredVersion(xml.following[first.value]);
        if !IsNullOrEmpty(declared) && OrdinalLess(root.value, declared.value) then declared else root
    else root
  }

  /** GetMetadataProtocolVersion: the root version, raised to the first element's declared version if that is greater. */
  method GetMetadataProtocolVersion(xml: MetadataXml) returns (protocolVersion: Version)
    ensures protocolVersion == MetadataProtocolVersion(xml)
  {
    protocolVersion := xml.rootVersion;
    if protocolVersion == Some(V1) || protocolVersion == Some(V2) || protocolVersion == Some(V3) {
      var i := 0;
      while i < |xml.following|
        invariant 0 <= i <= |xml.following|
        invariant forall j :: 0 <= j < i ==> !xml.following[j].Element?
        invariant protocolVersion == xml.rootVersion
      {
        var node := xml.following[i];
        if node.Element? {
          var version := Attribute(node, MaxDataServiceVersionAttribute);
          if IsNullOrEmpty(version) {
            version := Attribute(node, DataServiceVersionAttribute);
          }
          if !IsNullOrEmpty(version) && OrdinalLess(protocolVersion.value, version.value) {
            protocolVersion := version;
          }
          break;
        }
        i := i + 1;
      }
    }
  }

  /** The metadata version is never ordinally below a V1-V3 root version, and other root versions are kept as they are. */
  lemma MetadataVersionNeverLower(xml: MetadataXml)
    ensures var v := MetadataProtocolVersion(xml);
      && (xml.rootVersion == Some(V1) || xml.rootVersion == Some(V2) || xml.rootVersion == Some(V3) ==>
            v == xml.rootVersion || (v.Some? && OrdinalLess(xml.rootVersion.value, v.value)))
      && (!(xml.rootVersion == Some(V1) || xml.rootVersion == Some(V2) || xml.rootVersion == Some(V3)) ==>
            v == xml.rootVersion)
  {
  }

  /** Only the first element after the root is read: whatever follows it does not matter. */
  lemma {:induction false} OnlyFirstElementRead(root: Version, before: seq<XmlNode>, element: XmlNode, after1: seq<XmlNode>, after2: seq<XmlNode>)
    requires element.Element? && forall j :: 0 <= j < |before| ==> !before[j].Element?
    ensures MetadataProtocolVersion(MetadataXml(root, before + [element] + after1))
         == MetadataProtocolVersion(MetadataXml(root, before + [element] + after2))
  {
    FirstElementAt(before, element, after1);
    FirstElementAt(before, element, after2);
  }

  lemma {:induction false} FirstElementAt(before: seq<XmlNode>, element: XmlNode, after: seq<XmlNode>)
    requires element.Element? && forall j :: 0 <= j < |before| ==> !before[j].Element?
    ensures FirstElement(before + [element] + after) == Some(|before|)
    decreases |before|
  {
    var nodes := before + [element] + after;
    if |before| == 0 {
      assert nodes[0] == element;
    } else {
      assert nodes[1..] == before[1..] + [element] + after;
      FirstElementAt(before[1..], element, after);
    }
  }

  /** The three metadata documents of interest: a V2 root raised by its first element, and V4 untouched. */
  lemma MetadataVersionExamples()
    ensures MetadataProtocolVersion(MetadataXml(Some(V2), [OtherNode, Element(map[MaxDataServiceVersionAttribute := V3])])) == Some(V3)
    ensures MetadataProtocolVersion(MetadataXml(Some(V2), [Element(map[DataServiceVersionAttribute := V1])])) == Some(V2)
    ensures MetadataProtocolVersion(MetadataXml(Some(V4), [Element(map[MaxDataServiceVersionAttribute := "9.0"])])) == Some(V4)
  {
    var raise := [OtherNode, Element(map[MaxDataServiceVersionAttribute := V3])];
    assert FirstElement(raise[1..]) == Some(0);
    assert OrdinalLess(V2, V3);
    assert !OrdinalLess(V2, V1);
  }

  // ---------------------------------------------------------------------------
  // Versions from the response

  /** The non-empty ';'-separated tokens of each header value, in order. */
  function Tokens(values: seq<string>): (tokens: seq<string>)
    ensures forall i :: 0 <= i < |tokens| ==> |tokens[i]| > 0 && ';' !in tokens[i]
  {
    if |values| == 0 then []
    else
      SplitFieldsHaveNoSeparator(values[0], ';');
      NonEmpty(Split(values[0], ';')) + Tokens(values[1..])
  }

  /** The parts that are not empty, in order (StringSplitOptions.RemoveEmptyEntries). */
  function NonEmpty(parts: seq<string>): (kept: seq<string>)
    ensures forall i :: 0 <= i < |kept| ==> |kept[i]| > 0 && kept[i] in parts
  {
    if |parts| == 0 then []
    else if |parts[0]| > 0 then [parts[0]] + NonEmpty(parts[1..])
    else NonEmpty(parts[1..])
  }

  /** A header value written as non-empty tokens joined by ';' gives back exactly those tokens. */
  lemma TokensRoundTrip(tokens: seq<string>)
    requires |tokens| >= 1
    requires forall i :: 0 <= i < |tokens| ==> |tokens[i]| > 0 && ';' !in tokens[i]
    ensures Tokens([Join(tokens, ';')]) == tokens
  {
    SplitJoin(tokens, ';');
    NonEmptyKeeps(tokens);
  }

  lemma {:induction false} NonEmptyKeeps(parts: seq<string>)
    requires forall i :: 0 <= i < |parts| ==> |parts[i]| > 0 && ';' !in parts[i]
    ensures NonEmpty(parts) == parts
    decreases |parts|
  {
    if |parts| > 0 {
      NonEmptyKeeps(parts[1..]);
    }
  }

  /** The response headers, by name (the header lookup's case-insensitivity is not modelled). */
  type Headers = map<string, seq<string>>

  /** The versions GetSupportedProtocolVersions yields. */
  function SupportedProtocolVersions(headers: Headers, document: Result<MetadataXml, Exception>): Result<seq<Version>, Exception>
  {
    if DataServiceVersionHeader in headers then Success(Wrap(Tokens(headers[DataServiceVersionHeader])))
    else if ODataVersionHeader in headers then Success(Wrap(Tokens(headers[ODataVersionHeader])))
    else if document.Failure? then Failure(InvalidOperation("Unable to identify OData protocol version"))
    else Success([MetadataProtocolVersion(document.value)])
  }

  function Wrap(tokens: seq<string>): (versions: seq<Version>)
    ensures |versions| == |tokens| && forall i :: 0 <= i < |tokens| ==> versions[i] == Some(tokens[i])
  {
    if |tokens| == 0 then [] else [Some(tokens[0])] + Wrap(tokens[1..])
  }

  /** GetSupportedProtocolVersionsAsync; `document` is the metadata document as the XML reader reads it, or its failure. */
  method GetSupportedProtocolVersions(headers: Headers, document: Result<MetadataXml, Exception>)
      returns (r: Result<seq<Version>, Exception>)
    ensures r == SupportedProtocolVersions(headers, document)
  {
    if DataServiceVersionHeader in headers {
      return Success(Wrap(Tokens(headers[DataServiceVersionHeader])));
    } else if ODataVersionHeader in headers {
      return Success(Wrap(Tokens(headers[ODataVersionHeader])));
    }
    if document.Failure? {
      return Failure(InvalidOperation("Unable to identify OData protocol version"));
    }
    var protocolVersion := GetMetadataProtocolVersion(document.value);
    return Success([protocolVersion]);
  }

  /** The DataServiceVersion header wins over OData-Version, and either wins over the metadata document. */
  lemma HeaderPrecedence(headers: Headers, document1: Result<MetadataXml, Exception>, document2: Result<MetadataXml, Exception>)
    requires DataServiceVersionHeader in headers || ODataVersionHeader in headers
    ensures SupportedProtocolVersions(headers, document1) == SupportedProtocolVersions(headers, document2)
    ensures DataServiceVersionHeader in headers ==>
      SupportedProtocolVersions(headers, document1) == SupportedProtocolVersions(headers - {ODataVersionHeader}, document1)
  {
  }

  /**
   * Without either version header the metadata document decides: its protocol
   * version as the only candidate, or InvalidOperationException when it cannot
   * be read; with a header the result never fails.
   */
  lemma DocumentFallback(headers: Headers, document: Result<MetadataXml, Exception>)
    ensures DataServiceVersionHeader !in headers && ODataVersionHeader !in headers && document.Failure? ==>
      SupportedProtocolVersions(headers, document) == Failure(InvalidOperation("Unable to identify OData protocol version"))
    ensures DataServiceVersionHeader !in headers && ODataVersionHeader !in headers && document.Success? ==>
      SupportedProtocolVersions(headers, document) == Success([MetadataProtocolVersion(document.value)])
    ensures SupportedProtocolVersions(headers, document).Failure? ==>
      DataServiceVersionHeader !in headers && ODataVersionHeader !in headers && document.Failure?
  {
  }

  /** CreateAdapterAsync: the advertised versions, then the selection loops. */
  method CreateAdapterAsync(headers: Headers, document: Result<MetadataXml, Exception>, loader: Option<CustomLoader>,
                            canInstantiate: (string, string) -> bool) returns (r: Result<LoadedAdapter, Exception>)
    ensures var versions := SupportedProtocolVersions(headers, document);
      r == if versions.Failure? then Failure(versions.error) else AdapterFor(versions.value, loader, canInstantiate)
  {
    var versions := GetSupportedProtocolVersions(headers, document);
    if versions.Failure? {
      return Failure(versions.error);
    }
    r := SelectAdapter(versions.value, loader, canInstantiate);
  }

  /** CreateAdapter and ParseMetadata: the metadata version, then LoadAdapter. */
  method CreateAdapter(xml: MetadataXml, loader: Option<CustomLoader>, canInstantiate: (string, string) -> bool)
      returns (r: Result<LoadedAdapter, Exception>)
    ensures r == LoadAdapter(MetadataProtocolVersion(xml), loader, canInstantiate)
  {
    var protocolVersion := GetMetadataProtocolVersion(xml);
    r := LoadAdapter(protocolVersion, loader, canInstantiate);
  }
}
