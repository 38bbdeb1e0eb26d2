/**
 * The record model of a multi-host file entry: `DriveLink`, `Metadata` and the
 * `OxxFile` aggregate, their mappings to and from dictionaries with fixed key
 * names, and the derived viking accessors.
 */
module OxxRecords {
  import opened Wrappers
  import opened Json
  import Seqs

  // ---------------------------------------------------------------- DriveLink

  /** A Google Drive link with its metadata. */
  datatype DriveLink = DriveLink(
    fileId: string,
    webViewLink: string,
    driveLabel: string,
    credentialIndex: int,
    isLoginDrive: bool,
    isDrive2: bool)

  /** The keys of `DriveLink.to_dict`, in the order it writes them. */
  const DriveLinkKeyList: seq<string> :=
    ["fileId", "webViewLink", "driveLabel", "credentialIndex", "isLoginDrive", "isDrive2"]
  // The same keys as a set display: membership in a display is much cheaper
  // for the verifier than membership in a comprehension over the list, and
  // `KeyCount` ties the two together.
  const DriveLinkKeys: set<string> :=
    {"fileId", "webViewLink", "driveLabel", "credentialIndex", "isLoginDrive", "isDrive2"}

  /** The value `to_dict` stores under each of the six keys. */
  function DriveLinkField(d: DriveLink, key: string): Value
  {
    if key == "fileId" then Str(d.fileId)
    else if key == "webViewLink" then Str(d.webViewLink)
    else if key == "driveLabel" then Str(d.driveLabel)
    else if key == "credentialIndex" then Int(d.credentialIndex)
    else if key == "isLoginDrive" then Bool(d.isLoginDrive)
    else Bool(d.isDrive2)
  }

  /** `DriveLink.to_dict`: the six camelCase keys, read back unchanged by `from_dict`. */
  function DriveLinkToDict(d: DriveLink): (r: Dict)
    ensures r.Keys == DriveLinkKeys
    ensures DriveLinkFromDict(r) == d
  {
    map key | key in DriveLinkKeys :: DriveLinkField(d, key)
  }

  /** `DriveLink.from_dict`: a missing key gives `''`, `0` or `False`. */
  function DriveLinkFromDict(data: Dict): DriveLink
  {
    DriveLink(
      fileId := GetStr(data, "fileId", ""),
      webViewLink := GetStr(data, "webViewLink", ""),
      driveLabel := GetStr(data, "driveLabel", ""),
      credentialIndex := GetInt(data, "credentialIndex", 0),
      isLoginDrive := GetBool(data, "isLoginDrive", false),
      isDrive2 := GetBool(data, "isDrive2", false))
  }

  /** One entry of the `driveLinks` list, read back as a dictionary. */
  function DriveLinkFromValue(v: Value): DriveLink
  {
    DriveLinkFromDict(if v.Obj? then v.fields else map[])
  }

  /** `DriveLink.to_dict` emits six keys. */
  lemma DriveLinkKeyCount()
    ensures |DriveLinkKeys| == 6
  {
    KeyCount(DriveLinkKeyList, DriveLinkKeys);
  }

  lemma KeyCount(list: seq<string>, keys: set<string>)
    requires Seqs.Distinct(list)
    requires forall k :: k in keys <==> k in list
    ensures |keys| == |list|
  {
    assert keys == set k | k in list;
    Seqs.DistinctCard(list);
  }

  lemma DriveLinkFromEmpty()
    ensures DriveLinkFromDict(map[]) == DriveLink("", "", "", 0, false, false)
  {
  }

  /** Keys other than the six are ignored. */
  lemma DriveLinkFromDictIgnoresOtherKeys(data: Dict, extra: Dict)
    requires extra.Keys !! DriveLinkKeys
    ensures DriveLinkFromDict(data + extra) == DriveLinkFromDict(data - extra.Keys)
  {
  }

  // ----------------------------------------------------------------- Metadata

  /** File metadata, including the conversion state for the hosts. */
  datatype Metadata = Metadata(
    mimeType: string,
    fileExtension: string,
    modifiedTime: string,
    createdTime: string,
    pixeldrainConversionFailed: bool,
    pixeldrainConversionFailedAt: string,
    pixeldrainConversionError: string,
    vikingConversionFailed: bool,
    vikingConversionFailedAt: string)

  /** The keys of `Metadata.to_dict`, in the order it writes them. */
  const MetadataKeyList: seq<string> :=
    ["mimeType", "fileExtension", "modifiedTime", "createdTime",
     "pixeldrainConversionFailed", "pixeldrainConversionFailedAt",
     "pixeldrainConversionError", "vikingConversionFailed", "vikingConversionFailedAt"]
  // The same keys as a set display: membership in a display is much cheaper
  // for the verifier than membership in a comprehension over the list, and
  // `KeyCount` ties the two together.
  const MetadataKeys: set<string> :=
    {"mimeType", "fileExtension", "modifiedTime", "createdTime",
     "pixeldrainConversionFailed", "pixeldrainConversionFailedAt",
     "pixeldrainConversionError", "vikingConversionFailed", "vikingConversionFailedAt"}

  /** The value `to_dict` stores under each of the nine keys. */
  function MetadataField(m: Metadata, key: string): Value
  {
    if key == "mimeType" then Str(m.mimeType)
    else if key == "fileExtension" then Str(m.fileExtension)
    else if key == "modifiedTime" then Str(m.modifiedTime)
    else if key == "createdTime" then Str(m.createdTime)
    else if key == "pixeldrainConversionFailed" then Bool(m.pixeldrainConversionFailed)
    else if key == "pixeldrainConversionFailedAt" then Str(m.pixeldrainConversionFailedAt)
    else if key == "pixeldrainConversionError" then Str(m.pixeldrainConversionError)
    else if key == "vikingConversionFailed" then Bool(m.vikingConversionFailed)
    else Str(m.vikingConversionFailedAt)
  }

  /** `Metadata.to_dict`: the nine camelCase keys, read back unchanged by `from_dict`. */
  function MetadataToDict(m: Metadata): (r: Dict)
    ensures r.Keys == MetadataKeys
    ensures MetadataFromDict(r) == m
  {
    map key | key in MetadataKeys :: MetadataField(m, key)
  }

  /** `Metadata.from_dict`: a missing key gives `''` or `False`. */
  function MetadataFromDict(data: Dict): Metadata
  {
    Metadata(
      mimeType := GetStr(data, "mimeType", ""),
      fileExtension := GetStr(data, "fileExtension", ""),
      modifiedTime := GetStr(data, "modifiedTime", ""),
      createdTime := GetStr(data, "createdTime", ""),
      pixeldrainConversionFailed := GetBool(data, "pixeldrainConversionFailed", false),
      pixeldrainConversionFailedAt := GetStr(data, "pixeldrainConversionFailedAt", ""),
      pixeldrainConversionError := GetStr(data, "pixeldrainConversionError", ""),
      vikingConversionFailed := GetBool(data, "vikingConversionFailed", false),
      vikingConversionFailedAt := GetStr(data, "vikingConversionFailedAt", ""))
  }

  /** `Metadata.to_dict` emits nine keys. */
  lemma MetadataKeyCount()
    ensures |MetadataKeys| == 9
  {
    KeyCount(MetadataKeyList, MetadataKeys);
  }

  /** Keys other than the nine are ignored. */
  lemma MetadataFromDictIgnoresOtherKeys(data: Dict, extra: Dict)
    requires extra.Keys !! MetadataKeys
    ensures MetadataFromDict(data + extra) == MetadataFromDict(data - extra.Keys)
  {
  }

  lemma MetadataFromEmpty()
    ensures MetadataFromDict(map[]) == Metadata("", "", "", "", false, "", "", false, "")
  {
  }

  // ------------------------------------------------------------------ OxxFile

  /**
   * A file with links on several hosting services. The defaults are those of
   * the record's constructor: `None` for the optional links, `""` for the
   * hubcloud and filepress links and the user name, `0` for the credential index.
   */
  datatype OxxFile = OxxFile(
    id: string,
    code: string,
    fileName: string,
    size: int,
    driveLinks: seq<DriveLink>,
    metadata: Metadata,
    createdAt: string,
    views: int,
    status: string,
    gdtotLink: Option<string> := None,
    gdtotName: Option<string> := None,
    hubcloudLink: string := "",
    filepressLink: string := "",
    vikingLink: Option<string> := None,
    pixeldrainLink: Option<string> := None,
    credentialIndex: int := 0,
    duration: Option<string> := None,
    userName: string := "")

  /**
   * The keys of `OxxFile.to_dict`, in the order it writes them; the credential
   * index alone is spelled in snake_case.
   */
  const OxxFileKeyList: seq<string> :=
    ["id", "code", "fileName", "size", "driveLinks", "metadata", "createdAt",
     "views", "status", "gdtotLink", "gdtotName", "hubcloudLink", "filepressLink",
     "vikingLink", "pixeldrainLink", "credential_index", "duration", "userName"]
  // The same keys as a set display: membership in a display is much cheaper
  // for the verifier than membership in a comprehension over the list, and
  // `KeyCount` ties the two together.
  const OxxFileKeys: set<string> :=
    {"id", "code", "fileName", "size", "driveLinks", "metadata", "createdAt",
     "views", "status", "gdtotLink", "gdtotName", "hubcloudLink", "filepressLink",
     "vikingLink", "pixeldrainLink", "credential_index", "duration", "userName"}

  /** `[link.to_dict() for link in drive_links]`. */
  function DriveLinksToValues(links: seq<DriveLink>): (r: seq<Value>)
    ensures |r| == |links|
    ensures forall i :: 0 <= i < |r| ==> r[i].Obj? && DriveLinkFromDict(r[i].fields) == links[i]
  {
    seq(|links|, i requires 0 <= i < |links| => Obj(DriveLinkToDict(links[i])))
  }

  /** `[DriveLink.from_dict(link) for link in data.get('driveLinks', [])]`. */
  function DriveLinksFromValues(items: seq<Value>): (r: seq<DriveLink>)
    ensures |r| == |items|
  {
    seq(|items|, i requires 0 <= i < |items| => DriveLinkFromValue(items[i]))
  }

  /** The value `to_dict` stores under each of the eighteen keys. */
  function OxxFileField(x: OxxFile, key: string): Value
  {
    if key == "id" then Str(x.id)
    else if key == "code" then Str(x.code)
    else if key == "fileName" then Str(x.fileName)
    else if key == "size" then Int(x.size)
    else if key == "driveLinks" then Arr(DriveLinksToValues(x.driveLinks))
    else if key == "metadata" then Obj(MetadataToDict(x.metadata))
    else if key == "createdAt" then Str(x.createdAt)
    else if key == "views" then Int(x.views)
    else if key == "status" then Str(x.status)
    else if key == "gdtotLink" then OptStr(x.gdtotLink)
    else if key == "gdtotName" then OptStr(x.gdtotName)
    else if key == "hubcloudLink" then Str(x.hubcloudLink)
    else if key == "filepressLink" then Str(x.filepressLink)
    else if key == "vikingLink" then OptStr(x.vikingLink)
    else if key == "pixeldrainLink" then OptStr(x.pixeldrainLink)
    else if key == "credential_index" then Int(x.credentialIndex)
    else if key == "duration" then OptStr(x.duration)
    else Str(x.userName)
  }

  /** `OxxFile.to_dict`: exactly the eighteen keys, with the nested records as dictionaries. */
  function OxxFileToDict(x: OxxFile): (r: Dict)
    ensures r.Keys == OxxFileKeys
  {
    map key | key in OxxFileKeys :: OxxFileField(x, key)
  }

  /** `OxxFile.from_dict`: lenient; a missing key gives the field's default. */
  function OxxFileFromDict(data: Dict): OxxFile
  {
    OxxFile(
      id := GetStr(data, "id", ""),
      code := GetStr(data, "code", ""),
      fileName := GetStr(data, "fileName", ""),
      size := GetInt(data, "size", 0),
      driveLinks := DriveLinksFromValues(GetList(data, "driveLinks")),
      metadata := MetadataFromDict(GetDict(data, "metadata")),
      createdAt := GetStr(data, "createdAt", ""),
      views := GetInt(data, "views", 0),
      status := GetStr(data, "status", ""),
      gdtotLink := GetOptStr(data, "gdtotLink"),
      gdtotName := GetOptStr(data, "gdtotName"),
      hubcloudLink := GetStr(data, "hubcloudLink", ""),
      filepressLink := GetStr(data, "filepressLink", ""),
      vikingLink := GetOptStr(data, "vikingLink"),
      pixeldrainLink := GetOptStr(data, "pixeldrainLink"),
      credentialIndex := GetInt(data, "credential_index", 0),
      duration := GetOptStr(data, "duration"),
      userName := GetStr(data, "userName", ""))
  }

  /** `OxxFile.to_dict` emits eighteen keys. */
  lemma OxxFileKeyCount()
    ensures |OxxFileKeys| == 18
  {
    KeyCount(OxxFileKeyList, OxxFileKeys);
  }

  /** Reading back what `to_dict` wrote gives the same file, field for field. */
  lemma OxxFileRoundTrip(x: OxxFile)
    ensures OxxFileFromDict(OxxFileToDict(x)) == x
  {
    RoundTripFirstFields(x);
    RoundTripHostFields(x);
    RoundTripLastFields(x);
  }

  lemma RoundTripFirstFields(x: OxxFile)
    ensures var back := OxxFileFromDict(OxxFileToDict(x));
      && back.id == x.id && back.code == x.code && back.fileName == x.fileName
      && back.size == x.size && back.driveLinks == x.driveLinks && back.metadata == x.metadata
      && back.createdAt == x.createdAt && back.views == x.views && back.status == x.status
  {
    var d := OxxFileToDict(x);
    assert GetDict(d, "metadata") == MetadataToDict(x.metadata);
    assert DriveLinksFromValues(GetList(d, "driveLinks")) == x.driveLinks;
  }

  lemma RoundTripHostFields(x: OxxFile)
    ensures var back := OxxFileFromDict(OxxFileToDict(x));
      && back.gdtotLink == x.gdtotLink && back.gdtotName == x.gdtotName
      && back.hubcloudLink == x.hubcloudLink && back.filepressLink == x.filepressLink
  {
  }

  lemma RoundTripLastFields(x: OxxFile)
    ensures var back := OxxFileFromDict(OxxFileToDict(x));
      && back.vikingLink == x.vikingLink && back.pixeldrainLink == x.pixeldrainLink
      && back.credentialIndex == x.credentialIndex && back.duration == x.duration
      && back.userName == x.userName
  {
  }

  /**
   * From an empty dictionary: empty strings, zeros, no drive links, default
   * metadata, and the constructor's defaults for every defaulted field.
   */
  lemma OxxFileFromEmpty()
    ensures OxxFileFromDict(map[]) == OxxFile("", "", "", 0, [], MetadataFromDict(map[]), "", 0, "")
    ensures OxxFileFromDict(map[]).gdtotLink == None && OxxFileFromDict(map[]).vikingLink == None
    ensures OxxFileFromDict(map[]).pixeldrainLink == None && OxxFileFromDict(map[]).duration == None
    ensures OxxFileFromDict(map[]).hubcloudLink == "" && OxxFileFromDict(map[]).filepressLink == ""
  {
  }

  /** Keys other than the eighteen are ignored. */
  lemma OxxFileFromDictIgnoresOtherKeys(data: Dict, extra: Dict)
    requires extra.Keys !! OxxFileKeys
    ensures OxxFileFromDict(data + extra) == OxxFileFromDict(data - extra.Keys)
  {
  }

  /** The camelCase spelling of the credential index is not read back. */
  lemma CamelCaseCredentialIndexIgnored(n: int)
    ensures OxxFileFromDict(map["credentialIndex" := Int(n)]).credentialIndex == 0
    ensures OxxFileFromDict(map["credential_index" := Int(n)]).credentialIndex == n
  {
  }

  // ------------------------------------------------------- viking accessors

  /** Python truthiness of an `Optional[str]`: neither `None` nor empty. */
  predicate Truthy(o: Option<string>)
  {
    OrEmpty(o) != ""
  }

  /** `has_viking_link`: the link is set and non-empty. */
  predicate HasVikingLink(x: OxxFile)
    ensures HasVikingLink(x) <==> Truthy(x.vikingLink)
  {
    x.vikingLink != None && |x.vikingLink.value| > 0
  }

  /** `is_viking_conversion_failed`. */
  predicate IsVikingConversionFailed(x: OxxFile)
  {
    x.metadata.vikingConversionFailed
  }

  /** Whether a file read from `data` has a viking link depends on its `vikingLink` key alone. */
  lemma HasVikingLinkFromDict(data: Dict)
    ensures HasVikingLink(OxxFileFromDict(data))
        <==> "vikingLink" in data && data["vikingLink"].Str? && data["vikingLink"].s != ""
  {
  }

  /** Whether a file read from `data` failed viking conversion depends on its nested metadata alone. */
  lemma IsVikingConversionFailedFromDict(data: Dict)
    ensures IsVikingConversionFailed(OxxFileFromDict(data))
        <==> "metadata" in data && data["metadata"].Obj?
             && "vikingConversionFailed" in data["metadata"].fields
             && data["metadata"].fields["vikingConversionFailed"] == Bool(true)
  {
  }

  const VikingInfoKeys: set<string> :=
    {"viking_link", "viking_conversion_failed", "viking_conversion_failed_at", "has_viking_link"}

  /** `get_viking_info`: its flags agree with the two accessors. */
  function VikingInfo(x: OxxFile): (r: Dict)
    ensures r.Keys == VikingInfoKeys
    ensures GetOptStr(r, "viking_link") == x.vikingLink
    ensures r["has_viking_link"] == Bool(HasVikingLink(x))
    ensures r["viking_conversion_failed"] == Bool(IsVikingConversionFailed(x))
    ensures GetStr(r, "viking_conversion_failed_at", "") == x.metadata.vikingConversionFailedAt
  {
    map[
      "viking_link" := OptStr(x.vikingLink),
      "viking_conversion_failed" := Bool(x.metadata.vikingConversionFailed),
      "viking_conversion_failed_at" := Str(x.metadata.vikingConversionFailedAt),
      "has_viking_link" := Bool(HasVikingLink(x))
    ]
  }
}
