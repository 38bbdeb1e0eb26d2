# Viking file records — a Dafny model

This project models the record layer of `StreamPlay/viking_file_handler.py`:

- `DriveLink`, a Google Drive link with its metadata.
- `Metadata`, the mime type and times of a file, plus its per-host conversion-failure state.
- `OxxFile`, a file with links on several hosting services (viking, pixeldrain, gdtot, hubcloud, filepress and any number of drive links).
- The `to_dict` / `from_dict` mappings of all three records.
- The viking accessors of `OxxFile` and its `get_all_links` link table.
- The filters and counts of `VikingFileHandler`.

Modules:

- `Wrappers`: `Option`, which models Python's `Optional[str]`.
- `Json`: the `Value` type a dictionary holds, and the lenient `dict.get(key, default)` reads.
- `OxxRecords`: the three records, their dictionary mappings, `has_viking_link`, `is_viking_conversion_failed` and `get_viking_info`.
- `OxxLinks`: `get_all_links`. It is written as a method with a loop. The method is proved equal to a reference table: the named hosts in fixed order, filtered to the non-empty links, followed by one `drive_n` entry per drive link. The Python dictionary it builds is modelled as its sequence of (key, link) entries in insertion order. `Lookup` reads it like `dict.get`.
- `VikingHandler`: the two filters and the counts of `get_viking_statistics`.
- `Seqs`: the generic filter behind Python's list comprehensions, with its lemmas.
- `Decimal`: the decimal rendering used by `f'drive_{i+1}'`.

A dictionary of `to_dict` is a `map<string, Value>`. `to_dict` is written as a map over its fixed key set, and one function gives the value stored under each key. When `Optional` link fields are `None`, they are stored as JSON null. `from_dict` never fails: a missing key, or an explicit null for an optional field, gives the field's default.

Every key of `OxxFile.to_dict` is camelCase except `'credential_index'` (line 142), and `from_dict` reads that same key (line 169). `DriveLink` uses `'credentialIndex'` (lines 31 and 43). `CamelCaseCredentialIndexIgnored` shows that a camelCase key is not read back into a file.

Nothing in `OxxFile` stops an optional link from being present and empty. `has_viking_link` and `get_all_links` treat such a link as no link.

## Model

| member | source | states |
|---|---|---|
| `OxxRecords.DriveLinkToDict` | StreamPlay/viking_file_handler.py:25-46 | emits exactly the six camelCase keys, and `from_dict` of the result gives back the same drive link |
| `OxxRecords.DriveLinkKeyCount` | StreamPlay/viking_file_handler.py:27-34 | the drive-link dictionary has six distinct keys |
| `OxxRecords.DriveLinkFromDict` | StreamPlay/viking_file_handler.py:37-46 | no contract of its own; stated by `DriveLinkToDict` (read-back), `DriveLinkFromEmpty` and `DriveLinkFromDictIgnoresOtherKeys` |
| `OxxRecords.DriveLinkFromEmpty` | StreamPlay/viking_file_handler.py:39-46 | `from_dict({})` gives empty strings, `0` and `False` |
| `OxxRecords.DriveLinkFromDictIgnoresOtherKeys` | StreamPlay/viking_file_handler.py:39-46 | keys outside the six do not affect the result |
| `OxxRecords.MetadataToDict` | StreamPlay/viking_file_handler.py:62-89 | emits exactly the nine camelCase keys, and `from_dict` of the result gives back the same metadata |
| `OxxRecords.MetadataKeyCount` | StreamPlay/viking_file_handler.py:64-74 | the metadata dictionary has nine distinct keys |
| `OxxRecords.MetadataFromDict` | StreamPlay/viking_file_handler.py:76-89 | no contract of its own; stated by `MetadataToDict` (read-back), `MetadataFromEmpty` and `MetadataFromDictIgnoresOtherKeys` |
| `OxxRecords.MetadataFromEmpty` | StreamPlay/viking_file_handler.py:79-89 | `from_dict({})` gives empty strings and `False` |
| `OxxRecords.MetadataFromDictIgnoresOtherKeys` | StreamPlay/viking_file_handler.py:79-89 | keys outside the nine do not affect the result |
| `OxxRecords.DriveLinksToValues` | StreamPlay/viking_file_handler.py:131 | one dictionary per drive link, in order, each read back to that drive link |
| `OxxRecords.OxxFileToDict` | StreamPlay/viking_file_handler.py:124-145 | emits exactly the eighteen keys, including the snake_case `credential_index` |
| `OxxRecords.OxxFileKeyCount` | StreamPlay/viking_file_handler.py:126-145 | the file dictionary has eighteen distinct keys |
| `OxxRecords.OxxFileRoundTrip` | StreamPlay/viking_file_handler.py:124-172 | `from_dict(to_dict(x)) == x` for every file, including the drive-link list in order and the nested metadata |
| `OxxRecords.RoundTripFirstFields` | StreamPlay/viking_file_handler.py:127-135 | the round trip keeps the scalar fields, the drive links and the metadata |
| `OxxRecords.RoundTripHostFields` | StreamPlay/viking_file_handler.py:136-139 | the round trip keeps the gdtot, hubcloud and filepress fields, with `None` kept as `None` |
| `OxxRecords.RoundTripLastFields` | StreamPlay/viking_file_handler.py:140-144 | the round trip keeps the viking and pixeldrain links, the credential index under its snake_case key, the duration and the user name |
| `OxxRecords.OxxFileFromDict` | StreamPlay/viking_file_handler.py:147-172 | no contract of its own; stated by `OxxFileRoundTrip`, `OxxFileFromEmpty`, `OxxFileFromDictIgnoresOtherKeys` and `CamelCaseCredentialIndexIgnored` |
| `OxxRecords.OxxFileFromEmpty` | StreamPlay/viking_file_handler.py:147-172 | `from_dict({})` gives `None` for gdtot link and name, viking link, pixeldrain link and duration; `""` for hubcloud, filepress and user name; no drive links; default metadata; and it agrees with the record's constructor defaults |
| `OxxRecords.OxxFileFromDictIgnoresOtherKeys` | StreamPlay/viking_file_handler.py:147-172 | keys outside the eighteen do not affect the result |
| `OxxRecords.CamelCaseCredentialIndexIgnored` | StreamPlay/viking_file_handler.py:169 | the credential index is read only from `credential_index`; a `credentialIndex` key leaves it at `0` |
| `OxxRecords.HasVikingLink` | StreamPlay/viking_file_handler.py:184-186 | "set and of positive length" is the same test as Python truthiness of the optional link |
| `OxxRecords.HasVikingLinkFromDict` | StreamPlay/viking_file_handler.py:184-186 | a file read from a dictionary has a viking link iff the `vikingLink` key holds a non-empty string |
| `OxxRecords.IsVikingConversionFailed` | StreamPlay/viking_file_handler.py:188-190 | no contract of its own; stated by `IsVikingConversionFailedFromDict`, `VikingInfo` and `FilterByVikingConversionFailedPositions` |
| `OxxRecords.IsVikingConversionFailedFromDict` | StreamPlay/viking_file_handler.py:188-190 | a file read from a dictionary has failed viking conversion iff its nested metadata holds `vikingConversionFailed: true` |
| `OxxRecords.VikingInfo` | StreamPlay/viking_file_handler.py:213-220 | exactly four keys; a lookup of `viking_link` gives the file's link; `has_viking_link` equals `has_viking_link()`; `viking_conversion_failed` equals `is_viking_conversion_failed()`; the failure time is the metadata's |
| `OxxLinks.HostLinksUnfold` | StreamPlay/viking_file_handler.py:196-205 | the filtered host table is the five conditional inserts, in the source's order |
| `OxxLinks.AllLinks` | StreamPlay/viking_file_handler.py:192-211 | the reference table `GetAllLinks` is proved to build; no contract of its own; stated by `AllLinksOrdered`, `AllLinksDistinctKeys`, `AllLinksKeys`, `LookupHost`, `LookupHosts` and `LookupDrive` |
| `OxxLinks.Lookup` | StreamPlay/viking_file_handler.py:192-211 | `dict.get` on the table, reading entries in insertion order; no contract of its own; used by the lookup lemmas |
| `OxxLinks.GetAllLinks` | StreamPlay/viking_file_handler.py:192-211 | the loop builds exactly the reference table; its keys are distinct; it has a `viking` key iff the file has a viking link |
| `OxxLinks.AllLinksOrdered` | StreamPlay/viking_file_handler.py:192-211 | entries appear in the order viking, pixeldrain, gdtot, hubcloud, filepress, `drive_1` … `drive_n` |
| `OxxLinks.AllLinksDistinctKeys` | StreamPlay/viking_file_handler.py:192-211 | no key is inserted twice |
| `OxxLinks.AllLinksKeys` | StreamPlay/viking_file_handler.py:192-211 | every key is a named host or `drive_n` with `1 <= n <= len(drive_links)` |
| `OxxLinks.LookupHost` | StreamPlay/viking_file_handler.py:196-205 | a named host has an entry iff its link is non-empty and not `None`, and the entry is that link |
| `OxxLinks.LookupHosts` | StreamPlay/viking_file_handler.py:196-205 | the same for each of the five hosts in terms of the file's fields; `viking` is present iff `has_viking_link()` |
| `OxxLinks.LookupDrive` | StreamPlay/viking_file_handler.py:207-209 | `drive_n` is present iff `1 <= n <= len(drive_links)`, and it maps to `drive_links[n-1].web_view_link` |
| `OxxLinks.VikingInfoAgreesWithLinks` | StreamPlay/viking_file_handler.py:213-220 | `get_viking_info()['has_viking_link']` holds iff `get_all_links()` has a `viking` entry, and then both carry the same link |
| `VikingHandler.FilterByVikingLink` | StreamPlay/viking_file_handler.py:240-242 | no longer than the input; every kept file has a viking link |
| `VikingHandler.FilterByVikingConversionFailed` | StreamPlay/viking_file_handler.py:245-247 | no longer than the input; every kept file has failed viking conversion |
| `VikingHandler.FilterByVikingLinkPositions` | StreamPlay/viking_file_handler.py:240-242 | the result is the input read at strictly increasing positions, and these are exactly the positions of the files with a viking link |
| `VikingHandler.FilterByVikingConversionFailedPositions` | StreamPlay/viking_file_handler.py:245-247 | the same for the files whose viking conversion failed |
| `VikingHandler.FiltersIdempotent` | StreamPlay/viking_file_handler.py:240-247 | filtering twice gives the same result as filtering once, for both filters |
| `VikingHandler.FiltersConcat` | StreamPlay/viking_file_handler.py:240-247 | filtering a concatenation concatenates the filtered parts, for both filters |
| `VikingHandler.GetVikingStatistics` | StreamPlay/viking_file_handler.py:250-259 | `total_files` is the number of files; `files_with_viking_link` and `viking_conversion_failures` each equal the length of the matching filter and count the positions satisfying the predicate; both are at most `total_files` |
| `VikingHandler.StatisticsConcat` | StreamPlay/viking_file_handler.py:250-259 | the counts of a concatenation are the sums of the counts of its parts |

## Left out

- `parse_file` and `save_file` (lines 227-237) read and write files. File I/O is not modelled.
- `to_json` and `from_json` (lines 174-182) are thin wrappers over Python's `json` text encoding. The model stops at the dictionary level: `to_dict` and `from_dict`.
- The `success_rate` entry of `get_viking_statistics` (lines 260-261) is floating-point division, so it is not modelled. Its numerator can also be negative, because failures are counted over all files, not only over those with a viking link.
- The example block under `__main__` (lines 266-321) only builds samples and prints them.
- OxxFileFromDict, MetadataFromDict and DriveLinkFromDict assume well-typed values. In the model, a present key whose value has the wrong type gives the field's default. Python would store the wrong-typed value unchanged, or raise an error when iterating over or reading a non-list `driveLinks`, a non-dictionary element of `driveLinks` (line 150) or a non-dictionary `metadata`. The model reads a non-dictionary element of `driveLinks` as a default `DriveLink` (`DriveLinkFromValue`).
- OxxFileToDict, MetadataToDict and DriveLinkToDict give maps, which have no key order. The order in which Python writes the keys matters only for the JSON text. It is recorded in the `...KeyList` constants but is not part of the map.
- Python's dataclasses do not check field types at run time. The Dafny datatypes are typed, so fields with the wrong type cannot be expressed.
- The HTML link extraction, URL identifier resolution, page fetching and command-line interface are not in `viking_file_handler.py`, so they are not part of this model.
