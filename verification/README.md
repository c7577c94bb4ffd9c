# OAI-PMH harvester: record normalisation and configuration

This project models the core of the CKAN OAI-PMH harvester (`ckanext/oaipmh/harvester.py`) in Dafny. Every part is a pure function over immutable values. The model covers:

- how a harvest source's configuration is decoded into credentials, set-spec, metadata prefix and the force-GET flag, with their defaults;
- which keyword arguments go to the OAI-PMH `ListIdentifiers` and `GetRecord` calls (the `set` argument only when a set-spec is configured);
- the metadata-reader registry's prefix table;
- the content the fetch stage stores for a record: the reader's field mapping, plus `set_spec`, plus `metadata_modified` when the header has a datestamp. Content is stored only when every step succeeds;
- the import-stage normaliser, which turns a content map into the package dict handed to CKAN. It covers the per-dialect mapping table and the first-value mapping loop, author precedence, license combination, URL format classification, resource candidates and positional resources, the tag/extras split, group ordering, and `id == name` derived from the guid.

The dialect is `Dif` (metadata prefix `'dif'`) or `OtherPrefix` (any other prefix). Every Python exception raised by a modelled step, which the import stage's catch-all turns into an import failure, is a `Failure` value of `ImportError`. Exceptions from the CKAN services the import stage also calls are not modelled (see "## Left out"). Examples are a missing key, an index past the end of a list, `append` on a string, and a non-ASCII text formatted into a byte-string template.

Modules:

- `Wrappers`: `Option` and `Result`.
- `Strings`: Python's `lower`, `in`, `startswith`, `join`, `split(';')` and `[:n]`, with the split/join round trips.
- `Configuration`: `_set_config`, dialect dispatch, the reader registry and request arguments.
- `Records`: content values, harvest objects and `fetch_stage`.
- `Normalizer`: the import normaliser's helpers.
- `Importing`: the package dict and `import_stage`.
- `Scenarios`: concrete records and the results the model proves for them.

Several things are parameters of the model rather than parts of it:

- The content map is the already-decoded JSON.
- The order in which Python iterates the content dict is a parameter `keys`, which visits every key of the content exactly once.
- The external sanitisers `munge_title_to_name` and `munge_tag`, the group find-or-create, and the source dataset's `owner_org` are fields of a `Catalog` value.
- The OAI-PMH client's answer to a `GetRecord` request is a parameter of the fetch stage.

Content values are `Items(list)` or `Text(string)`. Reader fields are taken to be text lists (see "## Left out"), and only the injected `metadata_modified` is a string. Where Python iterates, indexes or joins a value, the model goes through `Elems`, which yields a string's characters as Python would.

Three behaviours of the code are worth stating directly, because the model follows them exactly:

- A missing `Creator`, `Publisher`, `Use-constraints`, `Access-constraints`, `creator`, `rights`, `format` or `identifier` key raises, so the import fails.
- With a `Related_URL/Description` list shorter than the URL list, indexing past its end raises, so the DIF import fails.
- The license is combined only when neither joined constraint contains "not available". The test is on that text, not on the keys' presence. The combined form is built with a byte-string template, which raises in Python 2 when either constraint has a non-ASCII character, so the import fails then too.

## Model

| member | source | states |
|---|---|---|
| Configuration.ParseConfig | ckanext/oaipmh/harvester.py:130-149 | credentials are `(username, password)` exactly when both keys are present, otherwise none; `set` defaults to null, `metadata_prefix` to `'dif'`, `force_http_get` to false; user is `harvest` |
| Configuration.EmptyConfigGivesDefaults | ckanext/oaipmh/harvester.py:132-149 | a missing/empty configuration and `{}` both give exactly the defaults: no credentials, no set-spec, `dif`, no forced GET |
| Configuration.OnlyConfigKeysMatter | ckanext/oaipmh/harvester.py:136-149 | keys other than the five read have no effect on the decoded configuration |
| Configuration.DialectOf | ckanext/oaipmh/harvester.py:371-372 | the DIF branch is taken exactly when the metadata prefix is the string `'dif'` |
| Configuration.ReaderFor | ckanext/oaipmh/harvester.py:122-128 | a reader is registered exactly for `oai_dc`, `oai_ddi` and `dif`: `oai_dc` is served by the Dublin Core reader, `oai_ddi` by the DDI reader and `dif` by the second DIF reader, each reader by its prefix only |
| Configuration.DefaultPrefixIsRegistered | ckanext/oaipmh/harvester.py:122-147 | the default configuration selects the DIF dialect, whose prefix has a registered reader |
| Configuration.ListIdentifiersArgs | ckanext/oaipmh/harvester.py:107-120 | the request always carries `metadataPrefix = md_format`; it carries `set` exactly when the set-spec is truthy, with that value; no other argument |
| Configuration.SetArgumentOnlyWhenConfigured | ckanext/oaipmh/harvester.py:107-120 | a configuration with no `set`, a null one or `""` yields no `set` argument at all; a non-empty set string is passed through |
| Configuration.RequestsShareThePrefix | ckanext/oaipmh/harvester.py:188-191 | ListIdentifiers and GetRecord use one and the same metadata prefix, the configured one or `dif`; GetRecord names the object's guid; the record is requested as `dif` exactly when the import reads it as DIF |
| Records.BuildContent | ckanext/oaipmh/harvester.py:200-216 | stored content has the reader's fields as lists, `set_spec` always (overriding any reader field of that name), and `metadata_modified` exactly when the datestamp is non-empty |
| Records.FetchStage | ckanext/oaipmh/harvester.py:170-235 | the fetch succeeds exactly when GetRecord answered with metadata; on failure the object is unchanged; on success only its content is set, to the built content |
| Records.Fetch | ckanext/oaipmh/harvester.py:171-226 | the fetch asks the client for the object's own guid in the configured prefix, and stores content built from that answer exactly when it carries metadata; the guid and everything else but the content stay as they were, and on failure the object is unchanged |
| Records.FetchedContentShape | ckanext/oaipmh/harvester.py:209-216 | fetched content always has a list-valued `set_spec`, and every other reader field survives as the same list |
| Normalizer.MappingTable | ckanext/oaipmh/harvester.py:371-398 | per-dialect target/source table with distinct targets, none of them `id` or `name`, both including `maintainer_email` |
| Normalizer.SourceFields | ckanext/oaipmh/harvester.py:434-435 | the mapping's source fields are exactly `Entry-title`, `Summary/Abstract`, `Personnel/Email` for DIF and `title`, `description`, `publisher`, `maintainer_email`, `source` otherwise |
| Normalizer.ApplyMapping | ckanext/oaipmh/harvester.py:284-294 | a row whose guarded first value exists sets its target to it; any other row leaves its target as it was; keys that are not targets are untouched |
| Normalizer.MapFieldsSpec | ckanext/oaipmh/harvester.py:276-294 | target T is present iff its source S is present and non-empty and, for `maintainer_email`, `content[S][0]` has an `@`; then it equals `content[S][0]`; `id` and `name` stay the munged guid; no other key appears |
| Normalizer.NotAvailableIsSentinel | ckanext/oaipmh/harvester.py:405-410 | the fallback literal `Not available` is itself an unavailable value |
| Normalizer.AuthorOf | ckanext/oaipmh/harvester.py:400-412 | DIF fails unless both `Creator` and `Publisher` exist; the author is the joined creators if available, else the joined publishers if available, else the literal `Not available`, so it reads as unavailable iff both do; non-DIF is the joined `creator` list |
| Normalizer.CombinedLicenseNotSentinel | ckanext/oaipmh/harvester.py:420-421 | joining two available constraints with `", "` never yields an unavailable value |
| Normalizer.LicenseOf | ckanext/oaipmh/harvester.py:414-427 | DIF: `"use, access"` when both available, failing with a not-ASCII error exactly when either has a non-ASCII character; else the available one with use first; none iff both unavailable; never an unavailable string; non-DIF: the raw `rights` value; a missing key fails |
| Normalizer.Classify | ckanext/oaipmh/harvester.py:456-465 | on the lower-cased URL: `wms` iff it contains `wms`; `opendap` iff `dods` but not `wms`; `thredds` iff `catalog` but neither; else `HTML` |
| Normalizer.ClassifyAll | ckanext/oaipmh/harvester.py:454-469 | one format per URL, same length and order, each the URL's classification |
| Normalizer.FormatsOf | ckanext/oaipmh/harvester.py:452-471 | DIF formats classify `Related_URL/URL` position by position; non-DIF formats are the raw `format` value; a missing key fails |
| Normalizer.FirstHttp | ckanext/oaipmh/harvester.py:479-486 | at most one URL; empty iff no candidate starts with `http://` or `https://`; otherwise the first candidate that does |
| Normalizer.PossibleResource | ckanext/oaipmh/harvester.py:473-486 | DIF: the related URLs, content unchanged; non-DIF: the guid is appended to the `identifier` list in the content, and the first HTTP(S) candidate is returned; a missing or string `identifier` fails; no key is added or removed |
| Normalizer.CandidatesKeepOtherFields | ckanext/oaipmh/harvester.py:480-481 | computing the candidates changes no content field other than `identifier` |
| Normalizer.DifResources | ckanext/oaipmh/harvester.py:499-505 | succeeds iff descriptions and formats are at least as long as the URLs; then resource i is (description i, format i, format i, URL i) |
| Normalizer.NonDifResourceIsFirstHttp | ckanext/oaipmh/harvester.py:479-526 | when the non-DIF resources can be built, there is exactly one, and its URL is the first HTTP(S) candidate among the identifiers and the guid |
| Normalizer.ResourcesOf | ckanext/oaipmh/harvester.py:489-526 | DIF: no URLs give no resources; otherwise one resource per URL with positional description and classified format, failing when descriptions are missing or too few; non-DIF: fails on an empty candidate list or a missing title; else one resource named by the first title with the first `format` value, or `thredds`/`HTML` by the URL |
| Normalizer.Partition | ckanext/oaipmh/harvester.py:433-446 | every extra's key is a visited key that is neither a mapping source nor `type`/`subject`, with its first value; each such key yields its extra; the tag strings are the elements (split on `;` for strings) of the `type`/`subject` keys that are not mapping sources, concatenated in visiting order with duplicates kept |
| Normalizer.ExtrasCountOne | ckanext/oaipmh/harvester.py:433-446 | with each key visited once, every extra key yields exactly one extra and every other key none |
| Normalizer.MungeTags | ckanext/oaipmh/harvester.py:448 | one tag per tag string, in order, each the munged first 100 characters |
| Normalizer.TagsAndExtrasSpec | ckanext/oaipmh/harvester.py:429-450 | mapping sources appear in neither output; the tags are, position by position, the munged first 100 characters of the `type`/`subject` elements in visiting order, duplicates kept; every other key of the content gives exactly one extra |
| Normalizer.ResolveGroups | ckanext/oaipmh/harvester.py:542-560 | one group id per name, in order, each from the catalog's find-or-create |
| Normalizer.GroupsOf | ckanext/oaipmh/harvester.py:327-344 | fails iff `set_spec` is missing; otherwise the set-spec groups come first and the series groups after them, all in order |
| Normalizer.GroupsOfSplit | ckanext/oaipmh/harvester.py:528-534 | the groups are exactly the resolved set-spec names followed by the resolved series names (none when `series` is absent or empty) |
| Normalizer.IdentifierExtraAfterAppend | ckanext/oaipmh/harvester.py:317-322 | the extras are computed on the content whose `identifier` list already ends with the guid |
| Importing.BuildPackage | ckanext/oaipmh/harvester.py:276-368 | the package is built exactly when author, license, formats, resource candidates, resources and groups all succeed, so a failing step fails the import and nothing else does; a built package has `id == name ==` the munged guid and the given owner organisation |
| Importing.BuildPackageSteps | ckanext/oaipmh/harvester.py:276-344 | the mapped fields, author, license, formats, resources, tags, extras and groups of a built package are those of the corresponding steps, with resources, tags, extras and groups computed after the identifier update |
| Importing.ImportStage | ckanext/oaipmh/harvester.py:262-368 | an object without content is rejected; an object with content imports exactly as `BuildPackage` builds it under the dialect its source configuration selects, with `id == name ==` the munged guid |
| Importing.FailedFetchBlocksImport | ckanext/oaipmh/harvester.py:225-277 | a failed fetch of an object without content leaves it without content, and its import is then rejected |
| Importing.DifResourcesFollowUrls | ckanext/oaipmh/harvester.py:489-506 | a DIF import has one resource per related URL in order, named by the positional description, with format and resource type equal to the package's positional format |
| Importing.DifShortDescriptionsFail | ckanext/oaipmh/harvester.py:499-505 | a DIF record with related URLs but missing or too few descriptions fails to import |
| Importing.NonDifNeedsHttpCandidate | ckanext/oaipmh/harvester.py:507-526 | a non-DIF import succeeds only if some identifier or the guid is an HTTP(S) URL, and its one resource is the first such candidate |
| Importing.IdentifierExtraSeesGuid | ckanext/oaipmh/harvester.py:315-324 | the `identifier` extra is taken from the identifier list with the guid appended, so with no identifiers it is the guid |
| Importing.GroupsSetSpecFirst | ckanext/oaipmh/harvester.py:326-344 | a package's groups are the set-spec groups followed by the series groups |
| Strings.JoinSplit | ckanext/oaipmh/harvester.py:436-440 | joining the `;`-pieces of a string with `;` gives the string back |
| Strings.SplitJoin | ckanext/oaipmh/harvester.py:436-440 | splitting a `;`-join of `;`-free pieces gives the pieces back |
| Strings.Truncate | ckanext/oaipmh/harvester.py:448 | `s[:n]` is the prefix of `s` of length `min(n, len(s))`, and `s` itself when not longer than `n` |
| Scenarios.DublinCoreAuthor | ckanext/oaipmh/harvester.py:411-412 | `{creator: ["Jane Doe"]}` gives the author `Jane Doe` |
| Scenarios.DifLicenseFallsBackToAccess | ckanext/oaipmh/harvester.py:414-425 | use constraints `Not available` and access constraints `CC-BY` give the license `CC-BY` |
| Scenarios.NonAsciiLicenseFails | ckanext/oaipmh/harvester.py:418-421 | available constraints `Fri bruk` and `Åpen` fail the license with a not-ASCII error |
| Scenarios.RepeatedSubjectKept | ckanext/oaipmh/harvester.py:436-448 | a subject list `["ocean", "ocean"]` gives two munged `ocean` tags |
| Scenarios.DublinCoreRecordImports | ckanext/oaipmh/harvester.py:276-368 | a Dublin Core record with creator, rights, format, an HTTP identifier, title and set-spec builds a package whose one resource is that identifier |
| Scenarios.InvalidEmailOmitted | ckanext/oaipmh/harvester.py:286-289 | a `maintainer_email` of `not-an-email` leaves the attribute out |
| Scenarios.WmsUrlFormat | ckanext/oaipmh/harvester.py:457-458 | an upper-case `WMS` URL is classified `wms` |
| Scenarios.CatalogUrlFormat | ckanext/oaipmh/harvester.py:461-463 | a `catalog` URL without WMS/DODS markers is classified `thredds` |
| Scenarios.RelatedUrlFormats | ckanext/oaipmh/harvester.py:452-469 | a WMS URL and a catalog URL give `["wms", "thredds"]` in that order |
| Scenarios.NoSetNoSetArgument | ckanext/oaipmh/harvester.py:117-120 | a configuration with a prefix and no set lists identifiers with the prefix only |
| Scenarios.SemicolonSubjectSplits | ckanext/oaipmh/harvester.py:436-440 | a string subject `ocean;ice` gives the tag strings `ocean` and `ice` |

## Left out

- The pyoai `Client`: `identify`, the `listIdentifiers` generator with its network paging, and the HTTP transport. GET versus POST is chosen inside the client, so only the `force_http_get` value is modelled. The gather stage's loop creating one harvest object per header is left out for the same reason.
- The malformed-JSON path of `_set_config` (`except ValueError: pass`). It keeps whatever settings an earlier call left, which is state outside the value model. A JSON configuration that is not an object, where `config_json['username']` raises `TypeError`, is left out too.
- JSON arrays, objects and floats as configuration values. `Json` covers null, booleans, integers and strings.
- JSON serialisation of the content and its decoding in the import stage. They are taken to be inverse on maps of strings and string lists.
- CKAN services: `package_show` for `owner_org`, `group_show`/`group_create`, `_create_or_update_package`, `Session.commit`, `HarvestObject.save` and the `_save_*_error` calls. `owner_org` and the group ids are parameters, and failures of these services are not modelled.
- `munge_tag` and `munge_title_to_name`. They are arbitrary functions passed in.
- The no-op hooks `_before_record_fetch`, `_after_record_fetch` and `_extract_additional_fields`, whose identity the model takes as given. Logging and `print` are also left out.
- The `if not harvest_object` guard of `import_stage`.
- The XPath evaluation of the metadata readers. A reader's output is a given field mapping.
- `dif_reader2`, the reader registered for `dif`, is not part of this model. The readers that are visible yield only text lists, and `FieldMapping` assumes `dif_reader2` does the same.
- The fetch stage's outer catch-all for failures while building the client. Only a failing `GetRecord` and a record without metadata are modelled.
- The order of extras and tags across keys. It follows Python 2 dict iteration, which the model takes as the parameter `keys`: any order that visits each content key exactly once. Extras are stated by membership and count; tags in the order `keys` gives.
- Normalizer.Classify: lower-cases ASCII letters only. Python's `unicode.lower()` also folds non-ASCII letters, which cannot affect the ASCII markers `wms`, `dods` and `catalog` except through characters that lower-case to ASCII (such as the Kelvin sign).
- Normalizer.AuthorOf: the sentinel test lower-cases ASCII letters only, for the same reason as `Classify`.
- Normalizer.LicenseOf: the sentinel test lower-cases ASCII letters only, for the same reason as `Classify`. The not-ASCII failure of the combined form is modelled.
- Normalizer.ResourcesOf: for DIF, a missing `Related_URL/URL` is reported as that missing key. The code instead prints the caught `KeyError` and then fails on the unbound `resource_formats`. Both end in an import failure, and in the import stage the earlier `_extract_formats` call already fails on that key.
