# FIS-Broker harvester for CKAN, modelled in Dafny

This project models the core of `ckanext-fisbroker`, the CKAN extension that
harvests the CSW catalogue of Berlin's geodata portal FIS-Broker into the
Berlin open data portal. It covers:

- the three harvest stages of `FisbrokerHarvester`:
  - **gather** compares the GUIDs the CSW service offers with the current
    harvest objects and plans new, changed and deleted records;
  - **fetch** retries the CSW client set-up, then stores the record's XML
    without its declaration;
  - **import** deletes, creates or updates the CKAN package, with the
    special cases for renamed, purged and unchanged records.
- `get_package_dict`, which turns the ISO values of a record into a CKAN
  package. It rejects records that are not open data, are not services, or
  lack an organisation, e-mail, licence or release date. It extracts
  contact, licence and reference dates, filters tags, and annotates,
  de-duplicates and sorts resources. It builds title and name and sets the
  Berlin extras.
- the resource annotator (roles, weights, the added GetCapabilities
  resource and the sort by weight) and the older resource converter.
- `normalize_url` and the other helpers: resources unique by URL, the
  FIS-Broker GUID of a package, the harvester of a package.
- the source configuration: validation, timeout, time delta, the
  `import_since` date and the last error-free job.
- the numbered reimport errors. Both reimport implementations (the Flask
  blueprint and the older Pylons controller) are modelled: the checks of the
  API entry point, the batch with its preflight checks and CSW loop, and the
  mapping from exception to HTTP status and error body.
- the legacy `FisbrokerPlugin.get_package_dict` and the CLI helpers
  (source and dataset listing with paging, reimport targets and report).

Data that the source keeps in dicts are values here: a resource is
`Resources.Resource` with an `Option` per key, and a URL is `Urls.Url` with
its query in `parse_qs` form. Python exceptions become `Error` values in a
`Result`. The harvest object table, the catalog and the CSW traffic are
state of the classes `Harvest.HarvestDatabase` and `Reimport.Site`; their
methods change that state. Foreign code is passed in as function parameters:

- CKAN's `munge_title_to_name`, `json.loads`, `dateutil`, `md5` and package
  validation;
- the CSW client;
- the ISO parser;
- the forced `import_stage` a reimport runs on a saved object
  (`Reimport.ForcedImport`), which returns the extras it leaves on the
  object or raises.

## Model

| member | source | states |
|---|---|---|
| Urls.Values | ckanext/fisbroker/helper.py:17 | `parse_qs` drops blank values: no value returned for a key is empty |
| Urls.BlankIffNoKey | ckanext/fisbroker/fisbroker_resource_annotator.py:57-58 | a query is blank (falsy after `parse_qs`) exactly when it has no key with a non-empty value |
| Urls.Keys | ckanext/fisbroker/helper.py:17-20 | the keys of the parsed query are distinct and are exactly the keys that carry a value |
| Urls.NormalizedQuery | ckanext/fisbroker/helper.py:19-21 | the normalised query lists every parsed key once, in sorted order, each with its first value lowered |
| Urls.NormalizedUrl | ckanext/fisbroker/helper.py:16-23 | normalising keeps scheme, host and path and replaces only the query |
| Urls.NormalizeUrl | ckanext/fisbroker/helper.py:12-23 | the string built by the loop is the rendering of the normalised URL |
| Urls.NormalizedQueryEqualIff | ckanext/fisbroker/helper.py:12-23 | two queries normalise alike exactly when they have the same keys with the same lowered first values |
| Urls.NormalizedFirstValue | ckanext/fisbroker/helper.py:21 | after normalising, a key is present iff it was before, and its only value is the lowered first value |
| Urls.NormalizedQueryIdempotent | ckanext/fisbroker/helper.py:12-23 | normalising a normalised query changes nothing |
| Urls.NormalizedUrlIdempotent | ckanext/fisbroker/helper.py:12-23 | normalising a normalised URL changes nothing |
| Urls.NormalizedIgnoresOrderAndCase | ckanext/fisbroker/helper.py:13-14 | URLs whose single-valued parameters differ only in order and case of values normalise to the same string |
| Urls.ValuesOfDistinctKeys | ckanext/fisbroker/helper.py:17 | with distinct keys, the values of a key are its one non-blank value or nothing |
| Urls.AppendQuery | ckanext/fisbroker/fisbroker_resource_annotator.py:140 | appending a query string to a URL keeps scheme, host and path |
| Urls.AppendQueryRender | ckanext/fisbroker/fisbroker_resource_annotator.py:140 | the appended URL renders as the old URL, `?`, and the query text, as the f-string builds it |
| Urls.RenderNormalizedAppend | ckanext/fisbroker/fisbroker_resource_annotator.py:140-141 | normalising a bare URL with an appended query renders as the URL followed by the normalised query |
| Urls.QueryTextAppend | ckanext/fisbroker/helper.py:23 | the query text of two joined parameter lists is the two texts joined by `&` |
| Helper.PackageGet | ckanext/fisbroker/helper.py:45 | `Package.get` finds by id first, then by name; None means no package has that id or name |
| Helper.FindBy | ckanext/fisbroker/helper.py:45 | the package found has the value in the column looked up (id or name); None means no package has it |
| Helper.IsUnique | ckanext/fisbroker/helper.py:32-35 | the inner loop answers unique iff no kept resource has the same normalised URL |
| Helper.UniqResourcesByUrl | ckanext/fisbroker/helper.py:25-39 | the loop computes the specification `UniqByUrl` |
| Helper.UniqByUrlStep | ckanext/fisbroker/helper.py:36-37 | one more resource is appended exactly when its normalised URL is new |
| Helper.UniqByUrlIsSubsequence | ckanext/fisbroker/helper.py:25-39 | the result keeps the input's order and adds nothing |
| Helper.UniqByUrlDistinctUrls | ckanext/fisbroker/helper.py:26-27 | no two kept resources share a normalised URL |
| Helper.UniqByUrlKeepsFirsts | ckanext/fisbroker/helper.py:26-27 | every kept resource is the first of its URL, and every input resource has its URL kept |
| Helper.UniqByUrlKeepsEveryFirst | ckanext/fisbroker/helper.py:26-27 | every first occurrence of a URL is kept |
| Helper.LastFirstIsNew | ckanext/fisbroker/helper.py:33-37 | a resource that is the first of its URL finds no match among those kept before it |
| Helper.FisbrokerGuid | ckanext/fisbroker/helper.py:52-60 | a GUID is found iff some extra's key lowers to `guid`; it is the first such extra's value |
| Helper.HarvestedIff | ckanext/fisbroker/helper.py:62-65 | `dataset_was_harvested` holds exactly when the package has at least one harvest object, and exactly when `harvester_for_package` finds one |
| Helper.HarvesterForPackage | ckanext/fisbroker/helper.py:62-72 | a harvester is returned iff the package has harvest objects, and it is one of the package's sources |
| Helper.HarvesterIsFirstSource | ckanext/fisbroker/helper.py:41-72 | the harvester returned is the source of the package's first harvest object, and `is_fisbroker_package` holds iff the named package's harvester has type `fisbroker` |
| Helper.IsFisbrokerPackage | ckanext/fisbroker/helper.py:41-50 | true iff the named package exists, was harvested, and its first harvest source has type `fisbroker` |
| Exceptions.Fill | ckanext/fisbroker/exceptions.py:22-35 | `str.format` on a table message succeeds iff enough arguments are given, else IndexError |
| Exceptions.FillWithFieldsIsText | ckanext/fisbroker/exceptions.py:22-35 | formatting with `{}` for every field gives back the template text |
| Exceptions.FillIgnoresSurplus | ckanext/fisbroker/exceptions.py:22-35 | surplus format arguments do not change the message |
| Exceptions.ErrorMessage | ckanext/fisbroker/exceptions.py:8-35 | exactly the twelve codes of the table have a message, each a well-formed template |
| Exceptions.ErrorCodesDistinct | ckanext/fisbroker/exceptions.py:8-19 | the error codes are pairwise distinct |
| Exceptions.NewReimportError | ckanext/fisbroker/exceptions.py:43-51 | a `ReimportError` keeps package id and code; without a message it gets the generic one |
| Exceptions.PackageIdDoesNotExistError | ckanext/fisbroker/exceptions.py:53-61 | code 4 and the message naming the package id |
| Exceptions.PackageNotHarvestedError | ckanext/fisbroker/exceptions.py:63-71 | code 5 and the table message |
| Exceptions.PackageNotHarvestedInFisbrokerError | ckanext/fisbroker/exceptions.py:73-81 | code 6 and the message naming harvester `fisbroker` |
| Exceptions.NoFisbrokerIdError | ckanext/fisbroker/exceptions.py:83-91 | code 7 and the table message |
| Exceptions.NoConnectionError | ckanext/fisbroker/exceptions.py:93-106 | code 8; the message names the package iff the package id is truthy |
| Exceptions.NotFoundInFisbrokerError | ckanext/fisbroker/blueprint.py:190 | code 10 and the message naming the GUID |
| Exceptions.FBImportError | ckanext/fisbroker/blueprint.py:183 | code 11 and the message naming the rejection reason |
| Exceptions.GetErrorDict | ckanext/fisbroker/blueprint.py:61-68 | a dict with the code and its message iff the code is in the table, else ValueError |
| Annotator.ServiceVersion | ckanext/fisbroker/fisbroker_resource_annotator.py:34-41 | `1.3.0` for wms, `2.0.0` for wfs, ValueError for anything else |
| Annotator.GetCapabilitiesQuery | ckanext/fisbroker/fisbroker_resource_annotator.py:26-31 | for wfs or wms only: the text `service=…&request=GetCapabilities&version=…`, with distinct keys and a GetCapabilities request |
| Annotator.AnnotateServiceResource | ckanext/fisbroker/fisbroker_resource_annotator.py:43-76 | fails iff the URL has neither `/wfs/` nor `/wms/`; a bare endpoint gets role api_endpoint, weight 15; a GetCapabilities request gets api_description, weight 10, main; another query keeps role, weight and main |
| Annotator.RuleOf | ckanext/fisbroker/fisbroker_resource_annotator.py:96-119 | the first branch that applies: feed, service, FIS-Broker service page, documentation (has a description), or none |
| Annotator.AnnotateResource | ckanext/fisbroker/fisbroker_resource_annotator.py:91-121 | None iff no rule applies; otherwise the URL is kept and each rule sets its name, format, role, weight and main flag; as written, the service page rule leaves the description as it was |
| Annotator.AnnotateResourceIntended | ckanext/fisbroker/fisbroker_resource_annotator.py:105-109 | corrected: the service page rule also sets the description `Serviceseite im FIS-Broker`; every other rule agrees with the code as written |
| Annotator.ServicePageLacksDescription | ckanext/fisbroker/fisbroker_resource_annotator.py:105-109 | a service page without a description keeps none as written, but gets one in the corrected annotation |
| Annotator.AnnotateEach | ckanext/fisbroker/fisbroker_resource_annotator.py:132-134 | the kept results are exactly the non-None annotations of the inputs |
| Annotator.LastWithFunction | ckanext/fisbroker/fisbroker_resource_annotator.py:136 | the dict comprehension keeps the last resource with a role; None iff no resource has it |
| Annotator.CapabilitiesResource | ckanext/fisbroker/fisbroker_resource_annotator.py:136-145 | at most one resource is added, and only when there is an endpoint but no description |
| Annotator.DescribeEndpoint | ckanext/fisbroker/fisbroker_resource_annotator.py:138-145 | an endpoint without a format raises KeyError; an Atom endpoint adds nothing |
| Annotator.DescribeServiceEndpoint | ckanext/fisbroker/fisbroker_resource_annotator.py:138-145 | a bare WFS or WMS endpoint yields exactly one resource: api_description, weight 10, main |
| Annotator.CapabilitiesRequestDescribes | ckanext/fisbroker/fisbroker_resource_annotator.py:65-72 | a service URL with a GetCapabilities request is annotated as api_description, weight 10, main |
| Annotator.CapabilitiesUrl | ckanext/fisbroker/fisbroker_resource_annotator.py:140-141 | the normalised endpoint URL with the query appended keeps its `/wfs/` or `/wms/` and carries a GetCapabilities request |
| Annotator.NormalizedCapabilitiesQuery | ckanext/fisbroker/fisbroker_resource_annotator.py:141 | normalising keeps a query's GetCapabilities request (value lowered) |
| Annotator.AnnotateAllResources | ckanext/fisbroker/fisbroker_resource_annotator.py:128-147 | succeeds iff every kept resource has a role and the endpoint can be described; KeyError `internal_function` when a role is missing, else the description's error; on success the stable sort by weight of the annotated resources plus the added one: sorted, a permutation, and equal weights in their order |
| Annotator.AnnotateAllEnsuresDescription | ckanext/fisbroker/fisbroker_resource_annotator.py:129-130 | given fresh resources and a last endpoint that is not Atom, the result contains an api_description resource of weight 10 that is main |
| Annotator.EachWellAnnotated | ckanext/fisbroker/fisbroker_resource_annotator.py:91-121 | every annotation of a fresh resource has a role whose weight and flags fit it |
| Annotator.AnnotatedWell | ckanext/fisbroker/fisbroker_resource_annotator.py:91-121 | the same for a single fresh resource |
| Annotator.DescribedWithCapabilities | ckanext/fisbroker/fisbroker_resource_annotator.py:136-145 | when the last endpoint is not Atom, the resources plus the added one contain a description |
| Annotator.EndpointShape | ckanext/fisbroker/fisbroker_resource_annotator.py:58-63 | an annotated endpoint that is not Atom came from a bare WFS or WMS URL and has that format |
| Annotator.AnnotatedDescriptionShape | ckanext/fisbroker/fisbroker_resource_annotator.py:67-72 | an annotated description of a fresh resource has weight 10 and is main |
| Ordering.SortResourcesCorrect | ckanext/fisbroker/fisbroker_resource_annotator.py:123-126 | `sort_resources` gives a sorted permutation, stable for equal weights (a missing weight counts as 200) |
| Ordering.InsertByWeightSorted | ckanext/fisbroker/fisbroker_resource_annotator.py:126 | inserting into a sorted list keeps it sorted |
| Ordering.InsertByWeightPermutes | ckanext/fisbroker/fisbroker_resource_annotator.py:126 | inserting adds exactly the one element |
| Ordering.InsertByWeightStable | ckanext/fisbroker/fisbroker_resource_annotator.py:126 | an insert goes after all elements of the same weight |
| Converter.ConvertService | ckanext/fisbroker/fisbroker_resource_converter.py:17-28 | the service branch appends `?service=…&request=GetCapabilities` to the URL text and keeps role and weight |
| Converter.ConvertResource | ckanext/fisbroker/fisbroker_resource_converter.py:10-38 | the feed, WFS, WMS, service page and description branches each set their fields; a missing description raises KeyError; an empty one drops the resource |
| Converter.ConvertTwiceAppendsTwice | ckanext/fisbroker/fisbroker_resource_converter.py:21 | converting a WFS resource twice appends the GetCapabilities query twice, since the update is not idempotent |
| Iso.MarkedAsOpendata | ckanext/fisbroker/fisbroker_harvester.py:55-65 | marked exactly when some keyword is the exact string `opendata` (case and spacing matter) |
| Iso.MarkedAsServiceResource | ckanext/fisbroker/fisbroker_harvester.py:68-74 | marked exactly when some resource type is the exact string `service` |
| Iso.ExtractContactInfo | ckanext/fisbroker/fisbroker_harvester.py:93-109 | author and maintainer e-mail come from the first organisation when truthy; the maintainer when present; nothing without organisations |
| Iso.HarvesterLicenseFix | ckanext/fisbroker/fisbroker_harvester.py:132-139 | the three variant ids become `dl-de-by-2.0`; every other id is kept |
| Iso.LastUsable | ckanext/fisbroker/fisbroker_harvester.py:119-126 | the last restriction that parses with `id` and `quelle` wins; None iff none does |
| Iso.LastUsableIsLast | ckanext/fisbroker/fisbroker_harvester.py:119-124 | the result is the licence of the last usable restriction |
| Iso.ExtractLicenseAndAttribution | ckanext/fisbroker/fisbroker_harvester.py:112-141 | raises iff some restriction is JSON without `id` or `quelle`, with the first such one's error; otherwise the last usable licence, with the id fixed |
| Iso.LicenseFoundIffJson | ckanext/fisbroker/fisbroker_harvester.py:119-126 | when nothing raises, a licence is found iff some restriction is JSON |
| Iso.LastOfType | ckanext/fisbroker/fisbroker_harvester.py:152-158 | the last date of a type; None iff there is none |
| Iso.FirstOfType | ckanext/fisbroker/fisbroker_harvester.py:159-161 | the first date of a type; None iff there is none |
| Iso.ExtractReferenceDates | ckanext/fisbroker/fisbroker_harvester.py:144-172 | no dates give nothing; otherwise release and update dates, or KeyError when neither can be determined |
| Iso.LastOfTypeIsLast | ckanext/fisbroker/fisbroker_harvester.py:153-155 | the last revision date wins |
| Iso.FirstOfTypeIsFirst | ckanext/fisbroker/fisbroker_harvester.py:159 | the first publication date wins |
| Iso.CreationBeatsPublication | ckanext/fisbroker/fisbroker_harvester.py:156-161 | a creation date, when present, is the release date |
| Iso.RevisionOnly | ckanext/fisbroker/fisbroker_harvester.py:163-170 | with only revision dates, release and update are both the last revision |
| Iso.FirstPreview | ckanext/fisbroker/fisbroker_harvester.py:195-203 | the first graphic described `Vorschaugrafik` that has a file; None iff there is none |
| Iso.FirstPreviewAt | ckanext/fisbroker/fisbroker_harvester.py:196-203 | the loop returns at the first such graphic |
| Iso.ExtractPreviewMarkup | ckanext/fisbroker/fisbroker_harvester.py:188-205 | the loop returns the markup of the first preview graphic, or None |
| Iso.PreviewTextParts | ckanext/fisbroker/fisbroker_harvester.py:199-202 | the markup reads back: the title sits at a fixed place in the alt text, and the link target is exactly the file |
| Packages.Excluding | ckanext/fisbroker/fisbroker_harvester.py:87-88 | removing tags keeps exactly the tags not removed, in order |
| Packages.RemoveFirst | ckanext/fisbroker/fisbroker_harvester.py:88 | `list.remove` drops one occurrence |
| Packages.FilterTags | ckanext/fisbroker/fisbroker_harvester.py:77-90 | the loops remove every occurrence of each name in both lists, and only those |
| Packages.FilteredTags | ckanext/fisbroker/fisbroker_harvester.py:77-90 | a tag survives iff it is not a name from both lists |
| Packages.ExcludingTwice | ckanext/fisbroker/fisbroker_harvester.py:84-88 | removing two sets one after the other is removing their union |
| Packages.LastValue | ckanext/fisbroker/fisbroker_harvester.py:270-271 | the last extra with a key gives its value; None iff there is none |
| Packages.ExtrasDict | ckanext/fisbroker/fisbroker_harvester.py:267-272 | the dict maps each key to the value of its last extra |
| Packages.ExtrasAsList | ckanext/fisbroker/fisbroker_harvester.py:244-256 | the list has distinct keys and, for every key, its last value is the dict's value, so `extras_dict` gives the dict back |
| Packages.FirstWithFunction | ckanext/fisbroker/fisbroker_harvester.py:179-182 | the first resource with a role; None iff there is none |
| Packages.ExtractUrl | ckanext/fisbroker/fisbroker_harvester.py:174-186 | the loop returns the first web_interface URL, else the last `api` URL, else None |
| Packages.FirstWithFunctionAt | ckanext/fisbroker/fisbroker_harvester.py:179-182 | the loop returns at the first resource with the role |
| Packages.AnnotatedHaveNoApi | ckanext/fisbroker/fisbroker_harvester.py:926-931 | after annotation no resource has role `api`, so the dataset URL is that of the first web interface |
| Packages.LastMain | ckanext/fisbroker/fisbroker_harvester.py:217-219 | the last main resource; None iff there is none |
| Packages.GenerateTitle | ckanext/fisbroker/fisbroker_harvester.py:207-224 | the title is kept, with ` - [format]` appended iff the last main resource has a format |
| Packages.TitleIgnoresOthers | ckanext/fisbroker/fisbroker_harvester.py:217 | resources that are not main do not change the title |
| Packages.GenerateName | ckanext/fisbroker/fisbroker_harvester.py:226-242 | the name is the munged title with hyphen runs collapsed, cut to 91 characters and stripped of hyphens at both ends, then `-` and the GUID's first part; it has no run of hyphens and is at most 92 plus that part long |
| HarvesterPackage.ApplyIsoValues | ckanext/fisbroker/fisbroker_harvester.py:850-922 | rejects with the source's code and description exactly when a gate fails; raises exactly when extraction raises, with the first failing licence restriction's exception or the missing release date's KeyError; else sets metadata, licence and date extras |
| HarvesterPackage.FirstGates | ckanext/fisbroker/fisbroker_harvester.py:850-861 | code 1 iff the record lacks the `opendata` keyword; code 2 iff it has it but is not a service; every later outcome has both |
| HarvesterPackage.SetConstantExtras | ckanext/fisbroker/fisbroker_harvester.py:945-969 | the Berlin constant extras override, and every other key is kept |
| HarvesterPackage.CompleteExtras | ckanext/fisbroker/fisbroker_harvester.py:945-978 | constants set, temporal coverage copied from the temporal extent keys when present |
| HarvesterPackage.CompletePackageDict | ckanext/fisbroker/fisbroker_harvester.py:924-986 | fails iff annotation (as written) fails; otherwise resources, URL, notes, title, name, group and extras are completed, and the extras list has distinct keys |
| HarvesterPackage.GetPackageDict | ckanext/fisbroker/fisbroker_harvester.py:827-986 | `skip` plus an `error` extra on the object iff a gate rejects; otherwise the object is untouched; a raising gate gives its exception (the first failing licence restriction's, or KeyError `date_released`); a built package has all fields completed |
| Config.IntOf | ckanext/fisbroker/fisbroker_harvester.py:312 | `int()` of a number is that number; of a string it parses or raises ValueError; of anything else it raises TypeError |
| Config.GetTimeout | ckanext/fisbroker/fisbroker_harvester.py:308-313 | the configured timeout as int, default 20 |
| Config.GetTimedelta | ckanext/fisbroker/fisbroker_harvester.py:315-320 | the configured timedelta as int, default 0 |
| Config.CoerceSetting | ckanext/fisbroker/fisbroker_harvester.py:353-367 | a present setting is replaced by its int, or ValueError with the source's message |
| Config.ValidateFields | ckanext/fisbroker/fisbroker_harvester.py:345-367 | succeeds iff `import_since` is a keyword or date and timeout and timedelta convert; the keys are kept and other values are unchanged |
| Config.ValidateConfig | ckanext/fisbroker/fisbroker_harvester.py:335-374 | an empty config passes as it is; otherwise it succeeds iff it is a JSON object whose fields pass and whose re-dumped text passes the base class check. The result then holds the coerced settings and the base check's answer. Non-JSON raises ValueError, a failing field raises its own error, and a failing base check raises its error |
| Config.ValidatedSettingsRead | ckanext/fisbroker/fisbroker_harvester.py:308-320 | after validation, reading timeout and timedelta cannot fail |
| Config.FirstErrorFree | ckanext/fisbroker/fisbroker_harvester.py:1010-1019 | the first eligible job with no failed object (and, in the harvester's override, not a reimport); None iff there is none |
| Config.LastErrorFreeIsNewest | ckanext/fisbroker/fisbroker_harvester.py:1006-1019 | with jobs newest first, the job found started no earlier than any error-free one |
| Config.FirstErrorFreeAt | ckanext/fisbroker/fisbroker_harvester.py:1010-1019 | the loop returns at the first error-free job |
| Config.LastErrorFreeJob | ckanext/fisbroker/fisbroker_harvester.py:992-1019 | the loop finds the specification's job, skipping reimport jobs only when asked to |
| Config.ReimportJobsOnlyDifference | ckanext/fisbroker/fisbroker_harvester.py:1010-1011 | the override and the inherited search differ only on reimport jobs: a newest successful reimport job is found by the inherited search and skipped by the override; without reimport jobs both find the same |
| Config.ImportSinceDate | ckanext/fisbroker/fisbroker_harvester.py:274-294 | no setting or `big_bang` gives None; `last_error_free` gives the shifted gather time or None; any other value is returned as is |
| Config.GetImportSinceDate | ckanext/fisbroker/fisbroker_harvester.py:274-294 | the method computes `ImportSinceDate` for the last error-free job; plugin.py:240-260 is the same method over the inherited search, which keeps reimport jobs |
| Config.GetConstraints | ckanext/fisbroker/fisbroker_harvester.py:296-306 | one `modified >=` constraint iff the date is truthy, else none |
| Harvest.StripDeclarations | ckanext/fisbroker/fisbroker_harvester.py:535 | `re.sub` removal never lengthens the text |
| Harvest.NoDeclarationUnchanged | ckanext/fisbroker/fisbroker_harvester.py:535 | text without `<?xml` is unchanged |
| Harvest.DeclarationRemoved | ckanext/fisbroker/fisbroker_harvester.py:533-535 | a one-line declaration before the document is removed and the rest is kept |
| Harvest.ClientDeclarationStripped | ckanext/fisbroker/fisbroker_harvester.py:533-537 | the stored content of client XML is the trimmed document without its declaration |
| Harvest.ObjectExtra | ckanext/fisbroker/fisbroker_harvester.py:492 | an object extra is found iff some extra has the key, and then it is that extra's value |
| Harvest.ReconcileSplit | ckanext/fisbroker/fisbroker_harvester.py:445-455 | new and changed are disjoint and together are the constrained set; without constraints changed and deleted split the local set |
| Harvest.CollectIdentifiers | ckanext/fisbroker/fisbroker_harvester.py:404-419 | the loop collects exactly the identifiers that are not None |
| Harvest.IdentifierSetMembers | ckanext/fisbroker/fisbroker_harvester.py:410-414 | a GUID is collected iff the service returned it |
| Harvest.HarvestDatabase.GuidToPackageId | ckanext/fisbroker/fisbroker_harvester.py:391-399 | the map covers exactly the current objects of the source, each with its package id |
| Harvest.HarvestDatabase.Save | ckanext/fisbroker/fisbroker_harvester.py:463-481 | a new object gets the next id; with `retire` the current objects of its GUID stop being current |
| Harvest.HarvestDatabase.AddObjects | ckanext/fisbroker/fisbroker_harvester.py:461-481 | one object per GUID, with consecutive ids, the status extra and package ids |
| Harvest.HarvestDatabase.SaveSplit | ckanext/fisbroker/fisbroker_harvester.py:461-481 | new, changed and deleted objects are added as planned, returning their ids |
| Harvest.HarvestDatabase.GatherStage | ckanext/fisbroker/fisbroker_harvester.py:376-487 | client failure or an identifier failure logs one gather error and adds nothing; otherwise the new/changed/deleted split is saved, and None with an error iff it is empty |
| Harvest.ChainPlanned | ckanext/fisbroker/fisbroker_harvester.py:461-481 | after the new, change and delete saves, every object is planned with its status, job, source and package id |
| Harvest.HarvestDatabase.FetchStage | ckanext/fisbroker/fisbroker_harvester.py:489-544 | delete passes at once; the set-up is retried up to `retries` times; success iff a record comes back, storing its content; otherwise one object error |
| Harvest.FirstSetup | ckanext/fisbroker/fisbroker_harvester.py:502-518 | the first attempt whose client set-up works; None iff all fail |
| Harvest.HarvestDatabase.BeginImport | ckanext/fisbroker/fisbroker_harvester.py:556-623 | delete issues `package_delete` and ends; a missing or unparsable document fails; otherwise the document is ready |
| Harvest.HarvestDatabase.Settle | ckanext/fisbroker/fisbroker_harvester.py:625-661 | the object stays current unless it is itself the previous one and the import is not forced; GUID and modified date are settled or an error is logged |
| Harvest.HarvestDatabase.SettleGuid | ckanext/fisbroker/fisbroker_harvester.py:630-651 | takes the document GUID unless a current object already has it; an empty GUID becomes the md5 of the content |
| Harvest.DocumentGuid | ckanext/fisbroker/fisbroker_harvester.py:631-643 | a non-empty document GUID replaces the object's GUID |
| Harvest.FinalGuid | ckanext/fisbroker/fisbroker_harvester.py:646-651 | an empty GUID is replaced by the digest; a non-empty one is kept |
| Harvest.PreviousObjectRetired | ckanext/fisbroker/fisbroker_harvester.py:625-628 | the previous current object with the same GUID stays current iff the import is forced |
| Harvest.HarvestDatabase.BuildPackage | ckanext/fisbroker/fisbroker_harvester.py:664-679 | a gate rejection yields `skip` and records an `error` extra on the object; a built package satisfies the package specification |
| Harvest.HarvestDatabase.FinishImport | ckanext/fisbroker/fisbroker_harvester.py:695-812 | the object becomes current; a missing name raises KeyError; otherwise creation or update follows the resolved status |
| Harvest.ResolvedChangeIffFound | ckanext/fisbroker/fisbroker_harvester.py:710-729 | the status becomes change iff a package is found and was marked change or found by name; otherwise new |
| Harvest.Found | ckanext/fisbroker/fisbroker_harvester.py:699-718 | a package found by name wins; otherwise lookup by the object's package id |
| Harvest.Reactivated | ckanext/fisbroker/fisbroker_harvester.py:760-764 | only the changed package, and only when deleted, becomes active again |
| Harvest.HarvestDatabase.CreatePackage | ckanext/fisbroker/fisbroker_harvester.py:732-756 | the new package id is stored on the object; `package_create` is issued iff validation accepts the package, else an object error is logged |
| Harvest.HarvestDatabase.ChangePackage | ckanext/fisbroker/fisbroker_harvester.py:758-808 | an unforced import whose document is not newer keeps the previous job and deletes the previous object; otherwise `package_update` |
| Harvest.HarvestDatabase.ImportStage | ckanext/fisbroker/fisbroker_harvester.py:546-812 | delete ends with `package_delete`; a rejected record leaves the `error` extra and no action; every saved package satisfies the package specification |
| Harvest.HarvestDatabase.ImportDocument | ckanext/fisbroker/fisbroker_harvester.py:617-812 | from a parsed document: at most one create or update action, whose package satisfies the specification (which of the two is stated by `Harvest.ActionFollowsStatus`) |
| Harvest.ActionFollowsStatus | ckanext/fisbroker/fisbroker_harvester.py:710-808 | a saved import is a create only when no package was found by name (nor, for a change, by id), and an update only when a package was found and the record was a change or found by name |
| Legacy.LegacyLicenseFix | ckanext/fisbroker/plugin.py:99-102 | only `dl-de-by-2-0` is fixed |
| Legacy.LegacyFixWithinHarvesterFix | ckanext/fisbroker/plugin.py:99-102 | the harvester's fix subsumes the legacy one, which misses `dl-by-de/2.0` |
| Legacy.LegacyGenerateTitle | ckanext/fisbroker/plugin.py:172-188 | `pop()` on an empty list raises IndexError; otherwise the harvester's title |
| Legacy.Converted | ckanext/fisbroker/plugin.py:479-482 | converting fails iff some resource fails to convert; the result is no longer than the input |
| Legacy.ConvertedKeeps | ckanext/fisbroker/plugin.py:480-482 | every resource that converts to a value is kept |
| Legacy.ConvertedOnlyConversions | ckanext/fisbroker/plugin.py:480-482 | every kept resource is a conversion of an input |
| Legacy.ConvertResources | ckanext/fisbroker/plugin.py:479-483 | the loop computes `Converted` |
| Legacy.LegacyPreparePackageDict | ckanext/fisbroker/plugin.py:479-540 | fails iff a conversion fails (KeyError) or no main resource remains (IndexError); otherwise the legacy fields are completed and the extras are kept |
| Legacy.LegacyCompletePackageDict | ckanext/fisbroker/plugin.py:479-544 | as written, always fails: with the conversion's or the title's error, or else with the AttributeError of `iteritems` |
| Legacy.LegacyCompletePackageDictIntended | ckanext/fisbroker/plugin.py:479-544 | corrected (`items()`): fails iff a conversion fails or no main resource remains; otherwise fields and extras are completed, without temporal coverage |
| Legacy.LegacyGetPackageDict | ckanext/fisbroker/plugin.py:398-547 | as written: `skip` iff a gate rejects (no error is recorded); a raising gate gives the exception of the first failing licence restriction or the missing release date; every record that passes the gates fails with `LegacyCompletionError` |
| Legacy.LegacyGetPackageDictIntended | ckanext/fisbroker/plugin.py:398-547 | corrected: the same gates and the same named exceptions, and a built package has legacy fields and extras |
| Legacy.LegacyExtrasAsList | ckanext/fisbroker/plugin.py:208-220 | as written, every call raises AttributeError, since Python 3 dicts have no `iteritems` |
| Legacy.LegacyExtrasAsListFails | ckanext/fisbroker/plugin.py:208-220 | for every extras dict, the legacy `extras_as_list` raises AttributeError `iteritems`, while a list with distinct keys holding exactly the dict's entries exists (the one `items()` gives) |
| Reimport.StepError | ckanext/fisbroker/blueprint.py:117-134 | each failed check raises its own exception for the package |
| Reimport.CheckOrder | ckanext/fisbroker/blueprint.py:117-134 | missing, not harvested, other harvester and no GUID are checked in this order; each stops the check exactly under its condition |
| Reimport.CheckPassed | ckanext/fisbroker/blueprint.py:117-136 | a passed check has the package, its harvester URL and a non-empty GUID |
| Reimport.Put | ckanext/fisbroker/blueprint.py:136 | dict assignment adds the key, keeps keys distinct, and appends a new key at the end |
| Reimport.ChecksOf | ckanext/fisbroker/blueprint.py:117-134 | one check per package id, in order |
| Reimport.RefusedAtFirstFailure | ckanext/fisbroker/blueprint.py:117-134 | a refusal names the first failing id, and all ids before it passed |
| Reimport.ClearedAllPassed | ckanext/fisbroker/blueprint.py:114-136 | a cleared preflight passed every id and maps exactly their keys to GUIDs |
| Reimport.RefusedStays | ckanext/fisbroker/blueprint.py:120-134 | once refused, later ids change nothing (the exception ends the loop) |
| Reimport.RefusedAt | ckanext/fisbroker/blueprint.py:117-134 | the first failing id, after all earlier ones passed, refuses the whole preflight |
| Reimport.PassedAt | ckanext/fisbroker/blueprint.py:117-136 | a passing id records its harvester URL and adds its GUID to the mapping |
| Reimport.CheckOne | ckanext/fisbroker/blueprint.py:118-134 | the method computes `CheckPackage` |
| Reimport.CheckAll | ckanext/fisbroker/blueprint.py:114-136 | the loop computes the specification's preflight |
| Reimport.DatasetRejected | ckanext/fisbroker/blueprint.py:259-267 | the reason is the value of the first `error` extra; None iff there is none |
| Reimport.AppendedErrorRejects | ckanext/fisbroker/fisbroker_harvester.py:837-838 | an `error` extra appended to a clean object is the rejection reason found |
| Reimport.FormattedError | ckanext/fisbroker/blueprint.py:231-241 | an error body carries the code and the formatted table message |
| Reimport.HandledError | ckanext/fisbroker/blueprint.py:219-247 | a handled exception's body has its code and the message, formatted iff arguments are given |
| Blueprint.ApiChecks | ckanext/fisbroker/blueprint.py:90-108 | the API proceeds iff JSON is accepted and the id is truthy; otherwise 400 with success `"False"` and code 2 or 3 |
| Blueprint.VisitOf | ckanext/fisbroker/blueprint.py:156-183 | an unreachable service, a missing record, a saved object with the extras and rejection its forced import left, or the saved object with the exception the import raised |
| Blueprint.Raised | ckanext/fisbroker/blueprint.py:139-193 | every halt raises a reimport error except the two missing-source halts and an exception of the forced import, which escapes as it is |
| Blueprint.RunRequests | ckanext/fisbroker/blueprint.py:156-190 | the loop requests the GUIDs in mapping order and stops at the first halt |
| Blueprint.RunSucceeded | ckanext/fisbroker/blueprint.py:156-187 | a run without a halt saved one unrejected object and one record per mapping entry |
| Blueprint.LoopSucceeded | ckanext/fisbroker/blueprint.py:156-187 | a completed loop saved objects with the right package ids and GUIDs, each with the extras its import returned, and kept every record |
| Blueprint.HaltStays | ckanext/fisbroker/blueprint.py:182-193 | once halted, later entries change nothing |
| Blueprint.FetchOne | ckanext/fisbroker/blueprint.py:158-190 | one loop turn does the specification's `Turn` |
| Blueprint.TurnStep | ckanext/fisbroker/blueprint.py:156-190 | a turn extends the run by exactly one entry |
| Blueprint.FetchAndImport | ckanext/fisbroker/blueprint.py:154-193 | the loop computes `RunOf` |
| Blueprint.BatchOf | ckanext/fisbroker/blueprint.py:110-201 | a job exists only after a cleared preflight with a source; it is finished iff the batch succeeded |
| Blueprint.BatchRefused | ckanext/fisbroker/blueprint.py:117-134 | a refused preflight creates no job, sends no request and halts at the first failing id |
| Blueprint.BatchReimported | ckanext/fisbroker/blueprint.py:110-201 | a successful batch checked every id, returns a record per package and finishes its job |
| Blueprint.ReimportBatch | ckanext/fisbroker/blueprint.py:110-201 | the method appends the specification's job and requests and changes nothing else |
| Blueprint.HandlingOf | ckanext/fisbroker/blueprint.py:219-247 | every reimport error except the unexpected one has a branch with status 200, 404, 422 or 500 |
| Blueprint.ResponseOf | ckanext/fisbroker/blueprint.py:203-257 | the response always names the package; success iff the batch succeeded; an exception escapes iff no branch catches it |
| Blueprint.ResponseAsWritten | ckanext/fisbroker/blueprint.py:203-257 | as written, an exception escapes iff no branch catches it or it is a `NoConnectionError`; every answer it gives is the corrected one |
| Blueprint.NoConnectionResponse | ckanext/fisbroker/blueprint.py:228-232 | the corrected no-connection answer: 500, code 8, the message formatted with the service URL and `NoConnectionError` |
| Blueprint.NoConnectionEscapes | ckanext/fisbroker/blueprint.py:228-232 | as written, a connection failure raises AttributeError; corrected, it answers 500 with code 8 |
| Blueprint.ConnectFailureReachable | ckanext/fisbroker/blueprint.py:154-193 | a FIS-Broker package whose service cannot be reached reaches the connection-failure branch |
| Blueprint.RefusalResponse | ckanext/fisbroker/blueprint.py:219-242 | a refused check answers 404 (missing), 500 (no GUID) or 422 (otherwise), with the exception's body |
| Blueprint.FetchFailedResponse | ckanext/fisbroker/blueprint.py:228-232 | a connection lost while fetching a record raises AttributeError as written; corrected, it answers 500 with the connection message |
| Blueprint.MissingRecordResponse | ckanext/fisbroker/blueprint.py:233-237 | a missing record answers 404 naming the GUID |
| Blueprint.RejectedResponse | ckanext/fisbroker/blueprint.py:243-248 | a rejected import answers 200 with code 11 and the deactivation notice |
| Blueprint.ReimportAnswers | ckanext/fisbroker/blueprint.py:138-141 | as written, a single reimport escapes iff the package passes its checks but no FIS-Broker source exists, the service is lost, or the forced import raises; corrected, the lost service is answered |
| Blueprint.ReimportPackage | ckanext/fisbroker/blueprint.py:203-257 | the reply is `ResponseAsWritten` of the batch; the job and requests of the batch are recorded, a rejected package is deleted, the catalog is unchanged |
| Controller.AcceptsJson | ckanext/fisbroker/controller.py:94-99 | true iff an accept header is parsed and `application/json` is among its types |
| Controller.HandlingFor | ckanext/fisbroker/controller.py:190-277 | every answer except success has a handled error body |
| Controller.ResponseFor | ckanext/fisbroker/controller.py:181-281 | an exception of the import escapes as it is; every other outcome is answered with its status (404, 500, 422, 500, 404, or 200), success iff reimported, and an error iff not |
| Controller.ReimportSucceeds | ckanext/fisbroker/controller.py:199-257 | success iff the checks pass, the service answers, the record exists and the import returns without a rejection; raises iff the import raises; a job iff a record came back, finished iff the import returned |
| Controller.ReimportPackage | ckanext/fisbroker/controller.py:181-281 | the method replies with `ResponseFor` (an exception of the import escaping) and records the job and requests of `ReimportOf` |
| Controller.ReimportApi | ckanext/fisbroker/controller.py:90-115 | the same two refusals as the blueprint, changing nothing; else the reimport's response, with its job and requests recorded and catalog and deletions unchanged |
| Controller.RefusedAlike | ckanext/fisbroker/controller.py:190-277 | for a refused check both implementations answer the same |
| Controller.MissingRecordAlike | ckanext/fisbroker/controller.py:259-263 | a missing record answers 404 in both |
| Controller.RecordAbsentAlike | ckanext/fisbroker/controller.py:259-263 | the blueprint's response to a missing record is the controller's 404 |
| Controller.StoppedAlike | ckanext/fisbroker/controller.py:190-242 | the blueprint's response to a failed check is the controller's |
| Controller.ServiceDownDiffers | ckanext/fisbroker/controller.py:264-268 | a lost connection makes the blueprint as written raise; the controller and the corrected blueprint answer 500 with code 8, the controller's message naming the request exception's class, the blueprint's `NoConnectionError` |
| Controller.RejectionDiffers | ckanext/fisbroker/controller.py:243-250 | a rejection answers 200 with code 11 in both, but only the blueprint adds the deactivation notice |
| Controller.ImportRaisedAlike | ckanext/fisbroker/controller.py:238-241 | an exception raised by the forced `import_stage` escapes both implementations unchanged |
| Controller.BatchRaised | ckanext/fisbroker/controller.py:117-179 | which halts raise a reimport error and which raise `NoFBHarvesterDefined` |
| Controller.SweepRequests | ckanext/fisbroker/controller.py:162-171 | the loop requests each GUID in order until the service cannot be reached |
| Controller.FetchAll | ckanext/fisbroker/controller.py:162-171 | the loop computes `SweepOf` |
| Controller.SweepStays | ckanext/fisbroker/controller.py:162-171 | once the service cannot be reached, later GUIDs are not requested |
| Controller.BatchOf | ckanext/fisbroker/controller.py:117-179 | the job saves no objects and is finished iff nothing halted |
| Controller.BatchFinishes | ckanext/fisbroker/controller.py:117-179 | the batch finishes iff the preflight clears, a source with an id exists, there are ids, and every request reaches the service |
| Controller.BatchRefused | ckanext/fisbroker/controller.py:124-141 | a refused preflight creates no job and halts at the first failing id |
| Controller.ReimportBatch | ckanext/fisbroker/controller.py:117-179 | the method appends the specification's job and requests and changes nothing else |
| Cli.FilterDataset | ckanext/fisbroker/cli.py:23-29 | exactly id, name and title, each None iff absent |
| Cli.FilterDatasetReadsThreeKeys | ckanext/fisbroker/cli.py:23-29 | datasets that agree on id, name and title filter alike |
| Cli.FilterDatasets | ckanext/fisbroker/cli.py:31-33 | one summary per dataset, in order |
| Cli.ListSourcesKeeps | ckanext/fisbroker/cli.py:35-41 | exactly the sources of type `fisbroker`, in order |
| Cli.BerlinSourceListed | ckanext/fisbroker/cli.py:192-208 | every active package from the Berlin source is listed; a missing extra matches only `_undefined` |
| Cli.BerlinSourceOnly | ckanext/fisbroker/cli.py:197-208 | every listed summary belongs to an active package from that source |
| Cli.SearchPage | ckanext/fisbroker/cli.py:61-63 | a page is the next at most 500 results, and is non-empty while results remain |
| Cli.SliceBound | ckanext/fisbroker/cli.py:71 | Python's slice bound for negative and positive indices |
| Cli.SlicesAdjoin | ckanext/fisbroker/cli.py:71 | adjacent slices join into the whole slice |
| Cli.ListedPackagesBounds | ckanext/fisbroker/cli.py:68-71 | no limit means everything from the offset; otherwise at most `limit` results from the offset |
| Cli.ListPackages | ckanext/fisbroker/cli.py:43-71 | the loop collects all results page by page, starting at multiples of 500, with no page too many, and slices them |
| Cli.SourceIds | ckanext/fisbroker/cli.py:239 | the ids of the listed sources, in order |
| Cli.Names | ckanext/fisbroker/cli.py:241 | the names of the packages, or KeyError when one has none |
| Cli.TargetsPrecedence | ckanext/fisbroker/cli.py:228-241 | a truthy dataset id is the only target; otherwise a truthy source gives the names of its listed packages |
| Cli.ReimportTargets | ckanext/fisbroker/cli.py:228-241 | the method computes `TargetsOf` |
| Cli.NamesStayFailed | ckanext/fisbroker/cli.py:240-241 | once a name is missing, later sources change nothing |
| Cli.Entries | ckanext/fisbroker/cli.py:79-84 | one entry per reimported package, with its record's identifier and title |
| Cli.ReimportReport | ckanext/fisbroker/cli.py:74-86 | the method computes `ReportOf` |
| Cli.ReportCoversBatch | ckanext/fisbroker/cli.py:74-86 | the report of a successful batch covers exactly the packages reimported |

## Left out

- Resources and package dicts are changed in place by the source; the model returns updated values. Aliasing between the caller's dict and the returned one is not captured.
- Extras are a `map`: the insertion order of Python dicts, and so the order of the extras list, is not modelled.
- The CSW client, the database session, CKAN's actions and model are parameters or class state: `munge_title_to_name`, `json.loads`/`json.dumps`, `dateutil`, `md5`, `uuid`, package validation, the ISO parser. `csw_client.py` and `paster_command.py` are not part of this model.
- `sleep(wait_time)` between fetch attempts, all logging, and the `click.echo` output and timing of the CLI commands.
- ISO schema validation in `import_stage` (the validator always accepts), and the `original_document` transformation with its `ISpatialHarvester` loops.
- The reindexing of an unchanged package; the `ISpatialHarvester` plugins that may further change the package dict.
- The non-dict branch of `get_package_dict`, which defers to `CSWHarvester`.
- The Flask and Pylons glue: `_finish`, `reimport_through_browser`, `reimport_browser`, `__call__`, `before_map`, `update_config`, `get_helpers` and the `info()` strings.
- The CLI commands `harvest_objects` and `last_successful_job` are plain loops around the modelled queries; only their query parts are modelled.
- ISO value keys that the source would read with `[]` or `.get` are always present here, as possibly empty lists.
- `HARVESTER_ID` is taken to be `fisbroker`, the harvester's entry point name; `ckanext/fisbroker/__init__.py` is not part of this model.
- `NotFoundInFisbrokerError` and `FBImportError` are not defined in `exceptions.py`: they are modelled with codes 10 and 11 and the attributes `fb_guid` and `reason` that `blueprint.py` reads.
- `get_fisbroker_source` and `is_reimport_job` are not in `helper.py`: the FIS-Broker source is a parameter, and the reimport flag is a field of the job.
- plugin.py's `get_import_since_date`, `get_constraints`, `get_timeout`, `get_timedelta` and ISO extraction helpers have the harvester's bodies and share its model. The differences are modelled as parameters: `validate_config`'s messages (`Config.Validator`), and the last error-free job search, which plugin.py inherits from ckanext-harvest's `HarvesterBase` without the reimport filter (`skipReimports`); that inherited search is taken to be the harvester's override minus lines 1010-1011, as its docstring says. The licence fix differs and is modelled twice.
- Config.ValidateConfig: JSON that parses to something other than an object (a list, a string, a number) is not modelled; the parse result is either an error or an object. In the source, `in` on such a value tests membership or raises TypeError. The JSON text `json.dumps(config_obj, indent=2)` writes (fisbroker_harvester.py:369) and the check `CSWHarvester.validate_config` (fisbroker_harvester.py:374) are parameters (`dump`, `baseCheck`), because that base class is not part of this model; the model states only that the result is theirs.
- Text.Lower: lowers ASCII letters only; Python's `str.lower` also lowers other Unicode letters, so keys or values with such letters compare differently.
- A URL (`Urls.Url`) has no URL parameters (`;…`) or fragment, and holds its query already percent-decoded as `parse_qs` returns it; `urlunparse` re-encoding is not modelled.
- helper.py:6 imports `urlparse`, a Python 2 module; the model follows the Python 3 `urllib.parse` functions of the same names, as if that import worked.
- Helper.FisbrokerGuid: `package.get('extras', False)` on a `Package` instance resolves to the classmethod `Package.get`, not a dict lookup; the model gives the evidently intended reading, the package's extras or False.

## Findings

| source | as written | input that shows it | evidently intended | confidence | as-written member | corrected member |
|---|---|---|---|---|---|---|
| ckanext/fisbroker/fisbroker_resource_annotator.py:105-109 | the service page branch sets name, format, role and weight but no description | a resource with url `https://fbinter.stadt-berlin.de/fb?loginkey=showMap&mapId=nsg_lsg@senstadt` and no description | description `Serviceseite im FIS-Broker`, as `tests/test_resource_annotator.py` expects and the converter sets | not executed | Annotator.ServicePageLacksDescription | Annotator.AnnotateResourceIntended |
| ckanext/fisbroker/blueprint.py:228-232 | the `NoConnectionError` branch reads `error.service_url`, which that exception never sets, so the handler raises AttributeError | a FIS-Broker package with a GUID whose service cannot be reached (see the reachability lemma) | answer 500 with code 8 and the service URL in the message | not executed | Blueprint.NoConnectionEscapes | Blueprint.ResponseOf |
| ckanext/fisbroker/plugin.py:214 | `extras_dict.iteritems()` does not exist on Python 3 and raises AttributeError whenever plugin.py:542 runs | any record passing the gates, e.g. extras `{"berlin_type": "datensatz"}` | iterate with `items()` as the harvester does, giving the list of key/value extras | not executed | Legacy.LegacyExtrasAsListFails | Legacy.LegacyGetPackageDictIntended |
