/**
 * `FisbrokerHarvester.get_package_dict`: the gates a record must pass to be
 * harvested, each remembered on the harvest object when it fails, and the
 * package dict built from the ISO values of a record that passes them all.
 */
module HarvesterPackage {
  import opened Wrappers
  import opened Text
  import opened Urls
  import opened Resources
  import opened Annotator
  import opened Helper
  import opened Iso
  import opened Packages

  /** What `get_package_dict` returns: `'skip'` or the package dict. */
  datatype Outcome = Skip | Built(package: PackageDict)

  /** How a record fares at the gates: all passed, rejected with a code, or an exception on the way. */
  datatype Gate = Pass | Reject(code: int, description: string) | Raise

  /** The simple tags whose tag dicts are dropped from the package. */
  const TAGS_TO_REMOVE: seq<string> := ["\U{e4}\U{f6}\U{fc}", "opendata", "open data"]

  /**
   * The gates in the order they are checked: open data, service resource,
   * organisation name, organisation email, license, release date. A failing
   * license restriction or a date list without any usable date raises
   * instead of rejecting.
   */
  function Gates(iso: IsoValues, parse: string -> Parsed): Gate {
    var contact := ExtractContactInfo(iso.responsibleOrganisation);
    var restrictions := iso.limitationsOnPublicAccess;
    if !MarkedAsOpendata(iso) then Reject(1, "not tagged as open data")
    else if !MarkedAsServiceResource(iso) then Reject(2, "not a service resource")
    else if contact.author.None? then Reject(3, "no organisation name")
    else if contact.maintainerEmail.None? then Reject(4, "no responsible organisation email")
    else if exists i :: 0 <= i < |restrictions| && Failing(parse(restrictions[i])) then Raise
    else if LastUsable(restrictions, parse).None? then Reject(5, "could not determine license code")
    else if iso.datasetReferenceDate == [] then Reject(6, "no release date")
    else if Released(iso.datasetReferenceDate).None? then Raise
    else Pass
  }

  /**
   * The first two gates: a record without the keyword `opendata` is
   * rejected with code 1, whatever else it holds; one with it but without
   * the resource type `service` is rejected with code 2; only a record
   * with both gets to the later gates.
   */
  lemma FirstGates(iso: IsoValues, parse: string -> Parsed)
    ensures Gates(iso, parse) == Reject(1, "not tagged as open data") <==> !MarkedAsOpendata(iso)
    ensures Gates(iso, parse) == Reject(2, "not a service resource") <==>
      MarkedAsOpendata(iso) && !MarkedAsServiceResource(iso)
    ensures !Gates(iso, parse).Reject? || Gates(iso, parse).code > 2 ==>
      && (exists i :: 0 <= i < |iso.tags| && iso.tags[i] == "opendata")
      && (exists i :: 0 <= i < |iso.resourceType| && iso.resourceType[i] == "service")
  {
  }

  /**
   * The exception a record that raises at the gates raises: that of the
   * first license restriction that parses as JSON without giving a usable
   * license, or else the `KeyError` of a date list without a release date.
   */
  predicate RaisedAs(iso: IsoValues, parse: string -> Parsed, e: Error) {
    var restrictions := iso.limitationsOnPublicAccess;
    if exists i :: 0 <= i < |restrictions| && Failing(parse(restrictions[i])) then
      exists i :: 0 <= i < |restrictions| && Failing(parse(restrictions[i]))
        && e == FailureOf(parse(restrictions[i])) && forall j :: 0 <= j < i ==> !Failing(parse(restrictions[j]))
    else e == KeyError("date_released")
  }

  /** `json.dumps({'code': code, 'description': description})` */
  function ErrorJson(code: int, description: string): string {
    "{\"code\": " + DecimalText(code) + ", \"description\": \"" + description + "\"}"
  }

  /** `remember_error`: an `error` extra on the harvest object, if there is one. */
  function Remember(objectExtras: Option<seq<Extra>>, code: int, description: string): Option<seq<Extra>> {
    match objectExtras
    case None => None
    case Some(extras) => Some(extras + [Extra("error", ErrorJson(code, description))])
  }

  // ------------------------------------------------------------------ extras

  /**
   * The value key `k` holds once the attribution text and reference dates
   * are recorded in the extras dict made from the incoming extras list.
   */
  function RecordedExtra(original: seq<Extra>, attribution: string, dates: seq<ReferenceDate>, k: string): Option<string> {
    if k == "attribution_text" then Some(attribution)
    else if k == "date_released" then Released(dates)
    else if k == "date_updated" then Updated(dates)
    else LastValue(original, k)
  }

  /** The value of the constant extras `get_package_dict` sets, `None` for every other key. */
  function ConstantExtra(k: string): Option<string> {
    if k == "berlin_type" then Some("datensatz")
    else if k == "berlin_source" then Some("harvest-fisbroker")
    else if k == "geographical_granularity" || k == "geographical_coverage" then Some("Berlin")
    else if k == "temporal_granularity" then Some("Keine")
    else None
  }

  /**
   * The value key `k` holds in a dict `before` once the Berlin constants are
   * set and the temporal coverage is copied from the temporal extent.
   */
  function Completed(before: string -> Option<string>, k: string): Option<string> {
    if ConstantExtra(k).Some? then ConstantExtra(k)
    else if k == "temporal_coverage_from" && before("temporal-extent-begin").Some? then before("temporal-extent-begin")
    else if k == "temporal_coverage_to" && before("temporal-extent-end").Some? then before("temporal-extent-end")
    else before(k)
  }

  /** `Completed` looks only at the values `before` gives. */
  lemma CompletedAgrees(before: string -> Option<string>, before': string -> Option<string>, k: string)
    requires forall k' :: before(k') == before'(k')
    ensures Completed(before, k) == Completed(before', k)
  {
  }

  /**
   * The extras list of the built package: each key once, holding what the
   * recorded extras hold once completed.
   */
  ghost predicate ExtrasBuilt(original: seq<Extra>, attribution: string, dates: seq<ReferenceDate>, extras: seq<Extra>) {
    Distinct(ExtraKeys(extras))
    && forall k :: LastValue(extras, k) == Completed(k' => RecordedExtra(original, attribution, dates, k'), k)
  }

  // ------------------------------------------------------------ package dict

  /** The package dict with the fields the ISO values set while the gates are checked. */
  function WithMetadata(package: PackageDict, iso: IsoValues, licenseId: string): (p: PackageDict)
    ensures p.resources == package.resources && p.extras == package.extras && p.title == package.title
  {
    var contact := ExtractContactInfo(iso.responsibleOrganisation);
    package.(tags := Excluding(package.tags, RemovedTags(TAGS_TO_REMOVE, iso.tags)),
             author := contact.author,
             maintainerEmail := contact.maintainerEmail,
             maintainer := if contact.maintainer.Some? then contact.maintainer else package.maintainer,
             licenseId := Some(licenseId))
  }

  /** The fields set once every gate has passed; tags, contacts and license stay as they were. */
  predicate FieldsCompleted(p: PackageDict, iso: IsoValues, munge: string -> string, result: PackageDict) {
    var markup := PreviewMarkup(iso.browseGraphic, p.title);
    AnnotateAllResources(p.resources).Ok?
    && result.resources == UniqByUrl(AnnotateAllResources(p.resources).value)
    && result.url == DatasetUrl(result.resources)
    && result.notes == (if markup.Some? then p.notes + "\n\n" + markup.value else p.notes)
    && result.title == GenerateTitle(p.title, result.resources)
    && result.name == Some(GenerateName(result.title, iso.guid, munge))
    && result.groups == ["geo"]
    && result.tags == p.tags && result.author == p.author && result.maintainer == p.maintainer
    && result.maintainerEmail == p.maintainerEmail && result.licenseId == p.licenseId
  }

  /** How the first part of `get_package_dict` ends: at a gate, with an exception, or with every gate passed. */
  datatype Gated =
    | Rejected(code: int, description: string)
    | Raised(error: Error)
    | Passed(package: PackageDict, extras: map<string, string>)

  /**
   * The first part of `get_package_dict`: the gates, checked in order, and
   * the fields and extras the ISO values set on the way. `parse` stands for
   * `json.loads`, `fix` for the rewrite of license ids (the harvester's and
   * the legacy plugin's differ; everything else here is shared).
   */
  method ApplyIsoValues(package: PackageDict, iso: IsoValues, parse: string -> Parsed, fix: string -> string)
    returns (g: Gated)
    ensures g.Rejected? <==> Gates(iso, parse).Reject?
    ensures g.Rejected? ==> g.code == Gates(iso, parse).code && g.description == Gates(iso, parse).description
    ensures g.Raised? <==> Gates(iso, parse).Raise?
    ensures g.Raised? ==> RaisedAs(iso, parse, g.error)
    ensures g.Passed? ==>
      (LastUsable(iso.limitationsOnPublicAccess, parse).Some?
       && var license := LastUsable(iso.limitationsOnPublicAccess, parse).value;
       && g.package == WithMetadata(package, iso, fix(license.licenseId))
       && forall k :: Lookup(g.extras, k) ==
            RecordedExtra(package.extras, license.attributionText, iso.datasetReferenceDate, k))
  {
    if !MarkedAsOpendata(iso) {
      return Rejected(1, "not tagged as open data");
    }
    if !MarkedAsServiceResource(iso) {
      return Rejected(2, "not a service resource");
    }
    var p := package;
    var extras := ExtrasDict(p.extras);
    var tags := FilterTags(TAGS_TO_REMOVE, iso.tags, p.tags);
    p := p.(tags := tags);

    var contactInfo := ExtractContactInfo(iso.responsibleOrganisation);
    if contactInfo.author.None? {
      return Rejected(3, "no organisation name");
    }
    p := p.(author := contactInfo.author);
    if contactInfo.maintainerEmail.None? {
      return Rejected(4, "no responsible organisation email");
    }
    p := p.(maintainerEmail := contactInfo.maintainerEmail);
    if contactInfo.maintainer.Some? {
      p := p.(maintainer := contactInfo.maintainer);
    }

    var license := ExtractLicenseAndAttribution(iso.limitationsOnPublicAccess, parse, fix);
    if license.Err? {
      return Raised(license.error);
    }
    LicenseFoundIffJson(iso.limitationsOnPublicAccess, parse);
    if license.value.None? {
      return Rejected(5, "could not determine license code");
    }
    p := p.(licenseId := Some(license.value.value.licenseId));
    extras := extras["attribution_text" := license.value.value.attributionText];

    var referenceDates := ExtractReferenceDates(iso.datasetReferenceDate);
    if referenceDates.Err? {
      return Raised(referenceDates.error);
    }
    if referenceDates.value.released.None? {
      return Rejected(6, "no release date");
    }
    extras := extras["date_released" := referenceDates.value.released.value];
    if referenceDates.value.updated.Some? {
      extras := extras["date_updated" := referenceDates.value.updated.value];
    }
    return Passed(p, extras);
  }

  /**
   * The second part of `get_package_dict`, once every gate has passed:
   * resources, URL, preview graphic, title, name, group and the remaining
   * extras, and the extras turned back into a list. `munge` stands for
   * CKAN's `munge_title_to_name`.
   */
  method CompletePackageDict(p: PackageDict, extras: map<string, string>, iso: IsoValues, munge: string -> string)
    returns (r: Result<PackageDict>)
    ensures r.Ok? <==> AnnotateAllResources(p.resources).Ok?
    ensures r.Err? ==> r == Err(AnnotateAllResources(p.resources).error)
    ensures r.Ok? ==>
      (FieldsCompleted(p, iso, munge, r.value)
       && Distinct(ExtraKeys(r.value.extras))
       && forall k :: LastValue(r.value.extras, k) == Completed(k' => Lookup(extras, k'), k))
  {
    var p := p;
    var resources := AnnotateAllResources(p.resources);
    if resources.Err? {
      return Err(resources.error);
    }
    var uniq := UniqResourcesByUrl(resources.value);
    p := p.(resources := uniq);
    var url := ExtractUrl(p.resources);
    p := p.(url := url);

    var previewMarkup := ExtractPreviewMarkup(iso.browseGraphic, p.title);
    if previewMarkup.Some? {
      p := p.(notes := p.notes + "\n\n" + previewMarkup.value);
    }
    p := p.(title := GenerateTitle(p.title, p.resources));
    p := p.(name := Some(GenerateName(p.title, iso.guid, munge)));
    p := p.(groups := ["geo"]);

    var completed := CompleteExtras(extras);
    var extrasList := ExtrasAsList(completed);
    p := p.(extras := extrasList);
    return Ok(p);
  }

  /** The Berlin constants, as both `get_package_dict`s set them. */
  method SetConstantExtras(extras: map<string, string>) returns (result: map<string, string>)
    ensures forall k :: Lookup(result, k) == if ConstantExtra(k).Some? then ConstantExtra(k) else Lookup(extras, k)
  {
    result := extras;
    result := result["berlin_type" := "datensatz"];
    result := result["berlin_source" := "harvest-fisbroker"];
    result := result["geographical_granularity" := "Berlin"];
    result := result["geographical_coverage" := "Berlin"];
    result := result["temporal_granularity" := "Keine"];
  }

  /**
   * The extras `get_package_dict` sets after the resources: the Berlin
   * constants, then the temporal coverage copied from the temporal extent
   * where the record has one.
   */
  method CompleteExtras(extras: map<string, string>) returns (result: map<string, string>)
    ensures forall k :: Lookup(result, k) == Completed(k' => Lookup(extras, k'), k)
  {
    result := SetConstantExtras(extras);
    if "temporal-extent-begin" in result {
      result := result["temporal_coverage_from" := result["temporal-extent-begin"]];
    }
    if "temporal-extent-end" in result {
      result := result["temporal_coverage_to" := result["temporal-extent-end"]];
    }
  }

  /**
   * `get_package_dict` on a data dict: the first gate that rejects the record
   * leaves one `error` extra with its code on the harvest object and gives
   * `'skip'`; a record that passes every gate gives the package dict built
   * from it, unless annotating its resources fails.
   */
  method GetPackageDict(package: PackageDict, iso: IsoValues, harvestObjectExtras: Option<seq<Extra>>,
                        parse: string -> Parsed, munge: string -> string)
    returns (r: Result<Outcome>, objectExtras: Option<seq<Extra>>)
    ensures Gates(iso, parse).Reject? ==>
      (r == Ok(Skip)
       && objectExtras == Remember(harvestObjectExtras, Gates(iso, parse).code, Gates(iso, parse).description))
    ensures !Gates(iso, parse).Reject? ==> objectExtras == harvestObjectExtras
    ensures r == Ok(Skip) ==> Gates(iso, parse).Reject?
    ensures Gates(iso, parse).Raise? ==> r.Err? && RaisedAs(iso, parse, r.error)
    ensures Gates(iso, parse).Pass? ==> (r.Ok? <==> AnnotateAllResources(package.resources).Ok?)
    ensures r.Ok? && r.value.Built? ==>
      (Gates(iso, parse).Pass?
       && var license := LastUsable(iso.limitationsOnPublicAccess, parse).value;
       && ExtrasBuilt(package.extras, license.attributionText, iso.datasetReferenceDate, r.value.package.extras)
       && FieldsCompleted(WithMetadata(package, iso, HarvesterLicenseFix(license.licenseId)), iso, munge, r.value.package))
  {
    objectExtras := harvestObjectExtras;
    var gated := ApplyIsoValues(package, iso, parse, HarvesterLicenseFix);
    match gated
    case Rejected(code, description) =>
      objectExtras := Remember(objectExtras, code, description);
      return Ok(Skip), objectExtras;
    case Raised(error) =>
      return Err(error), objectExtras;
    case Passed(p, extras) =>
      var completed := CompletePackageDict(p, extras, iso, munge);
      if completed.Err? {
        return Err(completed.error), objectExtras;
      }
      ghost var license := LastUsable(iso.limitationsOnPublicAccess, parse).value;
      ghost var recorded := k' => RecordedExtra(package.extras, license.attributionText, iso.datasetReferenceDate, k');
      forall k ensures LastValue(completed.value.extras, k) == Completed(recorded, k) {
        CompletedAgrees(k' => Lookup(extras, k'), recorded, k);
      }
      return Ok(Built(completed.value)), objectExtras;
  }
}
