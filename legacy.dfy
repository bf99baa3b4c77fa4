/**
 * The legacy `FisbrokerPlugin` of plugin.py: the same gates as the harvester,
 * but with the resource converter instead of the annotator, its own license
 * rewrite and title, no error extras on the harvest object and no temporal
 * coverage extras.
 */
module Legacy {
  import opened Wrappers
  import opened Text
  import opened Urls
  import opened Resources
  import opened Helper
  import opened Iso
  import opened Packages
  import opened Converter
  import opened HarvesterPackage

  // ----------------------------------------------------------------- license

  /** The legacy license rewrite: only "dl-de-by-2-0" becomes "dl-de-by-2.0". */
  function LegacyLicenseFix(id: string): (fixed: string)
    ensures id == "dl-de-by-2-0" ==> fixed == "dl-de-by-2.0"
    ensures id != "dl-de-by-2-0" ==> fixed == id
  {
    if id == "dl-de-by-2-0" then "dl-de-by-2.0" else id
  }

  /**
   * The legacy rewrite is part of the harvester's: rewriting first changes
   * nothing the harvester's rewrite would produce, but the DCAT-AP id
   * "dl-by-de/2.0" passes the legacy rewrite unchanged.
   */
  lemma LegacyFixWithinHarvesterFix(id: string)
    ensures HarvesterLicenseFix(LegacyLicenseFix(id)) == HarvesterLicenseFix(id)
    ensures LegacyLicenseFix("dl-by-de/2.0") == "dl-by-de/2.0" != HarvesterLicenseFix("dl-by-de/2.0")
  {
  }

  // ------------------------------------------------------------------- title

  /**
   * The legacy `generate_title`: like the harvester's, but it pops the last
   * main resource without checking there is one, so a package without a
   * main resource raises `IndexError`.
   */
  function LegacyGenerateTitle(title: string, resources: seq<Resource>): (r: Result<string>)
    ensures r.Err? <==> forall i :: 0 <= i < |resources| ==> !IsMain(resources[i])
    ensures r.Err? ==> r.error == IndexError
    ensures r.Ok? ==> r.value == GenerateTitle(title, resources)
  {
    match LastMain(resources)
    case None => Err(IndexError)
    case Some(main) => Ok(if main.format.Some? then title + FormatSuffix(main.format.value) else title)
  }

  // --------------------------------------------------------------- resources

  /**
   * Every resource converted in order, `None` results dropped; the first
   * resource the converter fails on fails the whole list.
   */
  function Converted(rs: seq<Resource>): (r: Result<seq<Resource>>)
    ensures r.Err? <==> exists i :: 0 <= i < |rs| && ConvertResource(rs[i]).Err?
    ensures r.Err? ==> r.error == KeyError("description")
    ensures r.Ok? ==> |r.value| <= |rs|
  {
    if rs == [] then Ok([])
    else
      var last := rs[|rs| - 1];
      match Converted(rs[..|rs| - 1])
      case Err(e) => Err(e)
      case Ok(previous) =>
        match ConvertResource(last)
        case Err(e) => Err(e)
        case Ok(None) => Ok(previous)
        case Ok(Some(c)) => Ok(previous + [c])
  }

  /** A resource the converter keeps is in the converted list. */
  lemma {:induction false} ConvertedKeeps(rs: seq<Resource>, i: int)
    requires 0 <= i < |rs| && Converted(rs).Ok?
    requires ConvertResource(rs[i]).Ok? && ConvertResource(rs[i]).value.Some?
    ensures ConvertResource(rs[i]).value.value in Converted(rs).value
  {
    var n := |rs| - 1;
    if i < n {
      assert rs[..n][i] == rs[i];
      ConvertedKeeps(rs[..n], i);
    }
  }

  /** Everything in the converted list is the conversion of some input resource. */
  lemma {:induction false} ConvertedOnlyConversions(rs: seq<Resource>, c: Resource)
    requires Converted(rs).Ok? && c in Converted(rs).value
    ensures exists i :: 0 <= i < |rs| && ConvertResource(rs[i]) == Ok(Some(c))
  {
    var n := |rs| - 1;
    var previous := Converted(rs[..n]).value;
    if c in previous {
      ConvertedOnlyConversions(rs[..n], c);
      var i :| 0 <= i < n && ConvertResource(rs[..n][i]) == Ok(Some(c));
      assert rs[..n][i] == rs[i];
    } else {
      assert ConvertResource(rs[n]) == Ok(Some(c));
    }
  }

  /** `[converter.convert_resource(resource) for resource in resources]`, then `filter(None, ...)`. */
  method ConvertResources(resources: seq<Resource>) returns (r: Result<seq<Resource>>)
    ensures r == Converted(resources)
  {
    var converted: seq<Resource> := [];
    for i := 0 to |resources|
      invariant Converted(resources[..i]) == Ok(converted)
    {
      assert resources[..i + 1][..i] == resources[..i];
      var c := ConvertResource(resources[i]);
      if c.Err? {
        assert Converted(resources[..i + 1]) == Err(c.error);
        assert ConvertResource(resources[i]).Err?;
        return Err(c.error);
      }
      if c.value.Some? {
        converted := converted + [c.value.value];
      }
    }
    assert resources[..|resources|] == resources;
    return Ok(converted);
  }

  // ------------------------------------------------------------ package dict

  /** The fields the legacy plugin sets once every gate has passed; tags, contacts and license stay as they were. */
  predicate LegacyFieldsCompleted(p: PackageDict, iso: IsoValues, munge: string -> string, result: PackageDict) {
    var markup := PreviewMarkup(iso.browseGraphic, p.title);
    Converted(p.resources).Ok?
    && result.resources == UniqByUrl(Converted(p.resources).value)
    && result.url == DatasetUrl(result.resources)
    && result.notes == (if markup.Some? then p.notes + "\n\n" + markup.value else p.notes)
    && LegacyGenerateTitle(p.title, result.resources) == Ok(result.title)
    && result.name == Some(GenerateName(result.title, iso.guid, munge))
    && result.groups == ["geo"]
    && result.tags == p.tags && result.author == p.author && result.maintainer == p.maintainer
    && result.maintainerEmail == p.maintainerEmail && result.licenseId == p.licenseId
  }

  /** The extras the legacy plugin adds after the resources: only the Berlin constants. */
  function LegacyCompleted(before: string -> Option<string>, k: string): Option<string> {
    if ConstantExtra(k).Some? then ConstantExtra(k) else before(k)
  }

  /**
   * The second part of the legacy `get_package_dict` up to its extras:
   * converted and deduplicated resources, URL, preview graphic, title, name
   * and group. It fails where converting a resource fails, or where no
   * resource is left marked as main for the title.
   */
  method LegacyPreparePackageDict(p: PackageDict, iso: IsoValues, munge: string -> string)
    returns (r: Result<PackageDict>)
    ensures r.Ok? <==> Converted(p.resources).Ok? && LastMain(UniqByUrl(Converted(p.resources).value)).Some?
    ensures r.Err? ==> r.error == if Converted(p.resources).Err? then KeyError("description") else IndexError
    ensures r.Ok? ==> LegacyFieldsCompleted(p, iso, munge, r.value) && r.value.extras == p.extras
  {
    var p := p;
    var resources := ConvertResources(p.resources);
    if resources.Err? {
      return Err(resources.error);
    }
    var uniq := UniqResourcesByUrl(resources.value);
    p := p.(resources := uniq);
    var url := ExtractUrl(p.resources);
    p := p.(url := url);

    var previewMarkup := ExtractPreviewMarkup(iso.browseGraphic, p.title);
    if previewMarkup.Some? {
      p := p.(notes := p.notes + "\n\n" + previewMarkup.value);
    }
    var title := LegacyGenerateTitle(p.title, p.resources);
    if title.Err? {
      return Err(title.error);
    }
    p := p.(title := title.value);
    p := p.(name := Some(GenerateName(p.title, iso.guid, munge)));
    p := p.(groups := ["geo"]);
    return Ok(p);
  }

  /** The error the legacy completion ends with, in the order its steps can fail. */
  function LegacyCompletionError(resources: seq<Resource>): Error {
    if Converted(resources).Err? then KeyError("description")
    else if LastMain(UniqByUrl(Converted(resources).value)).None? then IndexError
    else AttributeError("iteritems")
  }

  /**
   * The second part of the legacy `get_package_dict` as written: after the
   * fields are set, listing the extras with `extras_as_list` raises, so no
   * package is ever completed.
   */
  method LegacyCompletePackageDict(p: PackageDict, extras: map<string, string>, iso: IsoValues, munge: string -> string)
    returns (r: Result<PackageDict>)
    ensures r == Err(LegacyCompletionError(p.resources))
  {
    var prepared := LegacyPreparePackageDict(p, iso, munge);
    if prepared.Err? {
      return Err(prepared.error);
    }
    var completed := SetConstantExtras(extras);
    var extrasList := LegacyExtrasAsList(completed);
    return Err(extrasList.error);
  }

  /**
   * The second part of the legacy `get_package_dict` as intended: the
   * constant extras listed with `items()`, as the harvester lists them.
   */
  method LegacyCompletePackageDictIntended(p: PackageDict, extras: map<string, string>, iso: IsoValues,
                                           munge: string -> string)
    returns (r: Result<PackageDict>)
    ensures r.Ok? <==> Converted(p.resources).Ok? && LastMain(UniqByUrl(Converted(p.resources).value)).Some?
    ensures r.Err? ==> r.error == LegacyCompletionError(p.resources)
    ensures r.Ok? ==>
      (LegacyFieldsCompleted(p, iso, munge, r.value)
       && Distinct(ExtraKeys(r.value.extras))
       && forall k :: LastValue(r.value.extras, k) == LegacyCompleted(k' => Lookup(extras, k'), k))
  {
    var prepared := LegacyPreparePackageDict(p, iso, munge);
    if prepared.Err? {
      return Err(prepared.error);
    }
    var completed := SetConstantExtras(extras);
    var extrasList := ExtrasAsList(completed);
    return Ok(prepared.value.(extras := extrasList));
  }

  /**
   * The legacy `get_package_dict` as written: the same gates in the same
   * order as the harvester's, but a rejected record gives `'skip'` without
   * leaving an error behind, and a record that passes them all ends in the
   * error of its completion.
   */
  method LegacyGetPackageDict(package: PackageDict, iso: IsoValues, parse: string -> Parsed, munge: string -> string)
    returns (r: Result<Outcome>)
    ensures Gates(iso, parse).Reject? <==> r == Ok(Skip)
    ensures r.Err? <==> !Gates(iso, parse).Reject?
    ensures Gates(iso, parse).Raise? ==> r.Err? && RaisedAs(iso, parse, r.error)
    ensures Gates(iso, parse).Pass? ==> r == Err(LegacyCompletionError(package.resources))
  {
    var gated := ApplyIsoValues(package, iso, parse, LegacyLicenseFix);
    match gated
    case Rejected(_, _) =>
      return Ok(Skip);
    case Raised(error) =>
      return Err(error);
    case Passed(p, extras) =>
      var completed := LegacyCompletePackageDict(p, extras, iso, munge);
      return Err(completed.error);
  }

  /**
   * The legacy `get_package_dict` as intended, with the extras listed by
   * `items()`: a record that passes the gates becomes a package with the
   * legacy fields and the Berlin constant extras.
   */
  method LegacyGetPackageDictIntended(package: PackageDict, iso: IsoValues, parse: string -> Parsed,
                                      munge: string -> string)
    returns (r: Result<Outcome>)
    ensures Gates(iso, parse).Reject? ==> r == Ok(Skip)
    ensures Gates(iso, parse).Raise? ==> r.Err? && RaisedAs(iso, parse, r.error)
    ensures Gates(iso, parse).Pass? ==>
      (r.Ok? <==> Converted(package.resources).Ok? && LastMain(UniqByUrl(Converted(package.resources).value)).Some?)
    ensures r.Ok? && r.value.Built? ==>
      (Gates(iso, parse).Pass?
       && var license := LastUsable(iso.limitationsOnPublicAccess, parse).value;
       && var recorded := k' => RecordedExtra(package.extras, license.attributionText, iso.datasetReferenceDate, k');
       && LegacyFieldsCompleted(WithMetadata(package, iso, LegacyLicenseFix(license.licenseId)), iso, munge,
                                r.value.package)
       && Distinct(ExtraKeys(r.value.package.extras))
       && forall k :: LastValue(r.value.package.extras, k) == LegacyCompleted(recorded, k))
  {
    var gated := ApplyIsoValues(package, iso, parse, LegacyLicenseFix);
    match gated
    case Rejected(_, _) =>
      return Ok(Skip);
    case Raised(error) =>
      return Err(error);
    case Passed(p, extras) =>
      var completed := LegacyCompletePackageDictIntended(p, extras, iso, munge);
      if completed.Err? {
        return Err(completed.error);
      }
      return Ok(Built(completed.value));
  }

  // -------------------------------------------------------------- extras list

  /**
   * The legacy `extras_as_list` as written: it iterates with
   * `dict.iteritems`, which Python 3 dicts do not have, so every call
   * raises `AttributeError`.
   */
  function LegacyExtrasAsList(d: map<string, string>): (r: Result<seq<Extra>>)
    ensures r.Err? && r.error.AttributeError?
  {
    Err(AttributeError("iteritems"))
  }

  /**
   * Every dict has a list form with the same entries, which
   * `Packages.ExtrasAsList` builds and the legacy `extras_as_list` fails to
   * return.
   */
  method LegacyExtrasAsListFails(d: map<string, string>) returns (intended: seq<Extra>)
    ensures LegacyExtrasAsList(d) == Err(AttributeError("iteritems"))
    ensures Distinct(ExtraKeys(intended)) && forall k :: LastValue(intended, k) == Lookup(d, k)
  {
    intended := ExtrasAsList(d);
  }
}
