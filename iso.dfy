/**
 * The values ckanext-spatial reads from a record's ISO 19139 document, and
 * the module functions of the FIS-Broker harvester that look at them:
 * the open-data and service markers, contact information, license and
 * attribution, reference dates and the preview graphic.
 */
module Iso {
  import opened Wrappers

  /** An entry of `responsible-organisation`; `None` stands for a missing key (or, for the email, a missing `contact-info`). */
  datatype Organisation = Organisation(
    organisationName: Option<string>,
    email: Option<string>,
    individualName: Option<string>)

  /** An entry of `dataset-reference-date`. */
  datatype ReferenceDate = ReferenceDate(dateType: string, value: string)

  /** An entry of `browse-graphic`. */
  datatype BrowseGraphic = BrowseGraphic(description: Option<string>, file: Option<string>)

  /**
   * The ISO values the harvester reads. A list-valued key the document does
   * not provide is the empty list, which every reader treats like a missing key.
   */
  datatype IsoValues = IsoValues(
    guid: string,
    title: string,
    tags: seq<string>,
    resourceType: seq<string>,
    responsibleOrganisation: seq<Organisation>,
    limitationsOnPublicAccess: seq<string>,
    datasetReferenceDate: seq<ReferenceDate>,
    browseGraphic: seq<BrowseGraphic>,
    metadataDate: string)

  /** `marked_as_opendata`: some keyword is exactly `opendata`, in that case and spelling. */
  function MarkedAsOpendata(iso: IsoValues): (marked: bool)
    ensures marked <==> exists i :: 0 <= i < |iso.tags| && iso.tags[i] == "opendata"
  {
    "opendata" in iso.tags
  }

  /** `marked_as_service_resource`: some resource type is exactly `service`. */
  function MarkedAsServiceResource(iso: IsoValues): (marked: bool)
    ensures marked <==> exists i :: 0 <= i < |iso.resourceType| && iso.resourceType[i] == "service"
  {
    "service" in iso.resourceType
  }

  // ---------------------------------------------------------------- contacts

  /** The `contact_info` dict: `None` for a key it does not hold. */
  datatype ContactInfo = ContactInfo(author: Option<string>, maintainerEmail: Option<string>, maintainer: Option<string>)

  /**
   * `extract_contact_info`: only the first responsible organisation counts;
   * its non-empty name is the author, its non-empty email the maintainer's
   * email, and its individual name, even an empty one, the maintainer.
   */
  function ExtractContactInfo(organisations: seq<Organisation>): (c: ContactInfo)
    ensures organisations == [] ==> c == ContactInfo(None, None, None)
    ensures c.author.Some? <==> organisations != [] && Truthy(organisations[0].organisationName)
    ensures c.author.Some? ==> c.author == organisations[0].organisationName
    ensures c.maintainerEmail.Some? <==> organisations != [] && Truthy(organisations[0].email)
    ensures c.maintainerEmail.Some? ==> c.maintainerEmail == organisations[0].email
    ensures organisations != [] ==> c.maintainer == organisations[0].individualName
  {
    if organisations == [] then ContactInfo(None, None, None)
    else
      var first := organisations[0];
      ContactInfo(
        if Truthy(first.organisationName) then first.organisationName else None,
        if Truthy(first.email) then first.email else None,
        first.individualName)
  }

  // ----------------------------------------------------------------- license

  /** What `json.loads` makes of a restriction text: not JSON at all, an object of strings, or some other JSON value. */
  datatype Parsed = NotJson | JsonObject(fields: map<string, string>) | JsonOther

  datatype LicenseAndAttribution = LicenseAndAttribution(licenseId: string, attributionText: string)

  /** A restriction that yields both an `id` and a `quelle`. */
  predicate Usable(p: Parsed) {
    p.JsonObject? && "id" in p.fields && "quelle" in p.fields
  }

  /** A restriction that is JSON but not usable: reading `['id']` or `['quelle']` from it raises. */
  predicate Failing(p: Parsed) {
    p != NotJson && !Usable(p)
  }

  /** The exception a failing restriction raises. */
  function FailureOf(p: Parsed): Error
    requires Failing(p)
  {
    if p.JsonOther? then TypeError
    else if "id" !in p.fields then KeyError("id")
    else KeyError("quelle")
  }

  function PairOf(p: Parsed): LicenseAndAttribution
    requires Usable(p)
  {
    LicenseAndAttribution(p.fields["id"], p.fields["quelle"])
  }

  /** The pair with its license id rewritten by `fix`. */
  function Fixed(pair: LicenseAndAttribution, fix: string -> string): LicenseAndAttribution {
    pair.(licenseId := fix(pair.licenseId))
  }

  /** The harvester's rewrite of the license ids FIS-Broker uses for "Datenlizenz Deutschland – Namensnennung – 2.0". */
  function HarvesterLicenseFix(id: string): (fixed: string)
    ensures id == "dl-de-by-2-0" || id == "dl-de-/by-2-0" || id == "dl-by-de/2.0" ==> fixed == "dl-de-by-2.0"
    ensures !(id == "dl-de-by-2-0" || id == "dl-de-/by-2-0" || id == "dl-by-de/2.0") ==> fixed == id
  {
    if id == "dl-de-by-2-0" || id == "dl-de-/by-2-0" || id == "dl-by-de/2.0" then "dl-de-by-2.0" else id
  }

  /** The pair of the last usable restriction. */
  function LastUsable(restrictions: seq<string>, parse: string -> Parsed): (pair: Option<LicenseAndAttribution>)
    ensures pair.None? <==> forall i :: 0 <= i < |restrictions| ==> !Usable(parse(restrictions[i]))
  {
    if restrictions == [] then None
    else
      var last := parse(restrictions[|restrictions| - 1]);
      if Usable(last) then Some(PairOf(last)) else LastUsable(restrictions[..|restrictions| - 1], parse)
  }

  /** The last usable restriction is the one `LastUsable` reads. */
  lemma {:induction false} LastUsableIsLast(restrictions: seq<string>, parse: string -> Parsed, i: int)
    requires 0 <= i < |restrictions| && Usable(parse(restrictions[i]))
    requires forall j :: i < j < |restrictions| ==> !Usable(parse(restrictions[j]))
    ensures LastUsable(restrictions, parse) == Some(PairOf(parse(restrictions[i])))
  {
    var n := |restrictions| - 1;
    if i < n {
      var front := restrictions[..n];
      assert front[i] == restrictions[i];
      LastUsableIsLast(front, parse, i);
    }
  }

  /**
   * `extract_license_and_attribution`: restrictions that are not JSON are
   * skipped, the last usable one decides license and attribution, and the
   * first JSON restriction that lacks an `id` or a `quelle` (or is no
   * object) stops the extraction with its exception. The license id found is
   * passed through `fix`, the rewrite of the caller's module.
   */
  method ExtractLicenseAndAttribution(restrictions: seq<string>, parse: string -> Parsed, fix: string -> string)
    returns (r: Result<Option<LicenseAndAttribution>>)
    ensures r.Err? <==> exists i :: 0 <= i < |restrictions| && Failing(parse(restrictions[i]))
    ensures r.Err? ==> exists i :: (0 <= i < |restrictions| && Failing(parse(restrictions[i]))
      && r.error == FailureOf(parse(restrictions[i]))
      && forall j :: 0 <= j < i ==> !Failing(parse(restrictions[j])))
    ensures r.Ok? ==> r.value == match LastUsable(restrictions, parse)
      case None => None
      case Some(pair) => Some(Fixed(pair, fix))
  {
    var found: Option<LicenseAndAttribution> := None;
    for i := 0 to |restrictions|
      invariant forall j :: 0 <= j < i ==> !Failing(parse(restrictions[j]))
      invariant found == LastUsable(restrictions[..i], parse)
    {
      assert restrictions[..i + 1][..i] == restrictions[..i];
      var structured := parse(restrictions[i]);
      if structured.NotJson? {
        continue;
      }
      if !Usable(structured) {
        assert Failing(parse(restrictions[i]));
        return Err(if structured.JsonOther? then TypeError
                   else if "id" !in structured.fields then KeyError("id")
                   else KeyError("quelle"));
      }
      found := Some(LicenseAndAttribution(structured.fields["id"], structured.fields["quelle"]));
    }
    assert restrictions[..|restrictions|] == restrictions;
    if found.Some? {
      found := Some(Fixed(found.value, fix));
    }
    return Ok(found);
  }

  /** Without a failing restriction, a license is found exactly when some restriction is JSON. */
  lemma LicenseFoundIffJson(restrictions: seq<string>, parse: string -> Parsed)
    requires forall i :: 0 <= i < |restrictions| ==> !Failing(parse(restrictions[i]))
    ensures LastUsable(restrictions, parse).None? <==> forall i :: 0 <= i < |restrictions| ==> parse(restrictions[i]) == NotJson
  {
  }

  // ----------------------------------------------------------- reference dates

  /** The `reference_dates` dict: `None` for a key it does not hold. */
  datatype ReferenceDates = ReferenceDates(released: Option<string>, updated: Option<string>)

  /** The value of the last date of type `t`. */
  function LastOfType(dates: seq<ReferenceDate>, t: string): (v: Option<string>)
    ensures v.None? <==> forall i :: 0 <= i < |dates| ==> dates[i].dateType != t
  {
    if dates == [] then None
    else if dates[|dates| - 1].dateType == t then Some(dates[|dates| - 1].value)
    else LastOfType(dates[..|dates| - 1], t)
  }

  /** The value of the first date of type `t`. */
  function FirstOfType(dates: seq<ReferenceDate>, t: string): (v: Option<string>)
    ensures v.None? <==> forall i :: 0 <= i < |dates| ==> dates[i].dateType != t
  {
    if dates == [] then None
    else if FirstOfType(dates[..|dates| - 1], t).Some? then FirstOfType(dates[..|dates| - 1], t)
    else if dates[|dates| - 1].dateType == t then Some(dates[|dates| - 1].value)
    else None
  }

  /** The release date: the last creation date, else the first publication date, else the last revision date. */
  function Released(dates: seq<ReferenceDate>): Option<string> {
    if LastOfType(dates, "creation").Some? then LastOfType(dates, "creation")
    else if FirstOfType(dates, "publication").Some? then FirstOfType(dates, "publication")
    else LastOfType(dates, "revision")
  }

  /** The update date: the last revision date, else the release date. */
  function Updated(dates: seq<ReferenceDate>): Option<string> {
    if LastOfType(dates, "revision").Some? then LastOfType(dates, "revision") else Released(dates)
  }

  /**
   * `extract_reference_dates`: no dates give no keys; otherwise both keys are
   * set from `Released` and `Updated`, and a list without any creation,
   * publication or revision date fails looking up `date_released`.
   */
  method ExtractReferenceDates(dates: seq<ReferenceDate>) returns (r: Result<ReferenceDates>)
    ensures dates == [] ==> r == Ok(ReferenceDates(None, None))
    ensures dates != [] && Released(dates).None? ==> r == Err(KeyError("date_released"))
    ensures dates != [] && Released(dates).Some? ==> r == Ok(ReferenceDates(Released(dates), Updated(dates)))
  {
    if dates == [] {
      return Ok(ReferenceDates(None, None));
    }
    var released: Option<string> := None;
    var updated: Option<string> := None;
    for i := 0 to |dates|
      invariant updated == LastOfType(dates[..i], "revision")
      invariant released == if LastOfType(dates[..i], "creation").Some? then LastOfType(dates[..i], "creation")
                            else FirstOfType(dates[..i], "publication")
    {
      var date := dates[i];
      assert dates[..i + 1][..i] == dates[..i];
      if date.dateType == "revision" {
        updated := Some(date.value);
      }
      if date.dateType == "creation" {
        released := Some(date.value);
      }
      if date.dateType == "publication" && released.None? {
        released := Some(date.value);
      }
    }
    assert dates[..|dates|] == dates;
    if released.None? && updated.Some? {
      released := updated;
    }
    if updated.None? {
      if released.None? {
        return Err(KeyError("date_released"));
      }
      updated := released;
    }
    return Ok(ReferenceDates(released, updated));
  }

  /** The last date of type `t` is the one `LastOfType` finds. */
  lemma {:induction false} LastOfTypeIsLast(dates: seq<ReferenceDate>, t: string, i: int)
    requires 0 <= i < |dates| && dates[i].dateType == t
    requires forall j :: i < j < |dates| ==> dates[j].dateType != t
    ensures LastOfType(dates, t) == Some(dates[i].value)
  {
    var n := |dates| - 1;
    if i < n {
      var front := dates[..n];
      assert front[i] == dates[i];
      LastOfTypeIsLast(front, t, i);
    }
  }

  /** The first date of type `t` is the one `FirstOfType` finds. */
  lemma {:induction false} FirstOfTypeIsFirst(dates: seq<ReferenceDate>, t: string, i: int)
    requires 0 <= i < |dates| && dates[i].dateType == t
    requires forall j :: 0 <= j < i ==> dates[j].dateType != t
    ensures FirstOfType(dates, t) == Some(dates[i].value)
  {
    var n := |dates| - 1;
    var front := dates[..n];
    if i < n {
      assert front[i] == dates[i];
      FirstOfTypeIsFirst(front, t, i);
    } else {
      assert forall j :: 0 <= j < n ==> front[j].dateType != t;
    }
  }

  /** A creation date decides the release date wherever it stands relative to a publication date. */
  lemma CreationBeatsPublication(dates: seq<ReferenceDate>, i: int)
    requires 0 <= i < |dates| && dates[i].dateType == "creation"
    ensures Released(dates) == LastOfType(dates, "creation") && Released(dates).Some?
  {
  }

  /** With neither creation nor publication dates, the last revision is both release and update date. */
  lemma RevisionOnly(dates: seq<ReferenceDate>)
    requires forall i :: 0 <= i < |dates| ==> dates[i].dateType != "creation" && dates[i].dateType != "publication"
    ensures Released(dates) == LastOfType(dates, "revision") == Updated(dates)
  {
  }

  // ------------------------------------------------------------ preview image

  const PREVIEW_GRAPHIC := "Vorschaugrafik"

  /** A browse graphic that is the preview image and has a file. */
  predicate IsPreview(g: BrowseGraphic) {
    g.description == Some(PREVIEW_GRAPHIC) && Truthy(g.file)
  }

  /** The Markdown image of a preview: `![Vorschaugrafik zu Datensatz '<title>'](<file>)`. */
  function PreviewText(title: string, file: string): string {
    "![" + PREVIEW_GRAPHIC + " zu Datensatz '" + title + "'](" + file + ")"
  }

  /** The first browse graphic that is a preview. */
  function FirstPreview(graphics: seq<BrowseGraphic>): (g: Option<BrowseGraphic>)
    ensures g.None? <==> forall i :: 0 <= i < |graphics| ==> !IsPreview(graphics[i])
    ensures g.Some? ==> IsPreview(g.value)
  {
    if graphics == [] then None
    else if IsPreview(graphics[0]) then Some(graphics[0])
    else FirstPreview(graphics[1..])
  }

  /** The first preview is the one before which there is none. */
  lemma {:induction false} FirstPreviewAt(graphics: seq<BrowseGraphic>, i: int)
    requires 0 <= i < |graphics| && IsPreview(graphics[i])
    requires forall j :: 0 <= j < i ==> !IsPreview(graphics[j])
    ensures FirstPreview(graphics) == Some(graphics[i])
  {
    if i > 0 {
      assert graphics[1..][i - 1] == graphics[i];
      FirstPreviewAt(graphics[1..], i - 1);
    }
  }

  /** The markup of the first preview, if there is one. */
  function PreviewMarkup(graphics: seq<BrowseGraphic>, title: string): Option<string> {
    match FirstPreview(graphics)
    case None => None
    case Some(g) => Some(PreviewText(title, g.file.value))
  }

  /**
   * `extract_preview_markup`: the Markdown image of the first browse graphic
   * described as "Vorschaugrafik" that has a file, or `None`.
   */
  method ExtractPreviewMarkup(graphics: seq<BrowseGraphic>, title: string) returns (markup: Option<string>)
    ensures markup == PreviewMarkup(graphics, title)
  {
    for i := 0 to |graphics|
      invariant forall j :: 0 <= j < i ==> !IsPreview(graphics[j])
    {
      var graphic := graphics[i];
      if graphic.description == Some(PREVIEW_GRAPHIC) {
        if Truthy(graphic.file) {
          FirstPreviewAt(graphics, i);
          return Some(PreviewText(title, graphic.file.value));
        }
      }
    }
    return None;
  }

  /**
   * A preview's markup can be read back: the alt text holds the title right
   * after the fixed 31-character opening, and the link target is exactly
   * the file, between `'](` and the closing parenthesis.
   */
  lemma PreviewTextParts(title: string, file: string)
    ensures var m := PreviewText(title, file);
      && |m| == |title| + |file| + 35
      && m[..31] == "![" + PREVIEW_GRAPHIC + " zu Datensatz '"
      && m[31..31 + |title|] == title
      && m[31 + |title|..34 + |title|] == "']("
      && m[34 + |title|..|m| - 1] == file
      && m[|m| - 1] == ')'
  {
    var opening := "![" + PREVIEW_GRAPHIC + " zu Datensatz '";
    assert |opening| == 31;
    var m := PreviewText(title, file);
    assert m == opening + title + "'](" + file + ")";
  }
}
