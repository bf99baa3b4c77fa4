/**
 * `FISBrokerResourceConverter.convert_resource`, the older classification of
 * a resource by its URL that the legacy plugin uses instead of the annotator.
 */
module Converter {
  import opened Wrappers
  import opened Text
  import opened Urls
  import opened Resources

  /** The URL prefix of a FIS-Broker service page, as the converter recognises it. */
  const SERVICE_PAGE_PREFIX := "https://fbinter.stadt-berlin.de/fb?loginkey="
  const SERVICE_PAGE_NAME := "Serviceseite im FIS-Broker"

  /** The `?service=<s>&request=GetCapabilities` the converter glues onto a service URL. */
  function CapabilitiesSuffix(service: string): seq<Param> {
    [Param("service", service), Param("request", "GetCapabilities")]
  }

  /** A service resource: named and described after its type, prominent, URL extended by the suffix. */
  function ConvertService(r: Resource, service: string, format: string, title: string): (c: Resource)
    ensures Render(c.url) == Render(r.url) + ServiceSuffix(service)
    ensures c.internalFunction == r.internalFunction && c.weight == r.weight
  {
    AppendQueryRender(r.url, CapabilitiesSuffix(service));
    SuffixText(Render(r.url), service);
    r.(name := Some(title), description := Some(title), format := Some(format),
       url := AppendQuery(r.url, CapabilitiesSuffix(service)), main := Some(true))
  }

  /** The suffix as text: `?service=<s>&request=GetCapabilities`. */
  function ServiceSuffix(service: string): string {
    "?service=" + service + "&request=GetCapabilities"
  }

  lemma SuffixText(text: string, service: string)
    ensures text + "?" + QueryText(CapabilitiesSuffix(service)) == text + ServiceSuffix(service)
  {
    var q := CapabilitiesSuffix(service);
    assert QueryText(q) == PieceText(q[0]) + "&" + QueryText(q[1..]);
    assert q[1..] == [Param("request", "GetCapabilities")];
  }

  /** `c` is `r` converted as a service of the given type. */
  predicate ServiceConversion(r: Resource, c: Resource, service: string, format: string, title: string) {
    Render(c.url) == Render(r.url) + ServiceSuffix(service)
    && c.format == Some(format) && IsMain(c) && c.name == Some(title) && c.description == Some(title)
  }

  /**
   * `convert_resource`: the first rule that matches the URL text decides —
   * feed, WFS, WMS, service page — and a resource matching none is kept as
   * documentation under its description when that is non-empty and dropped
   * when it is empty. A resource without a `description` key reaching that
   * last test raises `KeyError`.
   */
  function ConvertResource(r: Resource): (res: Result<Option<Resource>>)
    // the converter never touches the internal function or the weight
    ensures res.Ok? && res.value.Some? ==>
      res.value.value.internalFunction == r.internalFunction && res.value.value.weight == r.weight
    ensures IsFeed(r) ==>
      res.Ok? && res.value.Some? && res.value.value.url == r.url
      && res.value.value.format == Some(FORMAT_ATOM) && IsMain(res.value.value)
      && res.value.value.name == Some("Atom Feed") && res.value.value.description == Some("Atom Feed")
    ensures !IsFeed(r) && Contains(Render(r.url), "/wfs/") ==>
      res.Ok? && res.value.Some? && ServiceConversion(r, res.value.value, "wfs", FORMAT_WFS, "WFS Service")
    ensures (!IsFeed(r) && !Contains(Render(r.url), "/wfs/") && Contains(Render(r.url), "/wms/")) ==>
      res.Ok? && res.value.Some? && ServiceConversion(r, res.value.value, "wms", FORMAT_WMS, "WMS Service")
    ensures (!IsFeed(r) && !Contains(Render(r.url), "/wfs/") && !Contains(Render(r.url), "/wms/")
             && StartsWith(Render(r.url), SERVICE_PAGE_PREFIX)) ==>
      res.Ok? && res.value.Some? && res.value.value.url == r.url
      && res.value.value.format == Some(FORMAT_HTML) && res.value.value.main == r.main
      && res.value.value.name == Some(SERVICE_PAGE_NAME) && res.value.value.description == Some(SERVICE_PAGE_NAME)
    ensures res.Err? <==> !MatchesUrlRule(r) && r.description.None?
    ensures res.Err? ==> res.error == KeyError("description")
    ensures res == Ok(None) <==> !MatchesUrlRule(r) && r.description == Some("")
    ensures (!MatchesUrlRule(r) && r.description.Some? && r.description.value != "") ==>
      res == Ok(Some(r.(name := r.description, main := Some(false))))
  {
    var text := Render(r.url);
    if IsFeed(r) then
      Ok(Some(r.(name := Some("Atom Feed"), description := Some("Atom Feed"), format := Some(FORMAT_ATOM),
                 main := Some(true))))
    else if Contains(text, "/wfs/") then
      Ok(Some(ConvertService(r, "wfs", FORMAT_WFS, "WFS Service")))
    else if Contains(text, "/wms/") then
      Ok(Some(ConvertService(r, "wms", FORMAT_WMS, "WMS Service")))
    else if StartsWith(text, SERVICE_PAGE_PREFIX) then
      Ok(Some(r.(name := Some(SERVICE_PAGE_NAME), format := Some(FORMAT_HTML),
                 description := Some(SERVICE_PAGE_NAME))))
    else if r.description.None? then Err(KeyError("description"))
    else if r.description.value != "" then Ok(Some(r.(name := r.description, main := Some(false))))
    else Ok(None)
  }

  predicate IsFeed(r: Resource) {
    Contains(Render(r.url), "/feed/")
  }

  /** One of the four URL rules applies. */
  predicate MatchesUrlRule(r: Resource) {
    var text := Render(r.url);
    IsFeed(r) || Contains(text, "/wfs/") || Contains(text, "/wms/")
    || StartsWith(text, SERVICE_PAGE_PREFIX)
  }

  /**
   * Converting is not idempotent: a converted WFS resource still matches the
   * WFS rule, so a second conversion appends the suffix once more.
   */
  lemma ConvertTwiceAppendsTwice(r: Resource)
    requires !IsFeed(r) && Contains(Render(r.url), "/wfs/")
    ensures ConvertResource(r).Ok? && ConvertResource(r).value.Some?
    ensures var once := ConvertResource(r).value.value;
      ConvertResource(once).Ok? && ConvertResource(once).value.Some?
      && Render(ConvertResource(once).value.value.url) == Render(r.url) + ServiceSuffix("wfs") + ServiceSuffix("wfs")
  {
    var once := ConvertResource(r).value.value;
    var suffix := ServiceSuffix("wfs");
    ContainsAppend(Render(r.url), suffix, "/wfs/");
    FeedStaysAbsent(Render(r.url), suffix);
  }

  /** The appended suffix cannot complete a `/feed/` that the URL lacked. */
  lemma FeedStaysAbsent(s: string, suffix: string)
    requires suffix == ServiceSuffix("wfs")
    requires !Contains(s, "/feed/")
    ensures !Contains(s + suffix, "/feed/")
  {
    NotContainsAppend(s, suffix, "/feed/");
  }

  /**
   * A pattern of length 6 found in `s + t` lies in `s`, in `t`, or straddles
   * the joint, and the suffix has no `/` that could start one.
   */
  lemma {:induction false} NotContainsAppend(s: string, t: string, sub: string)
    requires sub == "/feed/" && t == "?service=wfs&request=GetCapabilities"
    requires !Contains(s, sub)
    ensures !Contains(s + t, sub)
    decreases |s|
  {
    if s == [] {
      NoSlashNoFeed(t);
      assert s + t == t;
    } else {
      SlashInside(s, t, sub);
      NotContainsAppend(s[1..], t, sub);
      assert (s + t)[1..] == s[1..] + t;
    }
  }

  /** A string without `/` contains no `/feed/`. */
  lemma {:induction false} NoSlashNoFeed(t: string)
    requires '/' !in t
    ensures !Contains(t, "/feed/")
    decreases |t|
  {
    if t != [] {
      assert t[0] != '/';
      assert t[1..] != [] ==> t[1..][0] == t[1];
      NoSlashNoFeed(t[1..]);
    }
  }

  /** Where `s` does not start with `/feed/`, gluing the suffix on cannot make it: the suffix begins with `?`. */
  lemma SlashInside(s: string, t: string, sub: string)
    requires sub == "/feed/" && t == "?service=wfs&request=GetCapabilities"
    requires !StartsWith(s, sub)
    ensures !StartsWith(s + t, sub)
  {
    if |s| >= |sub| {
      assert (s + t)[..|sub|] == s[..|sub|];
    } else {
      assert (s + t)[|s|] == '?' != sub[|s|];
    }
  }
}
