/**
 * `fisbroker_resource_annotator.py`: gives each resource of a FIS-Broker data
 * set a name, description, format, internal function and weight from its URL,
 * makes sure a WFS or WMS endpoint comes with its GetCapabilities description
 * and orders the resources by weight.
 */
module Annotator {
  import opened Wrappers
  import opened Text
  import opened Urls
  import opened Resources
  import opened Ordering

  const VALID_SERVICE_TYPES: seq<string> := ["wfs", "wms"]
  const SERVICE_PAGE := "Serviceseite im FIS-Broker"

  /** `service_version`: the protocol version a GetCapabilities request names. */
  function ServiceVersion(service: string): (r: Result<string>)
    ensures r.Ok? <==> service in VALID_SERVICE_TYPES
    ensures r.Ok? ==> r.value == (if service == "wms" then "1.3.0" else "2.0.0")
  {
    if service == "wms" then Ok("1.3.0")
    else if service == "wfs" then Ok("2.0.0")
    else Err(ValueError("Service must be one of [ wfs, wms ]."))
  }

  /** `getcapabilities_query`: the query of a GetCapabilities request to a `service` endpoint. */
  function GetCapabilitiesQuery(service: string): (r: Result<seq<Param>>)
    ensures r.Ok? <==> service in VALID_SERVICE_TYPES
    ensures r.Ok? ==>
      QueryText(r.value) == "service=" + service + "&request=GetCapabilities&version=" + ServiceVersion(service).value
    ensures r.Ok? ==>
      (r.value != [] && DistinctKeys(r.value)
       && Values(r.value, "request") == ["GetCapabilities"] && Values(r.value, "service") == [service])
  {
    if service !in VALID_SERVICE_TYPES then
      Err(ValueError("Service must be one of [ wfs, wms ], is '" + service + "'."))
    else
      var q := [Param("service", service), Param("request", "GetCapabilities"),
                Param("version", ServiceVersion(service).value)];
      CapabilitiesPieces(service, ServiceVersion(service).value);
      Ok(q)
  }

  lemma CapabilitiesPieces(service: string, version: string)
    requires service != "" && version != ""
    ensures var q := [Param("service", service), Param("request", "GetCapabilities"), Param("version", version)];
      QueryText(q) == "service=" + service + "&request=GetCapabilities&version=" + version
      && Values(q, "request") == ["GetCapabilities"] && Values(q, "service") == [service]
  {
    var q := [Param("service", service), Param("request", "GetCapabilities"), Param("version", version)];
    QueryTextOfThree(q);
    CapabilitiesText(service, version);
    CapabilitiesValues(service, version);
  }

  lemma QueryTextOfThree(q: seq<Param>)
    requires |q| == 3
    ensures QueryText(q) == PieceText(q[0]) + "&" + PieceText(q[1]) + "&" + PieceText(q[2])
  {
    assert q[1..] == [q[1], q[2]];
    assert q[1..][1..] == [q[2]];
    assert QueryText(q[1..][1..]) == PieceText(q[2]);
    assert QueryText(q[1..]) == PieceText(q[1]) + "&" + PieceText(q[2]);
  }

  lemma CapabilitiesText(service: string, version: string)
    ensures PieceText(Param("service", service)) + "&" + PieceText(Param("request", "GetCapabilities"))
            + "&" + PieceText(Param("version", version))
         == "service=" + service + "&request=GetCapabilities&version=" + version
  {
  }

  lemma CapabilitiesValues(service: string, version: string)
    requires service != ""
    ensures var q := [Param("service", service), Param("request", "GetCapabilities"), Param("version", version)];
      Values(q, "request") == ["GetCapabilities"] && Values(q, "service") == [service]
  {
    var q := [Param("service", service), Param("request", "GetCapabilities"), Param("version", version)];
    assert q[1..] == [q[1], q[2]];
    assert q[1..][1..] == [q[2]];
    assert q[1..][1..][1..] == [];
    assert Values(q[1..][1..], "request") == [];
    assert Values(q[1..][1..], "service") == [];
    assert Values(q[1..], "request") == ["GetCapabilities"];
    assert Values(q[1..], "service") == [];
  }

  /** The service a URL belongs to: `/wfs/` is looked for before `/wms/`. */
  function ServiceTypeOf(url: string): Option<string> {
    if Contains(url, "/wfs/") then Some(FORMAT_WFS)
    else if Contains(url, "/wms/") then Some(FORMAT_WMS)
    else None
  }

  /** `query.get('request') or query.get('REQUEST')` */
  function RequestMethod(q: seq<Param>): seq<string> {
    if HasKey(q, "request") then Values(q, "request") else Values(q, "REQUEST")
  }

  /** The last `request` (or else `REQUEST`) value of the query names GetCapabilities, in any case. */
  predicate IsGetCapabilitiesRequest(q: seq<Param>) {
    var requested := RequestMethod(q);
    requested != [] && Lower(requested[|requested| - 1]) == "getcapabilities"
  }

  function ServiceLink(serviceType: string): string {
    "Weitere Informationen unter https://www.ogc.org/standards/" + Lower(serviceType)
  }

  function AnnotateService(r: Resource, serviceType: string): Resource {
    var unspecified := "Unspezifizierter " + serviceType + "-Service";
    var base := r.(name := Some(unspecified), description := Some(unspecified));
    var annotated :=
      if Blank(r.url.query) then
        base.(name := Some("API-Endpunkt des " + serviceType + "-Service"),
              description := Some("API-Endpunkt des " + serviceType + "-Service. " + ServiceLink(serviceType)),
              internalFunction := Some(FUNCTION_API_ENDPOINT),
              weight := Some(15))
      else if IsGetCapabilitiesRequest(r.url.query) then
        base.(name := Some("Endpunkt-Beschreibung des " + serviceType + "-Service"),
              description := Some("Maschinenlesbare Endpunkt-Beschreibung des " + serviceType + "-Service. "
                                  + ServiceLink(serviceType)),
              main := Some(true),
              internalFunction := Some(FUNCTION_API_DESCRIPTION),
              weight := Some(10))
      else base;
    annotated.(format := Some(serviceType))
  }

  /**
   * `annotate_service_resource`: a WFS or WMS URL without query parameters is
   * the service endpoint, one asking for GetCapabilities its machine-readable
   * description; any other query leaves the function, weight and prominence as
   * they were. URLs of neither service are refused.
   */
  function AnnotateServiceResource(r: Resource): (res: Result<Resource>)
    ensures res.Ok? <==> ServiceTypeOf(Render(r.url)).Some?
    ensures res.Ok? ==> res.value.url == r.url && res.value.format == ServiceTypeOf(Render(r.url))
    ensures res.Ok? && Blank(r.url.query) ==>
      res.value.internalFunction == Some(FUNCTION_API_ENDPOINT) && res.value.weight == Some(15)
      && res.value.main == r.main
    ensures res.Ok? && !Blank(r.url.query) && IsGetCapabilitiesRequest(r.url.query) ==>
      res.value.internalFunction == Some(FUNCTION_API_DESCRIPTION) && res.value.weight == Some(10)
      && IsMain(res.value)
    ensures res.Ok? && !Blank(r.url.query) && !IsGetCapabilitiesRequest(r.url.query) ==>
      res.value.internalFunction == r.internalFunction && res.value.weight == r.weight && res.value.main == r.main
      && res.value.name == Some("Unspezifizierter " + res.value.format.value + "-Service")
  {
    match ServiceTypeOf(Render(r.url))
    case None => Err(ValueError("Resource type must be one of [ wfs, wms ]."))
    case Some(serviceType) => Ok(AnnotateService(r, serviceType))
  }

  /** Which branch of `annotate_resource` a resource takes, in the order they are tried. */
  datatype Rule = FeedRule | ServiceRule(serviceType: string) | ServicePageRule | DocumentationRule | NoRule

  function RuleOf(r: Resource): (rule: Rule)
    ensures rule == FeedRule <==> Contains(Render(r.url), "/feed/")
    ensures rule.ServiceRule? <==>
      !Contains(Render(r.url), "/feed/") && ServiceTypeOf(Render(r.url)).Some?
    ensures rule.ServiceRule? ==> Some(rule.serviceType) == ServiceTypeOf(Render(r.url))
    ensures rule == ServicePageRule ==> IsFisBrokerServicePage(r.url)
    ensures rule == NoRule <==>
      !Contains(Render(r.url), "/feed/") && ServiceTypeOf(Render(r.url)).None?
      && !IsFisBrokerServicePage(r.url) && r.description.None?
  {
    var text := Render(r.url);
    if Contains(text, "/feed/") then FeedRule
    else match ServiceTypeOf(text)
      case Some(serviceType) => ServiceRule(serviceType)
      case None =>
        if IsFisBrokerServicePage(r.url) then ServicePageRule
        else if r.description.Some? then DocumentationRule
        else NoRule
  }

  /** The name a documentation resource gets: its description, else the file name of an `.html` URL. */
  function DocumentationName(r: Resource): Option<string>
    requires r.description.Some?
  {
    if r.description.value != "" then r.description
    else if EndsWith(Render(r.url), ".html") then Some(AfterLast(Render(r.url), '/'))
    else r.name
  }

  /**
   * `annotate_resource`: Atom feeds and service endpoints are the prominent
   * API resources, the FIS-Broker page is the web interface (named, but its
   * description left as it came in), anything else with a description is
   * documentation, and the rest is dropped.
   */
  function AnnotateResource(r: Resource): (res: Option<Resource>)
    ensures res.None? <==> RuleOf(r) == NoRule
    ensures res.Some? ==> res.value.url == r.url
    ensures RuleOf(r) == FeedRule ==> res == Some(r.(name := Some("Atom Feed"), description := Some("Atom Feed"),
      format := Some(FORMAT_ATOM), main := Some(true), internalFunction := Some(FUNCTION_API_ENDPOINT), weight := Some(15)))
    ensures RuleOf(r).ServiceRule? ==> res == Some(AnnotateServiceResource(r.(main := Some(false))).value)
    ensures RuleOf(r) == ServicePageRule ==> res == Some(r.(name := Some(SERVICE_PAGE),
      format := Some(FORMAT_HTML), main := Some(false), internalFunction := Some(FUNCTION_WEB_INTERFACE), weight := Some(20)))
    ensures RuleOf(r) == DocumentationRule ==> res == Some(r.(name := DocumentationName(r), main := Some(false),
      internalFunction := Some(FUNCTION_DOCUMENTATION), weight := Some(30)))
  {
    var r0 := r.(main := Some(false));
    match RuleOf(r)
    case FeedRule =>
      Some(r0.(name := Some("Atom Feed"), description := Some("Atom Feed"), format := Some(FORMAT_ATOM),
               main := Some(true), internalFunction := Some(FUNCTION_API_ENDPOINT), weight := Some(15)))
    case ServiceRule(serviceType) => Some(AnnotateService(r0, serviceType))
    case ServicePageRule =>
      Some(r0.(name := Some(SERVICE_PAGE), format := Some(FORMAT_HTML),
               internalFunction := Some(FUNCTION_WEB_INTERFACE), weight := Some(20)))
    case DocumentationRule =>
      Some(r0.(name := DocumentationName(r), internalFunction := Some(FUNCTION_DOCUMENTATION), weight := Some(30)))
    case NoRule => None
  }

  /**
   * `annotate_resource` as its tests and the older converter describe the
   * service page: described as "Serviceseite im FIS-Broker" as well as named.
   */
  function AnnotateResourceIntended(r: Resource): (res: Option<Resource>)
    ensures RuleOf(r) != ServicePageRule ==> res == AnnotateResource(r)
    ensures RuleOf(r) == ServicePageRule ==> res == Some(r.(name := Some(SERVICE_PAGE), description := Some(SERVICE_PAGE),
      format := Some(FORMAT_HTML), main := Some(false), internalFunction := Some(FUNCTION_WEB_INTERFACE), weight := Some(20)))
  {
    match AnnotateResource(r)
    case Some(annotated) =>
      if RuleOf(r) == ServicePageRule then Some(annotated.(description := Some(SERVICE_PAGE))) else Some(annotated)
    case None => None
  }

  /**
   * A FIS-Broker service page that arrives without a description leaves the
   * annotator without one, although the page is meant to be described as
   * "Serviceseite im FIS-Broker" like it is named.
   */
  lemma ServicePageLacksDescription(r: Resource)
    requires RuleOf(r) == ServicePageRule && r.description.None?
    ensures AnnotateResource(r).value.description.None?
    ensures AnnotateResource(r).value.name == Some(SERVICE_PAGE)
    ensures AnnotateResourceIntended(r).value.description == Some(SERVICE_PAGE)
  {
  }

  /** The resources `annotate_resource` annotates, without the dropped ones. */
  function AnnotateEach(rs: seq<Resource>): (annotated: seq<Resource>)
    ensures |annotated| <= |rs|
    ensures forall a :: a in annotated ==> exists r :: r in rs && AnnotateResource(r) == Some(a)
    ensures forall r :: r in rs && AnnotateResource(r).Some? ==> AnnotateResource(r).value in annotated
  {
    if rs == [] then []
    else
      var rest := AnnotateEach(rs[1..]);
      assert forall r :: r in rs[1..] ==> r in rs;
      match AnnotateResource(rs[0])
      case Some(a) => [a] + rest
      case None => rest
  }

  /** `res_dict[role]`: the last resource with that internal function. */
  function LastWithFunction(rs: seq<Resource>, role: string): (r: Option<Resource>)
    ensures r.Some? ==> r.value in rs && r.value.internalFunction == Some(role)
    ensures r.None? ==> forall i :: 0 <= i < |rs| ==> rs[i].internalFunction != Some(role)
  {
    if rs == [] then None
    else if rs[|rs| - 1].internalFunction == Some(role) then Some(rs[|rs| - 1])
    else LastWithFunction(rs[..|rs| - 1], role)
  }

  /**
   * The GetCapabilities resource `annotate_all_resources` adds when there is
   * an endpoint that is not an Atom feed and no description yet.
   */
  function CapabilitiesResource(annotated: seq<Resource>): (extra: Result<seq<Resource>>)
    ensures extra.Ok? ==> |extra.value| <= 1
    ensures extra.Ok? && extra.value != [] ==>
      LastWithFunction(annotated, FUNCTION_API_ENDPOINT).Some? && LastWithFunction(annotated, FUNCTION_API_DESCRIPTION).None?
  {
    var endpoint := LastWithFunction(annotated, FUNCTION_API_ENDPOINT);
    if endpoint.None? || LastWithFunction(annotated, FUNCTION_API_DESCRIPTION).Some? then Ok([])
    else DescribeEndpoint(endpoint.value)
  }

  /**
   * The description of an endpoint: its URL with the GetCapabilities query of
   * its format appended and normalised, annotated as a service resource.
   */
  function DescribeEndpoint(endpoint: Resource): (extra: Result<seq<Resource>>)
    ensures extra.Ok? ==> |extra.value| <= 1
    ensures endpoint.format.None? ==> extra == Err(KeyError("format"))
    ensures endpoint.format == Some(FORMAT_ATOM) ==> extra == Ok([])
  {
    match endpoint.format
    case None => Err(KeyError("format"))
    case Some(format) =>
      if format == FORMAT_ATOM then Ok([])
      else match GetCapabilitiesQuery(Lower(format))
        case Err(e) => Err(e)
        case Ok(query) =>
          match AnnotateServiceResource(BareResource(NormalizedUrl(AppendQuery(endpoint.url, query))))
          case Err(e) => Err(e)
          case Ok(description) => Ok([description])
  }

  /**
   * A WFS or WMS endpoint without a query is described by a prominent
   * api_description of weight 10.
   */
  lemma DescribeServiceEndpoint(endpoint: Resource, serviceType: string)
    requires serviceType == FORMAT_WFS || serviceType == FORMAT_WMS
    requires endpoint.format == Some(serviceType) && endpoint.url.query == []
    requires Contains(Render(endpoint.url), if serviceType == FORMAT_WFS then "/wfs/" else "/wms/")
    ensures DescribeEndpoint(endpoint).Ok? && |DescribeEndpoint(endpoint).value| == 1
    ensures var d := DescribeEndpoint(endpoint).value[0];
      d.internalFunction == Some(FUNCTION_API_DESCRIPTION) && d.weight == Some(10) && IsMain(d)
  {
    LowerServiceTypes();
    var query := GetCapabilitiesQuery(Lower(serviceType)).value;
    var url := NormalizedUrl(AppendQuery(endpoint.url, query));
    CapabilitiesUrl(endpoint.url, query, if serviceType == FORMAT_WFS then "/wfs/" else "/wms/");
    CapabilitiesRequestDescribes(url);
  }

  /** A WFS or WMS GetCapabilities URL is annotated as a prominent api_description of weight 10. */
  lemma CapabilitiesRequestDescribes(url: Url)
    requires Contains(Render(url), "/wfs/") || Contains(Render(url), "/wms/")
    requires !Blank(url.query) && IsGetCapabilitiesRequest(url.query)
    ensures AnnotateServiceResource(BareResource(url)).Ok?
    ensures var d := AnnotateServiceResource(BareResource(url)).value;
      d.internalFunction == Some(FUNCTION_API_DESCRIPTION) && d.weight == Some(10) && IsMain(d)
  {
  }

  lemma LowerServiceTypes()
    ensures Lower(FORMAT_WFS) == "wfs" && Lower(FORMAT_WMS) == "wms"
    ensures Lower("GetCapabilities") == "getcapabilities"
  {
  }

  /**
   * Appending a GetCapabilities query to a URL without one and normalising
   * gives a GetCapabilities request whose text still contains the old URL's.
   */
  lemma CapabilitiesUrl(u: Url, query: seq<Param>, sub: string)
    requires u.query == [] && Contains(Render(u), sub)
    requires query != [] && Values(query, "request") == ["GetCapabilities"]
    ensures Contains(Render(NormalizedUrl(AppendQuery(u, query))), sub)
    ensures !Blank(NormalizedUrl(AppendQuery(u, query)).query)
    ensures IsGetCapabilitiesRequest(NormalizedUrl(AppendQuery(u, query)).query)
  {
    NormalizedCapabilitiesQuery(query);
    var tail := "?" + QueryText(NormalizedQuery(query));
    RenderNormalizedAppend(u, query);
    ContainsAppend(Render(u), tail, sub);
  }

  /** Normalising a query that asks for GetCapabilities keeps it a GetCapabilities request. */
  lemma NormalizedCapabilitiesQuery(query: seq<Param>)
    requires Values(query, "request") == ["GetCapabilities"]
    ensures !Blank(NormalizedQuery(query)) && IsGetCapabilitiesRequest(NormalizedQuery(query))
  {
    var n := NormalizedQuery(query);
    NormalizedFirstValue(query, "request");
    var v := FirstValue(query, "request");
    assert v == "GetCapabilities";
    LowerServiceTypes();
    var requested := Values(n, "request");
    assert requested == [Lower(v)];
    assert Lower(requested[0]) == "getcapabilities" by {
      assert requested[0] == "getcapabilities";
      LowerIdempotent("GetCapabilities");
    }
    HasKeyNotBlank(n, "request");
  }

  /**
   * `annotate_all_resources`: annotate every resource and drop the unknown
   * ones, add the GetCapabilities description an endpoint lacks, and sort by
   * weight, stably. Keying the resources by internal function fails when one
   * has none; describing the endpoint may fail too.
   */
  function AnnotateAllResources(rs: seq<Resource>): (res: Result<seq<Resource>>)
    ensures res.Ok? <==>
      && (forall i :: 0 <= i < |AnnotateEach(rs)| ==> AnnotateEach(rs)[i].internalFunction.Some?)
      && CapabilitiesResource(AnnotateEach(rs)).Ok?
    ensures (exists i :: 0 <= i < |AnnotateEach(rs)| && AnnotateEach(rs)[i].internalFunction.None?)
      ==> res == Err(KeyError("internal_function"))
    ensures res.Err? && (forall i :: 0 <= i < |AnnotateEach(rs)| ==> AnnotateEach(rs)[i].internalFunction.Some?)
      ==> res.error == CapabilitiesResource(AnnotateEach(rs)).error
    ensures res.Ok? ==>
      var all := AnnotateEach(rs) + CapabilitiesResource(AnnotateEach(rs)).value;
      && multiset(res.value) == multiset(all)
      && SortedByWeight(res.value)
      && (forall w :: WithWeight(res.value, w) == WithWeight(all, w))
      && res.value == SortResources(all)
  {
    var annotated := AnnotateEach(rs);
    if exists i :: 0 <= i < |annotated| && annotated[i].internalFunction.None? then
      Err(KeyError("internal_function"))
    else match CapabilitiesResource(annotated)
      case Err(e) => Err(e)
      case Ok(extra) =>
        SortResourcesCorrect(annotated + extra);
        Ok(SortResources(annotated + extra))
  }

  /**
   * For resources as the catalogue delivers them (no internal function yet,
   * no URL whose query holds only blank parameters), the result holds a
   * GetCapabilities description whenever the endpoint `res_dict` keeps (the
   * last one) is not an Atom feed. A query of blank parameters (`?a=`) is
   * set aside because the endpoint's URL then already has a `?`: appending
   * `?service=…&request=GetCapabilities…` glues the `service` parameter
   * onto the value of the last blank one, and whether the description is
   * still recognised depends on that text.
   */
  lemma AnnotateAllEnsuresDescription(rs: seq<Resource>)
    requires forall i :: 0 <= i < |rs| ==> Fresh(rs[i])
    requires AnnotateAllResources(rs).Ok?
    requires var endpoint := LastWithFunction(AnnotateEach(rs), FUNCTION_API_ENDPOINT);
      endpoint.Some? && endpoint.value.format != Some(FORMAT_ATOM)
    ensures exists d :: (d in AnnotateAllResources(rs).value
      && d.internalFunction == Some(FUNCTION_API_DESCRIPTION) && d.weight == Some(10) && IsMain(d))
  {
    var annotated := AnnotateEach(rs);
    var out := AnnotateAllResources(rs).value;
    var extra := CapabilitiesResource(annotated).value;
    EachWellAnnotated(rs);
    var d := DescribedWithCapabilities(annotated);
    assert multiset(out) == multiset(annotated + extra);
    assert d in multiset(annotated + extra);
  }

  /** A resource as the catalogue delivers it: no function yet, and no query of blank parameters only. */
  predicate Fresh(r: Resource) {
    r.internalFunction.None? && (Blank(r.url.query) ==> r.url.query == [])
  }

  /**
   * What `annotate_resource` guarantees about the descriptions and non-Atom
   * endpoints it produces from fresh resources.
   */
  predicate WellAnnotated(a: Resource) {
    (a.internalFunction == Some(FUNCTION_API_DESCRIPTION) ==> a.weight == Some(10) && IsMain(a))
    && (a.internalFunction == Some(FUNCTION_API_ENDPOINT) && a.format != Some(FORMAT_ATOM) ==>
          (a.format == Some(FORMAT_WFS) || a.format == Some(FORMAT_WMS)) && a.url.query == []
          && Contains(Render(a.url), if a.format == Some(FORMAT_WFS) then "/wfs/" else "/wms/"))
  }

  lemma {:induction false} EachWellAnnotated(rs: seq<Resource>)
    requires forall i :: 0 <= i < |rs| ==> Fresh(rs[i])
    ensures forall a :: a in AnnotateEach(rs) ==> WellAnnotated(a)
  {
    if rs != [] {
      EachWellAnnotated(rs[1..]);
      if AnnotateResource(rs[0]).Some? {
        AnnotatedWell(rs[0]);
      }
    }
  }

  lemma AnnotatedWell(r: Resource)
    requires Fresh(r) && AnnotateResource(r).Some?
    ensures WellAnnotated(AnnotateResource(r).value)
  {
    var a := AnnotateResource(r).value;
    if a.internalFunction == Some(FUNCTION_API_DESCRIPTION) {
      AnnotatedDescriptionShape(r);
    }
    if a.internalFunction == Some(FUNCTION_API_ENDPOINT) {
      EndpointShape(r);
    }
  }

  /**
   * Among well-annotated resources whose last endpoint is not an Atom feed,
   * either a description is already there or `CapabilitiesResource` adds one.
   */
  lemma DescribedWithCapabilities(annotated: seq<Resource>) returns (d: Resource)
    requires forall a :: a in annotated ==> WellAnnotated(a)
    requires CapabilitiesResource(annotated).Ok?
    requires var endpoint := LastWithFunction(annotated, FUNCTION_API_ENDPOINT);
      endpoint.Some? && endpoint.value.format != Some(FORMAT_ATOM)
    ensures d in annotated + CapabilitiesResource(annotated).value
    ensures d.internalFunction == Some(FUNCTION_API_DESCRIPTION) && d.weight == Some(10) && IsMain(d)
  {
    var described := LastWithFunction(annotated, FUNCTION_API_DESCRIPTION);
    if described.Some? {
      d := described.value;
    } else {
      var ep := LastWithFunction(annotated, FUNCTION_API_ENDPOINT).value;
      DescribeServiceEndpoint(ep, ep.format.value);
      d := DescribeEndpoint(ep).value[0];
    }
  }

  /** An api_endpoint from a fresh resource is a feed or a WFS/WMS URL with an empty query. */
  lemma EndpointShape(r: Resource)
    requires Fresh(r)
    requires AnnotateResource(r).Some? && AnnotateResource(r).value.internalFunction == Some(FUNCTION_API_ENDPOINT)
    ensures AnnotateResource(r).value.format != Some(FORMAT_ATOM) ==>
      RuleOf(r).ServiceRule? && r.url.query == []
      && AnnotateResource(r).value.format == Some(RuleOf(r).serviceType)
      && Contains(Render(r.url), if RuleOf(r).serviceType == FORMAT_WFS then "/wfs/" else "/wms/")
  {
  }

  /** An api_description annotated from a resource without a function has weight 10 and is prominent. */
  lemma AnnotatedDescriptionShape(r: Resource)
    requires r.internalFunction.None?
    requires AnnotateResource(r).Some? && AnnotateResource(r).value.internalFunction == Some(FUNCTION_API_DESCRIPTION)
    ensures AnnotateResource(r).value.weight == Some(10) && IsMain(AnnotateResource(r).value)
  {
    if RuleOf(r).ServiceRule? {
      assert !Blank(r.url.query) && IsGetCapabilitiesRequest(r.url.query);
    }
  }
}
