/** A CKAN resource of a FIS-Broker data set, and the vocabulary the annotator assigns. */
module Resources {
  import opened Wrappers
  import opened Urls

  const FORMAT_WFS := "WFS"
  const FORMAT_WMS := "WMS"
  const FORMAT_ATOM := "Atom"
  const FORMAT_HTML := "HTML"

  const FUNCTION_API_ENDPOINT := "api_endpoint"
  const FUNCTION_API_DESCRIPTION := "api_description"
  const FUNCTION_WEB_INTERFACE := "web_interface"
  const FUNCTION_DOCUMENTATION := "documentation"

  /** The weight `sort_resources` assumes for a resource without one. */
  const DEFAULT_WEIGHT := 200

  /**
   * A resource dictionary: its URL and the keys the annotator reads or
   * writes; `None` stands for a key the dictionary does not hold.
   */
  datatype Resource = Resource(
    url: Url,
    name: Option<string>,
    description: Option<string>,
    format: Option<string>,
    internalFunction: Option<string>,
    weight: Option<int>,
    main: Option<bool>)

  /** `{'url': url}` */
  function BareResource(url: Url): Resource {
    Resource(url, None, None, None, None, None, None)
  }

  /** `resource.get('weight', DEFAULT_WEIGHT)` */
  function Weight(r: Resource): int {
    r.weight.GetOr(DEFAULT_WEIGHT)
  }

  /** `resource.get('main', False)` */
  predicate IsMain(r: Resource) {
    r.main == Some(true)
  }
}
