/**
 * The package dict the harvester builds for CKAN, and the module functions
 * that work on its parts: tag filtering, the extras as an ordered dict, the
 * dataset URL picked from the resources, and the generated title and name.
 */
module Packages {
  import opened Wrappers
  import opened Text
  import opened Urls
  import opened Resources
  import opened Annotator
  import opened Helper

  /** A tag dict of the package, key by key. */
  datatype Tag = Tag(fields: map<string, string>)

  /** `{'name': name}` */
  function NameTag(name: string): Tag {
    Tag(map["name" := name])
  }

  /**
   * A CKAN package dict as the harvester fills it; `None` stands for a key it
   * does not hold, `groups` lists the names of the `{'name': g}` groups.
   */
  datatype PackageDict = PackageDict(
    name: Option<string>,
    title: string,
    notes: string,
    url: Option<Url>,
    author: Option<string>,
    maintainer: Option<string>,
    maintainerEmail: Option<string>,
    licenseId: Option<string>,
    tags: seq<Tag>,
    extras: seq<Extra>,
    resources: seq<Resource>,
    groups: seq<string>)

  // -------------------------------------------------------------------- tags

  /** `s` without the elements in `removed`, order kept. */
  function Excluding(s: seq<Tag>, removed: set<Tag>): (r: seq<Tag>)
    ensures |r| <= |s|
    ensures forall t :: t in r <==> t in s && t !in removed
  {
    if s == [] then [] else (if s[0] in removed then [] else [s[0]]) + Excluding(s[1..], removed)
  }

  /** The tag dicts `filter_tags` removes: `{'name': t}` for each `t` of `tags` that is also a simple tag. */
  function RemovedTags(tags: seq<string>, simpleTagList: seq<string>): set<Tag> {
    set t | t in tags && t in simpleTagList :: NameTag(t)
  }

  /** `list.remove(x)`: drop the first occurrence of `x`. */
  function RemoveFirst(s: seq<Tag>, x: Tag): (r: seq<Tag>)
    requires x in s
    ensures |r| == |s| - 1
    ensures Excluding(r, {x}) == Excluding(s, {x})
  {
    if s[0] == x then s[1..] else [s[0]] + RemoveFirst(s[1..], x)
  }

  lemma {:induction false} ExcludingNothing(s: seq<Tag>, removed: set<Tag>)
    requires forall t :: t in s ==> t !in removed
    ensures Excluding(s, removed) == s
  {
    if s != [] {
      ExcludingNothing(s[1..], removed);
    }
  }

  lemma {:induction false} ExcludingTwice(s: seq<Tag>, a: set<Tag>, b: set<Tag>)
    ensures Excluding(Excluding(s, a), b) == Excluding(s, a + b)
  {
    if s != [] {
      ExcludingTwice(s[1..], a, b);
      var head := if s[0] in a then [] else [s[0]];
      var rest := Excluding(s[1..], a);
      assert Excluding(s, a) == head + rest;
      if s[0] in a {
        assert Excluding(s, a) == rest;
      } else {
        assert (head + rest)[0] == s[0] && (head + rest)[1..] == rest;
      }
    }
  }

  /**
   * `filter_tags`: every `{'name': t}` with `t` in `tags` and in
   * `simpleTagList` is removed from the tag dicts, all occurrences of it; the
   * others keep their order.
   */
  method FilterTags(tags: seq<string>, simpleTagList: seq<string>, complexTagList: seq<Tag>)
    returns (filtered: seq<Tag>)
    ensures filtered == Excluding(complexTagList, RemovedTags(tags, simpleTagList))
  {
    filtered := complexTagList;
    ExcludingNothing(complexTagList, {});
    assert RemovedTags(tags[..0], simpleTagList) == {};
    for i := 0 to |tags|
      invariant filtered == Excluding(complexTagList, RemovedTags(tags[..i], simpleTagList))
    {
      assert tags[..i + 1] == tags[..i] + [tags[i]];
      var tag := tags[i];
      if tag in simpleTagList {
        var complexTag := NameTag(tag);
        ghost var before := filtered;
        while complexTag in filtered
          invariant Excluding(filtered, {complexTag}) == Excluding(before, {complexTag})
          decreases |filtered|
        {
          filtered := RemoveFirst(filtered, complexTag);
        }
        ExcludingNothing(filtered, {complexTag});
        ExcludingTwice(complexTagList, RemovedTags(tags[..i], simpleTagList), {complexTag});
        assert RemovedTags(tags[..i + 1], simpleTagList) == RemovedTags(tags[..i], simpleTagList) + {complexTag};
      } else {
        assert RemovedTags(tags[..i + 1], simpleTagList) == RemovedTags(tags[..i], simpleTagList);
      }
    }
    assert tags[..|tags|] == tags;
  }

  /**
   * What filtering leaves: exactly the tag dicts that are not `{'name': t}`
   * for a tag `t` named in both lists.
   */
  lemma FilteredTags(tags: seq<string>, simpleTagList: seq<string>, complexTagList: seq<Tag>, t: Tag)
    ensures t in Excluding(complexTagList, RemovedTags(tags, simpleTagList)) <==>
      t in complexTagList && !(exists n :: n in tags && n in simpleTagList && t == NameTag(n))
  {
  }

  /** Filtering keeps the order: it works on each part of a list separately. */
  lemma {:induction false} ExcludingAppend(a: seq<Tag>, b: seq<Tag>, removed: set<Tag>)
    ensures Excluding(a + b, removed) == Excluding(a, removed) + Excluding(b, removed)
  {
    if a != [] {
      assert (a + b)[0] == a[0] && (a + b)[1..] == a[1..] + b;
      ExcludingAppend(a[1..], b, removed);
    } else {
      assert a + b == b;
    }
  }

  // ------------------------------------------------------------------- extras

  /** `d.get(k)` on a dict of string extras. */
  function Lookup(d: map<string, string>, k: string): Option<string> {
    if k in d then Some(d[k]) else None
  }

  /** The keys of an extras list, in list order. */
  function ExtraKeys(extras: seq<Extra>): (ks: seq<string>)
    ensures |ks| == |extras|
    ensures forall i :: 0 <= i < |extras| ==> ks[i] == extras[i].key
  {
    if extras == [] then [] else ExtraKeys(extras[..|extras| - 1]) + [extras[|extras| - 1].key]
  }

  /** The value of the last entry with key `k`. */
  function LastValue(extras: seq<Extra>, k: string): (v: Option<string>)
    ensures v.None? <==> forall i :: 0 <= i < |extras| ==> extras[i].key != k
  {
    if extras == [] then None
    else if extras[|extras| - 1].key == k then Some(extras[|extras| - 1].value)
    else LastValue(extras[..|extras| - 1], k)
  }

  /** `extras_dict`: each key of the extras list once, with the value of its last entry. */
  method ExtrasDict(extrasList: seq<Extra>) returns (d: map<string, string>)
    ensures forall k :: Lookup(d, k) == LastValue(extrasList, k)
  {
    d := map[];
    for i := 0 to |extrasList|
      invariant forall k :: Lookup(d, k) == LastValue(extrasList[..i], k)
    {
      assert extrasList[..i + 1][..i] == extrasList[..i];
      var item := extrasList[i];
      d := d[item.key := item.value];
    }
    assert extrasList[..|extrasList|] == extrasList;
  }

  /**
   * `extras_as_list`: one `{'key', 'value'}` entry per key of the dict. Every
   * value here is a string, so none is JSON-encoded.
   */
  method ExtrasAsList(d: map<string, string>) returns (extrasList: seq<Extra>)
    ensures Distinct(ExtraKeys(extrasList))
    ensures forall k :: LastValue(extrasList, k) == Lookup(d, k)
  {
    extrasList := [];
    var remaining := d.Keys;
    while remaining != {}
      invariant remaining <= d.Keys
      invariant Distinct(ExtraKeys(extrasList))
      invariant forall k :: LastValue(extrasList, k) == if k in d.Keys - remaining then Lookup(d, k) else None
      decreases remaining
    {
      var key :| key in remaining;
      var entry := Extra(key, d[key]);
      assert ExtraKeys(extrasList + [entry]) == ExtraKeys(extrasList) + [key];
      assert LastValue(extrasList, key).None?;
      assert forall i :: 0 <= i < |extrasList| ==> ExtraKeys(extrasList)[i] != key;
      extrasList := extrasList + [entry];
      remaining := remaining - {key};
    }
  }

  // -------------------------------------------------------------------- URL

  const FUNCTION_API := "api"

  /** The first resource with the given internal function. */
  function FirstWithFunction(rs: seq<Resource>, role: string): (r: Option<Resource>)
    ensures r.None? <==> forall i :: 0 <= i < |rs| ==> rs[i].internalFunction != Some(role)
    ensures r.Some? ==> r.value.internalFunction == Some(role)
  {
    if rs == [] then None
    else if rs[0].internalFunction == Some(role) then Some(rs[0])
    else FirstWithFunction(rs[1..], role)
  }

  lemma {:induction false} FirstWithFunctionAt(rs: seq<Resource>, role: string, i: int)
    requires 0 <= i < |rs| && rs[i].internalFunction == Some(role)
    requires forall j :: 0 <= j < i ==> rs[j].internalFunction != Some(role)
    ensures FirstWithFunction(rs, role) == Some(rs[i])
  {
    if i > 0 {
      assert rs[1..][i - 1] == rs[i];
      FirstWithFunctionAt(rs[1..], role, i - 1);
    }
  }

  function UrlOf(r: Option<Resource>): Option<Url> {
    match r
    case None => None
    case Some(resource) => Some(resource.url)
  }

  /** The URL of the first web interface, else that of the last "api" resource. */
  function DatasetUrl(resources: seq<Resource>): Option<Url> {
    if FirstWithFunction(resources, FUNCTION_WEB_INTERFACE).Some? then UrlOf(FirstWithFunction(resources, FUNCTION_WEB_INTERFACE))
    else UrlOf(LastWithFunction(resources, FUNCTION_API))
  }

  /** `extract_url`: a search for the first web interface that remembers the last "api" resource on the way. */
  method ExtractUrl(resources: seq<Resource>) returns (url: Option<Url>)
    ensures url == DatasetUrl(resources)
  {
    url := None;
    for i := 0 to |resources|
      invariant forall j :: 0 <= j < i ==> resources[j].internalFunction != Some(FUNCTION_WEB_INTERFACE)
      invariant url == UrlOf(LastWithFunction(resources[..i], FUNCTION_API))
    {
      assert resources[..i + 1][..i] == resources[..i];
      var resource := resources[i];
      var internalFunction := resource.internalFunction;
      if internalFunction == Some(FUNCTION_WEB_INTERFACE) {
        FirstWithFunctionAt(resources, FUNCTION_WEB_INTERFACE, i);
        return Some(resource.url);
      } else if internalFunction == Some(FUNCTION_API) {
        url := Some(resource.url);
      }
    }
    assert resources[..|resources|] == resources;
  }

  /**
   * No resource the annotator produces has the internal function "api",
   * when none came in with it: among annotated resources the fallback of
   * `extract_url` never fires, and the URL is the web interface's or `None`.
   */
  lemma AnnotatedHaveNoApi(rs: seq<Resource>)
    requires forall i :: 0 <= i < |rs| ==> rs[i].internalFunction != Some(FUNCTION_API)
    requires AnnotateAllResources(rs).Ok?
    ensures LastWithFunction(AnnotateAllResources(rs).value, FUNCTION_API).None?
    ensures DatasetUrl(AnnotateAllResources(rs).value) == UrlOf(FirstWithFunction(AnnotateAllResources(rs).value, FUNCTION_WEB_INTERFACE))
  {
    var annotated := AnnotateEach(rs);
    var extra := CapabilitiesResource(annotated).value;
    var out := AnnotateAllResources(rs).value;
    forall a | a in annotated ensures a.internalFunction != Some(FUNCTION_API) {
      var r :| r in rs && AnnotateResource(r) == Some(a);
      AnnotatedNotApi(r);
    }
    forall a | a in extra ensures a.internalFunction != Some(FUNCTION_API) {
      DescriptionNotApi(annotated);
    }
    assert multiset(out) == multiset(annotated + extra);
    forall i | 0 <= i < |out| ensures out[i].internalFunction != Some(FUNCTION_API) {
      assert out[i] in multiset(annotated + extra);
    }
  }

  lemma AnnotatedNotApi(r: Resource)
    requires r.internalFunction != Some(FUNCTION_API) && AnnotateResource(r).Some?
    ensures AnnotateResource(r).value.internalFunction != Some(FUNCTION_API)
  {
    if RuleOf(r).ServiceRule? {
      assert AnnotateServiceResource(r.(main := Some(false))).Ok?;
    }
  }

  lemma DescriptionNotApi(annotated: seq<Resource>)
    requires CapabilitiesResource(annotated).Ok?
    ensures forall a :: a in CapabilitiesResource(annotated).value ==> a.internalFunction != Some(FUNCTION_API)
  {
    var endpoint := LastWithFunction(annotated, FUNCTION_API_ENDPOINT);
    if endpoint.Some? && LastWithFunction(annotated, FUNCTION_API_DESCRIPTION).None?
       && endpoint.value.format.Some? && endpoint.value.format.value != FORMAT_ATOM {
      var query := GetCapabilitiesQuery(Lower(endpoint.value.format.value));
      if query.Ok? {
        ServiceDescriptionNotApi(NormalizedUrl(AppendQuery(endpoint.value.url, query.value)));
      }
    }
  }

  /** A bare resource the service annotation describes is never marked as the API itself. */
  lemma ServiceDescriptionNotApi(url: Url)
    ensures var d := AnnotateServiceResource(BareResource(url));
      d.Ok? ==> d.value.internalFunction != Some(FUNCTION_API)
  {
    assert BareResource(url).internalFunction.None?;
  }

  // ---------------------------------------------------------- title and name

  /** The last resource marked as main. */
  function LastMain(rs: seq<Resource>): (r: Option<Resource>)
    ensures r.None? <==> forall i :: 0 <= i < |rs| ==> !IsMain(rs[i])
    ensures r.Some? ==> r.value in rs && IsMain(r.value)
  {
    if rs == [] then None
    else if IsMain(rs[|rs| - 1]) then Some(rs[|rs| - 1])
    else LastMain(rs[..|rs| - 1])
  }

  /** ` - [<format>]` */
  function FormatSuffix(format: string): string {
    " - [" + format + "]"
  }

  /**
   * `generate_title`: the title with the format of the last main resource
   * appended as ` - [<format>]`; without a main resource, or when that one
   * has no format, the title as it is.
   */
  function GenerateTitle(title: string, resources: seq<Resource>): (t: string)
    ensures StartsWith(t, title)
    ensures LastMain(resources).Some? && LastMain(resources).value.format.Some? ==>
      t == title + FormatSuffix(LastMain(resources).value.format.value)
    ensures LastMain(resources).None? || LastMain(resources).value.format.None? ==> t == title
  {
    match LastMain(resources)
    case None => title
    case Some(main) =>
      match main.format
      case None => title
      case Some(format) =>
        assert (title + FormatSuffix(format))[..|title|] == title;
        title + FormatSuffix(format)
  }

  /** Resources that are not main do not change the title. */
  lemma {:induction false} TitleIgnoresOthers(title: string, resources: seq<Resource>, r: Resource)
    requires !IsMain(r)
    ensures GenerateTitle(title, resources + [r]) == GenerateTitle(title, resources)
  {
    assert (resources + [r])[..|resources|] == resources;
  }

  /** `s[:n]` */
  function Take(s: string, n: nat): (r: string)
    ensures |r| <= n && StartsWith(s, r)
  {
    if |s| <= n then s else s[..n]
  }

  /**
   * `generate_name`: the munged title with runs of '-' collapsed, cut to 91
   * characters and stripped of '-' at both ends, then '-' and the part of
   * the guid before its first '-'. `munge` is CKAN's `munge_title_to_name`.
   */
  function GenerateName(title: string, guid: string, munge: string -> string): (name: string)
    ensures var guidPart := BeforeFirst(guid, '-');
      EndsWith(name, "-" + guidPart) && |name| <= 92 + |guidPart|
    ensures NoRun(name, '-')
    ensures var stem := StripChar(Take(CollapseRuns(munge(title), '-'), 91), '-');
      && name == stem + "-" + BeforeFirst(guid, '-')
      && (stem != [] ==> stem[0] != '-' && stem[|stem| - 1] != '-')
  {
    var collapsed := CollapseRuns(munge(title), '-');
    CollapseRunsProps(munge(title), '-');
    var stem := StripChar(Take(collapsed, 91), '-');
    var guidPart := BeforeFirst(guid, '-');
    NameShape(collapsed, stem, guidPart);
    stem + "-" + guidPart
  }

  lemma NameShape(collapsed: string, stem: string, guidPart: string)
    requires NoRun(collapsed, '-') && stem == StripChar(Take(collapsed, 91), '-')
    requires '-' !in guidPart
    ensures EndsWith(stem + "-" + guidPart, "-" + guidPart)
    ensures |stem + "-" + guidPart| <= 92 + |guidPart|
    ensures NoRun(stem + "-" + guidPart, '-')
  {
    var taken := Take(collapsed, 91);
    NoRunSlice(collapsed, '-', 0, |taken|);
    assert taken == collapsed[0..|taken|];
    StripCharNoRun(taken, '-');
    var name := stem + "-" + guidPart;
    assert name[|stem|..] == "-" + guidPart;
    forall i | 0 <= i < |name| - 1 ensures !(name[i] == '-' && name[i + 1] == '-') {
      if i + 1 < |stem| {
        assert name[i] == stem[i] && name[i + 1] == stem[i + 1];
      } else if i + 1 == |stem| {
        assert name[i] == stem[|stem| - 1];
      } else {
        assert name[i + 1] == guidPart[i - |stem|];
      }
    }
  }
}
