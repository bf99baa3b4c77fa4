/**
 * `helper.py`: de-duplication of resources by normalised URL, the FIS-Broker
 * GUID of a package and the questions "was it harvested, and by whom".
 */
module Helper {
  import opened Wrappers
  import opened Text
  import opened Urls
  import opened Resources

  /** The harvester type this extension registers. */
  const HARVESTER_ID := "fisbroker"

  /** A `{'key': k, 'value': v}` entry of a package's extras. */
  datatype Extra = Extra(key: string, value: string)

  /** A harvest source: its id (if it has one), its service URL and its harvester type. */
  datatype HarvestSource = HarvestSource(id: Option<string>, url: string, sourceType: string)

  /**
   * A CKAN package as far as the harvester looks at it; `harvestSources`
   * lists the source of each of its harvest objects, oldest first.
   */
  datatype Package = Package(
    id: string,
    name: string,
    title: string,
    state: string,
    extras: Option<seq<Extra>>,
    harvestSources: seq<HarvestSource>)

  /** `Package.get(reference)`: look the reference up as an id first, then as a name. */
  function PackageGet(catalog: seq<Package>, reference: string): (r: Option<Package>)
    ensures r.Some? ==> r.value in catalog
    ensures r.Some? ==>
      (r.value.id == reference || (r.value.name == reference && forall i :: 0 <= i < |catalog| ==> catalog[i].id != reference))
    ensures r.None? ==> forall i :: 0 <= i < |catalog| ==> catalog[i].id != reference && catalog[i].name != reference
  {
    match FindBy(catalog, Id, reference)
    case Some(p) => Some(p)
    case None => FindBy(catalog, Name, reference)
  }

  /** The two columns `Package.get` looks a reference up in. */
  datatype Column = Id | Name

  function ColumnOf(p: Package, column: Column): string {
    match column
    case Id => p.id
    case Name => p.name
  }

  /** The first package whose `column` holds `value`. */
  function FindBy(catalog: seq<Package>, column: Column, value: string): (r: Option<Package>)
    ensures r.Some? ==> r.value in catalog && ColumnOf(r.value, column) == value
    ensures r.None? ==> forall i :: 0 <= i < |catalog| ==> ColumnOf(catalog[i], column) != value
  {
    if catalog == [] then None
    else if ColumnOf(catalog[0], column) == value then Some(catalog[0])
    else FindBy(catalog[1..], column, value)
  }

  /** The text two resources must share to count as the same: their normalised URL. */
  function UrlKey(r: Resource): string {
    Render(NormalizedUrl(r.url))
  }

  predicate SharesUrl(kept: seq<Resource>, r: Resource) {
    exists j :: 0 <= j < |kept| && UrlKey(kept[j]) == UrlKey(r)
  }

  /** What `uniq_resources_by_url` keeps of `rs`, resource by resource. */
  function UniqByUrl(rs: seq<Resource>): seq<Resource>
    decreases |rs|
  {
    if rs == [] then []
    else
      var kept := UniqByUrl(rs[..|rs| - 1]);
      var r := rs[|rs| - 1];
      if SharesUrl(kept, r) then kept else kept + [r]
  }

  lemma UniqByUrlStep(rs: seq<Resource>, i: int)
    requires 0 <= i < |rs|
    ensures UniqByUrl(rs[..i + 1]) ==
      if SharesUrl(UniqByUrl(rs[..i]), rs[i]) then UniqByUrl(rs[..i]) else UniqByUrl(rs[..i]) + [rs[i]]
  {
    assert rs[..i + 1][..i] == rs[..i];
  }

  /** The inner loop of `uniq_resources_by_url`: no kept resource has the normalised URL of `resource`. */
  method IsUnique(uniqResources: seq<Resource>, resource: Resource) returns (unique: bool)
    ensures unique <==> !SharesUrl(uniqResources, resource)
  {
    unique := true;
    for j := 0 to |uniqResources|
      invariant unique <==> forall k :: 0 <= k < j ==> UrlKey(uniqResources[k]) != UrlKey(resource)
    {
      var a := NormalizeUrl(resource.url);
      var b := NormalizeUrl(uniqResources[j].url);
      if a == b {
        unique := false;
      }
    }
  }

  /** `uniq_resources_by_url`: keep each resource whose normalised URL no kept resource has. */
  method UniqResourcesByUrl(resources: seq<Resource>) returns (uniqResources: seq<Resource>)
    ensures uniqResources == UniqByUrl(resources)
  {
    uniqResources := [];
    for i := 0 to |resources|
      invariant uniqResources == UniqByUrl(resources[..i])
    {
      var resource := resources[i];
      var unique := IsUnique(uniqResources, resource);
      UniqByUrlStep(resources, i);
      if unique {
        uniqResources := uniqResources + [resource];
      }
    }
    assert resources[..|resources|] == resources;
  }

  /** `a` is `b` with some elements left out, order kept. */
  predicate IsSubsequence<T(==)>(a: seq<T>, b: seq<T>)
    decreases |b|
  {
    if a == [] then true
    else if b == [] then false
    else if a[|a| - 1] == b[|b| - 1] then IsSubsequence(a[..|a| - 1], b[..|b| - 1])
    else IsSubsequence(a, b[..|b| - 1])
  }

  lemma {:induction false} SubsequenceDropLast<T>(a: seq<T>, b: seq<T>)
    requires a != [] && IsSubsequence(a, b)
    ensures IsSubsequence(a[..|a| - 1], b)
    decreases |b|
  {
    var a' := a[..|a| - 1];
    if a' != [] && b != [] {
      var b' := b[..|b| - 1];
      if a[|a| - 1] == b[|b| - 1] {
        assert IsSubsequence(a', b');
        if a'[|a'| - 1] == b[|b| - 1] {
          SubsequenceDropLast(a', b');
        }
      } else {
        assert IsSubsequence(a, b');
        SubsequenceDropLast(a, b');
        if a'[|a'| - 1] == b[|b| - 1] {
          SubsequenceDropLast(a', b');
        }
      }
    }
  }

  /** `rs[i]` is the first resource of `rs` with its normalised URL. */
  predicate FirstOfUrl(rs: seq<Resource>, i: int)
    requires 0 <= i < |rs|
  {
    forall j :: 0 <= j < i ==> UrlKey(rs[j]) != UrlKey(rs[i])
  }

  /** De-duplication keeps the resources in their order, leaving some out. */
  lemma {:induction false} UniqByUrlIsSubsequence(rs: seq<Resource>)
    ensures IsSubsequence(UniqByUrl(rs), rs)
    decreases |rs|
  {
    if rs != [] {
      var p := rs[..|rs| - 1];
      var kept := UniqByUrl(p);
      UniqByUrlIsSubsequence(p);
      if SharesUrl(kept, rs[|rs| - 1]) && kept != [] && kept[|kept| - 1] == rs[|rs| - 1] {
        SubsequenceDropLast(kept, p);
      }
      if !SharesUrl(kept, rs[|rs| - 1]) {
        assert (kept + [rs[|rs| - 1]])[..|kept|] == kept;
      }
    }
  }

  /** No two kept resources share a normalised URL. */
  lemma {:induction false} UniqByUrlDistinctUrls(rs: seq<Resource>)
    ensures forall i, j :: 0 <= i < j < |UniqByUrl(rs)| ==> UrlKey(UniqByUrl(rs)[i]) != UrlKey(UniqByUrl(rs)[j])
    decreases |rs|
  {
    if rs != [] {
      UniqByUrlDistinctUrls(rs[..|rs| - 1]);
    }
  }

  /**
   * Every kept resource is the first of its normalised URL in the input, and
   * every resource of the input shares its normalised URL with a kept one.
   */
  lemma UniqByUrlKeepsFirsts(rs: seq<Resource>)
    ensures forall o :: o in UniqByUrl(rs) ==> exists i :: 0 <= i < |rs| && FirstOfUrl(rs, i) && rs[i] == o
    ensures forall r :: r in rs ==> SharesUrl(UniqByUrl(rs), r)
  {
    KeptAreFirsts(rs);
    EveryUrlKept(rs);
  }

  /** Every kept resource is the first of its normalised URL in the input. */
  lemma {:induction false} KeptAreFirsts(rs: seq<Resource>)
    ensures forall o :: o in UniqByUrl(rs) ==> exists i :: 0 <= i < |rs| && FirstOfUrl(rs, i) && rs[i] == o
    decreases |rs|
  {
    if rs != [] {
      var p := rs[..|rs| - 1];
      var x := rs[|rs| - 1];
      var kept := UniqByUrl(p);
      KeptAreFirsts(p);
      assert rs == p + [x];
      forall o | o in kept
        ensures exists i :: 0 <= i < |rs| && FirstOfUrl(rs, i) && rs[i] == o
      {
        var i :| 0 <= i < |p| && FirstOfUrl(p, i) && p[i] == o;
        assert FirstOfUrl(rs, i);
      }
      if !SharesUrl(kept, x) {
        assert FirstOfUrl(rs, |p|) by {
          EveryUrlKept(p);
          forall j | 0 <= j < |p| ensures UrlKey(rs[j]) != UrlKey(x) {
            assert p[j] in p;
          }
        }
      }
    }
  }

  /** Every resource of the input shares its normalised URL with a kept one. */
  lemma {:induction false} EveryUrlKept(rs: seq<Resource>)
    ensures forall r :: r in rs ==> SharesUrl(UniqByUrl(rs), r)
    decreases |rs|
  {
    if rs != [] {
      var p := rs[..|rs| - 1];
      var x := rs[|rs| - 1];
      var kept := UniqByUrl(p);
      EveryUrlKept(p);
      assert rs == p + [x];
      if SharesUrl(kept, x) {
        forall r | r in rs ensures SharesUrl(kept, r) {
          if r != x {
            assert r in p;
          }
        }
      } else {
        var out := kept + [x];
        forall r | r in rs ensures SharesUrl(out, r) {
          if r == x {
            assert out[|kept|] == x;
          } else {
            assert r in p;
            var k :| 0 <= k < |kept| && UrlKey(kept[k]) == UrlKey(r);
            assert out[k] == kept[k];
          }
        }
      }
    }
  }

  /** The first resource of each normalised URL is kept. */
  lemma UniqByUrlKeepsEveryFirst(rs: seq<Resource>)
    ensures forall i :: 0 <= i < |rs| && FirstOfUrl(rs, i) ==> rs[i] in UniqByUrl(rs)
  {
    forall i | 0 <= i < |rs| && FirstOfUrl(rs, i) ensures rs[i] in UniqByUrl(rs) {
      FirstKept(rs, i);
    }
  }

  /** The resource at `i`, the first of its normalised URL, is kept. */
  lemma {:induction false} FirstKept(rs: seq<Resource>, i: nat)
    requires i < |rs| && FirstOfUrl(rs, i)
    ensures rs[i] in UniqByUrl(rs)
    decreases |rs|
  {
    var p := rs[..|rs| - 1];
    if i < |p| {
      assert FirstOfUrl(p, i) by {
        forall j | 0 <= j < i ensures UrlKey(p[j]) != UrlKey(p[i]) {
          assert p[j] == rs[j] && p[i] == rs[i];
        }
      }
      FirstKept(p, i);
      KeptStays(rs, rs[i]);
    } else {
      LastFirstIsNew(rs);
      assert UniqByUrl(rs) == UniqByUrl(p) + [rs[i]];
    }
  }

  /** A resource kept from a prefix one shorter is still kept. */
  lemma KeptStays(rs: seq<Resource>, x: Resource)
    requires rs != [] && x in UniqByUrl(rs[..|rs| - 1])
    ensures x in UniqByUrl(rs)
  {
  }

  /** A last resource that is the first of its normalised URL shares it with nothing kept before it. */
  lemma LastFirstIsNew(rs: seq<Resource>)
    requires rs != [] && FirstOfUrl(rs, |rs| - 1)
    ensures !SharesUrl(UniqByUrl(rs[..|rs| - 1]), rs[|rs| - 1])
  {
    var p := rs[..|rs| - 1];
    var kept := UniqByUrl(p);
    UniqByUrlKeepsFirsts(p);
    forall j | 0 <= j < |kept| ensures UrlKey(kept[j]) != UrlKey(rs[|rs| - 1]) {
      assert kept[j] in kept;
      var k :| 0 <= k < |p| && FirstOfUrl(p, k) && p[k] == kept[j];
      assert rs[k] == p[k];
    }
  }

  /**
   * `fisbroker_guid`: the value of the first extra whose key reads `guid`
   * in any case; `None` stands for the `False` returned when there is none.
   */
  method FisbrokerGuid(extras: Option<seq<Extra>>) returns (guid: Option<string>)
    ensures guid.Some? <==> extras.Some? && exists i :: 0 <= i < |extras.value| && Lower(extras.value[i].key) == "guid"
    ensures guid.Some? ==>
      exists i :: 0 <= i < |extras.value| && IsFirstGuidExtra(extras.value, i) && guid.value == extras.value[i].value
    ensures guid == GuidOf(extras)
  {
    guid := None;
    if extras.Some? {
      var list := extras.value;
      var i := 0;
      while i < |list|
        invariant 0 <= i <= |list|
        invariant forall j :: 0 <= j < i ==> Lower(list[j].key) != "guid"
        invariant FirstGuid(list) == FirstGuid(list[i..])
      {
        if Lower(list[i].key) == "guid" {
          return Some(list[i].value);
        }
        i := i + 1;
      }
    }
  }

  /** The guid `fisbroker_guid` finds in a package's extras, if it has any. */
  function GuidOf(extras: Option<seq<Extra>>): Option<string> {
    if extras.Some? then FirstGuid(extras.value) else None
  }

  /** The value of the first extra whose key reads `guid`. */
  function FirstGuid(extras: seq<Extra>): Option<string> {
    if extras == [] then None
    else if Lower(extras[0].key) == "guid" then Some(extras[0].value)
    else FirstGuid(extras[1..])
  }

  /** `extras[i]` is the first extra whose key reads `guid`. */
  predicate IsFirstGuidExtra(extras: seq<Extra>, i: int)
    requires 0 <= i < |extras|
  {
    Lower(extras[i].key) == "guid" && forall j :: 0 <= j < i ==> Lower(extras[j].key) != "guid"
  }

  /** `dataset_was_harvested`: the package has at least one harvest object. */
  predicate DatasetWasHarvested(p: Package) {
    |p.harvestSources| > 0
  }

  /**
   * A package counts as harvested exactly when it has a harvest object,
   * which is exactly when it has a harvester.
   */
  lemma HarvestedIff(p: Package)
    ensures DatasetWasHarvested(p) <==> p.harvestSources != []
    ensures DatasetWasHarvested(p) <==> HarvesterForPackage(p).Some?
  {
  }

  /** `harvester_for_package`: the source of the package's first harvest object. */
  function HarvesterForPackage(p: Package): (r: Option<HarvestSource>)
    ensures r.Some? <==> DatasetWasHarvested(p)
    ensures r.Some? ==> r.value in p.harvestSources
  {
    if DatasetWasHarvested(p) then Some(p.harvestSources[0]) else None
  }

  /**
   * The harvester found is the source of the package's first harvest
   * object, not just any of them; so `is_fisbroker_package` holds exactly
   * when the named package's harvester has the FIS-Broker type.
   */
  lemma HarvesterIsFirstSource(p: Package, catalog: seq<Package>, name: Option<string>)
    ensures HarvesterForPackage(p).Some? ==> HarvesterForPackage(p).value == p.harvestSources[0]
    ensures IsFisbrokerPackage(catalog, name) <==>
      (name.Some? && PackageGet(catalog, name.value).Some?
       && HarvesterForPackage(PackageGet(catalog, name.value).value).Some?
       && HarvesterForPackage(PackageGet(catalog, name.value).value).value.sourceType == HARVESTER_ID)
  {
  }

  /** `is_fisbroker_package`: the package named `name` exists and was harvested by a FIS-Broker source. */
  function IsFisbrokerPackage(catalog: seq<Package>, name: Option<string>): (r: bool)
    ensures r <==>
      (name.Some? && PackageGet(catalog, name.value).Some?
       && DatasetWasHarvested(PackageGet(catalog, name.value).value)
       && PackageGet(catalog, name.value).value.harvestSources[0].sourceType == HARVESTER_ID)
  {
    if name.None? then false
    else match PackageGet(catalog, name.value)
      case None => false
      case Some(package) =>
        match HarvesterForPackage(package)
        case None => false
        case Some(harvester) => harvester.sourceType == HARVESTER_ID
  }
}
