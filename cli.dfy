/**
 * The listing and reimport helpers of cli.py: the projection of a dataset
 * onto id, name and title; the filters on harvest sources and on the
 * `berlin_source` extra; `_list_packages`, which pages through a search
 * until it has as many results as the search reports and then cuts them
 * with a Python slice; the choice of the datasets `reimport_dataset`
 * reimports; and the report `_reimport_dataset` prints.
 */
module Cli {
  import opened Wrappers
  import opened Helper
  import opened Exceptions
  import opened Reimport
  import Blueprint

  // --------------------------------------------------------------- filters

  /** A JSON object with string values, as the commands read datasets. */
  type Dict = map<string, string>

  /** `dict.get(key)`: the value, or `None` for a missing key. */
  function Get(d: Dict, key: string): Option<string> {
    if key in d then Some(d[key]) else None
  }

  /** What the commands print of a dataset. */
  datatype Summary = Summary(id: Option<string>, name: Option<string>, title: Option<string>)

  /** `_filter_dataset`: the dataset's id, name and title, `None` where it has none. */
  function FilterDataset(dataset: Dict): (s: Summary)
    ensures s.id.Some? <==> "id" in dataset
    ensures s.name.Some? <==> "name" in dataset
    ensures s.title.Some? <==> "title" in dataset
    ensures s.id.Some? ==> s.id.value == dataset["id"]
    ensures s.name.Some? ==> s.name.value == dataset["name"]
    ensures s.title.Some? ==> s.title.value == dataset["title"]
  {
    Summary(Get(dataset, "id"), Get(dataset, "name"), Get(dataset, "title"))
  }

  /** Two datasets that agree on id, name and title are printed alike, whatever else they hold. */
  lemma FilterDatasetReadsThreeKeys(a: Dict, b: Dict)
    requires forall k :: k in {"id", "name", "title"} ==> Get(a, k) == Get(b, k)
    ensures FilterDataset(a) == FilterDataset(b)
  {
    assert Get(a, "id") == Get(b, "id");
    assert Get(a, "name") == Get(b, "name");
    assert Get(a, "title") == Get(b, "title");
  }

  /** `_filter_datasets`: each dataset's summary, in order. */
  function FilterDatasets(datasets: seq<Dict>): (r: seq<Summary>)
    ensures |r| == |datasets| && forall i :: 0 <= i < |r| ==> r[i] == FilterDataset(datasets[i])
  {
    if datasets == [] then [] else [FilterDataset(datasets[0])] + FilterDatasets(datasets[1..])
  }

  /** The elements of `s` that `keep` accepts, in order (a list comprehension with a condition). */
  function Filter<T>(s: seq<T>, keep: T -> bool): seq<T>
    decreases |s|
  {
    if s == [] then []
    else
      var kept := Filter(s[..|s| - 1], keep);
      if keep(s[|s| - 1]) then kept + [s[|s| - 1]] else kept
  }

  /** The filter keeps exactly the accepted elements, in their order. */
  lemma FilterKeeps<T>(s: seq<T>, keep: T -> bool)
    ensures forall x :: x in Filter(s, keep) <==> x in s && keep(x)
    ensures IsSubsequence(Filter(s, keep), s)
  {
    FilterMembers(s, keep);
    FilterIsSubsequence(s, keep);
  }

  /** An element survives the filter exactly when it occurs and is accepted. */
  lemma {:induction false} FilterMembers<T>(s: seq<T>, keep: T -> bool)
    ensures forall x :: x in Filter(s, keep) <==> x in s && keep(x)
    decreases |s|
  {
    if s != [] {
      var p, last := s[..|s| - 1], s[|s| - 1];
      FilterMembers(p, keep);
      assert s == p + [last];
    }
  }

  /** The filter's output keeps the input's order. */
  lemma {:induction false} FilterIsSubsequence<T>(s: seq<T>, keep: T -> bool)
    ensures IsSubsequence(Filter(s, keep), s)
    decreases |s|
  {
    if s != [] {
      var p, last := s[..|s| - 1], s[|s| - 1];
      FilterIsSubsequence(p, keep);
      var kept := Filter(p, keep);
      if keep(last) {
        assert (kept + [last])[..|kept|] == kept;
      } else {
        SubsequenceGrows(kept, p, last);
        assert p + [last] == s;
      }
    }
  }

  /** A subsequence of `b` is one of `b` with an element appended. */
  lemma {:induction false} SubsequenceGrows<T>(a: seq<T>, b: seq<T>, x: T)
    requires IsSubsequence(a, b)
    ensures IsSubsequence(a, b + [x])
  {
    assert (b + [x])[..|b|] == b;
    if a != [] && a[|a| - 1] == x {
      SubsequenceDropLast(a, b);
    }
  }

  /** `_list_sources`: the harvest sources of this extension's harvester type, in order. */
  function ListSources(sources: seq<HarvestSource>): seq<HarvestSource> {
    Filter(sources, (s: HarvestSource) => s.sourceType == HARVESTER_ID)
  }

  /** `_list_sources` keeps, in order, every FIS-Broker source and nothing else. */
  lemma ListSourcesKeeps(sources: seq<HarvestSource>)
    ensures forall s :: s in ListSources(sources) <==> s in sources && s.sourceType == HARVESTER_ID
    ensures IsSubsequence(ListSources(sources), sources)
  {
    FilterKeeps(sources, (s: HarvestSource) => s.sourceType == HARVESTER_ID);
  }

  /** A package row as `list_datasets_berlin_source` reads it: id, name, title, state and extras. */
  datatype PackageRow = PackageRow(id: string, name: string, title: string, state: string, extras: Dict)

  /** `extras.get("berlin_source", "_undefined")` equals the option. */
  predicate FromBerlinSource(row: PackageRow, berlinSource: string) {
    (if "berlin_source" in row.extras then row.extras["berlin_source"] else "_undefined") == berlinSource
  }

  /** The dataset dict the command builds of a package row. */
  function RowDataset(row: PackageRow): Dict {
    map["name" := row.name, "title" := row.title, "id" := row.id]
  }

  /** `list_datasets_berlin_source`: the summaries of the active packages from the given `berlin_source`. */
  function BerlinSourceDatasets(rows: seq<PackageRow>, berlinSource: string): seq<Summary> {
    var active := Filter(rows, (r: PackageRow) => r.state == "active");
    var chosen := Filter(active, (r: PackageRow) => FromBerlinSource(r, berlinSource));
    FilterDatasets(seq(|chosen|, i requires 0 <= i < |chosen| => RowDataset(chosen[i])))
  }

  /**
   * A package is listed exactly when it is active and its `berlin_source`
   * extra is the option; a package without the extra is listed exactly
   * when the option is "_undefined".
   */
  lemma BerlinSourceListed(rows: seq<PackageRow>, berlinSource: string, row: PackageRow)
    requires row in rows
    ensures Summary(Some(row.id), Some(row.name), Some(row.title)) in BerlinSourceDatasets(rows, berlinSource)
            <== row.state == "active" && FromBerlinSource(row, berlinSource)
    ensures "berlin_source" !in row.extras && row.state == "active" ==>
            (FromBerlinSource(row, berlinSource) <==> berlinSource == "_undefined")
  {
    var keepActive := (r: PackageRow) => r.state == "active";
    var keepSource := (r: PackageRow) => FromBerlinSource(r, berlinSource);
    var active := Filter(rows, keepActive);
    var chosen := Filter(active, keepSource);
    FilterKeeps(rows, keepActive);
    FilterKeeps(active, keepSource);
    if row.state == "active" && FromBerlinSource(row, berlinSource) {
      assert row in chosen;
      var i :| 0 <= i < |chosen| && chosen[i] == row;
      var datasets := seq(|chosen|, i requires 0 <= i < |chosen| => RowDataset(chosen[i]));
      assert FilterDatasets(datasets)[i] == FilterDataset(RowDataset(row));
    }
  }

  /** Every listed summary is that of an active package from the given `berlin_source`. */
  lemma BerlinSourceOnly(rows: seq<PackageRow>, berlinSource: string, s: Summary)
    requires s in BerlinSourceDatasets(rows, berlinSource)
    ensures exists row :: row in rows && row.state == "active" && FromBerlinSource(row, berlinSource)
                          && s == Summary(Some(row.id), Some(row.name), Some(row.title))
  {
    var keepActive := (r: PackageRow) => r.state == "active";
    var keepSource := (r: PackageRow) => FromBerlinSource(r, berlinSource);
    var active := Filter(rows, keepActive);
    var chosen := Filter(active, keepSource);
    FilterKeeps(rows, keepActive);
    FilterKeeps(active, keepSource);
    var datasets := seq(|chosen|, i requires 0 <= i < |chosen| => RowDataset(chosen[i]));
    var i :| 0 <= i < |FilterDatasets(datasets)| && FilterDatasets(datasets)[i] == s;
    assert chosen[i] in chosen;
  }

  // --------------------------------------------------------------- paging

  /** The page size `_list_packages` asks for. */
  const ROWS := 500

  /**
   * One `package_search` call: the results from `start` on, at most `ROWS`
   * of them, out of `matching`, the datasets the search finds for the
   * query in the order it sorts them; the reported count is `|matching|`.
   */
  function SearchPage(matching: seq<Dict>, start: nat): (page: seq<Dict>)
    requires start <= |matching|
    ensures start < |matching| ==> page != []
    ensures start + |page| <= |matching| && page == matching[start..start + |page|]
    ensures |page| == Min(ROWS, |matching| - start)
  {
    if |matching| - start <= ROWS then matching[start..] else matching[start..start + ROWS]
  }

  /** Python's normalisation of a slice bound: negative counts from the end, then clamped to the sequence. */
  function SliceBound(i: int, n: nat): (k: nat)
    ensures k <= n
    ensures 0 <= i ==> k == if i <= n then i else n
    ensures i < 0 ==> k == if -i <= n then n + i else 0
  {
    if i < 0 then (if i + n < 0 then 0 else i + n) else if i > n then n else i
  }

  /** `s[a:b]` in Python. */
  function PySlice<T>(s: seq<T>, a: int, b: int): seq<T> {
    var i, j := SliceBound(a, |s|), SliceBound(b, |s|);
    if i < j then s[i..j] else []
  }

  /** With bounds that are not negative, a slice is the part of the sequence between them that exists. */
  lemma SliceNonNegative<T>(s: seq<T>, a: int, b: int)
    requires 0 <= a <= b
    ensures PySlice(s, a, b) == s[Min(a, |s|)..Min(b, |s|)]
    ensures |PySlice(s, a, b)| <= b - a
  {
  }

  function Min(a: int, b: int): int {
    if a <= b then a else b
  }

  /** Two adjacent slices make up the slice over both: paging with offset and limit covers every result once. */
  lemma SlicesAdjoin<T>(s: seq<T>, a: int, b: int, c: int)
    requires 0 <= a <= b <= c
    ensures PySlice(s, a, b) + PySlice(s, b, c) == PySlice(s, a, c)
  {
    SliceNonNegative(s, a, b);
    SliceNonNegative(s, b, c);
    SliceNonNegative(s, a, c);
    var n := |s|;
    assert s[Min(a, n)..Min(b, n)] + s[Min(b, n)..Min(c, n)] == s[Min(a, n)..Min(c, n)];
  }

  /** What `_list_packages` returns: a negative limit stands for all results, then `total[offset:offset+limit]`. */
  function ListedPackages(matching: seq<Dict>, offset: int, limit: int): seq<Dict> {
    var limit' := if limit < 0 then |matching| else limit;
    PySlice(matching, offset, offset + limit')
  }

  /**
   * With no offset and no limit every result is listed; with an offset
   * that is not negative, a negative limit lists every result from the
   * offset on and a limit that is not negative lists at most that many.
   */
  lemma ListedPackagesBounds(matching: seq<Dict>, offset: int, limit: int)
    ensures ListedPackages(matching, 0, -1) == matching
    ensures 0 <= offset && limit < 0 ==> ListedPackages(matching, offset, limit) == matching[Min(offset, |matching|)..]
    ensures 0 <= offset && 0 <= limit ==>
      ListedPackages(matching, offset, limit) == matching[Min(offset, |matching|)..Min(offset + limit, |matching|)]
  {
    SliceNonNegative(matching, 0, |matching|);
    if 0 <= offset {
      if limit < 0 {
        SliceNonNegative(matching, offset, offset + |matching|);
      } else {
        SliceNonNegative(matching, offset, offset + limit);
      }
    }
  }

  /**
   * `_list_packages(source_id, offset, limit)`: search page by page, each
   * query starting where the previous page ended, until the results
   * gathered reach the reported count; then slice them. `queries` are the
   * `start` values sent: one per page of `ROWS`, and at least one.
   */
  method ListPackages(matching: seq<Dict>, offset: int, limit: int) returns (packages: seq<Dict>, queries: seq<nat>)
    ensures packages == ListedPackages(matching, offset, limit)
    ensures |queries| > 0 && forall k :: 0 <= k < |queries| ==> queries[k] == k * ROWS
    ensures |matching| <= |queries| * ROWS && (|queries| == 1 || (|queries| - 1) * ROWS < |matching|)
  {
    var start := 0;
    var total: seq<Dict> := [];
    queries := [];
    while true
      invariant start <= |matching| && total == matching[..start]
      invariant forall k :: 0 <= k < |queries| ==> queries[k] == k * ROWS
      invariant start == Min(|queries| * ROWS, |matching|)
      invariant |queries| > 0 ==> |queries| * ROWS < |matching|
      decreases |matching| - start
    {
      PageTurn(matching, queries, start);
      queries := queries + [start];
      var page := SearchPage(matching, start);
      total := total + page;
      start := start + |page|;
      if |total| >= |matching| {
        break;
      }
    }
    var limit' := limit;
    if limit' < 0 {
      limit' := |total|;
    }
    assert total == matching;
    packages := PySlice(total, offset, offset + limit');
  }

  /**
   * One page of `_list_packages`: the query starts where the pages before
   * it ended, at the next multiple of `ROWS`, and the results gathered
   * stay a prefix of the matching datasets.
   */
  lemma PageTurn(matching: seq<Dict>, queries: seq<nat>, start: nat)
    requires start <= |matching| && start == Min(|queries| * ROWS, |matching|)
    requires |queries| > 0 ==> |queries| * ROWS < |matching|
    requires forall k :: 0 <= k < |queries| ==> queries[k] == k * ROWS
    ensures var q := queries + [start];
      var next := start + |SearchPage(matching, start)|;
      && next <= |matching| && matching[..start] + SearchPage(matching, start) == matching[..next]
      && (forall k :: 0 <= k < |q| ==> q[k] == k * ROWS)
      && next == Min(|q| * ROWS, |matching|)
  {
    var page := SearchPage(matching, start);
    assert matching[..start] + page == matching[..start + |page|];
  }

  // ------------------------------------------------------------- reimport

  /**
   * `reimport_dataset`'s targets: the dataset id when one is given;
   * otherwise the names of the listed packages of the given source, or of
   * every FIS-Broker source in turn, each source sliced with the same
   * offset and limit. `index` gives the search results for a source id as
   * the query spells it (`None` included). A result without a name raises
   * `KeyError`.
   */
  function TargetsOf(datasetId: Option<string>, source: Option<string>, sources: seq<HarvestSource>,
                     index: string -> seq<Dict>, offset: int, limit: int): Result<seq<string>>
  {
    if Truthy(datasetId) then Ok([datasetId.value])
    else
      var ids := if Truthy(source) then [source.value] else SourceIds(ListSources(sources));
      NamesOf(ids, index, offset, limit, |ids|)
  }

  /** `source.get('id')` of each source, as the query text spells it. */
  function SourceIds(sources: seq<HarvestSource>): (ids: seq<string>)
    ensures |ids| == |sources| && forall i :: 0 <= i < |ids| ==> ids[i] == IdText(sources[i].id)
  {
    if sources == [] then [] else [IdText(sources[0].id)] + SourceIds(sources[1..])
  }

  /** The names of the listed packages of the first `n` sources, or the `KeyError` of the first result without one. */
  function NamesOf(ids: seq<string>, index: string -> seq<Dict>, offset: int, limit: int, n: nat): Result<seq<string>>
    requires n <= |ids|
  {
    if n == 0 then Ok([])
    else
      match NamesOf(ids, index, offset, limit, n - 1)
      case Err(e) => Err(e)
      case Ok(names) =>
        match Names(ListedPackages(index(ids[n - 1]), offset, limit))
        case Err(e) => Err(e)
        case Ok(more) => Ok(names + more)
  }

  /** `[package['name'] for package in packages]`. */
  function Names(packages: seq<Dict>): (r: Result<seq<string>>)
    ensures r.Ok? <==> forall i :: 0 <= i < |packages| ==> "name" in packages[i]
    ensures r.Ok? ==> |r.value| == |packages| && forall i :: 0 <= i < |packages| ==> r.value[i] == packages[i]["name"]
    ensures r.Err? ==> r.error == KeyError("name")
  {
    if packages == [] then Ok([])
    else if "name" !in packages[0] then Err(KeyError("name"))
    else
      match Names(packages[1..])
      case Err(e) => Err(e)
      case Ok(rest) => Ok([packages[0]["name"]] + rest)
  }

  /**
   * A given dataset id wins over everything else and is the only target;
   * a given source makes its listed packages the targets, whatever the
   * other sources.
   */
  lemma TargetsPrecedence(datasetId: Option<string>, source: Option<string>, sources: seq<HarvestSource>,
                          index: string -> seq<Dict>, offset: int, limit: int)
    ensures Truthy(datasetId) ==> TargetsOf(datasetId, source, sources, index, offset, limit) == Ok([datasetId.value])
    ensures !Truthy(datasetId) && Truthy(source) ==>
      TargetsOf(datasetId, source, sources, index, offset, limit) == Names(ListedPackages(index(source.value), offset, limit))
  {
    if !Truthy(datasetId) && Truthy(source) {
      var r := Names(ListedPackages(index(source.value), offset, limit));
      assert NamesOf([source.value], index, offset, limit, 0) == Ok([]);
      if r.Ok? {
        assert [] + r.value == r.value;
      }
    }
  }

  /** The target selection of `reimport_dataset`, source by source. */
  method ReimportTargets(datasetId: Option<string>, source: Option<string>, sources: seq<HarvestSource>,
                         index: string -> seq<Dict>, offset: int, limit: int) returns (r: Result<seq<string>>)
    ensures r == TargetsOf(datasetId, source, sources, index, offset, limit)
  {
    if Truthy(datasetId) {
      return Ok([datasetId.value]);
    }
    var ids := if Truthy(source) then [source.value] else SourceIds(ListSources(sources));
    var packageIds: seq<string> := [];
    for i := 0 to |ids|
      invariant NamesOf(ids, index, offset, limit, i) == Ok(packageIds)
    {
      var packages, _ := ListPackages(index(ids[i]), offset, limit);
      var names := Names(packages);
      if names.Err? {
        NamesStayFailed(ids, index, offset, limit, i + 1, |ids|);
        return Err(names.error);
      }
      packageIds := packageIds + names.value;
    }
    return Ok(packageIds);
  }

  /** Once a result without a name was met, the later sources change nothing. */
  lemma {:induction false} NamesStayFailed(ids: seq<string>, index: string -> seq<Dict>, offset: int, limit: int,
                                           k: nat, n: nat)
    requires k <= n <= |ids| && NamesOf(ids, index, offset, limit, k).Err?
    ensures NamesOf(ids, index, offset, limit, n) == NamesOf(ids, index, offset, limit, k)
    decreases n - k
  {
    if k < n {
      NamesStayFailed(ids, index, offset, limit, k, n - 1);
    }
  }

  // ---------------------------------------------------------------- report

  /** What the report shows of a reimported record: its identifier and its title. */
  datatype RecordInfo = RecordInfo(fisbrokerGuid: string, title: string)

  /** A report, or the exception that escaped the batch. */
  datatype Report = Reported(entries: seq<(string, RecordInfo)>) | Failed(failure: Failure)

  /** One report entry per record, in order, with the same key. */
  function Entries(records: Mapping, identify: string -> RecordInfo): (r: seq<(string, RecordInfo)>)
    ensures |r| == |records| && forall i :: 0 <= i < |r| ==> r[i] == (records[i].0, identify(records[i].1))
  {
    if records == [] then [] else [(records[0].0, identify(records[0].1))] + Entries(records[1..], identify)
  }

  /** What `_reimport_dataset` reports of a batch: its entries, or the exception the batch raised. */
  function ReportOf(batch: Blueprint.Batch, identify: string -> RecordInfo): Report {
    match batch
    case BatchFailed(failure) => Failed(failure)
    case Reimported(records) => Reported(Entries(records, identify))
  }

  /**
   * `_reimport_dataset`: for each reimported package id, in the batch's
   * order, the identifier and title `identify` reads from its record.
   */
  method ReimportReport(batch: Blueprint.Batch, identify: string -> RecordInfo) returns (report: Report)
    ensures report == ReportOf(batch, identify)
  {
    if batch.BatchFailed? {
      return Failed(batch.failure);
    }
    var records := batch.records;
    var entries: seq<(string, RecordInfo)> := [];
    for i := 0 to |records|
      invariant |entries| == i && forall j :: 0 <= j < i ==> entries[j] == (records[j].0, identify(records[j].1))
    {
      var (packageId, record) := records[i];
      entries := entries + [(packageId, identify(record))];
    }
    return Reported(entries);
  }

  /**
   * The report of a successful batch has one entry for each package id
   * the batch was given, as the id of the package it names, and no other.
   */
  lemma ReportCoversBatch(catalog: seq<Package>, ids: seq<string>, source: Option<HarvestSource>,
                          connect: string -> Option<string>, fetch: string -> CswAnswer,
                          forceImport: ForcedImport, identify: string -> RecordInfo)
    requires Blueprint.BatchOf(catalog, ids, source, connect, fetch, forceImport).end.Done?
    ensures var o := Blueprint.BatchOf(catalog, ids, source, connect, fetch, forceImport);
      var report := ReportOf(Blueprint.BatchResult(o.end), identify);
      && report.Reported?
      && MappingKeys(o.end.records) == KeysOf(catalog, ids, ByPackageId)
      && |report.entries| == |o.end.records|
      && forall i :: 0 <= i < |report.entries| ==> report.entries[i].0 == o.end.records[i].0
  {
    Blueprint.BatchReimported(catalog, ids, source, connect, fetch, forceImport);
  }
}
