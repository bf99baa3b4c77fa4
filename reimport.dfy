/**
 * What the reimport actions of blueprint.py and controller.py share: the
 * site they act on (harvest jobs, requests to the CSW service, deleted
 * packages), the checks every package passes before FIS-Broker is asked,
 * and the shape of their JSON responses.
 */
module Reimport {
  import opened Wrappers
  import opened Helper
  import opened Exceptions

  // ------------------------------------------------------------------- site

  /** A harvest object a reimport saves: guid, content, package id and extras. */
  datatype ReimportObject = ReimportObject(guid: string, content: string, packageId: string, extras: seq<Extra>)

  /**
   * `import_stage` of a `FisbrokerPlugin` with `force_import` set, run on
   * a saved object: the extras it leaves on the object, or the exception
   * it raises (none of which is a `RequestException`).
   */
  type ForcedImport = ReimportObject -> Result<seq<Extra>>

  /** A harvest job a reimport creates: its source, the objects saved in it, and whether it was finished. */
  datatype Job = Job(sourceId: Option<string>, objects: seq<ReimportObject>, finished: bool)

  /** How the CSW service answers `getrecordbyid` for a guid: an exception, no record, or the record's XML. */
  datatype CswAnswer = Unreachable(exception: string) | NoRecord | Record(xml: string)

  /** A request sent to the CSW service: opening the connection, or asking for one record. */
  datatype CswRequest = Connect(url: string) | GetRecord(guid: string)

  /** The state a reimport changes: the catalogue, the harvest jobs, the CSW requests and the deleted packages. */
  class Site {
    var catalog: seq<Package>
    var jobs: seq<Job>
    var requests: seq<CswRequest>
    var deleted: seq<string>

    constructor (catalog: seq<Package>)
      ensures this.catalog == catalog && jobs == [] && requests == [] && deleted == []
    {
      this.catalog := catalog;
      jobs := [];
      requests := [];
      deleted := [];
    }
  }

  // -------------------------------------------------------------- pre-flight

  /** The check a package fails: it is missing, not harvested, harvested by another harvester, or has no guid. */
  datatype Step = Missing | NotHarvested | OtherHarvester | NoGuid

  /** A package that passed the checks (the package, its harvester's URL and its FIS-Broker guid), or the check it failed. */
  datatype Check = Passed(package: Package, url: string, guid: string) | Stopped(failed: Step)

  /**
   * The checks on one package id, in order: the package exists, it was
   * harvested, by a FIS-Broker harvester, and it has a guid; the first that
   * fails stops the package.
   */
  function CheckPackage(catalog: seq<Package>, id: string): Check {
    match PackageGet(catalog, id)
    case None => Stopped(Missing)
    case Some(package) =>
      if !DatasetWasHarvested(package) then Stopped(NotHarvested)
      else
        var harvester := HarvesterForPackage(package).value;
        if harvester.sourceType != HARVESTER_ID then Stopped(OtherHarvester)
        else if !Truthy(GuidOf(package.extras)) then Stopped(NoGuid)
        else Passed(package, harvester.url, GuidOf(package.extras).value)
  }

  /** The exception the pre-flight loop raises for a package that fails a check. */
  function StepError(step: Step, id: string): (e: ReimportError)
    ensures e.packageId == Some(id)
    ensures !e.kind.Unexpected? && !e.kind.NoConnection? && !e.kind.NotFoundInFisbroker? && !e.kind.DuringImport?
  {
    match step
    case Missing => PackageIdDoesNotExistError(id)
    case NotHarvested => PackageNotHarvestedError(id)
    case OtherHarvester => PackageNotHarvestedInFisbrokerError(id)
    case NoGuid => NoFisbrokerIdError(id)
  }

  /** A package that passes its checks is the one the id names, and the URL and guid are its own. */
  lemma CheckPassed(catalog: seq<Package>, id: string)
    ensures var c := CheckPackage(catalog, id);
      c.Passed? ==>
        Some(c.package) == PackageGet(catalog, id) && DatasetWasHarvested(c.package)
        && c.url == c.package.harvestSources[0].url && Some(c.guid) == GuidOf(c.package.extras) && c.guid != ""
  {
  }

  /** Each failed check is the first one the package fails, and a package passes exactly when it is a FIS-Broker package with a guid. */
  lemma CheckOrder(catalog: seq<Package>, id: string)
    ensures var c := CheckPackage(catalog, id);
      var p := PackageGet(catalog, id);
      && (c == Stopped(Missing) <==> p.None?)
      && (c == Stopped(NotHarvested) <==> p.Some? && !DatasetWasHarvested(p.value))
      && (c == Stopped(OtherHarvester) <==>
            p.Some? && DatasetWasHarvested(p.value) && p.value.harvestSources[0].sourceType != HARVESTER_ID)
      && (c == Stopped(NoGuid) <==>
            p.Some? && DatasetWasHarvested(p.value) && p.value.harvestSources[0].sourceType == HARVESTER_ID
            && !Truthy(GuidOf(p.value.extras)))
      && (c.Passed? <==> IsFisbrokerPackage(catalog, Some(id)) && Truthy(GuidOf(p.value.extras)))
  {
  }

  /** The `ckan_fb_mapping` dict, in insertion order. */
  type Mapping = seq<(string, string)>

  /** The keys of the mapping. */
  function MappingKeys(m: Mapping): set<string> {
    if m == [] then {} else {m[0].0} + MappingKeys(m[1..])
  }

  /** No key occurs twice, as in a dict. */
  predicate DistinctKeys(m: Mapping) {
    m == [] || (m[0].0 !in MappingKeys(m[1..]) && DistinctKeys(m[1..]))
  }

  /** `m[k] = v`: a new key goes last, a known key keeps its place and takes the new value. */
  function Put(m: Mapping, k: string, v: string): (r: Mapping)
    ensures MappingKeys(r) == MappingKeys(m) + {k}
    ensures DistinctKeys(m) ==> DistinctKeys(r)
    ensures k !in MappingKeys(m) ==> r == m + [(k, v)]
  {
    if m == [] then
      assert [(k, v)][1..] == [];
      [(k, v)]
    else if m[0].0 == k then
      assert ([(k, v)] + m[1..])[1..] == m[1..];
      [(k, v)] + m[1..]
    else
      var rest := Put(m[1..], k, v);
      assert ([m[0]] + rest)[1..] == rest;
      assert k !in MappingKeys(m) ==> [m[0]] + rest == m + [(k, v)] by {
        if k !in MappingKeys(m) {
          assert m == [m[0]] + m[1..];
        }
      }
      [m[0]] + rest
  }

  /** Which key the mapping uses: the package's own id (blueprint.py) or the reference given (controller.py). */
  datatype Keying = ByPackageId | ByReference

  /**
   * The outcome of the pre-flight loop: the last harvester URL and the
   * mapping, or the first id that failed a check and the check it failed.
   */
  datatype Preflight = Cleared(url: Option<string>, mapping: Mapping) | Refused(failed: Step, at: string)

  function KeyOf(keying: Keying, id: string, package: Package): string {
    match keying
    case ByPackageId => package.id
    case ByReference => id
  }

  /** The outcome of each id's checks, in order. */
  function ChecksOf(catalog: seq<Package>, ids: seq<string>): (checks: seq<Check>)
    ensures |checks| == |ids| && forall i :: 0 <= i < |ids| ==> checks[i] == CheckPackage(catalog, ids[i])
  {
    if ids == [] then [] else [CheckPackage(catalog, ids[0])] + ChecksOf(catalog, ids[1..])
  }

  /**
   * The pre-flight loop after the first `n` of the `ids`, whose checks came
   * out as `checks`, stopped at the first package that fails a check.
   */
  function PreflightOver(ids: seq<string>, checks: seq<Check>, n: nat, keying: Keying): Preflight
    requires n <= |ids| == |checks|
  {
    if n == 0 then Cleared(None, [])
    else
      match PreflightOver(ids, checks, n - 1, keying)
      case Refused(step, at) => Refused(step, at)
      case Cleared(_, m) =>
        match checks[n - 1]
        case Stopped(step) => Refused(step, ids[n - 1])
        case Passed(package, url, guid) => Cleared(Some(url), Put(m, KeyOf(keying, ids[n - 1], package), guid))
  }

  /** The pre-flight loop of `reimport_batch` over all of the `ids`. */
  function PreflightOf(catalog: seq<Package>, ids: seq<string>, keying: Keying): Preflight {
    PreflightOver(ids, ChecksOf(catalog, ids), |ids|, keying)
  }

  /** A cleared pre-flight's mapping has no key twice, as a dict. */
  lemma {:induction false} DistinctOver(ids: seq<string>, checks: seq<Check>, n: nat, keying: Keying)
    requires n <= |ids| == |checks| && PreflightOver(ids, checks, n, keying).Cleared?
    ensures DistinctKeys(PreflightOver(ids, checks, n, keying).mapping)
  {
    if n > 0 {
      DistinctOver(ids, checks, n - 1, keying);
    }
  }

  /** A refused pre-flight is refused for the first id that fails its checks; every id before it passes. */
  lemma {:induction false} RefusedOver(ids: seq<string>, checks: seq<Check>, n: nat, keying: Keying)
    requires n <= |ids| == |checks| && PreflightOver(ids, checks, n, keying).Refused?
    ensures var p := PreflightOver(ids, checks, n, keying);
      exists i :: 0 <= i < n && ids[i] == p.at && checks[i] == Stopped(p.failed)
                  && forall j :: 0 <= j < i ==> checks[j].Passed?
  {
    if PreflightOver(ids, checks, n - 1, keying).Refused? {
      RefusedOver(ids, checks, n - 1, keying);
    } else {
      ClearedOver(ids, checks, n - 1, keying);
    }
  }

  /** Once the loop is refused after `k` ids, it stays refused with the same package and check. */
  lemma {:induction false} RefusedStays(ids: seq<string>, checks: seq<Check>, k: nat, n: nat, keying: Keying)
    requires k <= n <= |ids| == |checks| && PreflightOver(ids, checks, k, keying).Refused?
    ensures PreflightOver(ids, checks, n, keying) == PreflightOver(ids, checks, k, keying)
    decreases n - k
  {
    if k < n {
      RefusedStays(ids, checks, k, n - 1, keying);
    }
  }

  /** The keys the first `n` ids give, as far as they pass their checks. */
  function KeysOver(ids: seq<string>, checks: seq<Check>, n: nat, keying: Keying): set<string>
    requires n <= |ids| == |checks|
  {
    if n == 0 then {}
    else
      KeysOver(ids, checks, n - 1, keying)
      + match checks[n - 1]
        case Passed(package, _, _) => {KeyOf(keying, ids[n - 1], package)}
        case Stopped(_) => {}
  }

  /** A cleared pre-flight passed every id, and its mapping has a key for each of them and no other. */
  lemma {:induction false} ClearedOver(ids: seq<string>, checks: seq<Check>, n: nat, keying: Keying)
    requires n <= |ids| == |checks| && PreflightOver(ids, checks, n, keying).Cleared?
    ensures forall i :: 0 <= i < n ==> checks[i].Passed?
    ensures MappingKeys(PreflightOver(ids, checks, n, keying).mapping) == KeysOver(ids, checks, n, keying)
    ensures n != 0 <==> PreflightOver(ids, checks, n, keying).url.Some?
  {
    if n != 0 {
      ClearedOver(ids, checks, n - 1, keying);
    }
  }

  /** The keys the ids give, as far as they pass their checks. */
  function KeysOf(catalog: seq<Package>, ids: seq<string>, keying: Keying): set<string> {
    KeysOver(ids, ChecksOf(catalog, ids), |ids|, keying)
  }

  /**
   * A pre-flight refused at an id stops at the first id that fails its
   * checks, with the check it failed; every id before it passes.
   */
  lemma RefusedAtFirstFailure(catalog: seq<Package>, ids: seq<string>, keying: Keying)
    requires PreflightOf(catalog, ids, keying).Refused?
    ensures var p := PreflightOf(catalog, ids, keying);
      exists i :: 0 <= i < |ids| && ids[i] == p.at && CheckPackage(catalog, ids[i]) == Stopped(p.failed)
                  && forall j :: 0 <= j < i ==> CheckPackage(catalog, ids[j]).Passed?
  {
    RefusedOver(ids, ChecksOf(catalog, ids), |ids|, keying);
  }

  /**
   * A cleared pre-flight passed every id; its mapping has no key twice, a
   * key for each id and no other; it has a harvester URL exactly when there
   * was an id.
   */
  lemma ClearedAllPassed(catalog: seq<Package>, ids: seq<string>, keying: Keying)
    requires PreflightOf(catalog, ids, keying).Cleared?
    ensures var p := PreflightOf(catalog, ids, keying);
      && (forall i :: 0 <= i < |ids| ==> CheckPackage(catalog, ids[i]).Passed?)
      && DistinctKeys(p.mapping) && MappingKeys(p.mapping) == KeysOf(catalog, ids, keying)
      && (ids != [] <==> p.url.Some?)
  {
    var checks := ChecksOf(catalog, ids);
    ClearedOver(ids, checks, |ids|, keying);
    DistinctOver(ids, checks, |ids|, keying);
  }

  /**
   * The checks of the pre-flight loop on one id: the package must exist, be
   * harvested, by a FIS-Broker harvester, and have a guid.
   */
  method CheckOne(catalog: seq<Package>, id: string) returns (c: Check)
    ensures c == CheckPackage(catalog, id)
  {
    var package := PackageGet(catalog, id);
    if package.None? {
      return Stopped(Missing);
    }
    if !DatasetWasHarvested(package.value) {
      return Stopped(NotHarvested);
    }
    var harvester := HarvesterForPackage(package.value).value;
    if harvester.sourceType != HARVESTER_ID {
      return Stopped(OtherHarvester);
    }
    var guid := FisbrokerGuid(package.value.extras);
    if !Truthy(guid) {
      return Stopped(NoGuid);
    }
    return Passed(package.value, harvester.url, guid.value);
  }

  /**
   * The pre-flight loop of `reimport_batch`: the first id that fails its
   * checks raises its error; every other one maps its key to its guid. The
   * harvester URL left over is the last package's.
   */
  method CheckAll(catalog: seq<Package>, ids: seq<string>, keying: Keying) returns (p: Preflight)
    ensures p == PreflightOf(catalog, ids, keying)
  {
    ghost var checks := ChecksOf(catalog, ids);
    var harvesterUrl: Option<string> := None;
    var mapping: Mapping := [];
    var i := 0;
    while i < |ids|
      invariant 0 <= i <= |ids|
      invariant PreflightOver(ids, checks, i, keying) == Cleared(harvesterUrl, mapping)
    {
      var c := CheckOne(catalog, ids[i]);
      assert c == checks[i];
      if c.Stopped? {
        RefusedAt(ids, checks, i, keying);
        return Refused(c.failed, ids[i]);
      }
      PassedAt(ids, checks, i, keying);
      harvesterUrl := Some(c.url);
      mapping := Put(mapping, KeyOf(keying, ids[i], c.package), c.guid);
      i := i + 1;
    }
    return Cleared(harvesterUrl, mapping);
  }

  /** An id that fails its checks after a cleared prefix refuses the whole pre-flight at that id. */
  lemma RefusedAt(ids: seq<string>, checks: seq<Check>, i: nat, keying: Keying)
    requires i < |ids| == |checks| && PreflightOver(ids, checks, i, keying).Cleared? && checks[i].Stopped?
    ensures PreflightOver(ids, checks, |ids|, keying) == Refused(checks[i].failed, ids[i])
  {
    RefusedStays(ids, checks, i + 1, |ids|, keying);
  }

  /** An id that passes its checks after a cleared prefix puts its key and guid into the mapping. */
  lemma PassedAt(ids: seq<string>, checks: seq<Check>, i: nat, keying: Keying)
    requires i < |ids| == |checks| && PreflightOver(ids, checks, i, keying).Cleared? && checks[i].Passed?
    ensures PreflightOver(ids, checks, i + 1, keying)
      == Cleared(Some(checks[i].url),
                 Put(PreflightOver(ids, checks, i, keying).mapping, KeyOf(keying, ids[i], checks[i].package), checks[i].guid))
  {
  }

  /** `_dataset_rejected`: the value of the first extra keyed `error`, if there is one. */
  function DatasetRejected(extras: seq<Extra>): (reason: Option<string>)
    ensures reason.None? <==> forall i :: 0 <= i < |extras| ==> extras[i].key != "error"
    ensures reason.Some? ==>
      exists i :: 0 <= i < |extras| && extras[i] == Extra("error", reason.value)
                  && forall j :: 0 <= j < i ==> extras[j].key != "error"
  {
    if extras == [] then None
    else if extras[0].key == "error" then
      assert extras[0] == Extra("error", extras[0].value);
      Some(extras[0].value)
    else
      var reason := DatasetRejected(extras[1..]);
      assert forall i :: 1 <= i < |extras| ==> extras[i] == extras[1..][i - 1];
      reason
  }

  /** An import that appends an `error` extra to extras that had none is rejected for that reason. */
  lemma {:induction false} AppendedErrorRejects(extras: seq<Extra>, reason: string)
    requires forall i :: 0 <= i < |extras| ==> extras[i].key != "error"
    ensures DatasetRejected(extras + [Extra("error", reason)]) == Some(reason)
  {
    var all := extras + [Extra("error", reason)];
    var found := DatasetRejected(all);
    assert all[|extras|].key == "error";
    var i :| 0 <= i < |all| && all[i] == Extra("error", found.value) && forall j :: 0 <= j < i ==> all[j].key != "error";
    if i < |extras| {
      assert all[i] == extras[i];
    } else {
      assert i == |extras|;
    }
  }

  // --------------------------------------------------------------- responses

  /** The `error` dict of a response: a message and its code. */
  datatype ErrorBody = ErrorBody(message: string, code: int)

  /** The `success` field: a boolean, or the string "False" the API checks write. */
  datatype SuccessField = Flag(value: bool) | FlagText(text: string)

  /** A JSON response: HTTP status, `success`, `message`, `error` and `package_id` when present. */
  datatype Response = Response(status: int, success: SuccessField, message: Option<string>, error: Option<ErrorBody>,
                               packageId: Option<string>)

  /** How a reimport request ends: with a response, or with an exception that escapes it. */
  datatype Reply = Answered(response: Response) | Escaped(failure: Failure)

  /** `get_error_dict(code)` as a response carries it: the template text, unformatted. */
  function ErrorBodyOf(code: int): (e: ErrorBody)
    requires code in ERROR_CODES
    ensures e.code == code && GetErrorDict(code).Ok?
  {
    ErrorBody(TemplateText(ErrorMessage(code).value), code)
  }

  /** `get_error_dict(code)` with its message formatted with `args`. */
  function FormattedError(code: int, args: seq<string>): (e: ErrorBody)
    requires code in ERROR_CODES && |args| >= Fields(ErrorMessage(code).value)
    ensures e.code == code && Fill(ErrorMessage(code).value, args) == Ok(e.message)
  {
    ErrorBody(Message(code, args), code)
  }

  /**
   * What an error handler of a reimport action puts in its response: the
   * HTTP status, the code of the error body and, when the handler formats
   * the code's message, the arguments it formats it with.
   */
  datatype Handling = Handling(status: int, code: int, args: Option<seq<string>>)

  /** A handling that names a known code and formats its message with enough arguments. */
  predicate Handles(h: Handling) {
    h.code in ERROR_CODES && (h.args.Some? ==> |h.args.value| >= Fields(ErrorMessage(h.code).value))
  }

  /** The error body a handling puts in its response: the code's message, formatted or as written. */
  function HandledError(h: Handling): (e: ErrorBody)
    requires Handles(h)
    ensures e.code == h.code
    ensures h.args.None? ==> e == ErrorBodyOf(h.code)
    ensures h.args.Some? ==> e == FormattedError(h.code, h.args.value)
  {
    if h.args.None? then ErrorBodyOf(h.code) else FormattedError(h.code, h.args.value)
  }

  /** The response of a request the API checks refuse. */
  function Refusal(code: int): Response
    requires code in ERROR_CODES
  {
    Response(400, FlagText("False"), None, Some(ErrorBodyOf(code)), None)
  }

  /** The message of a successful reimport. */
  const REIMPORTED := "Package was successfully re-imported."
}
