/**
 * The reimport actions of controller.py, the Pylons controller that came
 * before blueprint.py: the API entry point with its own test of the Accept
 * header, a `reimport_batch` that only asks the service for each record,
 * and a `reimport` that runs its own ladder of checks on one package and
 * imports the record itself.
 */
module Controller {
  import opened Wrappers
  import opened Helper
  import opened Exceptions
  import opened Reimport
  import Blueprint

  // ------------------------------------------------------------------ API

  /**
   * `accepts_json(accept)`: some parsed entry of the Accept header has the
   * media type `application/json`. `accept` holds the media types of
   * `_parsed_nonzero`, or is `None` when the header object has no such
   * attribute.
   */
  method AcceptsJson(accept: Option<seq<string>>) returns (r: bool)
    ensures r <==> accept.Some? && "application/json" in accept.value
  {
    if accept.Some? {
      var entries := accept.value;
      for i := 0 to |entries|
        invariant "application/json" !in entries[..i]
      {
        if entries[i] == "application/json" {
          return true;
        }
      }
    }
    return false;
  }

  // --------------------------------------------------------------- reimport

  /** The extras the object `reimport` saves starts with. */
  const CHANGE_EXTRAS := [Extra("status", "change")]

  /**
   * How `reimport` ends: a failed check, an unreachable service, a record
   * the service does not have, a rejection by the import, an exception of
   * the import, which `reimport` does not catch, or success.
   */
  datatype Answer =
    | CheckStopped(failed: Step)
    | ServiceDown(url: string, exception: string)
    | RecordAbsent(guid: string)
    | ImportFailed(reason: string)
    | ImportRaised(cause: Error)
    | Reimported

  /** How `reimport` ends, the job it created (if it got that far) and the CSW requests it sent. */
  datatype Outcome = Outcome(answer: Answer, job: Option<Job>, requests: seq<CswRequest>)

  /**
   * `reimport(package_id)`: the checks on the package, in order; then a
   * connection to its harvester's service and a request for its record. A
   * record is saved as a harvest object of a new, finished job for the
   * package's own harvest source and imported, which may reject it; the
   * job is finished unless the import raised.
   */
  function ReimportOf(catalog: seq<Package>, packageId: string, connect: string -> Option<string>,
                      fetch: string -> CswAnswer, forceImport: ForcedImport): Outcome
  {
    match CheckPackage(catalog, packageId)
    case Stopped(failed) => Outcome(CheckStopped(failed), None, [])
    case Passed(package, url, guid) =>
      match connect(url)
      case Some(exception) => Outcome(ServiceDown(url, exception), None, [Connect(url)])
      case None =>
        var requests := [Connect(url), GetRecord(guid)];
        match fetch(guid)
        case Unreachable(exception) => Outcome(ServiceDown(url, exception), None, requests)
        case NoRecord => Outcome(RecordAbsent(guid), None, requests)
        case Record(xml) =>
          var saved := ReimportObject(guid, xml, packageId, CHANGE_EXTRAS);
          var sourceId := HarvesterForPackage(package).value.id;
          match forceImport(saved)
          case Err(cause) => Outcome(ImportRaised(cause), Some(Job(sourceId, [saved], false)), requests)
          case Ok(extras) =>
            var imported := saved.(extras := extras);
            var rejection := DatasetRejected(imported.extras);
            Outcome(if Truthy(rejection) then ImportFailed(rejection.value) else Reimported,
                    Some(Job(sourceId, [imported], true)), requests)
  }

  /** An error response of `reimport`, which always names the package. */
  function Failed(status: int, body: ErrorBody, packageId: string): Response {
    Response(status, Flag(false), None, Some(body), Some(packageId))
  }

  /**
   * The status, code and format arguments `reimport` answers each failed
   * ending with: 404, 422 or 500 for a failed check, 500 with the
   * exception's class name for an unreachable service, 404 for a missing
   * record, and 200 for a rejection by the import.
   */
  function HandlingFor(packageId: string, answer: Answer): (h: Option<Handling>)
    ensures h.Some? <==> !answer.Reimported? && !answer.ImportRaised?
    ensures h.Some? ==> Handles(h.value)
  {
    match answer
    case CheckStopped(Missing) => Some(Handling(404, ERROR_NOT_FOUND_IN_CKAN, Some([packageId])))
    case CheckStopped(NotHarvested) => Some(Handling(422, ERROR_NOT_HARVESTED, None))
    case CheckStopped(OtherHarvester) => Some(Handling(422, ERROR_NOT_HARVESTED_BY_FISBROKER, None))
    case CheckStopped(NoGuid) => Some(Handling(500, ERROR_NO_GUID, None))
    case ServiceDown(url, exception) => Some(Handling(500, ERROR_NO_CONNECTION, Some([url, exception])))
    case RecordAbsent(guid) => Some(Handling(404, ERROR_NOT_FOUND_IN_FISBROKER, Some([guid])))
    case ImportFailed(reason) => Some(Handling(200, ERROR_DURING_IMPORT, Some([reason])))
    case ImportRaised(_) => None
    case Reimported => None
  }

  /**
   * The response `reimport` builds for each ending: the success message
   * with status 200, or the error body of the ending's handling; an
   * exception of the import escapes instead.
   */
  function ResponseFor(packageId: string, answer: Answer): (r: Reply)
    ensures r.Escaped? <==> answer.ImportRaised?
    ensures r.Escaped? ==> r.failure == Python(answer.cause)
    ensures r.Answered? ==> r.response.packageId == Some(packageId)
    ensures r.Answered? ==> r.response.status == match answer
      case CheckStopped(Missing) => 404
      case CheckStopped(NoGuid) => 500
      case CheckStopped(_) => 422
      case ServiceDown(_, _) => 500
      case RecordAbsent(_) => 404
      case _ => 200
    ensures r.Answered? && r.response.success == Flag(true) <==> answer.Reimported?
    ensures r.Answered? ==> (r.response.error.Some? <==> !answer.Reimported?)
  {
    if answer.ImportRaised? then Escaped(Python(answer.cause))
    else match HandlingFor(packageId, answer)
      case None => Answered(Response(200, Flag(true), Some(REIMPORTED), None, Some(packageId)))
      case Some(h) => Answered(Failed(h.status, HandledError(h), packageId))
  }

  /**
   * `reimport` succeeds exactly when the package passes its checks, its
   * service answers with a record, and the import returns, leaving no
   * reason for rejecting it; it raises exactly when the import does. It
   * records a job exactly when a record came back, and that job holds the
   * record for the package's guid, under the package's own harvest source,
   * and is finished exactly when the import returned.
   */
  lemma ReimportSucceeds(catalog: seq<Package>, packageId: string, connect: string -> Option<string>,
                         fetch: string -> CswAnswer, forceImport: ForcedImport)
    ensures var o := ReimportOf(catalog, packageId, connect, fetch, forceImport);
      var c := CheckPackage(catalog, packageId);
      && (o.answer.Reimported? <==>
            && c.Passed? && connect(c.url).None? && fetch(c.guid).Record?
            && var imported := forceImport(ReimportObject(c.guid, fetch(c.guid).xml, packageId, CHANGE_EXTRAS));
               imported.Ok? && !Truthy(DatasetRejected(imported.value)))
      && (o.answer.ImportRaised? <==>
            && c.Passed? && connect(c.url).None? && fetch(c.guid).Record?
            && forceImport(ReimportObject(c.guid, fetch(c.guid).xml, packageId, CHANGE_EXTRAS)).Err?)
      && (o.job.Some? <==> c.Passed? && connect(c.url).None? && fetch(c.guid).Record?)
      && (o.job.Some? ==>
            && (o.job.value.finished <==> !o.answer.ImportRaised?) && |o.job.value.objects| == 1
            && o.job.value.sourceId == c.package.harvestSources[0].id
            && o.job.value.objects[0].guid == c.guid && o.job.value.objects[0].packageId == packageId
            && o.job.value.objects[0].content == fetch(c.guid).xml)
  {
    CheckPassed(catalog, packageId);
  }

  /**
   * `reimport` on a Site: answers with the response of the ending
   * `ReimportOf` gives (or lets the import's exception escape), records
   * the job it created and the requests it sent, and changes nothing else.
   */
  method ReimportPackage(site: Site, packageId: string, connect: string -> Option<string>,
                         fetch: string -> CswAnswer, forceImport: ForcedImport)
    returns (reply: Reply)
    modifies site
    ensures var o := ReimportOf(old(site.catalog), packageId, connect, fetch, forceImport);
      && reply == ResponseFor(packageId, o.answer)
      && site.jobs == old(site.jobs) + (if o.job.Some? then [o.job.value] else [])
      && site.requests == old(site.requests) + o.requests
    ensures site.catalog == old(site.catalog) && site.deleted == old(site.deleted)
  {
    var answer: Answer;
    var c := CheckOne(site.catalog, packageId);
    if c.Stopped? {
      answer := CheckStopped(c.failed);
    } else {
      var url, guid := c.url, c.guid;
      site.requests := site.requests + [Connect(url)];
      var exception := connect(url);
      if exception.Some? {
        answer := ServiceDown(url, exception.value);
      } else {
        site.requests := site.requests + [GetRecord(guid)];
        var record := fetch(guid);
        if record.Unreachable? {
          answer := ServiceDown(url, record.exception);
        } else if record.NoRecord? {
          answer := RecordAbsent(guid);
        } else {
          var obj := ReimportObject(guid, record.xml, packageId, CHANGE_EXTRAS);
          var job := Job(HarvesterForPackage(c.package).value.id, [obj], false);
          var imported := forceImport(obj);
          if imported.Err? {
            answer := ImportRaised(imported.error);
          } else {
            obj := obj.(extras := imported.value);
            var rejection := DatasetRejected(obj.extras);
            answer := if Truthy(rejection) then ImportFailed(rejection.value) else Reimported;
            job := job.(objects := [obj], finished := true);
          }
          site.jobs := site.jobs + [job];
        }
      }
    }
    reply := ResponseFor(packageId, answer);
  }

  /**
   * `reimport_api`: the same two refusals as blueprint.py's entry point,
   * with the controller's own Accept test, then `reimport`.
   */
  method ReimportApi(site: Site, accept: Option<seq<string>>, id: Option<string>, connect: string -> Option<string>,
                     fetch: string -> CswAnswer, forceImport: ForcedImport)
    returns (reply: Reply)
    modifies site
    ensures var check := Blueprint.ApiChecks(accept.Some? && "application/json" in accept.value, id);
      && (check.Rejected? ==> reply == Answered(check.response) && unchanged(site))
      && (check.Proceed? ==>
            var o := ReimportOf(old(site.catalog), check.packageId, connect, fetch, forceImport);
            && reply == ResponseFor(check.packageId, o.answer)
            && site.jobs == old(site.jobs) + (if o.job.Some? then [o.job.value] else [])
            && site.requests == old(site.requests) + o.requests
            && site.catalog == old(site.catalog) && site.deleted == old(site.deleted))
  {
    var json := AcceptsJson(accept);
    var check := Blueprint.ApiChecks(json, id);
    if check.Rejected? {
      return Answered(check.response);
    }
    reply := ReimportPackage(site, check.packageId, connect, fetch, forceImport);
  }

  /**
   * A package refused by its checks gets the same response from both
   * implementations of `reimport`, whatever the FIS-Broker source.
   */
  lemma RefusedAlike(catalog: seq<Package>, packageId: string, source: Option<HarvestSource>,
                     connect: string -> Option<string>, fetch: string -> CswAnswer,
                     forceImport: ForcedImport)
    requires CheckPackage(catalog, packageId).Stopped?
    ensures var b := Blueprint.BatchOf(catalog, [packageId], source, connect, fetch, forceImport);
      Blueprint.ResponseAsWritten(packageId, Blueprint.BatchResult(b.end))
        == ResponseFor(packageId, ReimportOf(catalog, packageId, connect, fetch, forceImport).answer)
  {
    var p := PreflightOf(catalog, [packageId], ByPackageId);
    var checks := ChecksOf(catalog, [packageId]);
    assert PreflightOver([packageId], checks, 0, ByPackageId) == Cleared(None, []);
    var failed := CheckPackage(catalog, packageId).failed;
    assert p == Refused(failed, packageId);
    assert ReimportOf(catalog, packageId, connect, fetch, forceImport).answer == CheckStopped(failed);
    StoppedAlike(packageId, failed);
  }

  /** Both implementations answer a failed check alike. */
  lemma StoppedAlike(packageId: string, failed: Step)
    ensures Blueprint.ResponseAsWritten(packageId, Blueprint.BatchResult(Blueprint.Halted(Blueprint.CheckFailed(failed, packageId))))
      == ResponseFor(packageId, CheckStopped(failed))
  {
    Blueprint.RefusalResponse(packageId, failed, packageId);
  }

  /**
   * A package whose record the service does not have gets the same 404 from
   * both implementations, when blueprint.py has a FIS-Broker source.
   */
  lemma MissingRecordAlike(catalog: seq<Package>, packageId: string, source: HarvestSource,
                           connect: string -> Option<string>, fetch: string -> CswAnswer,
                           forceImport: ForcedImport)
    requires CheckPackage(catalog, packageId).Passed?
    requires connect(CheckPackage(catalog, packageId).url).None? && fetch(CheckPackage(catalog, packageId).guid).NoRecord?
    ensures var b := Blueprint.BatchOf(catalog, [packageId], Some(source), connect, fetch, forceImport);
      var r := ResponseFor(packageId, ReimportOf(catalog, packageId, connect, fetch, forceImport).answer);
      && r.Answered? && r.response.status == 404
      && Blueprint.ResponseAsWritten(packageId, Blueprint.BatchResult(b.end)) == r
  {
    var c := CheckPackage(catalog, packageId);
    var checks := ChecksOf(catalog, [packageId]);
    assert PreflightOver([packageId], checks, 0, ByPackageId) == Cleared(None, []);
    var m := [(c.package.id, c.guid)];
    assert PreflightOf(catalog, [packageId], ByPackageId) == Cleared(Some(c.url), m);
    assert Blueprint.RunOver(m, Blueprint.VisitsOf(m, fetch, forceImport), 0, c.url) == Blueprint.Run([], [], [], None);
    var b := Blueprint.BatchOf(catalog, [packageId], Some(source), connect, fetch, forceImport);
    assert b.end == Blueprint.Halted(Blueprint.RecordMissing(c.package.id, c.guid));
    assert ReimportOf(catalog, packageId, connect, fetch, forceImport).answer == RecordAbsent(c.guid);
    RecordAbsentAlike(packageId, c.package.id, c.guid);
  }

  /** Both implementations answer a missing record with the same 404. */
  lemma RecordAbsentAlike(packageId: string, key: string, guid: string)
    ensures var r := ResponseFor(packageId, RecordAbsent(guid));
      && r.Answered? && r.response.status == 404
      && Blueprint.ResponseAsWritten(packageId, Blueprint.BatchResult(Blueprint.Halted(Blueprint.RecordMissing(key, guid)))) == r
  {
    Blueprint.MissingRecordResponse(packageId, key, guid);
  }

  /**
   * The two implementations differ on an unreachable service: blueprint.py
   * as written raises instead of answering; corrected, it answers with the
   * same status and code, but names the `NoConnectionError` it raised
   * where controller.py names the exception the request raised.
   */
  lemma ServiceDownDiffers(packageId: string, url: string, exception: string)
    ensures var r := ResponseFor(packageId, ServiceDown(url, exception)).response;
      var b := Blueprint.ResponseOf(packageId, Blueprint.BatchResult(Blueprint.Halted(Blueprint.ConnectFailed(url, exception))));
      && Blueprint.ResponseAsWritten(packageId, Blueprint.BatchResult(Blueprint.Halted(Blueprint.ConnectFailed(url, exception)))).Escaped?
      && b.Answered? && b.response.status == r.status == 500
      && b.response.error.value.code == r.error.value.code == ERROR_NO_CONNECTION
      && r.error.value.message == Message(ERROR_NO_CONNECTION, [url, exception])
      && b.response.error.value.message == Message(ERROR_NO_CONNECTION, [url, "NoConnectionError"])
  {
    Blueprint.NoConnectionEscapes(packageId, url, exception);
    assert HandlingFor(packageId, ServiceDown(url, exception)) == Some(Handling(500, ERROR_NO_CONNECTION, Some([url, exception])));
  }

  /**
   * An exception of the forced import escapes both implementations of
   * `reimport` unchanged: neither catches anything but its own errors and
   * `RequestException`.
   */
  lemma ImportRaisedAlike(packageId: string, key: string, cause: Error)
    ensures Blueprint.ResponseAsWritten(packageId, Blueprint.BatchResult(Blueprint.Halted(Blueprint.ImportRaised(key, cause))))
      == ResponseFor(packageId, ImportRaised(cause)) == Escaped(Python(cause))
  {
  }

  /**
   * The two implementations differ on a rejection by the import: both
   * answer 200 with code 11, and blueprint.py appends the deactivation
   * notice to the same message.
   */
  lemma RejectionDiffers(packageId: string, key: string, reason: string)
    ensures var r := ResponseFor(packageId, ImportFailed(reason)).response;
      var b := Blueprint.ResponseAsWritten(packageId, Blueprint.BatchResult(Blueprint.Halted(Blueprint.ImportRejected(key, reason))));
      && b.Answered? && b.response.status == r.status == 200
      && b.response.success == r.success == Flag(false)
      && b.response.error.value.code == r.error.value.code == ERROR_DURING_IMPORT
      && b.response.error.value.message == r.error.value.message + Blueprint.DEACTIVATED
  {
    var e := FBImportError(Some(key), reason);
    assert Blueprint.Raised(Blueprint.ImportRejected(key, reason)) == Reimport(e);
    Blueprint.RejectedResponse(packageId, key, reason);
  }

  // ------------------------------------------------------------------ batch

  /** `NoFBHarvesterDefined`'s message when the source has no id. */
  const NO_SOURCE_ID_MESSAGE := "FIS-Broker harvester found, but no id defined."

  /**
   * Why the controller's `reimport_batch` stopped: a failed pre-flight
   * check, no FIS-Broker source, a source without an id, no ids to take a
   * harvester URL from, or an unreachable service (while connecting, or
   * while asking for a package's record).
   */
  datatype BatchHalt =
    | PreflightFailed(failed: Step, at: string)
    | NoSource
    | SourceWithoutId
    | NoUrl
    | ServiceLost(packageId: Option<string>, url: string, exception: string)

  /** The exception the controller's `reimport_batch` raises for each halt. */
  function BatchRaised(h: BatchHalt): (f: Failure)
    ensures f.Reimport? <==> h.PreflightFailed? || h.ServiceLost?
    ensures f.NoFBHarvesterDefined? <==> h.NoSource? || h.SourceWithoutId?
  {
    match h
    case PreflightFailed(failed, at) => Reimport(StepError(failed, at))
    case NoSource => NoFBHarvesterDefined(NO_FB_HARVESTER_MESSAGE)
    case SourceWithoutId => NoFBHarvesterDefined(NO_SOURCE_ID_MESSAGE)
    case NoUrl => Python(NameError("harvester_url"))
    case ServiceLost(packageId, url, exception) => Reimport(NoConnectionError(packageId, url, exception))
  }

  /** The requests the CSW loop has sent so far, and what stopped it, if anything did. */
  datatype Sweep = Sweep(requests: seq<CswRequest>, halt: Option<BatchHalt>)

  /**
   * The CSW loop after the first `n` entries of the mapping: ask for each
   * guid's record, ignore the answer, and stop when the service cannot be
   * reached.
   */
  function SweepOf(mapping: Mapping, n: nat, url: string, fetch: string -> CswAnswer): Sweep
    requires n <= |mapping|
  {
    if n == 0 then Sweep([], None)
    else
      var sweep := SweepOf(mapping, n - 1, url, fetch);
      if sweep.halt.Some? then sweep
      else
        var (packageId, guid) := mapping[n - 1];
        var requests := sweep.requests + [GetRecord(guid)];
        match fetch(guid)
        case Unreachable(exception) => Sweep(requests, Some(ServiceLost(Some(packageId), url, exception)))
        case _ => Sweep(requests, None)
  }

  /**
   * The loop asks for the records in the mapping's order; it finishes
   * exactly when the service answered every request, a missing record
   * included, and otherwise stops at the first unreachable request, naming
   * its package.
   */
  lemma {:induction false} SweepRequests(mapping: Mapping, n: nat, url: string, fetch: string -> CswAnswer)
    requires n <= |mapping|
    ensures var s := SweepOf(mapping, n, url, fetch);
      && |s.requests| <= n
      && (forall j :: 0 <= j < |s.requests| ==> s.requests[j] == GetRecord(mapping[j].1))
      && (s.halt.None? <==> forall j :: 0 <= j < n ==> !fetch(mapping[j].1).Unreachable?)
      && (s.halt.None? ==> |s.requests| == n)
      && (s.halt.Some? ==>
            var last := |s.requests| - 1;
            && 0 <= last && fetch(mapping[last].1).Unreachable?
            && s.halt.value == ServiceLost(Some(mapping[last].0), url, fetch(mapping[last].1).exception)
            && forall j :: 0 <= j < last ==> !fetch(mapping[j].1).Unreachable?)
  {
    if n > 0 {
      SweepRequests(mapping, n - 1, url, fetch);
    }
  }

  /** Once the loop has stopped, later entries change nothing. */
  lemma {:induction false} SweepStays(mapping: Mapping, k: nat, n: nat, url: string, fetch: string -> CswAnswer)
    requires k <= n <= |mapping| && SweepOf(mapping, k, url, fetch).halt.Some?
    ensures SweepOf(mapping, n, url, fetch) == SweepOf(mapping, k, url, fetch)
    decreases n - k
  {
    if k < n {
      assert SweepOf(mapping, k + 1, url, fetch) == SweepOf(mapping, k, url, fetch);
      SweepStays(mapping, k + 1, n, url, fetch);
    }
  }

  /** The CSW loop of the controller's `reimport_batch`. */
  method FetchAll(mapping: Mapping, url: string, fetch: string -> CswAnswer) returns (sweep: Sweep)
    ensures sweep == SweepOf(mapping, |mapping|, url, fetch)
  {
    sweep := Sweep([], None);
    var i := 0;
    while i < |mapping|
      invariant 0 <= i <= |mapping|
      invariant sweep == SweepOf(mapping, i, url, fetch) && sweep.halt.None?
    {
      var (packageId, guid) := mapping[i];
      sweep := sweep.(requests := sweep.requests + [GetRecord(guid)]);
      var answer := fetch(guid);
      if answer.Unreachable? {
        sweep := sweep.(halt := Some(ServiceLost(Some(packageId), url, answer.exception)));
        SweepStays(mapping, i + 1, |mapping|, url, fetch);
        return;
      }
      i := i + 1;
    }
  }

  /** What the controller's `reimport_batch` did: what stopped it (if anything), the job it created and the requests it sent. */
  datatype BatchRun = BatchRun(halt: Option<BatchHalt>, job: Option<Job>, requests: seq<CswRequest>)

  /**
   * The controller's `reimport_batch(package_ids)`: the pre-flight checks,
   * keyed by the ids as given; a FIS-Broker source with an id, which the
   * new job takes; a connection to the last package's harvester URL; then
   * one request per package, the answers ignored. The job is finished only
   * when nothing stopped the batch, and it never holds an object.
   */
  function BatchOf(catalog: seq<Package>, ids: seq<string>, source: Option<HarvestSource>,
                   connect: string -> Option<string>, fetch: string -> CswAnswer): (o: BatchRun)
    ensures o.job.Some? ==> o.job.value.objects == [] && (o.job.value.finished <==> o.halt.None?)
    ensures o.halt.None? ==> o.job.Some?
  {
    match PreflightOf(catalog, ids, ByReference)
    case Refused(step, at) => BatchRun(Some(PreflightFailed(step, at)), None, [])
    case Cleared(harvesterUrl, mapping) =>
      if source.None? then BatchRun(Some(NoSource), None, [])
      else if !Truthy(source.value.id) then BatchRun(Some(SourceWithoutId), None, [])
      else
        var job := Job(source.value.id, [], false);
        if harvesterUrl.None? then BatchRun(Some(NoUrl), Some(job), [])
        else
          var url := harvesterUrl.value;
          match connect(url)
          case Some(exception) => BatchRun(Some(ServiceLost(None, url, exception)), Some(job), [Connect(url)])
          case None =>
            var sweep := SweepOf(mapping, |mapping|, url, fetch);
            BatchRun(sweep.halt, Some(job.(finished := sweep.halt.None?)), [Connect(url)] + sweep.requests)
  }

  /**
   * The controller's batch finishes exactly when every id passes its
   * checks, there is a FIS-Broker source with an id, there is at least one
   * id, and the service answers the connection and every request; records
   * the service does not have do not stop it. It then asked for one record
   * per distinct id, in order, under the ids as given.
   */
  lemma BatchFinishes(catalog: seq<Package>, ids: seq<string>, source: Option<HarvestSource>,
                      connect: string -> Option<string>, fetch: string -> CswAnswer)
    ensures var o := BatchOf(catalog, ids, source, connect, fetch);
      var p := PreflightOf(catalog, ids, ByReference);
      && (o.halt.None? <==>
            && p.Cleared? && source.Some? && Truthy(source.value.id) && ids != []
            && connect(p.url.value).None?
            && forall j :: 0 <= j < |p.mapping| ==> !fetch(p.mapping[j].1).Unreachable?)
      && (o.halt.None? ==>
            && (forall i :: 0 <= i < |ids| ==> CheckPackage(catalog, ids[i]).Passed?)
            && MappingKeys(p.mapping) == KeysOf(catalog, ids, ByReference)
            && |o.requests| == 1 + |p.mapping| && o.requests[0] == Connect(p.url.value)
            && forall j :: 0 <= j < |p.mapping| ==> o.requests[j + 1] == GetRecord(p.mapping[j].1))
  {
    var p := PreflightOf(catalog, ids, ByReference);
    if p.Cleared? {
      ClearedAllPassed(catalog, ids, ByReference);
      if p.url.Some? {
        SweepRequests(p.mapping, |p.mapping|, p.url.value, fetch);
      }
    }
  }

  /**
   * A batch refused by its pre-flight checks raises the error of the first
   * id that fails them, before any job or request.
   */
  lemma BatchRefused(catalog: seq<Package>, ids: seq<string>, source: Option<HarvestSource>,
                     connect: string -> Option<string>, fetch: string -> CswAnswer)
    requires PreflightOf(catalog, ids, ByReference).Refused?
    ensures var o := BatchOf(catalog, ids, source, connect, fetch);
      && o.job.None? && o.requests == []
      && exists i :: 0 <= i < |ids| && CheckPackage(catalog, ids[i]).Stopped?
                     && o.halt == Some(PreflightFailed(CheckPackage(catalog, ids[i]).failed, ids[i]))
                     && forall j :: 0 <= j < i ==> CheckPackage(catalog, ids[j]).Passed?
  {
    RefusedAtFirstFailure(catalog, ids, ByReference);
  }

  /**
   * The controller's `reimport_batch` on a Site: records the job it created
   * and the requests it sent, returns what stopped it (`None` when it
   * finished), and changes nothing else.
   */
  method ReimportBatch(site: Site, ids: seq<string>, source: Option<HarvestSource>,
                       connect: string -> Option<string>, fetch: string -> CswAnswer) returns (halt: Option<BatchHalt>)
    modifies site
    ensures var o := BatchOf(old(site.catalog), ids, source, connect, fetch);
      && halt == o.halt
      && site.jobs == old(site.jobs) + (if o.job.Some? then [o.job.value] else [])
      && site.requests == old(site.requests) + o.requests
    ensures site.catalog == old(site.catalog) && site.deleted == old(site.deleted)
  {
    var p := CheckAll(site.catalog, ids, ByReference);
    var job: Option<Job> := None;
    var sent: seq<CswRequest> := [];
    if p.Refused? {
      halt := Some(PreflightFailed(p.failed, p.at));
    } else if source.None? {
      halt := Some(NoSource);
    } else if !Truthy(source.value.id) {
      halt := Some(SourceWithoutId);
    } else {
      var created := Job(source.value.id, [], false);
      job := Some(created);
      if p.url.None? {
        halt := Some(NoUrl);
      } else {
        var url := p.url.value;
        sent := [Connect(url)];
        var exception := connect(url);
        if exception.Some? {
          halt := Some(ServiceLost(None, url, exception.value));
        } else {
          var sweep := FetchAll(p.mapping, url, fetch);
          sent := sent + sweep.requests;
          halt := sweep.halt;
          job := Some(created.(finished := halt.None?));
        }
      }
    }
    if job.Some? {
      site.jobs := site.jobs + [job.value];
    }
    site.requests := site.requests + sent;
  }
}
