/**
 * The reimport actions of blueprint.py: the API entry point's checks,
 * `reimport_batch` (pre-flight checks, a harvest job, one CSW request and
 * one forced import per package) and `reimport`, which turns the outcome
 * of a batch of one into a JSON response.
 */
module Blueprint {
  import opened Wrappers
  import opened Helper
  import opened Exceptions
  import opened Reimport

  // ------------------------------------------------------------------ API

  /** What `reimport_through_api` does with a request: answer it at once, or reimport a package. */
  datatype ApiCheck = Rejected(response: Response) | Proceed(packageId: string)

  /**
   * `reimport_through_api`: a client that does not accept JSON is refused
   * with code 2, then a missing or empty `id` with code 3; anything else is
   * handed to `reimport`.
   */
  function ApiChecks(acceptJson: bool, id: Option<string>): (r: ApiCheck)
    ensures r.Proceed? <==> acceptJson && Truthy(id)
    ensures r.Proceed? ==> id == Some(r.packageId)
    ensures r.Rejected? ==>
      && r.response.status == 400 && r.response.success == FlagText("False")
      && r.response.error.Some? && r.response.packageId.None?
      && r.response.error.value.code == (if acceptJson then ERROR_MISSING_ID else ERROR_WRONG_CONTENT_TYPE)
  {
    if !acceptJson then Rejected(Refusal(ERROR_WRONG_CONTENT_TYPE))
    else if !Truthy(id) then Rejected(Refusal(ERROR_MISSING_ID))
    else Proceed(id.value)
  }

  // ------------------------------------------------------------ CSW loop

  /** The extras every object a reimport saves starts with. */
  const REIMPORT_EXTRAS := [Extra("status", "change"), Extra("type", "reimport")]

  /**
   * Why a batch stopped before finishing its job: a package failed a
   * pre-flight check, there is no FIS-Broker source, there were no ids to
   * take a harvester URL from, the service could not be reached (before the
   * loop or while asking for a package's record), a record was missing,
   * the import rejected a package, or the import raised an exception, which
   * no `except` of `reimport_batch` catches.
   */
  datatype Halt =
    | CheckFailed(failed: Step, at: string)
    | NoSource
    | NoUrl
    | ConnectFailed(url: string, exception: string)
    | FetchFailed(packageId: string, url: string, exception: string)
    | RecordMissing(packageId: string, guid: string)
    | ImportRejected(packageId: string, reason: string)
    | ImportRaised(packageId: string, cause: Error)

  /** The exception `reimport_batch` raises for each halt. */
  function Raised(h: Halt): (f: Failure)
    ensures f.Reimport? <==> !h.NoSource? && !h.NoUrl? && !h.ImportRaised?
    ensures h.ImportRaised? ==> f == Python(h.cause)
    ensures f.Reimport? && f.error.kind.NoConnection? <==> LostService(h)
  {
    match h
    case CheckFailed(failed, at) => Reimport(StepError(failed, at))
    case NoSource => NoFBHarvesterDefined(NO_FB_HARVESTER_MESSAGE)
    case NoUrl => Python(NameError("harvester_url"))
    case ConnectFailed(url, exception) => Reimport(NoConnectionError(None, url, exception))
    case FetchFailed(packageId, url, exception) => Reimport(NoConnectionError(Some(packageId), url, exception))
    case RecordMissing(packageId, guid) => Reimport(NotFoundInFisbrokerError(Some(packageId), guid))
    case ImportRejected(packageId, reason) => Reimport(FBImportError(Some(packageId), reason))
    case ImportRaised(_, cause) => Python(cause)
  }

  /**
   * The CSW loop so far: the objects saved (with the extras the import left
   * on them), the records asked for, the records imported by package id,
   * and what stopped the loop, if anything did.
   */
  datatype Run = Run(objects: seq<ReimportObject>, requests: seq<CswRequest>, records: Mapping, halt: Option<Halt>)

  /**
   * What asking for one entry's record comes to: the service was
   * unreachable, it had no record, or the record was saved as a harvest
   * object and imported, leaving the object's extras and the import's
   * reason for rejecting it, if any, or raising an exception, which leaves
   * the object as it was saved.
   */
  datatype Visit =
    | Down(exception: string)
    | Absent
    | Saved(obj: ReimportObject, rejection: Option<string>)
    | Crashed(obj: ReimportObject, cause: Error)

  /**
   * One entry's visit: the record is saved with the reimport extras for
   * the package and guid, and `force_import` replaces the extras.
   */
  function VisitOf(packageId: string, guid: string, fetch: string -> CswAnswer,
                   forceImport: ForcedImport): (v: Visit)
    ensures v.Down? <==> fetch(guid).Unreachable?
    ensures v.Absent? <==> fetch(guid).NoRecord?
    ensures v.Saved? || v.Crashed? ==>
      && fetch(guid) == Record(v.obj.content) && v.obj.guid == guid && v.obj.packageId == packageId
    ensures v.Saved? ==>
      && forceImport(v.obj.(extras := REIMPORT_EXTRAS)) == Ok(v.obj.extras)
      && v.rejection == DatasetRejected(v.obj.extras)
    ensures v.Crashed? ==> v.obj.extras == REIMPORT_EXTRAS && forceImport(v.obj) == Err(v.cause)
  {
    match fetch(guid)
    case Unreachable(exception) => Down(exception)
    case NoRecord => Absent
    case Record(xml) =>
      var saved := ReimportObject(guid, xml, packageId, REIMPORT_EXTRAS);
      match forceImport(saved)
      case Err(cause) => Crashed(saved, cause)
      case Ok(extras) =>
        var imported := saved.(extras := extras);
        Saved(imported, DatasetRejected(imported.extras))
  }

  /** The visit of every entry of the mapping, in its order. */
  function VisitsOf(mapping: Mapping, fetch: string -> CswAnswer,
                    forceImport: ForcedImport): (visits: seq<Visit>)
    ensures |visits| == |mapping|
  {
    if mapping == [] then []
    else [VisitOf(mapping[0].0, mapping[0].1, fetch, forceImport)] + VisitsOf(mapping[1..], fetch, forceImport)
  }

  /** The visit of the entry at `i`. */
  lemma {:induction false} VisitAt(mapping: Mapping, fetch: string -> CswAnswer, forceImport: ForcedImport, i: nat)
    requires i < |mapping|
    ensures VisitsOf(mapping, fetch, forceImport)[i] == VisitOf(mapping[i].0, mapping[i].1, fetch, forceImport)
  {
    if i > 0 {
      VisitAt(mapping[1..], fetch, forceImport, i - 1);
    }
  }

  /**
   * One turn of the CSW loop: ask for the guid's record; an unreachable
   * service or a missing record stops the loop; a saved object is kept,
   * and stops the loop when the import left a reason for rejecting it or
   * raised.
   */
  function Turn(run: Run, url: string, packageId: string, guid: string, visit: Visit): Run {
    var requests := run.requests + [GetRecord(guid)];
    match visit
    case Down(exception) => run.(requests := requests, halt := Some(FetchFailed(packageId, url, exception)))
    case Absent => run.(requests := requests, halt := Some(RecordMissing(packageId, guid)))
    case Saved(obj, rejection) =>
      if Truthy(rejection) then
        Run(run.objects + [obj], requests, run.records, Some(ImportRejected(packageId, rejection.value)))
      else
        Run(run.objects + [obj], requests, Put(run.records, packageId, obj.content), None)
    case Crashed(obj, cause) => Run(run.objects + [obj], requests, run.records, Some(ImportRaised(packageId, cause)))
  }

  /** The CSW loop after the first `n` entries of the mapping, stopped by the first halt. */
  function RunOver(mapping: Mapping, visits: seq<Visit>, n: nat, url: string): Run
    requires n <= |mapping| == |visits|
  {
    if n == 0 then Run([], [], [], None)
    else
      var run := RunOver(mapping, visits, n - 1, url);
      if run.halt.Some? then run
      else Turn(run, url, mapping[n - 1].0, mapping[n - 1].1, visits[n - 1])
  }

  /** The whole CSW loop over a mapping. */
  function RunOf(mapping: Mapping, url: string, fetch: string -> CswAnswer,
                 forceImport: ForcedImport): Run
  {
    RunOver(mapping, VisitsOf(mapping, fetch, forceImport), |mapping|, url)
  }

  /**
   * The loop asks for the records in the mapping's order and stops at the
   * first halt, which concerns the package it asked for last; without a
   * halt it asked for every record.
   */
  lemma {:induction false} RunRequests(mapping: Mapping, visits: seq<Visit>, n: nat, url: string)
    requires n <= |mapping| == |visits|
    ensures var run := RunOver(mapping, visits, n, url);
      && |run.requests| <= n
      && (forall j :: 0 <= j < |run.requests| ==> run.requests[j] == GetRecord(mapping[j].1))
      && (run.halt.None? ==> |run.requests| == n)
      && (run.halt.Some? ==>
            && (run.halt.value.FetchFailed? || run.halt.value.RecordMissing? || run.halt.value.ImportRejected?
                || run.halt.value.ImportRaised?)
            && |run.requests| > 0 && run.halt.value.packageId == mapping[|run.requests| - 1].0)
  {
    if n > 0 {
      RunRequests(mapping, visits, n - 1, url);
      var before := RunOver(mapping, visits, n - 1, url);
      if before.halt.None? {
        var run := Turn(before, url, mapping[n - 1].0, mapping[n - 1].1, visits[n - 1]);
        TurnRequests(before, url, mapping[n - 1].0, mapping[n - 1].1, visits[n - 1]);
        AskedNext(mapping, before.requests);
      }
    }
  }

  /** Asking for the next entry's record keeps the requests in the mapping's order. */
  lemma AskedNext(mapping: Mapping, requests: seq<CswRequest>)
    requires |requests| < |mapping|
    requires forall j :: 0 <= j < |requests| ==> requests[j] == GetRecord(mapping[j].1)
    ensures var next := requests + [GetRecord(mapping[|requests|].1)];
      forall j :: 0 <= j < |next| ==> next[j] == GetRecord(mapping[j].1)
  {
  }

  /** A turn asks for its guid's record after the earlier ones, and any halt it makes concerns its package. */
  lemma TurnRequests(run: Run, url: string, packageId: string, guid: string, visit: Visit)
    ensures var next := Turn(run, url, packageId, guid, visit);
      && next.requests == run.requests + [GetRecord(guid)]
      && (next.halt.Some? ==>
            && (next.halt.value.FetchFailed? || next.halt.value.RecordMissing? || next.halt.value.ImportRejected?
                || next.halt.value.ImportRaised?)
            && next.halt.value.packageId == packageId)
  {
  }

  /**
   * A loop without a halt saved one object per entry, the one its visit
   * saved and the import did not reject; its records have exactly the keys
   * of the entries it went through, each with its object's record.
   */
  lemma {:induction false} RunSucceeded(mapping: Mapping, visits: seq<Visit>, n: nat, url: string)
    requires n <= |mapping| == |visits| && DistinctKeys(mapping)
    requires RunOver(mapping, visits, n, url).halt.None?
    ensures var run := RunOver(mapping, visits, n, url);
      && |run.objects| == n && |run.records| == n
      && (forall j :: 0 <= j < n ==>
            && visits[j].Saved? && run.objects[j] == visits[j].obj && !Truthy(visits[j].rejection)
            && run.records[j] == (mapping[j].0, run.objects[j].content))
      && MappingKeys(run.records) == MappingKeys(mapping[..n])
  {
    if n > 0 {
      var before := RunOver(mapping, visits, n - 1, url);
      assert before.halt.None?;
      var v := visits[n - 1];
      assert v.Saved? && !Truthy(v.rejection);
      RunSucceeded(mapping, visits, n - 1, url);
      PrefixKeys(mapping, n - 1);
      DistinctPrefix(mapping, n - 1);
      assert mapping[n - 1].0 !in MappingKeys(before.records);
      var run := RunOver(mapping, visits, n, url);
      assert run.objects == before.objects + [v.obj];
      assert run.records == before.records + [(mapping[n - 1].0, v.obj.content)];
      forall j | 0 <= j < n
        ensures visits[j].Saved? && run.objects[j] == visits[j].obj && !Truthy(visits[j].rejection)
        ensures run.records[j] == (mapping[j].0, run.objects[j].content)
      {
        if j < n - 1 {
          assert run.objects[j] == before.objects[j] && run.records[j] == before.records[j];
        }
      }
    }
  }

  /**
   * The whole loop, without a halt, saved one object per entry, for its
   * package and guid, holding the record the service returned and the
   * extras the import left on it, and not rejected by the import; its records have exactly the mapping's keys,
   * each with the record fetched for it.
   */
  lemma LoopSucceeded(mapping: Mapping, url: string, fetch: string -> CswAnswer,
                      forceImport: ForcedImport)
    requires DistinctKeys(mapping) && RunOf(mapping, url, fetch, forceImport).halt.None?
    ensures var run := RunOf(mapping, url, fetch, forceImport);
      && |run.objects| == |mapping| && |run.records| == |mapping|
      && (forall j :: 0 <= j < |mapping| ==>
            && run.objects[j].packageId == mapping[j].0 && run.objects[j].guid == mapping[j].1
            && fetch(mapping[j].1) == Record(run.objects[j].content)
            && forceImport(run.objects[j].(extras := REIMPORT_EXTRAS)) == Ok(run.objects[j].extras)
            && !Truthy(DatasetRejected(run.objects[j].extras))
            && run.records[j] == (mapping[j].0, run.objects[j].content))
      && MappingKeys(run.records) == MappingKeys(mapping)
  {
    var visits := VisitsOf(mapping, fetch, forceImport);
    var run := RunOver(mapping, visits, |mapping|, url);
    RunSucceeded(mapping, visits, |mapping|, url);
    forall j | 0 <= j < |mapping|
      ensures run.objects[j].packageId == mapping[j].0 && run.objects[j].guid == mapping[j].1
      ensures fetch(mapping[j].1) == Record(run.objects[j].content)
      ensures forceImport(run.objects[j].(extras := REIMPORT_EXTRAS)) == Ok(run.objects[j].extras)
      ensures !Truthy(DatasetRejected(run.objects[j].extras))
    {
      VisitAt(mapping, fetch, forceImport, j);
    }
    assert mapping[..|mapping|] == mapping;
  }

  /** The keys of a prefix one longer are those of the prefix and the next key. */
  lemma {:induction false} PrefixKeys(m: Mapping, n: nat)
    requires n < |m|
    ensures MappingKeys(m[..n + 1]) == MappingKeys(m[..n]) + {m[n].0}
    decreases n
  {
    if n > 0 {
      assert m[..n + 1][1..] == m[1..][..n];
      assert m[..n][1..] == m[1..][..n - 1];
      PrefixKeys(m[1..], n - 1);
    } else {
      assert m[..1][1..] == [];
    }
  }

  /** In a mapping with distinct keys, the key at `n` is none of the keys before it. */
  lemma {:induction false} DistinctPrefix(m: Mapping, n: nat)
    requires n < |m| && DistinctKeys(m)
    ensures m[n].0 !in MappingKeys(m[..n])
    decreases n
  {
    if n > 0 {
      assert m[..n][1..] == m[1..][..n - 1];
      DistinctPrefix(m[1..], n - 1);
      KeyInSuffix(m[1..], n - 1);
    }
  }

  /** A key that occurs at an index occurs among the mapping's keys. */
  lemma {:induction false} KeyInSuffix(m: Mapping, i: nat)
    requires i < |m|
    ensures m[i].0 in MappingKeys(m)
    decreases i
  {
    if i > 0 {
      KeyInSuffix(m[1..], i - 1);
    }
  }

  /** A loop that has halted after `k` entries ends as it is. */
  lemma HaltedRun(mapping: Mapping, visits: seq<Visit>, k: nat, url: string, run: Run)
    requires k <= |mapping| == |visits| && run == RunOver(mapping, visits, k, url) && run.halt.Some?
    ensures run == RunOver(mapping, visits, |mapping|, url)
  {
    HaltStays(mapping, visits, k, |mapping|, url);
  }

  /** Once the loop has halted, later entries change nothing. */
  lemma {:induction false} HaltStays(mapping: Mapping, visits: seq<Visit>, k: nat, n: nat, url: string)
    requires k <= n <= |mapping| == |visits| && RunOver(mapping, visits, k, url).halt.Some?
    ensures RunOver(mapping, visits, n, url) == RunOver(mapping, visits, k, url)
    decreases n - k
  {
    if k < n {
      assert RunOver(mapping, visits, k + 1, url) == RunOver(mapping, visits, k, url);
      HaltStays(mapping, visits, k + 1, n, url);
    }
  }

  /**
   * One package of the CSW loop: ask the service for the guid's record,
   * save it as a harvest object with the reimport extras, import it with
   * `force_import`, and keep the record unless the import rejected it or
   * raised.
   */
  method FetchOne(run: Run, url: string, packageId: string, guid: string, fetch: string -> CswAnswer,
                  forceImport: ForcedImport) returns (next: Run)
    requires run.halt.None?
    ensures next == Turn(run, url, packageId, guid, VisitOf(packageId, guid, fetch, forceImport))
  {
    next := run.(requests := run.requests + [GetRecord(guid)]);
    var answer := fetch(guid);
    if answer.Unreachable? {
      next := next.(halt := Some(FetchFailed(packageId, url, answer.exception)));
    } else if answer.NoRecord? {
      next := next.(halt := Some(RecordMissing(packageId, guid)));
    } else {
      var obj := ReimportObject(guid, answer.xml, packageId, REIMPORT_EXTRAS);
      var imported := forceImport(obj);
      if imported.Err? {
        next := next.(objects := next.objects + [obj], halt := Some(ImportRaised(packageId, imported.error)));
      } else {
        obj := obj.(extras := imported.value);
        next := next.(objects := next.objects + [obj]);
        var rejection := DatasetRejected(obj.extras);
        if Truthy(rejection) {
          next := next.(halt := Some(ImportRejected(packageId, rejection.value)));
        } else {
          next := next.(records := Put(next.records, packageId, answer.xml));
        }
      }
    }
  }

  /** A loop that has not halted takes its next turn with the next entry's visit. */
  lemma TurnStep(mapping: Mapping, fetch: string -> CswAnswer, forceImport: ForcedImport,
                 i: nat, url: string, run: Run, next: Run)
    requires i < |mapping| && run == RunOver(mapping, VisitsOf(mapping, fetch, forceImport), i, url) && run.halt.None?
    requires next == Turn(run, url, mapping[i].0, mapping[i].1, VisitOf(mapping[i].0, mapping[i].1, fetch, forceImport))
    ensures next == RunOver(mapping, VisitsOf(mapping, fetch, forceImport), i + 1, url)
  {
    VisitAt(mapping, fetch, forceImport, i);
  }

  method FetchAndImport(mapping: Mapping, url: string, fetch: string -> CswAnswer,
                        forceImport: ForcedImport) returns (run: Run)
    ensures run == RunOf(mapping, url, fetch, forceImport)
  {
    ghost var visits := VisitsOf(mapping, fetch, forceImport);
    run := Run([], [], [], None);
    var i := 0;
    while i < |mapping| && run.halt.None?
      invariant i <= |mapping| && run == RunOver(mapping, visits, i, url)
    {
      var next := FetchOne(run, url, mapping[i].0, mapping[i].1, fetch, forceImport);
      TurnStep(mapping, fetch, forceImport, i, url, run, next);
      run := next;
      i := i + 1;
    }
    if run.halt.Some? {
      HaltedRun(mapping, visits, i, url, run);
    }
  }

  // ---------------------------------------------------------------- batch

  /** What `reimport_batch` returns (the imported records by package id) or raises. */
  datatype Batch = Reimported(records: Mapping) | BatchFailed(failure: Failure)

  /** How a batch ends: with its records, or halted. */
  datatype End = Done(records: Mapping) | Halted(halt: Halt)

  /** What the caller of `reimport_batch` sees of an end. */
  function BatchResult(end: End): Batch {
    match end
    case Done(records) => Reimported(records)
    case Halted(h) => BatchFailed(Raised(h))
  }

  /** A batch's end, the harvest job it created (if it got that far) and the CSW requests it sent. */
  datatype BatchOutcome = BatchOutcome(end: End, job: Option<Job>, requests: seq<CswRequest>)

  /**
   * `reimport_batch(package_ids)`: the pre-flight checks; the FIS-Broker
   * harvest source, whose id the new job takes; a connection to the last
   * package's harvester URL (unbound when there were no ids); then the CSW
   * loop. The job is finished only when nothing stopped the loop.
   */
  function BatchOf(catalog: seq<Package>, ids: seq<string>, source: Option<HarvestSource>,
                   connect: string -> Option<string>, fetch: string -> CswAnswer,
                   forceImport: ForcedImport): (o: BatchOutcome)
    ensures o.job.Some? ==> (o.job.value.finished <==> o.end.Done?)
    ensures o.job.Some? || o.requests != [] ==>
      PreflightOf(catalog, ids, ByPackageId).Cleared? && source.Some? && o.job.Some?
      && o.job.value.sourceId == source.value.id
    ensures o.end.Done? ==> o.job.Some?
  {
    match PreflightOf(catalog, ids, ByPackageId)
    case Refused(step, at) => BatchOutcome(Halted(CheckFailed(step, at)), None, [])
    case Cleared(harvesterUrl, mapping) =>
      if source.None? then BatchOutcome(Halted(NoSource), None, [])
      else
        var job := Job(source.value.id, [], false);
        if harvesterUrl.None? then BatchOutcome(Halted(NoUrl), Some(job), [])
        else
          var url := harvesterUrl.value;
          match connect(url)
          case Some(exception) => BatchOutcome(Halted(ConnectFailed(url, exception)), Some(job), [Connect(url)])
          case None =>
            var run := RunOf(mapping, url, fetch, forceImport);
            if run.halt.Some? then
              BatchOutcome(Halted(run.halt.value), Some(job.(objects := run.objects)), [Connect(url)] + run.requests)
            else
              BatchOutcome(Done(run.records), Some(Job(source.value.id, run.objects, true)), [Connect(url)] + run.requests)
  }

  /**
   * A batch refused by its pre-flight checks stops at the first id that
   * fails them, every id before it having passed, and has neither created
   * a job nor contacted the service.
   */
  lemma BatchRefused(catalog: seq<Package>, ids: seq<string>, source: Option<HarvestSource>,
                     connect: string -> Option<string>, fetch: string -> CswAnswer,
                     forceImport: ForcedImport)
    requires PreflightOf(catalog, ids, ByPackageId).Refused?
    ensures var o := BatchOf(catalog, ids, source, connect, fetch, forceImport);
      && o.job.None? && o.requests == []
      && exists i :: 0 <= i < |ids| && CheckPackage(catalog, ids[i]).Stopped?
                     && o.end == Halted(CheckFailed(CheckPackage(catalog, ids[i]).failed, ids[i]))
                     && forall j :: 0 <= j < i ==> CheckPackage(catalog, ids[j]).Passed?
  {
    RefusedAtFirstFailure(catalog, ids, ByPackageId);
  }

  /**
   * A batch that succeeds passed every id's checks; its records have a key
   * for each package id and no other, and its finished job holds one
   * object per record.
   */
  lemma BatchReimported(catalog: seq<Package>, ids: seq<string>, source: Option<HarvestSource>,
                        connect: string -> Option<string>, fetch: string -> CswAnswer,
                        forceImport: ForcedImport)
    requires BatchOf(catalog, ids, source, connect, fetch, forceImport).end.Done?
    ensures var o := BatchOf(catalog, ids, source, connect, fetch, forceImport);
      && (forall i :: 0 <= i < |ids| ==> CheckPackage(catalog, ids[i]).Passed?)
      && MappingKeys(o.end.records) == KeysOf(catalog, ids, ByPackageId)
      && o.job.value.finished && |o.job.value.objects| == |o.end.records|
  {
    var p := PreflightOf(catalog, ids, ByPackageId);
    ClearedAllPassed(catalog, ids, ByPackageId);
    var url := p.url.value;
    LoopSucceeded(p.mapping, url, fetch, forceImport);
  }

  /**
   * `reimport_batch`: runs the pre-flight checks, creates a harvest job for
   * the FIS-Broker source, connects to the service and runs the CSW loop,
   * finishing the job when nothing stopped it.
   */
  method ReimportBatch(site: Site, ids: seq<string>, source: Option<HarvestSource>,
                       connect: string -> Option<string>, fetch: string -> CswAnswer,
                       forceImport: ForcedImport) returns (end: End)
    modifies site
    ensures var o := BatchOf(old(site.catalog), ids, source, connect, fetch, forceImport);
      && end == o.end
      && site.jobs == old(site.jobs) + (if o.job.Some? then [o.job.value] else [])
      && site.requests == old(site.requests) + o.requests
    ensures site.catalog == old(site.catalog) && site.deleted == old(site.deleted)
  {
    var p := CheckAll(site.catalog, ids, ByPackageId);
    var job: Option<Job> := None;
    var sent: seq<CswRequest> := [];
    if p.Refused? {
      end := Halted(CheckFailed(p.failed, p.at));
    } else if source.None? {
      end := Halted(NoSource);
    } else {
      var created := Job(source.value.id, [], false);
      job := Some(created);
      if p.url.None? {
        end := Halted(NoUrl);
      } else {
        var url := p.url.value;
        sent := [Connect(url)];
        var exception := connect(url);
        if exception.Some? {
          end := Halted(ConnectFailed(url, exception.value));
        } else {
          var run := FetchAndImport(p.mapping, url, fetch, forceImport);
          sent := sent + run.requests;
          if run.halt.Some? {
            job := Some(created.(objects := run.objects));
            end := Halted(run.halt.value);
          } else {
            job := Some(created.(objects := run.objects, finished := true));
            end := Done(run.records);
          }
        }
      }
    }
    if job.Some? {
      site.jobs := site.jobs + [job.value];
    }
    site.requests := site.requests + sent;
  }

  // ------------------------------------------------------------- reimport

  /** What `reimport` appends to the message of an import error, as the source file spells it. */
  const DEACTIVATED := " \U{e2}\U{20ac}\U{201c} Package will be deactivated."

  /** An error response of `reimport`, which always names the package. */
  function ErrorResponse(status: int, body: ErrorBody, packageId: string): Response {
    Response(status, Flag(false), None, Some(body), Some(packageId))
  }

  /**
   * The `except` clause of `reimport` that catches an error, as the status,
   * code and format arguments it answers with; an `Unexpected` error is
   * caught by none of them.
   */
  function HandlingOf(e: ReimportError): (h: Option<Handling>)
    ensures h.Some? <==> !e.kind.Unexpected?
    ensures h.Some? ==> Handles(h.value) && h.value.status in {200, 404, 422, 500}
  {
    match e.kind
    case PackageNotHarvestedInFisbroker => Some(Handling(422, ERROR_NOT_HARVESTED_BY_FISBROKER, None))
    case PackageNotHarvested => Some(Handling(422, ERROR_NOT_HARVESTED, None))
    case NoFisbrokerId => Some(Handling(500, ERROR_NO_GUID, None))
    case NoConnection(serviceUrl) => Some(Handling(500, ERROR_NO_CONNECTION, Some([serviceUrl, "NoConnectionError"])))
    case NotFoundInFisbroker(fbGuid) => Some(Handling(404, ERROR_NOT_FOUND_IN_FISBROKER, Some([fbGuid])))
    case PackageIdDoesNotExist => Some(Handling(404, ERROR_NOT_FOUND_IN_CKAN, Some([IdText(e.packageId)])))
    case DuringImport(reason) => Some(Handling(200, ERROR_DURING_IMPORT, Some([reason])))
    case Unexpected => None
  }

  /**
   * `reimport(package_id)` after its batch of one: success, or the status
   * and error body each exception is mapped to; an import error keeps
   * status 200 and gets the deactivation notice. An exception that is not
   * mapped escapes.
   */
  function ResponseOf(packageId: string, batch: Batch): (r: Reply)
    ensures r.Answered? ==> r.response.packageId == Some(packageId) && r.response.status in {200, 404, 422, 500}
    ensures r.Answered? && r.response.success == Flag(true) <==> batch.Reimported?
    ensures r.Escaped? <==>
      batch.BatchFailed? && (!batch.failure.Reimport? || batch.failure.error.kind == Unexpected)
  {
    match batch
    case Reimported(_) => Answered(Response(200, Flag(true), Some(REIMPORTED), None, Some(packageId)))
    case BatchFailed(failure) =>
      if !failure.Reimport? || HandlingOf(failure.error).None? then Escaped(failure)
      else
        var h := HandlingOf(failure.error).value;
        var body := HandledError(h);
        var message := if failure.error.kind.DuringImport? then body.message + DEACTIVATED else body.message;
        Answered(ErrorResponse(h.status, body.(message := message), packageId))
  }

  /**
   * `reimport` as written: the `NoConnectionError` branch reads
   * `error.service_url`, which that exception never sets, so the branch
   * raises `AttributeError` instead of answering.
   */
  function ResponseAsWritten(packageId: string, batch: Batch): (r: Reply)
    ensures r.Escaped? <==>
      batch.BatchFailed? && (!batch.failure.Reimport? || batch.failure.error.kind == Unexpected
                             || batch.failure.error.kind.NoConnection?)
    ensures r.Answered? ==> r == ResponseOf(packageId, batch)
  {
    if batch.BatchFailed? && batch.failure.Reimport? && batch.failure.error.kind.NoConnection? then
      Escaped(Python(AttributeError("service_url")))
    else ResponseOf(packageId, batch)
  }

  /**
   * The answer the `NoConnectionError` handler of `reimport` means to give:
   * 500, with the message for no connection naming the service URL and the
   * exception's class.
   */
  function NoConnectionResponse(packageId: string, url: string): (r: Response)
    ensures r.status == 500 && r.success == Flag(false) && r.packageId == Some(packageId)
    ensures r.error.Some? && r.error.value.code == ERROR_NO_CONNECTION
    ensures Fill(MSG_NO_CONNECTION, [url, "NoConnectionError"]) == Ok(r.error.value.message)
  {
    ErrorResponse(500, FormattedError(ERROR_NO_CONNECTION, [url, "NoConnectionError"]), packageId)
  }

  /** A package whose harvester cannot be reached makes `reimport` as written raise instead of answering 500. */
  lemma NoConnectionEscapes(packageId: string, url: string, exception: string)
    ensures var b := BatchResult(Halted(ConnectFailed(url, exception)));
      && ResponseAsWritten(packageId, b) == Escaped(Python(AttributeError("service_url")))
      && ResponseOf(packageId, b) == Answered(NoConnectionResponse(packageId, url))
  {
    var e := NoConnectionError(None, url, exception);
    assert Raised(ConnectFailed(url, exception)) == Reimport(e);
    assert HandlingOf(e) == Some(Handling(500, ERROR_NO_CONNECTION, Some([url, "NoConnectionError"])));
  }

  /** A reachable batch of one that fails to connect: a FIS-Broker package with a guid, a source, and no service. */
  lemma ConnectFailureReachable()
    ensures var source := HarvestSource(Some("s1"), "http://fb", HARVESTER_ID);
      var catalog := [Package("p1", "p1", "", "active", Some([Extra("guid", "g1")]), [source])];
      BatchOf(catalog, ["p1"], Some(source), _ => Some("ConnectionError"), _ => NoRecord,
              (o: ReimportObject) => Ok(o.extras)).end == Halted(ConnectFailed("http://fb", "ConnectionError"))
  {
    var source := HarvestSource(Some("s1"), "http://fb", HARVESTER_ID);
    var catalog := [Package("p1", "p1", "", "active", Some([Extra("guid", "g1")]), [source])];
    assert PackageGet(catalog, "p1") == Some(catalog[0]);
    assert GuidOf(catalog[0].extras) == Some("g1");
    assert CheckPackage(catalog, "p1") == Passed(catalog[0], "http://fb", "g1");
    var checks := ChecksOf(catalog, ["p1"]);
    assert checks == [Passed(catalog[0], "http://fb", "g1")];
    assert PreflightOver(["p1"], checks, 0, ByPackageId) == Cleared(None, []);
    assert PreflightOf(catalog, ["p1"], ByPackageId) == Cleared(Some("http://fb"), [("p1", "g1")]);
  }

  /**
   * A package refused by its checks gets the status of its check (404 when
   * it does not exist, 422 when it was not harvested by FIS-Broker, 500
   * without a guid) and the exception's own code and message.
   */
  lemma RefusalResponse(packageId: string, step: Step, at: string)
    ensures var e := StepError(step, at);
      ResponseOf(packageId, BatchFailed(Raised(CheckFailed(step, at))))
        == Answered(ErrorResponse(if step.Missing? then 404 else if step.NoGuid? then 500 else 422,
                                  ErrorBody(e.message, e.errorCode), packageId))
  {
    assert Raised(CheckFailed(step, at)) == Reimport(StepError(step, at));
    match step
    case Missing =>
    case NotHarvested => FillWithFieldsIsText(MSG_NOT_HARVESTED, []);
    case OtherHarvester => FillWithFieldsIsText(MSG_NOT_HARVESTED_BY_FISBROKER, []);
    case NoGuid => FillWithFieldsIsText(MSG_NO_GUID, []);
  }

  /**
   * A batch that lost the service while asking for a package's record
   * makes `reimport` as written raise `AttributeError`; the corrected
   * response is 500 with the code for no connection, naming the
   * `NoConnectionError` it raised rather than the package.
   */
  lemma FetchFailedResponse(packageId: string, at: string, url: string, exception: string)
    ensures ResponseAsWritten(packageId, BatchFailed(Raised(FetchFailed(at, url, exception))))
      == Escaped(Python(AttributeError("service_url")))
    ensures ResponseOf(packageId, BatchFailed(Raised(FetchFailed(at, url, exception))))
      == Answered(NoConnectionResponse(packageId, url))
  {
    var e := NoConnectionError(Some(at), url, exception);
    assert Raised(FetchFailed(at, url, exception)) == Reimport(e);
    assert HandlingOf(e) == Some(Handling(500, ERROR_NO_CONNECTION, Some([url, "NoConnectionError"])));
  }

  /**
   * A batch that found no record for a package's guid answers 404 with the
   * code and the message of the `NotFoundInFisbrokerError` it raised.
   */
  lemma MissingRecordResponse(packageId: string, at: string, guid: string)
    ensures var e := NotFoundInFisbrokerError(Some(at), guid);
      ResponseOf(packageId, BatchFailed(Raised(RecordMissing(at, guid))))
        == Answered(ErrorResponse(404, ErrorBody(e.message, e.errorCode), packageId))
  {
  }

  /**
   * A batch whose import rejected a package answers 200, with the code of
   * the `FBImportError` it raised and its message followed by the notice
   * that the package will be deactivated.
   */
  lemma RejectedResponse(packageId: string, at: string, reason: string)
    ensures var e := FBImportError(Some(at), reason);
      ResponseOf(packageId, BatchFailed(Raised(ImportRejected(at, reason))))
        == Answered(ErrorResponse(200, ErrorBody(e.message + DEACTIVATED, e.errorCode), packageId))
  {
    var e := FBImportError(Some(at), reason);
    assert Raised(ImportRejected(at, reason)) == Reimport(e);
    assert HandlingOf(e) == Some(Handling(200, ERROR_DURING_IMPORT, Some([reason])));
  }

  /** The halts that raise `NoConnectionError`: the service was lost before or during the CSW loop. */
  predicate LostService(h: Halt) {
    h.ConnectFailed? || h.FetchFailed?
  }

  /**
   * `reimport` of one package as written answers every request, except
   * when the package passes its checks and no FIS-Broker harvest source
   * exists, when the service is lost, or when the forced import raises;
   * the corrected response also answers the lost service.
   */
  lemma ReimportAnswers(catalog: seq<Package>, packageId: string, source: Option<HarvestSource>,
                        connect: string -> Option<string>, fetch: string -> CswAnswer,
                        forceImport: ForcedImport)
    ensures var o := BatchOf(catalog, [packageId], source, connect, fetch, forceImport);
      ResponseAsWritten(packageId, BatchResult(o.end)).Escaped? <==>
        || (CheckPackage(catalog, packageId).Passed? && source.None?)
        || (o.end.Halted? && (LostService(o.end.halt) || o.end.halt.ImportRaised?))
    ensures var o := BatchOf(catalog, [packageId], source, connect, fetch, forceImport);
      ResponseOf(packageId, BatchResult(o.end)).Escaped? <==>
        || (CheckPackage(catalog, packageId).Passed? && source.None?)
        || (o.end.Halted? && o.end.halt.ImportRaised?)
  {
    CorrectedAnswers(catalog, packageId, source, connect, fetch, forceImport);
  }

  /**
   * The corrected response escapes only for a package that passes its
   * checks when no FIS-Broker source exists, or when the forced import
   * raises.
   */
  lemma CorrectedAnswers(catalog: seq<Package>, packageId: string, source: Option<HarvestSource>,
                         connect: string -> Option<string>, fetch: string -> CswAnswer,
                         forceImport: ForcedImport)
    ensures var o := BatchOf(catalog, [packageId], source, connect, fetch, forceImport);
      ResponseOf(packageId, BatchResult(o.end)).Escaped? <==>
        || (CheckPackage(catalog, packageId).Passed? && source.None?)
        || (o.end.Halted? && o.end.halt.ImportRaised?)
  {
    var p := PreflightOf(catalog, [packageId], ByPackageId);
    if p.Refused? {
      RefusedAtFirstFailure(catalog, [packageId], ByPackageId);
    } else {
      ClearedAllPassed(catalog, [packageId], ByPackageId);
      if source.Some? && connect(p.url.value).None? {
        RunRequests(p.mapping, VisitsOf(p.mapping, fetch, forceImport), |p.mapping|, p.url.value);
      }
    }
  }

  /**
   * `reimport(package_id)`: reimports the package as a batch of one and
   * answers with the response its outcome maps to, as written (a lost
   * service escapes as `AttributeError`, an exception of the forced import
   * escapes as it is); a package the import rejected is deleted.
   */
  method ReimportPackage(site: Site, packageId: string, source: Option<HarvestSource>,
                         connect: string -> Option<string>, fetch: string -> CswAnswer,
                         forceImport: ForcedImport) returns (reply: Reply)
    modifies site
    ensures var o := BatchOf(old(site.catalog), [packageId], source, connect, fetch, forceImport);
      && reply == ResponseAsWritten(packageId, BatchResult(o.end))
      && site.jobs == old(site.jobs) + (if o.job.Some? then [o.job.value] else [])
      && site.requests == old(site.requests) + o.requests
      && site.deleted == old(site.deleted) + (if o.end.Halted? && o.end.halt.ImportRejected? then [packageId] else [])
    ensures site.catalog == old(site.catalog)
  {
    var end := ReimportBatch(site, [packageId], source, connect, fetch, forceImport);
    var batch := BatchResult(end);
    if batch.BatchFailed? && batch.failure.Reimport? && batch.failure.error.kind.DuringImport? {
      site.deleted := site.deleted + [packageId];
    }
    reply := ResponseAsWritten(packageId, batch);
  }
}
